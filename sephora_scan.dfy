/** The scan of extract_brands_from_scripts_aggressive_json in sephora.py.

    BeautifulSoup, the regular expression `(\{.*?\})|(\[.*?\])` and json.loads
    are not modelled: each script tag is given as its text together with
    what json.loads made of each substring the regular expression matched,
    in match order (None where json.loads raised). */
module SephoraScan {
  import opened JsonModel
  import opened SephoraSearch

  /** A row of the result: the "Marka" (brand) and "Urun Adedi" (hitCount)
      entries of the dict built on sephora.py lines 111-114. The count is
      the JSON value itself, an int or a bool. */
  datatype BrandRow = BrandRow(brand: string, hitCount: Json)

  /** The successful result: (brands_data, fieldnames). */
  datatype BrandTable = BrandTable(rows: seq<BrandRow>, headers: seq<string>)

  /** A script tag: its text, and the parse result of each candidate. */
  datatype Script = Script(text: string, candidates: seq<Option<Json>>)

  /** scripts_checked_for_json, json_structures_found, json_structures_parsed */
  datatype ScanStats = ScanStats(scriptsChecked: nat, structuresFound: nat, structuresParsed: nat)

  const FieldNames: seq<string> := ["Marka", "Urun Adedi"]

  // ---------------------------------------------------------------------
  // Item validation (sephora.py lines 107-115)

  /** A dict with a str "label" and an int (or bool) "hitCount". */
  predicate IsBrandItem(item: Json)
  {
    && item.JObj?
    && Get(item.fields, "label").Some?
    && Get(item.fields, "label").value.JStr?
    && Get(item.fields, "hitCount").Some?
    && IsPyInt(Get(item.fields, "hitCount").value)
  }

  function RowOf(item: Json): BrandRow
    requires IsBrandItem(item)
  {
    BrandRow(Get(item.fields, "label").value.s, Get(item.fields, "hitCount").value)
  }

  /** The rows the item loop appends to temp_brands_in_script. */
  function ValidRows(items: seq<Json>): seq<BrandRow>
  {
    if items == [] then []
    else
      var rest := ValidRows(items[..|items| - 1]);
      var last := items[|items| - 1];
      if IsBrandItem(last) then rest + [RowOf(last)] else rest
  }

  /** Reference definition: the positions of the valid items, ascending. */
  function ValidPositions(items: seq<Json>): seq<nat>
  {
    if items == [] then []
    else
      var rest := ValidPositions(items[..|items| - 1]);
      if IsBrandItem(items[|items| - 1]) then rest + [|items| - 1] else rest
  }

  /** The rows are exactly the valid items, each converted, in their order:
      the k-th row comes from the k-th valid item, positions ascend, and
      every valid item has its position listed. */
  lemma {:induction false} ValidRowsAreValidItemsInOrder(items: seq<Json>)
    ensures |ValidRows(items)| == |ValidPositions(items)|
    ensures forall p :: 0 <= p < |ValidPositions(items)| ==>
      ValidPositions(items)[p] < |items| && IsBrandItem(items[ValidPositions(items)[p]]) &&
      ValidRows(items)[p] == RowOf(items[ValidPositions(items)[p]])
    ensures forall p, q :: 0 <= p < q < |ValidPositions(items)| ==>
      ValidPositions(items)[p] < ValidPositions(items)[q]
    ensures forall i :: 0 <= i < |items| && IsBrandItem(items[i]) ==> i in ValidPositions(items)
  {
    if items != [] {
      var init := items[..|items| - 1];
      ValidRowsAreValidItemsInOrder(init);
      assert forall i :: 0 <= i < |init| ==> items[i] == init[i];
    }
  }

  /** Every row comes from some valid item, and every valid item gives a row. */
  lemma RowsComeFromValidItems(items: seq<Json>)
    ensures forall r :: r in ValidRows(items) <==>
      exists i :: 0 <= i < |items| && IsBrandItem(items[i]) && RowOf(items[i]) == r
  {
    ValidRowsAreValidItemsInOrder(items);
    var pos := ValidPositions(items);
    forall r | r in ValidRows(items)
      ensures exists i :: 0 <= i < |items| && IsBrandItem(items[i]) && RowOf(items[i]) == r
    {
      var p :| 0 <= p < |ValidRows(items)| && ValidRows(items)[p] == r;
      assert IsBrandItem(items[pos[p]]) && RowOf(items[pos[p]]) == r;
    }
    forall i | 0 <= i < |items| && IsBrandItem(items[i]) ensures RowOf(items[i]) in ValidRows(items) {
      var p :| 0 <= p < |pos| && pos[p] == i;
      assert ValidRows(items)[p] == RowOf(items[i]);
    }
  }

  /** The item loop of sephora.py lines 105-115. */
  method ValidBrandRows(brandValues: seq<Json>) returns (temp: seq<BrandRow>, processed: nat)
    ensures temp == ValidRows(brandValues)
    ensures processed == |temp|
  {
    temp, processed := [], 0;
    for k := 0 to |brandValues|
      invariant temp == ValidRows(brandValues[..k])
      invariant processed == |temp|
    {
      assert brandValues[..k + 1][..k] == brandValues[..k];
      var item := brandValues[k];
      if IsBrandItem(item) {
        temp := temp + [RowOf(item)];
        processed := processed + 1;
      }
    }
    assert brandValues[..|brandValues|] == brandValues;
  }

  // ---------------------------------------------------------------------
  // First-wins merging by label (sephora.py lines 120-126)

  function Labels(rows: seq<BrandRow>): set<string>
  {
    set r | r in rows :: r.brand
  }

  predicate DistinctLabels(rows: seq<BrandRow>)
  {
    forall p, q :: 0 <= p < q < |rows| ==> rows[p].brand != rows[q].brand
  }

  lemma LabelsAppend(rows: seq<BrandRow>, r: BrandRow)
    ensures Labels(rows + [r]) == Labels(rows) + {r.brand}
  {
    assert forall x :: x in rows + [r] <==> x in rows || x == r;
  }

  /** brands_data after the loop appended each entry of `incoming` whose
      label was not yet among the labels of the rows so far. */
  function AddUnique(existing: seq<BrandRow>, incoming: seq<BrandRow>): seq<BrandRow>
  {
    if incoming == [] then existing
    else
      var sofar := AddUnique(existing, incoming[..|incoming| - 1]);
      var entry := incoming[|incoming| - 1];
      if entry.brand in Labels(sofar) then sofar else sofar + [entry]
  }

  /** The position of the first row with label `l`. */
  function FirstLabelIndex(rows: seq<BrandRow>, l: string): (i: nat)
    requires l in Labels(rows)
    ensures i < |rows| && rows[i].brand == l
    ensures forall k :: 0 <= k < i ==> rows[k].brand != l
  {
    if rows[0].brand == l then 0
    else
      assert l in Labels(rows[1..]) by {
        var r :| r in rows && r.brand == l;
        assert r in rows[1..];
      }
      var i := FirstLabelIndex(rows[1..], l);
      assert forall k :: 1 <= k <= i ==> rows[k] == rows[1..][k - 1];
      i + 1
  }

  lemma FirstLabelIndexAppend(rows: seq<BrandRow>, r: BrandRow, l: string)
    requires l in Labels(rows)
    ensures l in Labels(rows + [r]) && FirstLabelIndex(rows + [r], l) == FirstLabelIndex(rows, l)
  {
    LabelsAppend(rows, r);
    var i, j := FirstLabelIndex(rows + [r], l), FirstLabelIndex(rows, l);
    assert (rows + [r])[j] == rows[j];
  }

  /** Merging keeps the existing rows, keeps labels unique, and loses no
      label: the result's labels are the old ones and the incoming ones. */
  lemma {:induction false} AddUniqueKeepsLabelsUnique(existing: seq<BrandRow>, incoming: seq<BrandRow>)
    requires DistinctLabels(existing)
    ensures existing <= AddUnique(existing, incoming)
    ensures DistinctLabels(AddUnique(existing, incoming))
    ensures Labels(AddUnique(existing, incoming)) == Labels(existing) + Labels(incoming)
  {
    if incoming != [] {
      var init, entry := incoming[..|incoming| - 1], incoming[|incoming| - 1];
      AddUniqueKeepsLabelsUnique(existing, init);
      var sofar := AddUnique(existing, init);
      assert incoming == init + [entry];
      LabelsAppend(init, entry);
      if entry.brand !in Labels(sofar) {
        LabelsAppend(sofar, entry);
        forall p | 0 <= p < |sofar| ensures sofar[p].brand != entry.brand {
          assert sofar[p] in sofar;
        }
      }
    }
  }

  /** `r` is the first row of `rows` with its label. */
  predicate IsFirstOf(rows: seq<BrandRow>, r: BrandRow)
  {
    r.brand in Labels(rows) && r == rows[FirstLabelIndex(rows, r.brand)]
  }

  lemma FirstOfAppend(rows: seq<BrandRow>, entry: BrandRow, r: BrandRow)
    requires IsFirstOf(rows, r)
    ensures IsFirstOf(rows + [entry], r)
    ensures FirstLabelIndex(rows + [entry], r.brand) == FirstLabelIndex(rows, r.brand) < |rows|
  {
    FirstLabelIndexAppend(rows, entry, r.brand);
  }

  lemma FirstOfNew(rows: seq<BrandRow>, entry: BrandRow)
    requires entry.brand !in Labels(rows)
    ensures IsFirstOf(rows + [entry], entry)
    ensures FirstLabelIndex(rows + [entry], entry.brand) == |rows|
  {
    LabelsAppend(rows, entry);
  }

  /** First occurrence wins: every row the merge adds is the first incoming
      row with its label (a later row with that label, whatever its count,
      is ignored), and its label was not among the existing rows. */
  lemma {:induction false} AddUniqueKeepsFirst(existing: seq<BrandRow>, incoming: seq<BrandRow>)
    requires DistinctLabels(existing)
    ensures forall p :: |existing| <= p < |AddUnique(existing, incoming)| ==>
      AddUnique(existing, incoming)[p].brand !in Labels(existing) &&
      IsFirstOf(incoming, AddUnique(existing, incoming)[p])
  {
    AddUniqueKeepsLabelsUnique(existing, incoming);
    if incoming != [] {
      var init, entry := incoming[..|incoming| - 1], incoming[|incoming| - 1];
      assert incoming == init + [entry];
      AddUniqueKeepsFirst(existing, init);
      AddUniqueKeepsLabelsUnique(existing, init);
      var sofar := AddUnique(existing, init);
      forall p | |existing| <= p < |sofar| ensures IsFirstOf(incoming, sofar[p]) {
        FirstOfAppend(init, entry, sofar[p]);
      }
      if entry.brand !in Labels(sofar) {
        FirstOfNew(init, entry);
      }
    }
  }

  /** The rows the merge adds are in the order in which their labels first
      appear among the incoming rows. */
  lemma {:induction false} AddUniqueKeepsOrder(existing: seq<BrandRow>, incoming: seq<BrandRow>)
    requires DistinctLabels(existing)
    ensures forall p, q :: |existing| <= p < q < |AddUnique(existing, incoming)| ==>
      var rp, rq := AddUnique(existing, incoming)[p], AddUnique(existing, incoming)[q];
      rp.brand in Labels(incoming) && rq.brand in Labels(incoming) &&
      FirstLabelIndex(incoming, rp.brand) < FirstLabelIndex(incoming, rq.brand)
  {
    AddUniqueKeepsFirst(existing, incoming);
    if incoming != [] {
      var init, entry := incoming[..|incoming| - 1], incoming[|incoming| - 1];
      assert incoming == init + [entry];
      AddUniqueKeepsOrder(existing, init);
      AddUniqueKeepsFirst(existing, init);
      AddUniqueKeepsLabelsUnique(existing, init);
      var sofar := AddUnique(existing, init);
      forall p | |existing| <= p < |sofar|
        ensures FirstLabelIndex(incoming, sofar[p].brand) == FirstLabelIndex(init, sofar[p].brand) < |init|
      {
        FirstOfAppend(init, entry, sofar[p]);
      }
      if entry.brand !in Labels(sofar) {
        FirstOfNew(init, entry);
      }
    }
  }

  /** The loop of sephora.py lines 120-126: current_brand_labels starts as
      the labels of brands_data and grows with every appended entry. */
  method MergeUnique(brandsData: seq<BrandRow>, temp: seq<BrandRow>) returns (merged: seq<BrandRow>)
    ensures merged == AddUnique(brandsData, temp)
  {
    var currentLabels := set d | d in brandsData :: d.brand;
    merged := brandsData;
    for k := 0 to |temp|
      invariant merged == AddUnique(brandsData, temp[..k])
      invariant currentLabels == Labels(merged)
    {
      assert temp[..k + 1][..k] == temp[..k];
      var entry := temp[k];
      if entry.brand !in currentLabels {
        LabelsAppend(merged, entry);
        merged := merged + [entry];
        currentLabels := currentLabels + {entry.brand};
      }
    }
    assert temp[..|temp|] == temp;
  }

  // ---------------------------------------------------------------------
  // The scan over scripts and candidates (sephora.py lines 76-150)

  /** The candidates a script contributes: an empty script is skipped. */
  function ScriptCandidates(s: Script): seq<Option<Json>>
  {
    if s.text == "" then [] else s.candidates
  }

  /** All candidates, in script order and then match order. */
  function Candidates(scripts: seq<Script>): seq<Option<Json>>
  {
    if scripts == [] then []
    else Candidates(scripts[..|scripts| - 1]) + ScriptCandidates(scripts[|scripts| - 1])
  }

  lemma {:induction false} CandidatesAppend(a: seq<Script>, b: seq<Script>)
    ensures Candidates(a + b) == Candidates(a) + Candidates(b)
    decreases |b|
  {
    if b == [] {
      assert a + b == a;
    } else {
      var b' := b[..|b| - 1];
      assert (a + b)[..|a + b| - 1] == a + b';
      CandidatesAppend(a, b');
    }
  }

  /** The valid rows a candidate yields: [] when it did not parse, when it
      holds no c_brand block, or when the block has no valid item. */
  function Yield(c: Option<Json>): seq<BrandRow>
  {
    match c
    case None => []
    case Some(j) =>
      match FindBrands(j)
      case None => []
      case Some(values) => ValidRows(values)
  }

  /** The rows of the first candidate that yields at least one. */
  function FirstYield(cs: seq<Option<Json>>): seq<BrandRow>
  {
    if cs == [] then []
    else if Yield(cs[0]) != [] then Yield(cs[0])
    else FirstYield(cs[1..])
  }

  lemma {:induction false} FirstYieldAppend(a: seq<Option<Json>>, b: seq<Option<Json>>)
    ensures FirstYield(a + b) == if FirstYield(a) != [] then FirstYield(a) else FirstYield(b)
  {
    if a != [] {
      assert (a + b)[1..] == a[1..] + b;
      FirstYieldAppend(a[1..], b);
    } else {
      assert a + b == b;
    }
  }

  /** The result of extract_brands_from_scripts_aggressive_json. */
  function Scan(scripts: seq<Script>): Option<BrandTable>
  {
    var rows := FirstYield(Candidates(scripts));
    if rows == [] then None else Some(BrandTable(AddUnique([], rows), FieldNames))
  }

  function NonEmptyScripts(scripts: seq<Script>): nat
  {
    if scripts == [] then 0
    else NonEmptyScripts(scripts[..|scripts| - 1]) + (if scripts[|scripts| - 1].text == "" then 0 else 1)
  }

  function ParsedCount(cs: seq<Option<Json>>): (n: nat)
    ensures n <= |cs|
  {
    if cs == [] then 0 else ParsedCount(cs[..|cs| - 1]) + (if cs[|cs| - 1].Some? then 1 else 0)
  }

  lemma {:induction false} ParsedCountAppend(a: seq<Option<Json>>, b: seq<Option<Json>>)
    ensures ParsedCount(a + b) == ParsedCount(a) + ParsedCount(b)
    decreases |b|
  {
    if b == [] {
      assert a + b == a;
    } else {
      var b' := b[..|b| - 1];
      assert (a + b)[..|a + b| - 1] == a + b';
      ParsedCountAppend(a, b');
    }
  }

  /** What one more candidate does to the first yield and the parse count. */
  lemma CandidateStep(pre: seq<Option<Json>>, c: Option<Json>)
    ensures FirstYield(pre + [c]) == if FirstYield(pre) != [] then FirstYield(pre) else Yield(c)
    ensures ParsedCount(pre + [c]) == ParsedCount(pre) + (if c.Some? then 1 else 0)
  {
    FirstYieldAppend(pre, [c]);
    assert [c][1..] == [];
    assert (pre + [c])[..|pre|] == pre;
  }

  /** What one more script does to the candidates, the first yield, the
      parse count and the count of non-empty scripts. */
  lemma ScriptStep(scripts: seq<Script>, i: nat)
    requires i < |scripts|
    ensures Candidates(scripts[..i + 1]) == Candidates(scripts[..i]) + ScriptCandidates(scripts[i])
    ensures NonEmptyScripts(scripts[..i + 1]) ==
      NonEmptyScripts(scripts[..i]) + (if scripts[i].text == "" then 0 else 1)
    ensures FirstYield(Candidates(scripts[..i])) == [] ==>
      FirstYield(Candidates(scripts[..i + 1])) == FirstYield(ScriptCandidates(scripts[i]))
    ensures ParsedCount(Candidates(scripts[..i + 1])) ==
      ParsedCount(Candidates(scripts[..i])) + ParsedCount(ScriptCandidates(scripts[i]))
  {
    assert scripts[..i + 1][..i] == scripts[..i];
    FirstYieldAppend(Candidates(scripts[..i]), ScriptCandidates(scripts[i]));
    ParsedCountAppend(Candidates(scripts[..i]), ScriptCandidates(scripts[i]));
  }

  /** A script whose candidates yield rows, after scripts that yield none,
      decides the scan. */
  lemma HitEndsScan(scripts: seq<Script>, i: nat)
    requires i < |scripts|
    requires FirstYield(Candidates(scripts[..i])) == []
    requires FirstYield(ScriptCandidates(scripts[i])) != []
    ensures FirstYield(Candidates(scripts)) == FirstYield(ScriptCandidates(scripts[i]))
    ensures |Candidates(scripts[..i + 1])| <= |Candidates(scripts)|
  {
    ScriptStep(scripts, i);
    assert scripts == scripts[..i + 1] + scripts[i + 1..];
    CandidatesAppend(scripts[..i + 1], scripts[i + 1..]);
    FirstYieldAppend(Candidates(scripts[..i + 1]), Candidates(scripts[i + 1..]));
  }

  /** The inner loop of sephora.py lines 86-137 over the candidates of one
      script: the rows of the first candidate that yields any (where the
      source merges them and breaks), and how many candidates it looked at
      and parsed. */
  method ScanCandidates(candidates: seq<Option<Json>>) returns (rows: seq<BrandRow>, found: nat, parsed: nat)
    ensures rows == FirstYield(candidates)
    ensures parsed <= found <= |candidates|
    ensures rows == [] ==> found == |candidates| && parsed == ParsedCount(candidates)
  {
    rows, found, parsed := [], 0, 0;
    var k := 0;
    while k < |candidates|
      invariant 0 <= k <= |candidates|
      invariant rows == [] && FirstYield(candidates[..k]) == []
      invariant found == k && parsed == ParsedCount(candidates[..k])
    {
      var candidate := candidates[k];
      assert candidates[..k + 1] == candidates[..k] + [candidate];
      CandidateStep(candidates[..k], candidate);
      found := found + 1;
      if candidate.Some? {
        parsed := parsed + 1;
        var brandValues := FindBrands(candidate.value);
        if brandValues.Some? {
          var temp, processed := ValidBrandRows(brandValues.value);
          if processed > 0 {
            rows := temp;
            assert candidates == candidates[..k + 1] + candidates[k + 1..];
            FirstYieldAppend(candidates[..k + 1], candidates[k + 1..]);
            return;
          }
        }
      }
      k := k + 1;
    }
    assert candidates[..k] == candidates;
  }

  /** The outer loop of sephora.py lines 76-150, with its counters: empty
      scripts are skipped, the first candidate that yields rows is merged
      into the (empty) brands_data and ends the scan. */
  method ExtractBrands(scripts: seq<Script>) returns (table: Option<BrandTable>, stats: ScanStats)
    ensures table == Scan(scripts)
    ensures stats.structuresParsed <= stats.structuresFound <= |Candidates(scripts)|
    ensures stats.scriptsChecked <= |scripts|
    ensures table.None? ==>
      stats == ScanStats(NonEmptyScripts(scripts), |Candidates(scripts)|, ParsedCount(Candidates(scripts)))
  {
    var brandsData: seq<BrandRow> := [];
    var foundData := false;
    var checked, found, parsed := 0, 0, 0;
    var i := 0;
    while i < |scripts|
      invariant 0 <= i <= |scripts|
      invariant !foundData && brandsData == []
      invariant FirstYield(Candidates(scripts[..i])) == []
      invariant checked == NonEmptyScripts(scripts[..i]) && checked <= i
      invariant found == |Candidates(scripts[..i])|
      invariant parsed == ParsedCount(Candidates(scripts[..i]))
    {
      var script := scripts[i];
      ScriptStep(scripts, i);
      if script.text == "" {
        i := i + 1;
        continue;
      }
      checked := checked + 1;
      var rows, foundHere, parsedHere := ScanCandidates(script.candidates);
      found, parsed := found + foundHere, parsed + parsedHere;
      if rows != [] {
        brandsData := MergeUnique(brandsData, rows);
        foundData := true;
        HitEndsScan(scripts, i);
        break;
      }
      i := i + 1;
    }
    if !foundData {
      assert scripts[..i] == scripts;
    }
    stats := ScanStats(checked, found, parsed);
    if foundData {
      table := Some(BrandTable(brandsData, FieldNames));
    } else {
      table := None;
    }
  }

  // ---------------------------------------------------------------------
  // What the scan promises

  /** No row anywhere: the result is (None, None). Otherwise the result is a
      non-empty list of rows with distinct labels under the headers
      ['Marka', 'Urun Adedi'], made from the valid items of the first
      candidate that has any, deduplicated first-wins. */
  lemma ScanOutcome(scripts: seq<Script>)
    ensures Scan(scripts).None? <==>
      forall c :: c in Candidates(scripts) ==> Yield(c) == []
    ensures Scan(scripts).Some? ==>
      var t := Scan(scripts).value;
      && t.headers == ["Marka", "Urun Adedi"]
      && |t.rows| > 0
      && DistinctLabels(t.rows)
      && exists n :: 0 <= n < |Candidates(scripts)| &&
           Yield(Candidates(scripts)[n]) != [] &&
           (forall m :: 0 <= m < n ==> Yield(Candidates(scripts)[m]) == []) &&
           t.rows == AddUnique([], Yield(Candidates(scripts)[n]))
  {
    FirstYieldIsEarliest(Candidates(scripts));
    var rows := FirstYield(Candidates(scripts));
    if rows != [] {
      AddUniqueKeepsLabelsUnique([], rows);
      assert rows[0].brand in Labels(rows);
      assert |AddUnique([], rows)| > 0;
    }
  }

  lemma {:induction false} FirstYieldIsEarliest(cs: seq<Option<Json>>)
    ensures FirstYield(cs) == [] <==> forall c :: c in cs ==> Yield(c) == []
    ensures FirstYield(cs) != [] ==>
      exists n :: 0 <= n < |cs| && Yield(cs[n]) != [] && FirstYield(cs) == Yield(cs[n]) &&
        (forall m :: 0 <= m < n ==> Yield(cs[m]) == [])
  {
    if cs != [] && Yield(cs[0]) == [] {
      FirstYieldIsEarliest(cs[1..]);
      assert forall c :: c in cs ==> c == cs[0] || c in cs[1..];
      if FirstYield(cs) != [] {
        var n :| 0 <= n < |cs[1..]| && Yield(cs[1..][n]) != [] && FirstYield(cs) == Yield(cs[1..][n]) &&
          (forall m :: 0 <= m < n ==> Yield(cs[1..][m]) == []);
        assert cs[n + 1] == cs[1..][n];
        forall m | 0 <= m < n + 1 ensures Yield(cs[m]) == [] {
          if m > 0 { assert cs[m] == cs[1..][m - 1]; }
        }
      }
    } else if cs != [] {
      assert Yield(cs[0]) != [];
    }
  }

  /** Candidates that did not parse are skipped: dropping them changes
      nothing. */
  lemma {:induction false} UnparsedCandidatesAreSkipped(a: seq<Option<Json>>, b: seq<Option<Json>>)
    ensures FirstYield(a + [None] + b) == FirstYield(a + b)
  {
    FirstYieldAppend(a + [None], b);
    FirstYieldAppend(a, [None]);
    FirstYieldAppend(a, b);
  }

  /** A c_brand block without a single valid item does not stop the scan:
      the scan goes on to the next candidate. */
  lemma {:induction false} EmptyBlockDoesNotStop(a: seq<Option<Json>>, j: Json, b: seq<Option<Json>>)
    requires FindBrands(j).Some? && ValidRows(FindBrands(j).value) == []
    ensures FirstYield(a + [Some(j)] + b) == FirstYield(a + b)
  {
    FirstYieldAppend(a + [Some(j)], b);
    FirstYieldAppend(a, [Some(j)]);
    FirstYieldAppend(a, b);
  }

  /** A brand facet whose values list the same entry twice. */
  const AcmeItem: Json := JObj([("label", JStr("ACME")), ("hitCount", JInt(12))])
  const AcmeBlock: Json :=
    JObj([("attributeId", JStr("c_brand")), ("label", JStr("Brands")), ("values", JArr([AcmeItem, AcmeItem]))])

  lemma AcmeBlockIsFound()
    ensures FindBrands(AcmeBlock) == Some([AcmeItem, AcmeItem])
  {
    var f := AcmeBlock.fields;
    assert Get(f[2..], "values") == Some(JArr([AcmeItem, AcmeItem]));
    assert Get(f[1..], "values") == Get(f[2..], "values");
    assert Get(f, "values") == Get(f[1..], "values");
    assert IsBrandBlock(AcmeBlock);
  }

  lemma AcmeItemsGiveTwoRows()
    ensures ValidRows([AcmeItem, AcmeItem]) == [BrandRow("ACME", JInt(12)), BrandRow("ACME", JInt(12))]
  {
    assert IsBrandItem(AcmeItem) && RowOf(AcmeItem) == BrandRow("ACME", JInt(12));
    assert [AcmeItem, AcmeItem][..1] == [AcmeItem];
    assert ValidRows([AcmeItem]) == [BrandRow("ACME", JInt(12))];
  }

  /** A page whose one script holds that facet gives the single row ACME,12. */
  lemma DuplicateEntryGivesOneRow(text: string)
    requires text != ""
    ensures Scan([Script(text, [Some(AcmeBlock)])]) == Some(BrandTable([BrandRow("ACME", JInt(12))], FieldNames))
  {
    var row := BrandRow("ACME", JInt(12));
    AcmeBlockIsFound();
    AcmeItemsGiveTwoRows();
    var scripts := [Script(text, [Some(AcmeBlock)])];
    assert scripts[..0] == [];
    assert Candidates(scripts) == [Some(AcmeBlock)];
    assert FirstYield([Some(AcmeBlock)]) == [row, row];
    assert [row, row][..1] == [row];
    assert AddUnique([], [row]) == [row];
    assert AddUnique([], [row, row]) == [row];
  }
}
