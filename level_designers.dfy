/** The body of extract_designers_from_url in level_streamlit_app2.py after
    the page has been fetched: from the __NEXT_DATA__ script to the CSV rows
    of the designer facet, or to the error or warning message returned in
    their place.

    Every AttributeError or TypeError the body can raise (calling .get on a
    non-dict, iterating a number, lower-casing a non-string) is caught by
    the handler on lines 97-99 and becomes the StructureChanged message. */
module LevelDesigners {
  import opened JsonModel
  import opened Text

  /** What BeautifulSoup and json.loads made of the page (lines 36-46): no
      script#__NEXT_DATA__, a tag without text, text that is not JSON, or
      the parsed document. */
  datatype NextData =
    | NoNextDataScript
    | EmptyNextData
    | NotJson
    | Parsed(data: Json)

  /** The messages returned instead of a list. */
  datatype Problem =
    | NextDataMissing         // line 40
    | NextDataEmpty           // line 44
    | ProductListKeyMissing   // line 59
    | DesignerFilterMissing   // line 75
    | NoOptions               // line 80, a warning
    | EmptyList               // line 91, a warning
    | NotJsonData             // line 96
    | StructureChanged        // line 99

  /** The function returns either the CSV rows or a message. */
  datatype Outcome = Rows(csv: seq<seq<Json>>) | Message(problem: Problem)

  const Header: seq<Json> := [JStr("Designer"), JStr("Count")]

  predicate IsWarning(p: Problem)
  {
    p == NoOptions || p == EmptyList
  }

  /** The severity word each message starts with. */
  function Severity(p: Problem): string
  {
    if IsWarning(p) then "Uyarı: " else "Hata: "
  }

  /** The text of each message. */
  function MessageText(p: Problem): string
  {
    Severity(p) +
    match p
    case NextDataMissing => "Sayfa yapısı beklenenden farklı, '__NEXT_DATA__' bulunamadı."
    case NextDataEmpty => "__NEXT_DATA__ içeriği boş."
    case ProductListKeyMissing => "Gerekli ürün listesi verisi sayfada bulunamadı (product list key)."
    case DesignerFilterMissing => "Sayfada 'brand' veya 'Designer' filtresi bulunamadı."
    case NoOptions => "Tasarımcı filtresinde hiç seçenek bulunamadı."
    case EmptyList => "Tasarımcı verisi bulundu ancak liste boş."
    case NotJsonData => "Sayfadan alınan veri JSON formatında değil."
    case StructureChanged => "Sayfa yapısı değişmiş olabilir veya beklenmeyen bir veri yapısı ile karşılaşıldı."
  }

  /** Warnings start with "Uyarı: ", errors with "Hata: ". */
  lemma MessageSeverity(p: Problem)
    ensures IsWarning(p) <==> StartsWith(MessageText(p), "Uyarı: ")
    ensures !IsWarning(p) <==> StartsWith(MessageText(p), "Hata: ")
  {
    var m := MessageText(p);
    assert m[..|Severity(p)|] == Severity(p);
    assert m[0] == Severity(p)[0];
    assert "Hata: "[0] == 'H' && "Uyarı: "[0] == 'U';
  }

  // ---------------------------------------------------------------------
  // Lines 49-50: data.get('props', {}).get('pageProps', {})
  //              .get('__APOLLO_STATE__', {}).get('ROOT_QUERY', {})

  const ApolloPath: seq<string> := ["props", "pageProps", "__APOLLO_STATE__", "ROOT_QUERY"]

  /** A chain of `.get(key, {})` calls. */
  function Walk(j: Json, path: seq<string>): PyResult<Json>
    decreases |path|
  {
    if path == [] then Ok(j)
    else
      match DictGet(j, path[0], JObj([]))
      case Raised => Raised
      case Ok(child) => Walk(child, path[1..])
  }

  function RootQuery(data: Json): PyResult<Json>
  {
    Walk(data, ApolloPath)
  }

  /** Walking along `path`, only dicts are met until some key is absent. */
  predicate AbsentAlong(j: Json, path: seq<string>)
  {
    path != [] && j.JObj? &&
    (Get(j.fields, path[0]).None? || AbsentAlong(Get(j.fields, path[0]).value, path[1..]))
  }

  /** Once a key is missing, every later `.get` works on the {} default. */
  lemma {:induction false} AbsentKeyGivesEmptyDict(j: Json, path: seq<string>)
    requires AbsentAlong(j, path)
    ensures Walk(j, path) == Ok(JObj([]))
  {
    if Get(j.fields, path[0]).None? {
      EmptyDictWalk(path[1..]);
    } else {
      AbsentKeyGivesEmptyDict(Get(j.fields, path[0]).value, path[1..]);
    }
  }

  lemma {:induction false} EmptyDictWalk(path: seq<string>)
    ensures Walk(JObj([]), path) == Ok(JObj([]))
  {
    if path != [] { EmptyDictWalk(path[1..]); }
  }

  // ---------------------------------------------------------------------
  // Lines 52-59: the product-list key

  const ProductListPrefix: string := "_productList"
  const ProductListInfix: string := "_productList:({"

  datatype KeyRule = PrefixRule | InfixRule

  predicate KeyMatches(rule: KeyRule, key: string)
  {
    match rule
    case PrefixRule => StartsWith(key, ProductListPrefix)
    case InfixRule => Contains(key, ProductListInfix)
  }

  /** The generator visits `x` without stopping: a str that fails the test. */
  predicate PassesOver(rule: KeyRule, x: Json)
  {
    x.JStr? && !KeyMatches(rule, x.s)
  }

  /** `next((key for key in root_query if <rule>), None)` over the values the
      loop visits, from the i-th on; a visited value that is not a str has
      no startswith and raises. */
  function FirstKey(keys: seq<Json>, rule: KeyRule, i: nat): (r: PyResult<Option<string>>)
    decreases |keys| - i
    ensures r == Ok(None) <==> forall k :: i <= k < |keys| ==> PassesOver(rule, keys[k])
    ensures r.Ok? && r.value.Some? ==>
      exists k :: i <= k < |keys| && keys[k] == JStr(r.value.value) && KeyMatches(rule, r.value.value) &&
        (forall m :: i <= m < k ==> PassesOver(rule, keys[m]))
    ensures r.Raised? ==>
      exists k :: i <= k < |keys| && !keys[k].JStr? &&
        (forall m :: i <= m < k ==> PassesOver(rule, keys[m]))
  {
    if i >= |keys| then Ok(None)
    else if !keys[i].JStr? then Raised
    else if KeyMatches(rule, keys[i].s) then Ok(Some(keys[i].s))
    else FirstKey(keys, rule, i + 1)
  }

  /** The key chosen on lines 52-58; Ok(None) leads to the error of line 59.
      When no key fits, `st.json(root_query.keys())` runs first, and it
      raises on anything but a dict. */
  function ProductListKey(root: Json): PyResult<Option<string>>
  {
    match PyIter(root)
    case Raised => Raised
    case Ok(keys) =>
      match FirstKey(keys, PrefixRule, 0)
      case Raised => Raised
      case Ok(Some(key)) => Ok(Some(key))
      case Ok(None) =>
        match FirstKey(keys, InfixRule, 0)
        case Raised => Raised
        case Ok(Some(key)) => Ok(Some(key))
        case Ok(None) => if root.JObj? then Ok(None) else Raised
  }

  // ---------------------------------------------------------------------
  // Lines 64-69: the designer facet

  datatype FacetTest = Select | Skip | Crash

  /** One round of the loop: `facet.get('key') == 'brand'`, then
      `facet.get('label', '').lower() == 'designer'`; only a dict has .get. */
  function TestFacet(facet: Json): FacetTest
  {
    if facet.JObj? then TestFacetFields(facet.fields) else Crash
  }

  function TestFacetFields(facet: seq<(string, Json)>): FacetTest
  {
    if Get(facet, "key") == Some(JStr("brand")) then Select
    else
      var labelEntry := Get(facet, "label");
      var labelValue := if labelEntry.Some? then labelEntry.value else JStr("");
      if !labelValue.JStr? then Crash
      else if Lower(labelValue.s) == "designer" then Select
      else Skip
  }

  /** The facet the loop settles on, from the i-th facet on. */
  function SelectFacet(facets: seq<Json>, i: nat): PyResult<Option<seq<(string, Json)>>>
    decreases |facets| - i
  {
    if i >= |facets| then Ok(None)
    else
      match TestFacet(facets[i])
      case Crash => Raised
      case Select => Ok(Some(facets[i].fields))
      case Skip => SelectFacet(facets, i + 1)
  }

  /** The loop of lines 64-69. */
  method SelectDesignerFacet(facets: seq<Json>) returns (r: PyResult<Option<seq<(string, Json)>>>)
    ensures r == SelectFacet(facets, 0)
  {
    var designerFacet: Option<seq<(string, Json)>> := None;
    var k := 0;
    while k < |facets|
      invariant k <= |facets|
      invariant SelectFacet(facets, k) == SelectFacet(facets, 0)
    {
      var facet := facets[k];
      if !facet.JObj? {
        return Raised;
      }
      if Get(facet.fields, "key") == Some(JStr("brand")) {
        designerFacet := Some(facet.fields);
        break;
      }
      var labelEntry := Get(facet.fields, "label");
      var labelValue := if labelEntry.Some? then labelEntry.value else JStr("");
      if !labelValue.JStr? {
        return Raised;
      }
      if Lower(labelValue.s) == "designer" {
        designerFacet := Some(facet.fields);
        break;
      }
      k := k + 1;
    }
    r := Ok(designerFacet);
  }

  /** No facet is selected exactly when every facet is a dict that fails
      the test. */
  lemma {:induction false} SelectNoneIffAllSkip(facets: seq<Json>, i: nat)
    ensures SelectFacet(facets, i) == Ok(None) <==> forall k :: i <= k < |facets| ==> TestFacet(facets[k]) == Skip
    decreases |facets| - i
  {
    if i < |facets| && TestFacet(facets[i]) == Skip {
      SelectNoneIffAllSkip(facets, i + 1);
    }
  }

  /** The selected facet is the first one that passes the test; every facet
      before it was a dict that failed it. */
  lemma {:induction false} SelectIsFirstMatch(facets: seq<Json>, i: nat)
    requires SelectFacet(facets, i).Ok? && SelectFacet(facets, i).value.Some?
    ensures
      exists k :: i <= k < |facets| && TestFacet(facets[k]) == Select &&
        JObj(SelectFacet(facets, i).value.value) == facets[k] &&
        (forall m :: i <= m < k ==> TestFacet(facets[m]) == Skip)
    decreases |facets| - i
  {
    if TestFacet(facets[i]) == Skip {
      SelectIsFirstMatch(facets, i + 1);
      var k :| i + 1 <= k < |facets| && TestFacet(facets[k]) == Select &&
        JObj(SelectFacet(facets, i + 1).value.value) == facets[k] &&
        (forall m :: i + 1 <= m < k ==> TestFacet(facets[m]) == Skip);
      assert forall m :: i <= m < k ==> TestFacet(facets[m]) == Skip;
    } else {
      assert TestFacet(facets[i]) == Select;
    }
  }

  /** A raise comes from the first facet that is not a dict or has a label
      that is not a string; every facet before it failed the test. */
  lemma {:induction false} SelectRaisesAtFirstCrash(facets: seq<Json>, i: nat)
    requires SelectFacet(facets, i).Raised?
    ensures
      exists k :: i <= k < |facets| && TestFacet(facets[k]) == Crash &&
        (forall m :: i <= m < k ==> TestFacet(facets[m]) == Skip)
    decreases |facets| - i
  {
    if TestFacet(facets[i]) == Skip {
      SelectRaisesAtFirstCrash(facets, i + 1);
      var k :| i + 1 <= k < |facets| && TestFacet(facets[k]) == Crash &&
        (forall m :: i + 1 <= m < k ==> TestFacet(facets[m]) == Skip);
      assert forall m :: i <= m < k ==> TestFacet(facets[m]) == Skip;
    } else {
      assert TestFacet(facets[i]) == Crash;
    }
  }

  /** A facet passes the test exactly when it is a dict whose "key" is
      "brand", or whose "label" is "designer" in any mix of letter cases. */
  lemma DesignerFacetTest(facet: Json)
    ensures TestFacet(facet) == Select <==>
      facet.JObj? &&
      (Get(facet.fields, "key") == Some(JStr("brand")) ||
       (Get(facet.fields, "label").Some? && Get(facet.fields, "label").value.JStr? &&
        var l := Get(facet.fields, "label").value.s;
        |l| == 8 && forall k :: 0 <= k < 8 ==> IsLetterEitherCase(l[k], "designer"[k])))
  {
    var w := "designer";
    assert forall k :: 0 <= k < |w| ==> 'a' <= w[k] <= 'z';
    if facet.JObj? {
      var labelEntry := Get(facet.fields, "label");
      if labelEntry.Some? && labelEntry.value.JStr? {
        LowerMatchesWord(labelEntry.value.s, w);
      }
    }
  }

  /** A selected facet is a non-empty dict, so the falsy test of line 71
      only fires when nothing was selected. */
  lemma SelectedFacetIsTruthy(facets: seq<Json>)
    requires SelectFacet(facets, 0).Ok? && SelectFacet(facets, 0).value.Some?
    ensures SelectFacet(facets, 0).value.value != []
  {
    SelectIsFirstMatch(facets, 0);
  }

  // ---------------------------------------------------------------------
  // Lines 77-93: the options and the CSV rows

  /** `name is not None and count is not None` for an option dict. */
  predicate IsKept(option: seq<(string, Json)>)
  {
    Get(option, "name").Some? && Get(option, "name").value != JNull &&
    Get(option, "count").Some? && Get(option, "count").value != JNull
  }

  function PairOf(option: seq<(string, Json)>): seq<Json>
    requires IsKept(option)
  {
    [Get(option, "name").value, Get(option, "count").value]
  }

  /** csv_data after the loop over `options`; an option that is no dict has
      no .get and raises. */
  function CsvRows(options: seq<Json>): PyResult<seq<seq<Json>>>
  {
    if options == [] then Ok([Header])
    else
      match CsvRows(options[..|options| - 1])
      case Raised => Raised
      case Ok(rows) =>
        var option := options[|options| - 1];
        if !option.JObj? then Raised
        else if IsKept(option.fields) then Ok(rows + [PairOf(option.fields)])
        else Ok(rows)
  }

  /** Reference definition: the positions of the kept options, ascending. */
  function KeptPositions(options: seq<Json>): seq<nat>
  {
    if options == [] then []
    else
      var rest := KeptPositions(options[..|options| - 1]);
      var option := options[|options| - 1];
      if option.JObj? && IsKept(option.fields) then rest + [|options| - 1] else rest
  }

  /** The loop raises exactly when some option is not a dict. */
  lemma {:induction false} CsvRowsRaiseIffNonDict(options: seq<Json>)
    ensures CsvRows(options).Raised? <==> exists i :: 0 <= i < |options| && !options[i].JObj?
  {
    if options != [] {
      var init := options[..|options| - 1];
      CsvRowsRaiseIffNonDict(init);
      if CsvRows(init).Raised? {
        var i :| 0 <= i < |init| && !init[i].JObj?;
        assert !options[i].JObj?;
      }
      if exists i :: 0 <= i < |options| && !options[i].JObj? {
        var i :| 0 <= i < |options| && !options[i].JObj?;
        if i < |init| { assert !init[i].JObj?; }
      }
    }
  }

  /** Otherwise the rows are the header and then [name, count] of each kept
      option, in order, one row per kept option (nothing is deduplicated). */
  lemma {:induction false} CsvRowsAreHeaderAndKeptOptions(options: seq<Json>)
    requires CsvRows(options).Ok?
    ensures
      var rows, pos := CsvRows(options).value, KeptPositions(options);
      && |rows| == 1 + |pos|
      && rows[0] == Header
      && (forall p :: 0 <= p < |pos| ==>
            pos[p] < |options| && options[pos[p]].JObj? && IsKept(options[pos[p]].fields) &&
            rows[p + 1] == PairOf(options[pos[p]].fields))
      && (forall p, q :: 0 <= p < q < |pos| ==> pos[p] < pos[q])
      && (forall i :: 0 <= i < |options| && options[i].JObj? && IsKept(options[i].fields) ==> i in pos)
  {
    if options != [] {
      var init := options[..|options| - 1];
      assert CsvRows(init).Ok?;
      CsvRowsAreHeaderAndKeptOptions(init);
      assert forall i :: 0 <= i < |init| ==> options[i] == init[i];
    }
  }

  lemma {:induction false} NothingKeptNoPositions(options: seq<Json>)
    requires forall i :: 0 <= i < |options| ==> !(options[i].JObj? && IsKept(options[i].fields))
    ensures KeptPositions(options) == []
  {
    if options != [] {
      NothingKeptNoPositions(options[..|options| - 1]);
    }
  }

  /** The loop of lines 83-88. */
  method BuildCsvRows(options: seq<Json>) returns (r: PyResult<seq<seq<Json>>>)
    ensures r == CsvRows(options)
  {
    var csvData := [Header];
    for k := 0 to |options|
      invariant CsvRows(options[..k]) == Ok(csvData)
    {
      assert options[..k + 1][..k] == options[..k];
      var option := options[k];
      if !option.JObj? {
        CsvRowsRaiseIffNonDict(options);
        assert options[..k + 1][k] == option;
        return Raised;
      }
      var name := Get(option.fields, "name");
      var count := Get(option.fields, "count");
      if name.Some? && name.value != JNull && count.Some? && count.value != JNull {
        csvData := csvData + [[name.value, count.value]];
      }
    }
    assert options[..|options|] == options;
    r := Ok(csvData);
  }

  // ---------------------------------------------------------------------
  // The whole body, stage by stage

  /** Lines 77-93, for the selected facet. */
  function FromFacet(facet: seq<(string, Json)>): Outcome
  {
    var designerOptions := if Get(facet, "options").Some? then Get(facet, "options").value else JArr([]);
    if !Truthy(designerOptions) then Message(NoOptions)
    else
      match PyIter(designerOptions)
      case Raised => Message(StructureChanged)
      case Ok(options) =>
        match CsvRows(options)
        case Raised => Message(StructureChanged)
        case Ok(rows) => if |rows| <= 1 then Message(EmptyList) else Rows(rows)
  }

  /** Lines 62-93, for the chosen product-list key. */
  function FromKey(root: Json, key: string): Outcome
  {
    match DictGet(root, key, JObj([]))
    case Raised => Message(StructureChanged)
    case Ok(productList) =>
      match DictGet(productList, "facets", JArr([]))
      case Raised => Message(StructureChanged)
      case Ok(facetsValue) =>
        match PyIter(facetsValue)
        case Raised => Message(StructureChanged)
        case Ok(facets) =>
          match SelectFacet(facets, 0)
          case Raised => Message(StructureChanged)
          case Ok(None) => Message(DesignerFilterMissing)
          case Ok(Some(facet)) => FromFacet(facet)
  }

  /** Lines 49-93, for the parsed __NEXT_DATA__ document. */
  function FromData(data: Json): Outcome
  {
    match RootQuery(data)
    case Raised => Message(StructureChanged)
    case Ok(root) =>
      match ProductListKey(root)
      case Raised => Message(StructureChanged)
      case Ok(None) => Message(ProductListKeyMissing)
      case Ok(Some(key)) => FromKey(root, key)
  }

  /** Lines 36-102 without the network and the HTML parser. */
  function Designers(page: NextData): Outcome
  {
    match page
    case NoNextDataScript => Message(NextDataMissing)
    case EmptyNextData => Message(NextDataEmpty)
    case NotJson => Message(NotJsonData)
    case Parsed(data) => FromData(data)
  }

  /** extract_designers_from_url after the fetch. */
  method ExtractDesigners(page: NextData) returns (out: Outcome)
    ensures out == Designers(page)
  {
    if page.NoNextDataScript? {
      return Message(NextDataMissing);
    } else if page.EmptyNextData? {
      return Message(NextDataEmpty);
    } else if page.NotJson? {
      return Message(NotJsonData);
    }
    var rootQuery := RootQuery(page.data);
    if rootQuery.Raised? {
      return Message(StructureChanged);
    }
    var root := rootQuery.value;
    var productListKey := ProductListKey(root);
    if productListKey.Raised? {
      return Message(StructureChanged);
    } else if productListKey.value.None? {
      return Message(ProductListKeyMissing);
    }
    var key := productListKey.value.value;
    var productList := DictGet(root, key, JObj([]));
    if productList.Raised? {
      return Message(StructureChanged);
    }
    var facetsValue := DictGet(productList.value, "facets", JArr([]));
    if facetsValue.Raised? {
      return Message(StructureChanged);
    }
    var facets := PyIter(facetsValue.value);
    if facets.Raised? {
      return Message(StructureChanged);
    }
    var designerFacet := SelectDesignerFacet(facets.value);
    if designerFacet.Raised? {
      return Message(StructureChanged);
    } else if designerFacet.value.None? {
      return Message(DesignerFilterMissing);
    }
    var facet := designerFacet.value.value;
    var option := Get(facet, "options");
    var designerOptions := if option.Some? then option.value else JArr([]);
    if !Truthy(designerOptions) {
      return Message(NoOptions);
    }
    var options := PyIter(designerOptions);
    if options.Raised? {
      return Message(StructureChanged);
    }
    var csvData := BuildCsvRows(options.value);
    if csvData.Raised? {
      return Message(StructureChanged);
    }
    if |csvData.value| <= 1 {
      return Message(EmptyList);
    }
    out := Rows(csvData.value);
  }

  // ---------------------------------------------------------------------
  // What the body promises

  /** A list result starts with ['Designer', 'Count'] and has at least one
      more row; every further row is a [name, count] pair of non-None values
      taken, in order, from the kept options of the selected facet. */
  lemma RowsResultShape(page: NextData)
    ensures Designers(page).Rows? ==>
      var csv := Designers(page).csv;
      && |csv| >= 2
      && csv[0] == Header
      && forall p :: 1 <= p < |csv| ==> |csv[p]| == 2 && csv[p][0] != JNull && csv[p][1] != JNull
  {
    if Designers(page).Rows? {
      var data := page.data;
      var root := RootQuery(data).value;
      var key := ProductListKey(root).value.value;
      var facetsValue := DictGet(DictGet(root, key, JObj([])).value, "facets", JArr([])).value;
      var facet := SelectFacet(PyIter(facetsValue).value, 0).value.value;
      var designerOptions := if Get(facet, "options").Some? then Get(facet, "options").value else JArr([]);
      var options := PyIter(designerOptions).value;
      CsvRowsAreHeaderAndKeptOptions(options);
      var csv, pos := CsvRows(options).value, KeptPositions(options);
      forall p | 1 <= p < |csv| ensures |csv[p]| == 2 && csv[p][0] != JNull && csv[p][1] != JNull {
        assert csv[p] == PairOf(options[pos[p - 1]].fields);
      }
    }
  }

  /** A missing "props", "pageProps", "__APOLLO_STATE__" or "ROOT_QUERY"
      falls back to {} and the run ends with the product-list-key error. */
  lemma MissingPathGivesKeyError(data: Json)
    requires AbsentAlong(data, ApolloPath)
    ensures FromData(data) == Message(ProductListKeyMissing)
  {
    AbsentKeyGivesEmptyDict(data, ApolloPath);
  }

  /** A "ROOT_QUERY" that is not a dict always ends in the structure error:
      a list or a string is iterated but has no .get and no .keys, anything
      else cannot even be iterated. */
  lemma NonDictRootQueryRaises(data: Json)
    requires RootQuery(data).Ok? && !RootQuery(data).value.JObj?
    ensures FromData(data) == Message(StructureChanged)
  {
    var root := RootQuery(data).value;
    if root.JStr? {
      var keys := CharValues(root.s);
      forall k | 0 <= k < |keys| ensures PassesOver(PrefixRule, keys[k]) && PassesOver(InfixRule, keys[k]) {
        ShortNeverContains(keys[k].s, ProductListPrefix);
        ShortNeverContains(keys[k].s, ProductListInfix);
      }
    }
  }

  /** For a dict, the key is the first key that starts with "_productList";
      only when there is none, the first key that contains "_productList:({";
      when there is neither, the key error follows. A dict never raises here. */
  lemma ProductListKeyChoice(fields: seq<(string, Json)>)
    ensures ProductListKey(JObj(fields)).Ok?
    ensures ProductListKey(JObj(fields)) == Ok(None) <==>
      forall k :: 0 <= k < |fields| ==>
        !StartsWith(fields[k].0, ProductListPrefix) && !Contains(fields[k].0, ProductListInfix)
    ensures ProductListKey(JObj(fields)).Ok? && ProductListKey(JObj(fields)).value.Some? ==>
      var key := ProductListKey(JObj(fields)).value.value;
      exists k :: 0 <= k < |fields| && fields[k].0 == key &&
        ((StartsWith(key, ProductListPrefix) &&
          forall m :: 0 <= m < k ==> !StartsWith(fields[m].0, ProductListPrefix)) ||
         ((forall m :: 0 <= m < |fields| ==> !StartsWith(fields[m].0, ProductListPrefix)) &&
          Contains(key, ProductListInfix) &&
          forall m :: 0 <= m < k ==> !Contains(fields[m].0, ProductListInfix)))
  {
    var keys := KeyValues(fields);
    var prefixKey := FirstKey(keys, PrefixRule, 0);
    if prefixKey == Ok(None) {
      assert forall m :: 0 <= m < |fields| ==> !StartsWith(fields[m].0, ProductListPrefix) by {
        forall m | 0 <= m < |fields| ensures !StartsWith(fields[m].0, ProductListPrefix) {
          assert PassesOver(PrefixRule, keys[m]);
        }
      }
    }
  }

  /** The two warnings are told apart by the options value: an absent or
      falsy "options" gives NoOptions; a non-empty list of dicts none of
      which has both a name and a count gives EmptyList. */
  lemma OptionsWarnings(facet: seq<(string, Json)>)
    ensures FromFacet(facet) == Message(NoOptions) <==>
      Get(facet, "options").None? || !Truthy(Get(facet, "options").value)
    ensures FromFacet(facet) == Message(EmptyList) <==>
      Get(facet, "options").Some? && Get(facet, "options").value.JArr? &&
      var options := Get(facet, "options").value.items;
      |options| > 0 &&
      forall i :: 0 <= i < |options| ==> options[i].JObj? && !IsKept(options[i].fields)
  {
    var designerOptions := if Get(facet, "options").Some? then Get(facet, "options").value else JArr([]);
    if Truthy(designerOptions) && PyIter(designerOptions).Ok? {
      var options := PyIter(designerOptions).value;
      CsvRowsRaiseIffNonDict(options);
      if CsvRows(options).Ok? { CsvRowsAreHeaderAndKeptOptions(options); }
      if designerOptions.JObj? || designerOptions.JStr? {
        TruthyIterable(designerOptions);
        assert !options[0].JObj?;
      }
      if CsvRows(options).Ok? && forall i :: 0 <= i < |options| ==> options[i].JObj? && !IsKept(options[i].fields) {
        NothingKeptNoPositions(options);
      }
    }
  }
}
