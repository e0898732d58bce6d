/** The recursive search of sephora.py for the brand facet: the first dict,
    in depth-first pre-order, whose "attributeId" is "c_brand" and whose
    "values" is a list. */
module SephoraSearch {
  import opened JsonModel

  /** The test on sephora.py line 18. */
  predicate IsBrandBlock(j: Json)
  {
    && j.JObj?
    && Get(j.fields, "attributeId") == Some(JStr("c_brand"))
    && Get(j.fields, "values").Some?
    && Get(j.fields, "values").value.JArr?
  }

  function BlockValues(j: Json): seq<Json>
    requires IsBrandBlock(j)
  {
    Get(j.fields, "values").value.items
  }

  /** find_brands_in_json: a dict is tested before its values are searched,
      values and list items are searched in order, scalars give None. */
  function FindBrands(j: Json): Option<seq<Json>>
    decreases j
  {
    match j
    case JObj(fields) =>
      if IsBrandBlock(j) then Some(BlockValues(j)) else FindInFields(fields, 0)
    case JArr(items) => FindInItems(items, 0)
    case _ => None
  }

  /** The `for value in data.values()` loop, from the i-th value on. */
  function FindInFields(fields: seq<(string, Json)>, i: nat): Option<seq<Json>>
    decreases JObj(fields), |fields| - i
  {
    if i >= |fields| then None
    else
      assert fields[i] in fields;
      match FindBrands(fields[i].1)
      case Some(v) => Some(v)
      case None => FindInFields(fields, i + 1)
  }

  /** The `for item in data` loop, from the i-th item on. */
  function FindInItems(items: seq<Json>, i: nat): Option<seq<Json>>
    decreases JArr(items), |items| - i
  {
    if i >= |items| then None
    else
      match FindBrands(items[i])
      case Some(v) => Some(v)
      case None => FindInItems(items, i + 1)
  }

  // ---------------------------------------------------------------------
  // Reference definition: the nodes of a tree in depth-first pre-order.

  function PreOrder(j: Json): seq<Json>
    decreases j
  {
    match j
    case JObj(fields) => [j] + FieldsPreOrder(fields, 0)
    case JArr(items) => [j] + ItemsPreOrder(items, 0)
    case _ => [j]
  }

  function FieldsPreOrder(fields: seq<(string, Json)>, i: nat): seq<Json>
    decreases JObj(fields), |fields| - i
  {
    if i >= |fields| then []
    else
      assert fields[i] in fields;
      PreOrder(fields[i].1) + FieldsPreOrder(fields, i + 1)
  }

  function ItemsPreOrder(items: seq<Json>, i: nat): seq<Json>
    decreases JArr(items), |items| - i
  {
    if i >= |items| then [] else PreOrder(items[i]) + ItemsPreOrder(items, i + 1)
  }

  /** The values of the first brand block of a node sequence. */
  function FirstBlock(ns: seq<Json>): Option<seq<Json>>
  {
    if ns == [] then None
    else if IsBrandBlock(ns[0]) then Some(BlockValues(ns[0]))
    else FirstBlock(ns[1..])
  }

  lemma {:induction false} FirstBlockAppend(a: seq<Json>, b: seq<Json>)
    ensures FirstBlock(a + b) == if FirstBlock(a).Some? then FirstBlock(a) else FirstBlock(b)
  {
    if a != [] {
      assert (a + b)[1..] == a[1..] + b;
      FirstBlockAppend(a[1..], b);
    } else {
      assert a + b == b;
    }
  }

  /** FirstBlock finds the earliest brand block, and finds nothing exactly
      when there is none. */
  lemma {:induction false} FirstBlockIsEarliest(ns: seq<Json>)
    ensures FirstBlock(ns).None? <==> forall k :: 0 <= k < |ns| ==> !IsBrandBlock(ns[k])
    ensures FirstBlock(ns).Some? ==>
      exists k :: 0 <= k < |ns| && IsBrandBlock(ns[k]) && BlockValues(ns[k]) == FirstBlock(ns).value &&
        (forall m :: 0 <= m < k ==> !IsBrandBlock(ns[m]))
  {
    if ns != [] && !IsBrandBlock(ns[0]) {
      FirstBlockIsEarliest(ns[1..]);
      if FirstBlock(ns).Some? {
        var k :| 0 <= k < |ns[1..]| && IsBrandBlock(ns[1..][k]) &&
          BlockValues(ns[1..][k]) == FirstBlock(ns).value &&
          (forall m :: 0 <= m < k ==> !IsBrandBlock(ns[1..][m]));
        assert ns[k + 1] == ns[1..][k];
        forall m | 0 <= m < k + 1 ensures !IsBrandBlock(ns[m]) {
          if m > 0 { assert ns[m] == ns[1..][m - 1]; }
        }
      } else {
        forall k | 0 <= k < |ns| ensures !IsBrandBlock(ns[k]) {
          if k > 0 { assert ns[k] == ns[1..][k - 1]; }
        }
      }
    } else if ns != [] {
      assert IsBrandBlock(ns[0]);
    }
  }

  // ---------------------------------------------------------------------
  // find_brands_in_json returns the values of the first brand block in
  // pre-order.

  lemma {:induction false} FindBrandsIsFirstInPreOrder(j: Json)
    ensures FindBrands(j) == FirstBlock(PreOrder(j))
    decreases j
  {
    match j
    case JObj(fields) =>
      FirstBlockAppend([j], FieldsPreOrder(fields, 0));
      FieldsSearchIsFirstInPreOrder(fields, 0);
    case JArr(items) =>
      FirstBlockAppend([j], ItemsPreOrder(items, 0));
      ItemsSearchIsFirstInPreOrder(items, 0);
    case _ =>
  }

  lemma {:induction false} FieldsSearchIsFirstInPreOrder(fields: seq<(string, Json)>, i: nat)
    ensures FindInFields(fields, i) == FirstBlock(FieldsPreOrder(fields, i))
    decreases JObj(fields), |fields| - i
  {
    if i < |fields| {
      assert fields[i] in fields;
      FindBrandsIsFirstInPreOrder(fields[i].1);
      FieldsSearchIsFirstInPreOrder(fields, i + 1);
      FirstBlockAppend(PreOrder(fields[i].1), FieldsPreOrder(fields, i + 1));
    }
  }

  lemma {:induction false} ItemsSearchIsFirstInPreOrder(items: seq<Json>, i: nat)
    ensures FindInItems(items, i) == FirstBlock(ItemsPreOrder(items, i))
    decreases JArr(items), |items| - i
  {
    if i < |items| {
      FindBrandsIsFirstInPreOrder(items[i]);
      ItemsSearchIsFirstInPreOrder(items, i + 1);
      FirstBlockAppend(PreOrder(items[i]), ItemsPreOrder(items, i + 1));
    }
  }

  /** Soundness and first-match: a result is the "values" list of a brand
      block of the tree, and no node before that block in pre-order is one. */
  lemma FindBrandsSound(j: Json)
    requires FindBrands(j).Some?
    ensures
      exists k :: 0 <= k < |PreOrder(j)| && IsBrandBlock(PreOrder(j)[k]) &&
        BlockValues(PreOrder(j)[k]) == FindBrands(j).value &&
        (forall m :: 0 <= m < k ==> !IsBrandBlock(PreOrder(j)[m]))
  {
    FindBrandsIsFirstInPreOrder(j);
    FirstBlockIsEarliest(PreOrder(j));
  }

  /** Completeness: the search gives None exactly when no node of the tree is
      a brand block. */
  lemma FindBrandsComplete(j: Json)
    ensures FindBrands(j).None? <==> forall n :: n in PreOrder(j) ==> !IsBrandBlock(n)
  {
    FindBrandsIsFirstInPreOrder(j);
    FirstBlockIsEarliest(PreOrder(j));
  }

  /** A scalar has no brand block: the search returns None. */
  lemma ScalarHasNoBrands(j: Json)
    requires !j.JObj? && !j.JArr?
    ensures FindBrands(j).None?
  {
  }

  /** A dict whose "attributeId" is "c_brand" but whose "values" is missing
      or not a list is no match: the result is the first block among the
      nodes below it. */
  lemma NonListValuesSearchesChildren(fields: seq<(string, Json)>)
    requires Get(fields, "attributeId") == Some(JStr("c_brand"))
    requires Get(fields, "values").None? || !Get(fields, "values").value.JArr?
    ensures FindBrands(JObj(fields)) == FirstBlock(PreOrder(JObj(fields))[1..])
  {
    FindBrandsIsFirstInPreOrder(JObj(fields));
    FieldsSearchIsFirstInPreOrder(fields, 0);
    assert PreOrder(JObj(fields))[1..] == FieldsPreOrder(fields, 0);
  }

  // ---------------------------------------------------------------------
  // PreOrder holds every node of the tree: the node itself and, for each
  // of its children, every node of the child.

  /** `c` is a value of dict `j` or an item of list `j`. */
  predicate IsChild(c: Json, j: Json)
  {
    (j.JArr? && c in j.items) || (j.JObj? && exists p :: p in j.fields && p.1 == c)
  }

  lemma {:induction false} FieldsPreOrderHolds(fields: seq<(string, Json)>, i: nat, p: nat, n: Json)
    requires i <= p < |fields| && n in PreOrder(fields[p].1)
    ensures n in FieldsPreOrder(fields, i)
    decreases |fields| - i
  {
    if i < p { FieldsPreOrderHolds(fields, i + 1, p, n); }
  }

  lemma {:induction false} ItemsPreOrderHolds(items: seq<Json>, i: nat, p: nat, n: Json)
    requires i <= p < |items| && n in PreOrder(items[p])
    ensures n in ItemsPreOrder(items, i)
    decreases |items| - i
  {
    if i < p { ItemsPreOrderHolds(items, i + 1, p, n); }
  }

  lemma PreOrderHoldsDescendants(c: Json, j: Json)
    requires IsChild(c, j)
    ensures j in PreOrder(j)
    ensures forall n :: n in PreOrder(c) ==> n in PreOrder(j)
  {
    forall n | n in PreOrder(c) ensures n in PreOrder(j) {
      if j.JArr? {
        var p :| 0 <= p < |j.items| && j.items[p] == c;
        ItemsPreOrderHolds(j.items, 0, p, n);
      } else {
        var f :| f in j.fields && f.1 == c;
        var p :| 0 <= p < |j.fields| && j.fields[p] == f;
        FieldsPreOrderHolds(j.fields, 0, p, n);
      }
    }
  }

  /** A brand block anywhere below a child of `j` is found from `j`. */
  lemma FoundThroughChild(c: Json, j: Json, n: Json)
    requires IsChild(c, j) && n in PreOrder(c) && IsBrandBlock(n)
    ensures FindBrands(j).Some?
  {
    PreOrderHoldsDescendants(c, j);
    FindBrandsComplete(j);
  }
}
