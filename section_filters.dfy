/** The list filters of src/components/sections/SectionFilters.tsx: a
    case-insensitive search followed by status, institution and subcategory
    selects, each of which can be set to "all", and the distinct
    institutions and subcategories the selects offer. */
module SectionFilters {
  import opened Wrappers
  import opened Text
  import opened Seqs
  import opened Domain

  const ALL: string := "all"

  /** The filter settings: the search text and the three selects. */
  datatype Settings = Settings(query: string, status: string, institution: string, subcategory: string)

  /** The search matches the name, institution, product type or (when there
      is one) subcategory, ignoring case. */
  predicate SearchHit(item: FinancialItem, query: string) {
    var q := ToLower(query);
    || Contains(ToLower(item.name), q)
    || Contains(ToLower(item.institution), q)
    || Contains(ToLower(item.productType), q)
    || (item.subcategory.Some? && item.subcategory.value != "" && Contains(ToLower(item.subcategory.value), q))
  }

  function SearchTest(query: string): FinancialItem -> bool { (item: FinancialItem) => SearchHit(item, query) }
  function StatusTest(status: string): FinancialItem -> bool { (item: FinancialItem) => item.status == status }
  function InstitutionTest(institution: string): FinancialItem -> bool { (item: FinancialItem) => item.institution == institution }
  function SubcategoryTest(subcategory: string): FinancialItem -> bool { (item: FinancialItem) => item.subcategory == Some(subcategory) }

  /** The `k`-th stage lets the item through: it is switched off, or its test holds. */
  predicate StagePasses(k: nat, item: FinancialItem, s: Settings) {
    if k == 0 then s.query == "" || SearchHit(item, s.query)
    else if k == 1 then s.status == ALL || item.status == s.status
    else if k == 2 then s.institution == ALL || item.institution == s.institution
    else s.subcategory == ALL || item.subcategory == Some(s.subcategory)
  }

  /** The item passes the first `n` stages. */
  predicate PassesFirst(n: nat, item: FinancialItem, s: Settings) {
    n == 0 || (PassesFirst(n - 1, item, s) && StagePasses(n - 1, item, s))
  }

  function UpTo(n: nat, s: Settings): FinancialItem -> bool { (item: FinancialItem) => PassesFirst(n, item, s) }

  /** The item passes every active filter. */
  predicate Passes(item: FinancialItem, s: Settings) { PassesFirst(4, item, s) }

  /** Whether the `k`-th stage is switched on, and its test. */
  predicate Active(k: nat, s: Settings) {
    if k == 0 then s.query != "" else if k == 1 then s.status != ALL
    else if k == 2 then s.institution != ALL else s.subcategory != ALL
  }

  function Test(k: nat, s: Settings): FinancialItem -> bool {
    if k == 0 then SearchTest(s.query) else if k == 1 then StatusTest(s.status)
    else if k == 2 then InstitutionTest(s.institution) else SubcategoryTest(s.subcategory)
  }

  /** Running stage `k` on what passed the earlier stages gives what passes
      the first `k + 1`. */
  lemma Stage(items: seq<FinancialItem>, s: Settings, k: nat, before: seq<FinancialItem>)
    requires k < 4
    requires before == Filter(items, UpTo(k, s))
    ensures (if Active(k, s) then Filter(before, Test(k, s)) else before) == Filter(items, UpTo(k + 1, s))
  {
    forall x | x in items
      ensures UpTo(k + 1, s)(x) == (UpTo(k, s)(x) && (!Active(k, s) || Test(k, s)(x)))
    {
      assert StagePasses(k, x, s) == (!Active(k, s) || Test(k, s)(x));
    }
    FilterStage(items, UpTo(k, s), Active(k, s), Test(k, s), UpTo(k + 1, s));
  }

  /** The filter effect: four stages applied one after the other, each a
      `filter` when it is switched on. The result is the input filtered once
      by the conjunction of the stages, so their order does not matter; it
      keeps the input's order, and holds exactly the items that pass. */
  method ApplyFilters(items: seq<FinancialItem>, s: Settings) returns (filtered: seq<FinancialItem>)
    ensures filtered == Filter(items, UpTo(4, s))
    ensures IsSubseq(filtered, items)
    ensures forall i :: 0 <= i < |filtered| ==> Passes(filtered[i], s)
    ensures forall i :: 0 <= i < |items| && Passes(items[i], s) ==> items[i] in filtered
  {
    filtered := RunStages(items, s);
    FilterPasses(items, s);
  }

  /** The four stages in their order: search, status, institution,
      subcategory. */
  method RunStages(items: seq<FinancialItem>, s: Settings) returns (filtered: seq<FinancialItem>)
    ensures filtered == Filter(items, UpTo(4, s))
  {
    filtered := items;
    FilterAll(items, UpTo(0, s));
    for k := 0 to 4
      invariant filtered == Filter(items, UpTo(k, s))
    {
      filtered := RunStage(items, s, k, filtered);
    }
  }

  lemma FilterPasses(items: seq<FinancialItem>, s: Settings)
    ensures var f := Filter(items, UpTo(4, s));
      && IsSubseq(f, items)
      && (forall i :: 0 <= i < |f| ==> Passes(f[i], s))
      && (forall i :: 0 <= i < |items| && Passes(items[i], s) ==> items[i] in f)
  {
    var f := Filter(items, UpTo(4, s));
    FilterIsSubseq(items, UpTo(4, s));
    forall i | 0 <= i < |f| ensures Passes(f[i], s) {
      assert UpTo(4, s)(f[i]);
    }
    forall i | 0 <= i < |items| && Passes(items[i], s) ensures items[i] in f {
      assert UpTo(4, s)(items[i]);
    }
  }

  /** One stage: when it is switched on, filter what passed the earlier
      stages by its test; otherwise leave it alone. */
  method RunStage(items: seq<FinancialItem>, s: Settings, k: nat, before: seq<FinancialItem>) returns (after: seq<FinancialItem>)
    requires k < 4 && before == Filter(items, UpTo(k, s))
    ensures after == Filter(items, UpTo(k + 1, s))
  {
    Stage(items, s, k, before);
    if Active(k, s) {
      after := Filter(before, Test(k, s));
    } else {
      after := before;
    }
  }

  /** A select that is not "all" holds for every item that passes. */
  lemma SelectsHold(item: FinancialItem, s: Settings)
    requires Passes(item, s)
    ensures s.status != ALL ==> item.status == s.status
    ensures s.institution != ALL ==> item.institution == s.institution
    ensures s.subcategory != ALL ==> item.subcategory == Some(s.subcategory)
    ensures s.query != "" ==> SearchHit(item, s.query)
  {
    assert PassesFirst(3, item, s) && PassesFirst(2, item, s) && PassesFirst(1, item, s);
  }

  /** With no search text and every select on "all", nothing is filtered out. */
  lemma NoFiltersKeepsAll(items: seq<FinancialItem>)
    ensures Filter(items, UpTo(4, Settings("", ALL, ALL, ALL))) == items
  {
    var s := Settings("", ALL, ALL, ALL);
    forall x | x in items
      ensures UpTo(4, s)(x)
    {
      assert StagePasses(0, x, s) && StagePasses(1, x, s) && StagePasses(2, x, s) && StagePasses(3, x, s);
      assert PassesFirst(1, x, s);
      assert PassesFirst(2, x, s);
      assert PassesFirst(3, x, s);
    }
    FilterAll(items, UpTo(4, s));
  }

  function InstitutionColumn(items: seq<FinancialItem>): (r: seq<string>)
    ensures |r| == |items| && forall i :: 0 <= i < |items| ==> r[i] == items[i].institution
  {
    if items == [] then [] else InstitutionColumn(items[..|items| - 1]) + [items[|items| - 1].institution]
  }

  /** The subcategories that are present and not empty, in item order. */
  function SubcategoryColumn(items: seq<FinancialItem>): (r: seq<string>)
    ensures forall i :: 0 <= i < |r| ==> r[i] != ""
    ensures forall i :: 0 <= i < |r| ==> exists j :: 0 <= j < |items| && items[j].subcategory == Some(r[i])
    ensures forall j :: 0 <= j < |items| && items[j].subcategory.Some? && items[j].subcategory.value != "" ==>
      items[j].subcategory.value in r
  {
    if items == [] then []
    else
      var init := SubcategoryColumn(items[..|items| - 1]);
      var last := items[|items| - 1];
      init + (if last.subcategory.Some? && last.subcategory.value != "" then [last.subcategory.value] else [])
  }

  /** The institution select's options: each institution once. */
  function Institutions(items: seq<FinancialItem>): (r: seq<string>)
    ensures NoDups(r)
    ensures forall i :: 0 <= i < |items| ==> items[i].institution in r
    ensures forall i :: 0 <= i < |r| ==> exists j :: 0 <= j < |items| && items[j].institution == r[i]
  {
    var col := InstitutionColumn(items);
    var r := Dedup(col);
    assert forall i :: 0 <= i < |items| ==> items[i].institution == col[i];
    r
  }

  /** The subcategory select's options: each non-empty subcategory once. */
  function Subcategories(items: seq<FinancialItem>): (r: seq<string>)
    ensures NoDups(r)
    ensures forall i :: 0 <= i < |r| ==> r[i] != ""
    ensures forall i :: 0 <= i < |r| ==> exists j :: 0 <= j < |items| && items[j].subcategory == Some(r[i])
    ensures forall j :: 0 <= j < |items| && items[j].subcategory.Some? && items[j].subcategory.value != "" ==>
      items[j].subcategory.value in r
  {
    var col := SubcategoryColumn(items);
    var r := Dedup(col);
    assert forall i :: 0 <= i < |r| ==> r[i] in col;
    r
  }
}
