/** The records the dashboard keeps (the `FinancialItem`, `Alert` and
    `Document` interfaces of src/contexts/AppContext.tsx), with the category
    and status codes and the per-category totals every page uses.

    Dates are UTC day numbers. Money is a `real`, because values come from
    `parseFloat` and may carry a fraction. Category and status are the raw
    strings the source passes around: rows read from the database are cast,
    not checked, and several lookups fall back to the raw code. */
module Domain {
  import opened Wrappers
  import opened Seqs

  /** A calendar day as a UTC day number. */
  type Day = int

  const FINANCE: string := "finance"
  const INSURANCE: string := "insurance"
  const INVESTMENTS: string := "investments"
  const ASSETS: string := "assets"
  const DOCUMENTS: string := "documents"

  const ACTIVE: string := "active"
  const FROZEN: string := "frozen"
  const EXPIRED: string := "expired"

  datatype FinancialItem = FinancialItem(
    id: string,
    name: string,
    institution: string,
    productType: string,
    value: real,
    lastUpdated: Day,
    expiryDate: Option<Day>,
    status: string,
    category: string,
    subcategory: Option<string>)

  datatype Alert = Alert(
    id: string,
    title: string,
    description: string,
    date: string,
    kind: string,
    category: string,
    read: bool)

  datatype Document = Document(
    id: string,
    name: string,
    docType: string,
    category: string,
    uploadDate: Day,
    size: string)

  /** The day number of a calendar date, counted from 1970-01-01 (the
      proleptic Gregorian calendar, as JavaScript's `Date` uses). */
  function CivilDay(y: int, m: int, d: int): Day
    requires 1 <= m <= 12 && 1 <= d <= 31
  {
    var y' := if m <= 2 then y - 1 else y;
    var era := y' / 400;
    var yoe := y' - era * 400;
    var mp := (m + 9) % 12;
    var doy := (153 * mp + 2) / 5 + d - 1;
    var doe := yoe * 365 + yoe / 4 - yoe / 100 + doy;
    era * 146097 + doe - 719468
  }

  /** One of the four categories a financial item can belong to. */
  predicate IsItemCategory(c: string) {
    c == FINANCE || c == INSURANCE || c == INVESTMENTS || c == ASSETS
  }

  /** `items.reduce((s, i) => s + i.value, 0)`. */
  function Total(items: seq<FinancialItem>): real
  {
    if items == [] then 0.0 else Total(items[..|items| - 1]) + items[|items| - 1].value
  }

  /** `items.filter(i => i.category === c)`. */
  function OfCategory(items: seq<FinancialItem>, c: string): seq<FinancialItem>
  {
    Filter(items, (i: FinancialItem) => i.category == c)
  }

  lemma {:induction false} TotalAppend(a: seq<FinancialItem>, b: seq<FinancialItem>)
    ensures Total(a + b) == Total(a) + Total(b)
  {
    if b == [] {
      assert a + b == a;
    } else {
      assert (a + b)[..|a + b| - 1] == a + b[..|b| - 1];
      TotalAppend(a, b[..|b| - 1]);
    }
  }

  /** Adding an item at the end adds it to its own category and to no other. */
  lemma OfCategoryLast(items: seq<FinancialItem>, c: string)
    requires items != []
    ensures var init, last := items[..|items| - 1], items[|items| - 1];
      && OfCategory(items, c) == OfCategory(init, c) + (if last.category == c then [last] else [])
      && Total(OfCategory(items, c)) == Total(OfCategory(init, c)) + (if last.category == c then last.value else 0.0)
  {
    var init, last := items[..|items| - 1], items[|items| - 1];
    TotalAppend(OfCategory(init, c), if last.category == c then [last] else []);
  }

  /** When every item is in one of the four categories, the four category
      lists split the items: their values add up to the total and their sizes
      to the number of items. */
  lemma {:induction false} CategoriesPartition(items: seq<FinancialItem>)
    requires forall i :: 0 <= i < |items| ==> IsItemCategory(items[i].category)
    ensures Total(items) == Total(OfCategory(items, FINANCE)) + Total(OfCategory(items, INSURANCE))
                            + Total(OfCategory(items, INVESTMENTS)) + Total(OfCategory(items, ASSETS))
    ensures |items| == |OfCategory(items, FINANCE)| + |OfCategory(items, INSURANCE)|
                       + |OfCategory(items, INVESTMENTS)| + |OfCategory(items, ASSETS)|
  {
    if items != [] {
      var init, last := items[..|items| - 1], items[|items| - 1];
      CategoriesPartition(init);
      OfCategoryLast(items, FINANCE);
      OfCategoryLast(items, INSURANCE);
      OfCategoryLast(items, INVESTMENTS);
      OfCategoryLast(items, ASSETS);
    }
  }
}
