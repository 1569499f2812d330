/** The figures of src/pages/sections/DashboardPage.tsx: the net worth as
    the sum of the category cards, the four-slice asset distribution, and
    the simulated change against a previous net worth of 97%. */
module DashboardPage {
  import opened Seqs
  import opened Domain
  import opened AppContext

  /** `categories.reduce((sum, cat) => sum + cat.value, 0)`. */
  function NetWorth(categories: seq<Category>): real
  {
    if categories == [] then 0.0 else NetWorth(categories[..|categories| - 1]) + categories[|categories| - 1].value
  }

  function HasId(id: string): Category -> bool { (c: Category) => c.id == id }

  /** `categories.find(c => c.id === id)?.value || 0`: the value of the first
      card with that id, or 0 when there is none. */
  function CategoryValue(categories: seq<Category>, id: string): (v: real)
    ensures (forall k :: 0 <= k < |categories| ==> categories[k].id != id) ==> v == 0.0
    ensures forall k ::
      (0 <= k < |categories| && categories[k].id == id && forall j :: 0 <= j < k ==> categories[j].id != id)
      ==> v == categories[k].value
  {
    var k := FindIndex(categories, HasId(id));
    if k >= 0 then categories[k].value else 0.0
  }

  datatype Slice = Slice(name: string, value: real, color: string)

  const ASSETS_NAME: string := "נכסים ונדל״ן"
  const INVESTMENTS_NAME: string := "השקעות"
  const FINANCE_NAME: string := "כספים ונזילות"
  const INSURANCE_NAME: string := "ביטוחים (ערך)"

  /** `assetDistribution`: always four slices, assets, investments, finance
      and insurance in that order, each worth its card's value; there is no
      documents slice. */
  function Distribution(categories: seq<Category>): (r: seq<Slice>)
    ensures |r| == 4
    ensures r[0].name == ASSETS_NAME && r[0].value == CategoryValue(categories, ASSETS)
    ensures r[1].name == INVESTMENTS_NAME && r[1].value == CategoryValue(categories, INVESTMENTS)
    ensures r[2].name == FINANCE_NAME && r[2].value == CategoryValue(categories, FINANCE)
    ensures r[3].name == INSURANCE_NAME && r[3].value == CategoryValue(categories, INSURANCE)
  {
    [ Slice(ASSETS_NAME, CategoryValue(categories, ASSETS), "hsl(330, 70%, 60%)"),
      Slice(INVESTMENTS_NAME, CategoryValue(categories, INVESTMENTS), "hsl(48, 95%, 60%)"),
      Slice(FINANCE_NAME, CategoryValue(categories, FINANCE), "hsl(168, 70%, 65%)"),
      Slice(INSURANCE_NAME, CategoryValue(categories, INSURANCE), "hsl(245, 58%, 60%)") ]
  }

  /** The store's cards read back: the net worth is the five card values,
      and the slices are the assets, investments, finance and insurance
      cards. */
  lemma {:induction false} StoreCards(items: seq<FinancialItem>, documents: seq<Document>)
    ensures var c := Categories(items, documents);
      var d := Distribution(c);
      && NetWorth(c) == c[0].value + c[1].value + c[2].value + c[3].value + c[4].value
      && d[0].value == c[3].value && d[1].value == c[2].value
      && d[2].value == c[0].value && d[3].value == c[1].value
  {
    var c := Categories(items, documents);
    assert c[..5][..4][..3][..2][..1][..0] == [];
    assert c[..4] == c[..5][..4] && c[..3] == c[..4][..3] && c[..2] == c[..3][..2] && c[..1] == c[..2][..1];
    assert c[..5] == c;
    assert NetWorth(c[..1]) == c[0].value;
    assert NetWorth(c[..2]) == NetWorth(c[..1]) + c[1].value;
    assert NetWorth(c[..3]) == NetWorth(c[..2]) + c[2].value;
    assert NetWorth(c[..4]) == NetWorth(c[..3]) + c[3].value;
    assert NetWorth(c) == NetWorth(c[..4]) + c[4].value;
    assert FindIndex(c, HasId(FINANCE)) == 0;
    assert FindIndex(c[1..], HasId(INSURANCE)) == 0;
    assert FindIndex(c[1..][1..], HasId(INVESTMENTS)) == 0;
    assert FindIndex(c[1..][1..][1..], HasId(ASSETS)) == 0;
  }

  /** With the store's cards, the net worth is the total of all items, and
      each slice is the total of its category's items. */
  lemma {:induction false} DashboardOfStore(items: seq<FinancialItem>, documents: seq<Document>)
    requires forall i :: 0 <= i < |items| ==> IsItemCategory(items[i].category)
    ensures NetWorth(Categories(items, documents)) == Total(items)
    ensures var d := Distribution(Categories(items, documents));
      && d[0].value == Total(OfCategory(items, ASSETS))
      && d[1].value == Total(OfCategory(items, INVESTMENTS))
      && d[2].value == Total(OfCategory(items, FINANCE))
      && d[3].value == Total(OfCategory(items, INSURANCE))
  {
    StoreCards(items, documents);
    CategoriesCoverItems(items, documents);
  }

  /** The distribution's slices add up to the net worth: the only card
      outside them is the documents card, which is worth nothing. Items of
      any other category are in no card and no slice. */
  lemma {:induction false} DistributionSumsToNetWorth(items: seq<FinancialItem>, documents: seq<Document>)
    ensures var d := Distribution(Categories(items, documents));
      d[0].value + d[1].value + d[2].value + d[3].value == NetWorth(Categories(items, documents))
  {
    StoreCards(items, documents);
  }

  /** `changePercent`: the change against a previous net worth of 97% of the
      current one, in percent, or 0 when that previous figure is not
      positive. */
  function ChangePercent(netWorth: real): (p: real)
    ensures netWorth <= 0.0 ==> p == 0.0
    ensures netWorth > 0.0 ==> p == 300.0 / 97.0
  {
    var previous := netWorth * 0.97;
    var change := netWorth - previous;
    if previous > 0.0 then (change / previous) * 100.0 else 0.0
  }
}
