/** The data shaping of src/hooks/useFinancialItems.ts: how a row of the
    `financial_items` table becomes a `FinancialItem`, the row an add
    inserts, and the patch an update writes.

    The database is not modelled: the rows a query returns are a parameter,
    and so is the signed-in user. `today` stands for the current date that
    fills in a missing `last_updated`. */
module FinancialItemsHook {
  import opened Wrappers
  import opened Text
  import opened Domain

  /** A `value` column as it arrives: a number, a text, or null. */
  datatype RowValue = Number(n: real) | Textual(s: string) | Null

  /** A row of `financial_items`; nullable columns are options. */
  datatype ItemRow = ItemRow(
    id: string,
    name: string,
    institution: string,
    productType: Option<string>,
    value: RowValue,
    lastUpdated: Option<Day>,
    expiryDate: Option<Day>,
    status: string,
    category: string,
    subcategory: Option<string>)

  /** `value`: a number as it is, otherwise `parseFloat` of its text, with
      `'0'` standing in for a missing or empty one (which `ParseZero` shows
      reads as 0), and 0 where that is NaN. */
  function ValueOf(v: RowValue): (r: real)
    ensures v.Number? ==> r == v.n
    ensures v.Null? || (v.Textual? && v.s == "") ==> r == 0.0
    ensures v.Textual? && ParseFloat(v.s).None? ==> r == 0.0
    ensures v.Textual? && ParseFloat(v.s).Some? ==> r == ParseFloat(v.s).value
  {
    match v
    case Number(n) => n
    case Textual(s) => if s == "" then 0.0 else ParseFloat(s).GetOr(0.0)
    case Null => 0.0
  }

  /** `parseFloat('0')` is 0, so the fallback text means a value of 0. */
  lemma ParseZero()
    ensures ParseFloat("0") == Some(0.0)
  {
    assert NatToString(0) == "0";
    ParseFloatNat(0);
  }

  /** The `map` over the rows: a missing product type becomes `''`, a
      missing or empty subcategory none, and a missing `last_updated` today. */
  function RowToItem(row: ItemRow, today: Day): (item: FinancialItem)
    ensures item.id == row.id && item.name == row.name && item.institution == row.institution
    ensures item.status == row.status && item.category == row.category
    ensures item.productType == (if row.productType.Some? then row.productType.value else "")
    ensures item.value == ValueOf(row.value)
    ensures item.expiryDate == row.expiryDate
    ensures item.lastUpdated == (if row.lastUpdated.Some? then row.lastUpdated.value else today)
    ensures item.subcategory.Some? <==> row.subcategory.Some? && row.subcategory.value != ""
    ensures item.subcategory.Some? ==> item.subcategory == row.subcategory
  {
    FinancialItem(
      row.id,
      row.name,
      row.institution,
      row.productType.GetOr(""),
      ValueOf(row.value),
      row.lastUpdated.GetOr(today),
      row.expiryDate,
      row.status,
      row.category,
      if row.subcategory == Some("") then None else row.subcategory)
  }

  /** The query: nothing without a user id, otherwise every row the table
      gives for that user, each mapped, in the order given. */
  function ReadItems(userId: Option<string>, rows: seq<ItemRow>, today: Day): (items: seq<FinancialItem>)
    ensures userId.None? || userId == Some("") ==> items == []
    ensures userId.Some? && userId.value != "" ==>
      |items| == |rows| && forall i :: 0 <= i < |rows| ==> items[i] == RowToItem(rows[i], today)
  {
    if userId.None? || userId.value == "" then []
    else seq(|rows|, i requires 0 <= i < |rows| => RowToItem(rows[i], today))
  }

  // ---------------------------------------------------------------------------
  // Adding

  /** The row `addItem` inserts. */
  datatype NewRow = NewRow(
    userId: string,
    name: string,
    institution: string,
    productType: string,
    value: real,
    category: string,
    subcategory: Option<string>,
    status: string,
    expiryDate: Option<Day>,
    lastUpdated: Day)

  const NOT_AUTHENTICATED: string := "Not authenticated"

  /** `addItem`: without a signed-in user it fails before inserting;
      otherwise the row carries the item's fields, an empty subcategory and
      an absent expiry written as null. */
  function InsertRow(user: Option<string>, item: FinancialItem): (r: Result<NewRow, string>)
    ensures user.None? <==> r == Err(NOT_AUTHENTICATED)
    ensures r.Ok? ==> r.value.userId == user.value
    ensures r.Ok? ==> (r.value.subcategory.None? <==> item.subcategory.None? || item.subcategory == Some(""))
    ensures r.Ok? ==> r.value.expiryDate == item.expiryDate
  {
    if user.None? then Err(NOT_AUTHENTICATED)
    else Ok(NewRow(
      user.value,
      item.name,
      item.institution,
      item.productType,
      item.value,
      item.category,
      if item.subcategory == Some("") then None else item.subcategory,
      item.status,
      item.expiryDate,
      item.lastUpdated))
  }

  /** The row the table holds once `row` is inserted under id `id`. */
  function Stored(row: NewRow, id: string): ItemRow
  {
    ItemRow(id, row.name, row.institution, Some(row.productType), Number(row.value),
            Some(row.lastUpdated), row.expiryDate, row.status, row.category, row.subcategory)
  }

  /** Adding and then reading back gives the item again, with the id the
      table gave it; only an empty subcategory comes back as none. */
  lemma InsertThenRead(user: string, item: FinancialItem, id: string, today: Day)
    ensures var r := InsertRow(Some(user), item);
      r.Ok? && RowToItem(Stored(r.value, id), today) ==
        item.(id := id, subcategory := if item.subcategory == Some("") then None else item.subcategory)
  {
  }

  // ---------------------------------------------------------------------------
  // Updating

  /** The fields an update passes; absent ones are not given. */
  datatype Updates = Updates(
    name: Option<string>,
    institution: Option<string>,
    productType: Option<string>,
    value: Option<real>,
    category: Option<string>,
    subcategory: Option<string>,
    status: Option<string>,
    expiryDate: Option<Day>,
    lastUpdated: Option<Day>)

  /** The object `updateItem` sends: each key present or not; `subcategory`
      may be present with a null value. */
  datatype Patch = Patch(
    name: Option<string>,
    institution: Option<string>,
    productType: Option<string>,
    value: Option<real>,
    category: Option<string>,
    subcategory: Option<Option<string>>,
    status: Option<string>,
    expiryDate: Option<Day>,
    lastUpdated: Option<Day>)

  /** `...(x && { key: x })`: the key only for a given, non-empty text. */
  function IfText(x: Option<string>): (r: Option<string>)
    ensures r.Some? <==> x.Some? && x.value != ""
    ensures r.Some? ==> r == x
  {
    if x.Some? && x.value != "" then x else None
  }

  /** The patch: texts only when non-empty, `value` whenever it is given
      (0 included), `subcategory` whenever it is given, with `''` written as
      null, and the two dates whenever given. */
  function BuildPatch(u: Updates): (p: Patch)
    ensures p.value == u.value
    ensures p.subcategory.Some? <==> u.subcategory.Some?
    ensures u.subcategory == Some("") ==> p.subcategory == Some(None)
    ensures u.subcategory.Some? && u.subcategory.value != "" ==> p.subcategory == Some(u.subcategory)
    ensures p.expiryDate == u.expiryDate && p.lastUpdated == u.lastUpdated
    ensures p.name.Some? <==> u.name.Some? && u.name.value != ""
    ensures p.name == IfText(u.name) && p.institution == IfText(u.institution)
    ensures p.productType == IfText(u.productType) && p.category == IfText(u.category)
    ensures p.status == IfText(u.status)
  {
    Patch(
      IfText(u.name),
      IfText(u.institution),
      IfText(u.productType),
      u.value,
      IfText(u.category),
      if u.subcategory.Some? then Some(if u.subcategory.value == "" then None else u.subcategory) else None,
      IfText(u.status),
      u.expiryDate,
      u.lastUpdated)
  }

  /** The item as read back after the patch is written: a key that is
      present replaces the column, one that is absent leaves it. */
  function ApplyPatch(item: FinancialItem, p: Patch): FinancialItem
  {
    item.(
      name := p.name.GetOr(item.name),
      institution := p.institution.GetOr(item.institution),
      productType := p.productType.GetOr(item.productType),
      value := p.value.GetOr(item.value),
      category := p.category.GetOr(item.category),
      subcategory := p.subcategory.GetOr(item.subcategory),
      status := p.status.GetOr(item.status),
      expiryDate := if p.expiryDate.Some? then p.expiryDate else item.expiryDate,
      lastUpdated := p.lastUpdated.GetOr(item.lastUpdated))
  }

  /** No update can clear an expiry date, nor blank a name, institution,
      product type, category or status. */
  lemma UpdateKeepsExpiry(item: FinancialItem, u: Updates)
    ensures var after := ApplyPatch(item, BuildPatch(u));
      && (item.expiryDate.Some? ==> after.expiryDate.Some?)
      && (item.name != "" ==> after.name != "")
      && (item.institution != "" ==> after.institution != "")
      && (item.productType != "" ==> after.productType != "")
      && (item.category != "" ==> after.category != "")
      && (item.status != "" ==> after.status != "")
  {
  }

  /** A value of 0 is written, not skipped. */
  lemma ZeroValueIsWritten(item: FinancialItem, u: Updates)
    requires u.value == Some(0.0)
    ensures ApplyPatch(item, BuildPatch(u)).value == 0.0
  {
  }

  /** A subcategory of `''` clears it. */
  lemma EmptySubcategoryClears(item: FinancialItem, u: Updates)
    requires u.subcategory == Some("")
    ensures ApplyPatch(item, BuildPatch(u)).subcategory.None?
  {
  }

  /** An update that gives nothing (or only empty texts) changes nothing,
      and writing the same update twice is writing it once. */
  lemma UpdateIdempotent(item: FinancialItem, u: Updates)
    ensures var p := BuildPatch(u); ApplyPatch(ApplyPatch(item, p), p) == ApplyPatch(item, p)
    ensures u == Updates(None, None, None, None, None, None, None, None, None) ==> ApplyPatch(item, BuildPatch(u)) == item
  {
  }
}
