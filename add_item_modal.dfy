/** The submit handler of src/components/modals/AddItemModal.tsx: the form
    is checked, turned into an item with defaults, added to the app state,
    reset and closed. The form's fields are the texts the inputs hold. */
module AddItemModal {
  import opened Wrappers
  import opened Text
  import opened Domain
  import opened AppContext

  const DEFAULT_PRODUCT_TYPE: string := "כללי"

  /** `categoryOptions`: the four item categories and their labels. */
  const CATEGORY_OPTIONS: seq<(string, string)> := [
    (FINANCE, "כספים ונזילות"),
    (INSURANCE, "ביטוחים"),
    (INVESTMENTS, "השקעות"),
    (ASSETS, "נכסים ונדל״ן")
  ]

  /** `categoryOptions.find(c => c.value === category)?.label`. */
  function CategoryLabel(category: string): (shown: Option<string>)
    ensures shown.None? <==> !IsItemCategory(category)
  {
    if category == FINANCE then Some(CATEGORY_OPTIONS[0].1)
    else if category == INSURANCE then Some(CATEGORY_OPTIONS[1].1)
    else if category == INVESTMENTS then Some(CATEGORY_OPTIONS[2].1)
    else if category == ASSETS then Some(CATEGORY_OPTIONS[3].1)
    else None
  }

  /** The form's five text fields. */
  datatype Form = Form(name: string, institution: string, productType: string, value: string, category: string)

  const EMPTY_FORM: Form := Form("", "", "", "", "")

  /** The required fields: name, institution and category. */
  predicate Complete(f: Form) {
    f.name != "" && f.institution != "" && f.category != ""
  }

  /** The item a complete form adds (before the context gives it an id): a
      blank product type becomes the general one, the value is `parseFloat`
      of the text with NaN as 0 and no check of its sign, and the item is
      active as of today, with no expiry or subcategory. */
  function FormItem(f: Form, today: Day): (item: FinancialItem)
    ensures item.name == f.name && item.institution == f.institution && item.category == f.category
    ensures item.productType == (if f.productType == "" then DEFAULT_PRODUCT_TYPE else f.productType)
    ensures item.productType != ""
    ensures item.value == (if ParseFloat(f.value).Some? then ParseFloat(f.value).value else 0.0)
    ensures item.status == ACTIVE && item.lastUpdated == today
    ensures item.expiryDate.None? && item.subcategory.None?
  {
    FinancialItem(
      "",
      f.name,
      f.institution,
      if f.productType == "" then DEFAULT_PRODUCT_TYPE else f.productType,
      ParseFloat(f.value).GetOr(0.0),
      today,
      None,
      ACTIVE,
      f.category,
      None)
  }

  /** The toast the submit shows. */
  datatype Toast = MissingFields | Added(name: string, categoryLabel: Option<string>)

  class AddItemModal {
    var form: Form
    const app: AppState

    constructor(app: AppState)
      ensures form == EMPTY_FORM && this.app == app
    {
      form := EMPTY_FORM;
      this.app := app;
    }

    /** `handleSubmit`. An incomplete form changes nothing. A complete one
        adds its item (the clock reading `now` becomes its id), empties the
        form and closes the modal, leaving the rest of the app state alone. */
    method HandleSubmit(today: Day, now: nat) returns (toast: Toast)
      modifies this, app
      ensures !Complete(old(form)) ==>
        toast == MissingFields && form == old(form) && app.State() == old(app.State())
      ensures Complete(old(form)) ==>
        && toast == Added(old(form).name, CategoryLabel(old(form).category))
        && form == EMPTY_FORM
        && app.State() == old(app.State()).(
             items := old(app.items) + [FormItem(old(form), today).(id := NatToString(now))],
             isAddItemModalOpen := false)
    {
      if form.name == "" || form.institution == "" || form.category == "" {
        return MissingFields;
      }
      app.AddItem(FormItem(form, today), now);
      toast := Added(form.name, CategoryLabel(form.category));
      form := EMPTY_FORM;
      app.SetAddItemModalOpen(false);
    }
  }
}
