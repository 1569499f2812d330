/** The renewal reminders of src/services/reminderService.ts: which items
    are due for a reminder, the reminder text, and the loop that sends one
    WhatsApp message per due item and counts successes and failures.

    The signed-in user, the `financial_items` table, the query's failure, the
    clock, date formatting and the outcome of each send are parameters. */
module ReminderService {
  import opened Wrappers
  import opened Text
  import opened Seqs
  import opened Domain

  /** The window `checkRenewalReminders` uses by default and `sendAllReminders` always uses. */
  const DEFAULT_WINDOW: int := 14

  /** The columns of a `financial_items` row that the check reads or filters on. */
  datatype ItemRecord = ItemRecord(
    id: string,
    userId: string,
    name: string,
    expiryDate: Option<Day>,
    category: string,
    status: string)

  /** A row as the query returns it: the five selected columns under their
      column names. The `as ReminderItem[]` cast changes the static type
      only, so the object keeps `expiry_date` and `user_id` and has no
      `expiryDate` or `userId`. The query keeps only rows with a date. */
  datatype SelectedRow = SelectedRow(
    id: string,
    name: string,
    expiry_date: Day,
    category: string,
    user_id: string)

  /** The `ReminderItem` interface, with the date under the name the
      sending code reads. */
  datatype ReminderItem = ReminderItem(
    id: string,
    name: string,
    expiryDate: Day,
    category: string,
    userId: string)

  /** The query's filter: the user's active items whose expiry falls between
      today and `daysBefore` days from today, both ends included. */
  predicate DueForReminder(row: ItemRecord, userId: string, today: Day, daysBefore: int) {
    && row.userId == userId
    && row.status == ACTIVE
    && row.expiryDate.Some?
    && today <= row.expiryDate.value <= today + daysBefore
  }

  /** The selected columns of a row that has a date. */
  function Selected(row: ItemRecord): SelectedRow
    requires row.expiryDate.Some?
  {
    SelectedRow(row.id, row.name, row.expiryDate.value, row.category, row.userId)
  }

  /** `row` is what the query returns for a row of `table` that is due. */
  predicate ComesFromDueRow(row: SelectedRow, table: seq<ItemRecord>, userId: string, today: Day, daysBefore: int) {
    exists j :: 0 <= j < |table| && DueForReminder(table[j], userId, today, daysBefore) && row == Selected(table[j])
  }

  /** The selected columns of each of `rows`, in order. */
  function SelectedAll(rows: seq<ItemRecord>): seq<SelectedRow>
    requires forall i :: 0 <= i < |rows| ==> rows[i].expiryDate.Some?
  {
    seq(|rows|, i requires 0 <= i < |rows| => Selected(rows[i]))
  }

  /** The selected rows, in table order. */
  function Select(table: seq<ItemRecord>, userId: string, today: Day, daysBefore: int): (r: seq<SelectedRow>)
    ensures r == SelectedAll(Filter(table, row => DueForReminder(row, userId, today, daysBefore)))
    ensures |r| <= |table|
    ensures forall i :: 0 <= i < |r| ==> ComesFromDueRow(r[i], table, userId, today, daysBefore)
    ensures forall j :: 0 <= j < |table| && DueForReminder(table[j], userId, today, daysBefore) ==> Selected(table[j]) in r
  {
    if table == [] then []
    else
      var init := Select(table[..|table| - 1], userId, today, daysBefore);
      var last := table[|table| - 1];
      init + (if DueForReminder(last, userId, today, daysBefore) then [Selected(last)] else [])
  }

  /** `checkRenewalReminders`: nothing without a signed-in user or when the
      query fails; otherwise the due rows, each the user's and dated inside
      the window. */
  function CheckRenewalReminders(user: Option<string>, table: seq<ItemRecord>, queryFails: bool,
                                 today: Day, daysBefore: int): (r: Option<seq<SelectedRow>>)
    ensures r.None? <==> user.None? || queryFails
    ensures r.Some? ==> r.value == Select(table, user.value, today, daysBefore)
    ensures r.Some? ==> forall i :: 0 <= i < |r.value| ==>
      r.value[i].user_id == user.value && today <= r.value[i].expiry_date <= today + daysBefore
  {
    if user.None? || queryFails then None
    else
      var r := Select(table, user.value, today, daysBefore);
      assert forall i :: 0 <= i < |r| ==>
        r[i].user_id == user.value && today <= r[i].expiry_date <= today + daysBefore;
      Some(r)
  }

  /** A wider window never drops a reminder. */
  lemma WiderWindowKeepsReminders(table: seq<ItemRecord>, userId: string, today: Day, d1: int, d2: int)
    requires d1 <= d2
    ensures forall i :: 0 <= i < |Select(table, userId, today, d1)| ==>
      Select(table, userId, today, d1)[i] in Select(table, userId, today, d2)
  {
    var narrow := Select(table, userId, today, d1);
    forall i | 0 <= i < |narrow|
      ensures narrow[i] in Select(table, userId, today, d2)
    {
      assert ComesFromDueRow(narrow[i], table, userId, today, d1);
      var j :| 0 <= j < |table| && DueForReminder(table[j], userId, today, d1) && narrow[i] == Selected(table[j]);
      var wide := Select(table, userId, today, d2);
      assert DueForReminder(table[j], userId, today, d2);
      assert Selected(table[j]) in wide;
    }
  }

  const CATEGORY_NAMES: map<string, string> :=
    map[INSURANCE := "ביטוח", FINANCE := "כספים", INVESTMENTS := "השקעות", ASSETS := "נכסים"]

  /** The category's Hebrew name from the four-entry table, or the raw code. */
  function CategoryLabel(category: string): (shown: string)
    ensures category in CATEGORY_NAMES ==> shown == CATEGORY_NAMES[category]
    ensures category !in CATEGORY_NAMES ==> shown == category
  {
    if category in CATEGORY_NAMES then CATEGORY_NAMES[category] else category
  }

  /** The table is keyed by exactly the four item categories, and no two of
      them share a label. */
  lemma CategoryLabelsDistinct(a: string, b: string)
    requires IsItemCategory(a) && IsItemCategory(b) && a != b
    ensures CategoryLabel(a) != CategoryLabel(b)
  {
    assert a in CATEGORY_NAMES && b in CATEGORY_NAMES;
    assert CATEGORY_NAMES[a] != CATEGORY_NAMES[b] by {
      assert CATEGORY_NAMES[a][0] != CATEGORY_NAMES[b][0] || |CATEGORY_NAMES[a]| != |CATEGORY_NAMES[b]|;
    }
  }

  /** `Math.ceil` of the millisecond difference, as a whole-day difference. */
  function DaysUntilExpiry(expiry: Day, today: Day): (days: int)
    ensures today + days == expiry
  {
    expiry - today
  }

  /** A due item is between 0 and `daysBefore` days from expiry. */
  lemma DueDaysInWindow(row: ItemRecord, userId: string, today: Day, daysBefore: int)
    requires DueForReminder(row, userId, today, daysBefore)
    ensures 0 <= DaysUntilExpiry(row.expiryDate.value, today) <= daysBefore
  {
  }

  const REMINDER_PREFIX: string := "🔔 תזכורת: "
  const RENEWAL_DATE_PREFIX: string := "תאריך חידוש: "
  const REMAINING_PREFIX: string := "נותרו "
  const DAYS_SUFFIX: string := " ימים"
  /** What `toLocaleDateString` gives for a date built from `undefined`. */
  const INVALID_DATE: string := "Invalid Date"
  /** How a template literal writes `NaN`. */
  const NAN: string := "NaN"

  /** The message `sendReminder` builds for a selected row as written: the
      row has no `expiryDate`, so the date is `new Date(undefined)`, the
      formatted date is "Invalid Date" and the day count is `NaN`. */
  function ReminderTextAsWritten(row: SelectedRow): string
  {
    REMINDER_PREFIX + row.name + " (" + CategoryLabel(row.category) + ")\n"
    + RENEWAL_DATE_PREFIX + INVALID_DATE + "\n"
    + REMAINING_PREFIX + NAN + DAYS_SUFFIX
  }

  /** As written, the message says "Invalid Date" and "NaN" and does not
      depend on the row's date at all: two rows that differ only in their
      expiry get the same reminder. */
  lemma ReminderAsWrittenLosesDate(row: SelectedRow, other: Day)
    ensures ReminderTextAsWritten(row) == ReminderTextAsWritten(row.(expiry_date := other))
    ensures Contains(ReminderTextAsWritten(row), INVALID_DATE)
    ensures Contains(ReminderTextAsWritten(row), NAN)
  {
    var p0 := REMINDER_PREFIX + row.name + " (" + CategoryLabel(row.category) + ")\n" + RENEWAL_DATE_PREFIX;
    var p1 := p0 + INVALID_DATE;
    var p2 := p1 + "\n" + REMAINING_PREFIX;
    var p3 := p2 + NAN;
    ContainsEnd(p0, INVALID_DATE);
    ContainsPrefix(p1, "\n", INVALID_DATE);
    ContainsPrefix(p1 + "\n", REMAINING_PREFIX, INVALID_DATE);
    ContainsPrefix(p2, NAN, INVALID_DATE);
    ContainsPrefix(p3, DAYS_SUFFIX, INVALID_DATE);
    ContainsEnd(p2, NAN);
    ContainsPrefix(p3, DAYS_SUFFIX, NAN);
  }

  /** The row under the interface's names, as a query that aliases the
      columns (`expiryDate:expiry_date, userId:user_id`) would return it. */
  function ToReminder(row: SelectedRow): (item: ReminderItem)
    ensures item.expiryDate == row.expiry_date && item.userId == row.user_id
    ensures item.id == row.id && item.name == row.name && item.category == row.category
  {
    ReminderItem(row.id, row.name, row.expiry_date, row.category, row.user_id)
  }

  /** The reminder message once the date is read; `date` stands for the
      Hebrew date formatting. */
  function ReminderText(item: ReminderItem, today: Day, date: Day -> string): string
  {
    REMINDER_PREFIX + item.name + " (" + CategoryLabel(item.category) + ")\n"
    + RENEWAL_DATE_PREFIX + date(item.expiryDate) + "\n"
    + REMAINING_PREFIX + IntToString(DaysUntilExpiry(item.expiryDate, today)) + DAYS_SUFFIX
  }

  /** The reminder names the item, its category label, the renewal date and
      the days left. */
  lemma ReminderTextMentions(item: ReminderItem, today: Day, date: Day -> string)
    ensures var text := ReminderText(item, today, date);
      && Contains(text, item.name)
      && Contains(text, CategoryLabel(item.category))
      && Contains(text, date(item.expiryDate))
      && Contains(text, IntToString(DaysUntilExpiry(item.expiryDate, today)))
  {
    var name, categoryName := item.name, CategoryLabel(item.category);
    var when, days := date(item.expiryDate), IntToString(DaysUntilExpiry(item.expiryDate, today));
    var p1 := REMINDER_PREFIX + name;
    var p2 := p1 + " (" + categoryName;
    var p3 := p2 + ")\n" + RENEWAL_DATE_PREFIX + when;
    var p4 := p3 + "\n" + REMAINING_PREFIX + days;
    ContainsEnd(REMINDER_PREFIX, name);
    ContainsEnd(p1 + " (", categoryName);
    ContainsEnd(p2 + ")\n" + RENEWAL_DATE_PREFIX, when);
    ContainsEnd(p3 + "\n" + REMAINING_PREFIX, days);
    ContainsPrefix(p1, " (", name);
    ContainsPrefix(p1 + " (", categoryName, name);
    ContainsPrefix(p2, ")\n", name);
    ContainsPrefix(p2, ")\n", categoryName);
    ContainsPrefix(p2 + ")\n", RENEWAL_DATE_PREFIX, name);
    ContainsPrefix(p2 + ")\n", RENEWAL_DATE_PREFIX, categoryName);
    ContainsPrefix(p2 + ")\n" + RENEWAL_DATE_PREFIX, when, name);
    ContainsPrefix(p2 + ")\n" + RENEWAL_DATE_PREFIX, when, categoryName);
    GrowTail(p3, name, days);
    GrowTail(p3, categoryName, days);
    GrowTail(p3, when, days);
    ContainsPrefix(p4, DAYS_SUFFIX, name);
    ContainsPrefix(p4, DAYS_SUFFIX, categoryName);
    ContainsPrefix(p4, DAYS_SUFFIX, when);
    ContainsPrefix(p4, DAYS_SUFFIX, days);
  }

  lemma GrowTail(p3: string, pat: string, days: string)
    requires Contains(p3, pat)
    ensures Contains(p3 + "\n" + REMAINING_PREFIX + days, pat)
  {
    ContainsPrefix(p3, "\n", pat);
    ContainsPrefix(p3 + "\n", REMAINING_PREFIX, pat);
    ContainsPrefix(p3 + "\n" + REMAINING_PREFIX, days, pat);
  }

  /** How many of the first `n` sends succeed. */
  function CountDelivered(n: nat, delivered: nat -> bool): (c: nat)
    ensures c <= n
  {
    if n == 0 then 0 else CountDelivered(n - 1, delivered) + (if delivered(n - 1) then 1 else 0)
  }

  /** The `for` loop of `sendAllReminders`: every reminder is tried once, in
      order, with the message `message` builds for it; `delivered(i)` is
      whether the i-th send succeeds, and a failed send is counted and the
      loop goes on. */
  method SendEach<T>(reminders: seq<T>, message: T -> string, delivered: nat -> bool)
    returns (sent: nat, failed: nat, messages: seq<string>)
    ensures sent + failed == |reminders|
    ensures sent == CountDelivered(|reminders|, delivered)
    ensures |messages| == |reminders|
    ensures forall i :: 0 <= i < |reminders| ==> messages[i] == message(reminders[i])
  {
    sent, failed, messages := 0, 0, [];
    for i := 0 to |reminders|
      invariant sent + failed == i
      invariant sent == CountDelivered(i, delivered)
      invariant |messages| == i
      invariant forall k :: 0 <= k < i ==> messages[k] == message(reminders[k])
    {
      messages := messages + [message(reminders[i])];
      if delivered(i) {
        sent := sent + 1;
      } else {
        failed := failed + 1;
      }
    }
  }

  /** `sendAllReminders` as written: checks with the default window, then
      sends every selected row its reminder, which carries no date. */
  method SendAllReminders(user: Option<string>, table: seq<ItemRecord>, queryFails: bool,
                          today: Day, delivered: nat -> bool)
    returns (sent: nat, failed: nat, messages: seq<string>)
    ensures var check := CheckRenewalReminders(user, table, queryFails, today, DEFAULT_WINDOW);
      var rows := if check.Some? then check.value else [];
      && sent + failed == |rows|
      && sent == CountDelivered(|rows|, delivered)
      && |messages| == |rows|
      && forall i :: 0 <= i < |rows| ==>
           messages[i] == ReminderTextAsWritten(rows[i]) && Contains(messages[i], INVALID_DATE)
  {
    var check := CheckRenewalReminders(user, table, queryFails, today, DEFAULT_WINDOW);
    if check.None? || |check.value| == 0 {
      return 0, 0, [];
    }
    sent, failed, messages := SendEach(check.value, ReminderTextAsWritten, delivered);
    forall i | 0 <= i < |check.value|
      ensures Contains(ReminderTextAsWritten(check.value[i]), INVALID_DATE)
    {
      ReminderAsWrittenLosesDate(check.value[i], check.value[i].expiry_date);
    }
  }

  /** `sendAllReminders` with the date read under the interface's name:
      every reminder states its item's renewal date and the days left. */
  method SendAllRemindersCorrected(user: Option<string>, table: seq<ItemRecord>, queryFails: bool,
                                   today: Day, date: Day -> string, delivered: nat -> bool)
    returns (sent: nat, failed: nat, messages: seq<string>)
    ensures var check := CheckRenewalReminders(user, table, queryFails, today, DEFAULT_WINDOW);
      var rows := if check.Some? then check.value else [];
      && sent + failed == |rows|
      && sent == CountDelivered(|rows|, delivered)
      && |messages| == |rows|
      && forall i :: 0 <= i < |rows| ==>
           && messages[i] == ReminderText(ToReminder(rows[i]), today, date)
           && Contains(messages[i], date(rows[i].expiry_date))
           && Contains(messages[i], IntToString(DaysUntilExpiry(rows[i].expiry_date, today)))
  {
    var check := CheckRenewalReminders(user, table, queryFails, today, DEFAULT_WINDOW);
    if check.None? || |check.value| == 0 {
      return 0, 0, [];
    }
    var rows := check.value;
    var text := (row: SelectedRow) => ReminderText(ToReminder(row), today, date);
    sent, failed, messages := SendEach(rows, text, delivered);
    forall i | 0 <= i < |rows|
      ensures Contains(messages[i], date(rows[i].expiry_date))
      ensures Contains(messages[i], IntToString(DaysUntilExpiry(rows[i].expiry_date, today)))
    {
      ReminderTextMentions(ToReminder(rows[i]), today, date);
    }
  }
}
