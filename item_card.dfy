/** The expiry and status logic of src/components/sections/ItemCard.tsx:
    days until expiry, the expiring-soon and expired flags, the status
    label, and which expiry text the card shows. */
module ItemCard {
  import opened Wrappers
  import opened Text
  import opened Domain

  /** How close an expiry must be to count as soon. */
  const SOON_DAYS: int := 30

  const ACTIVE_LABEL: string := "פעיל"
  const FROZEN_LABEL: string := "מוקפא"
  const EXPIRED_LABEL: string := "פג תוקף"

  const EXPIRED_TEXT: string := "פג תוקף"
  const EXPIRES_IN_PREFIX: string := "פג בעוד "
  const DAYS_SUFFIX: string := " ימים"
  const EXPIRY_PREFIX: string := "תפוגה: "

  /** `getDaysUntilExpiry`: no expiry gives no count; otherwise the whole
      days from today to the expiry day. */
  function DaysUntilExpiry(expiry: Option<Day>, today: Day): (days: Option<int>)
    ensures days.None? <==> expiry.None?
    ensures days.Some? ==> expiry.value == today + days.value
  {
    match expiry
    case None => None
    case Some(e) => Some(e - today)
  }

  predicate IsExpiringSoon(days: Option<int>) {
    days.Some? && days.value <= SOON_DAYS && days.value > 0
  }

  predicate IsExpired(days: Option<int>) {
    days.Some? && days.value <= 0
  }

  /** An item is never both expiring soon and expired; without an expiry it
      is neither; with one, it is expired exactly when the expiry day is
      today or earlier, and expiring soon exactly when it is one to thirty
      days away. */
  lemma ExpiryClassification(expiry: Option<Day>, today: Day)
    ensures var days := DaysUntilExpiry(expiry, today);
      && !(IsExpiringSoon(days) && IsExpired(days))
      && (expiry.None? ==> !IsExpiringSoon(days) && !IsExpired(days))
      && (expiry.Some? ==> (IsExpired(days) <==> expiry.value <= today))
      && (expiry.Some? ==> (IsExpiringSoon(days) <==> today < expiry.value <= today + SOON_DAYS))
  {
  }

  /** `getStatusLabel`: the three known statuses get their Hebrew labels,
      any other status is shown as it is. */
  function StatusLabel(status: string): (shown: string)
    ensures status == ACTIVE ==> shown == ACTIVE_LABEL
    ensures status == FROZEN ==> shown == FROZEN_LABEL
    ensures status == EXPIRED ==> shown == EXPIRED_LABEL
    ensures status != ACTIVE && status != FROZEN && status != EXPIRED ==> shown == status
  {
    if status == ACTIVE then ACTIVE_LABEL
    else if status == FROZEN then FROZEN_LABEL
    else if status == EXPIRED then EXPIRED_LABEL
    else status
  }

  /** The known labels tell the known statuses apart. */
  lemma StatusLabelsDistinct(a: string, b: string)
    requires a in {ACTIVE, FROZEN, EXPIRED} && b in {ACTIVE, FROZEN, EXPIRED} && a != b
    ensures StatusLabel(a) != StatusLabel(b)
  {
    assert ACTIVE_LABEL != FROZEN_LABEL by { assert ACTIVE_LABEL[0] != FROZEN_LABEL[0]; }
    assert ACTIVE_LABEL != EXPIRED_LABEL by { assert |ACTIVE_LABEL| != |EXPIRED_LABEL|; }
    assert FROZEN_LABEL != EXPIRED_LABEL by { assert FROZEN_LABEL[0] != EXPIRED_LABEL[0]; }
  }

  /** The expiry line of the card, shown only when the item has an expiry:
      the expired text, else the days left when expiring soon, else the
      formatted date (`date` stands for the Hebrew date formatting). */
  function ExpiryText(expiry: Option<Day>, today: Day, date: Day -> string): (text: Option<string>)
    ensures text.None? <==> expiry.None?
    ensures IsExpired(DaysUntilExpiry(expiry, today)) ==> text == Some(EXPIRED_TEXT)
    ensures IsExpiringSoon(DaysUntilExpiry(expiry, today)) ==>
      text.Some? && Contains(text.value, IntToString(expiry.value - today))
    ensures expiry.Some? && !IsExpired(DaysUntilExpiry(expiry, today)) && !IsExpiringSoon(DaysUntilExpiry(expiry, today)) ==>
      text.Some? && Contains(text.value, date(expiry.value))
  {
    var days := DaysUntilExpiry(expiry, today);
    if expiry.None? then None
    else if IsExpired(days) then Some(EXPIRED_TEXT)
    else if IsExpiringSoon(days) then
      var n := IntToString(days.value);
      ContainsMiddle(EXPIRES_IN_PREFIX, n, DAYS_SUFFIX);
      Some(EXPIRES_IN_PREFIX + n + DAYS_SUFFIX)
    else
      ContainsEnd(EXPIRY_PREFIX, date(expiry.value));
      Some(EXPIRY_PREFIX + date(expiry.value))
  }
}
