/** The in-app chat of src/components/modals/ChatPanel.tsx: a keyword
    matcher that answers questions from the items in the application state,
    and the panel's conversation, where every message sent queues one
    delayed reply. */
module Chat {
  import opened Wrappers
  import opened Text
  import opened Seqs
  import opened Domain

  const CAR: string := "רכב"
  const CAR_INSURANCE: string := "ביטוח רכב"
  const PASSPORT: string := "דרכון"
  const VALIDITY: string := "תוקף"
  const PENSION: string := "פנסיה"
  const STUDY_FUND: string := "קרן השתלמות"
  const HOW_MUCH: string := "כמה"
  const INSURANCE_WORD: string := "ביטוח"
  const PAYING: string := "משלם"
  const EQUITY: string := "הון"
  const WORTH: string := "שווי"
  const MONEY: string := "כסף"

  /** What the bot answers, before it is put into words. */
  datatype Reply =
    | CarInsurance(institution: string, value: real)
    | CarNotFound
    | Passport
    | PensionTotal(total: real)
    | PensionNotFound
    | InsuranceTotal(total: real)
    | NetWorth(total: real)
    | Help

  predicate IsCarProduct(item: FinancialItem) { Contains(item.productType, CAR) }

  predicate AsksAboutCar(q: string) { Contains(q, CAR_INSURANCE) || Contains(q, CAR) }
  predicate AsksAboutPassport(q: string) { Contains(q, PASSPORT) || Contains(q, VALIDITY) }
  predicate AsksAboutPension(q: string) { Contains(q, PENSION) || Contains(q, STUDY_FUND) }
  predicate AsksAboutInsuranceCost(q: string) { Contains(q, HOW_MUCH) && (Contains(q, INSURANCE_WORD) || Contains(q, PAYING)) }
  predicate AsksAboutNetWorth(q: string) { Contains(q, EQUITY) || Contains(q, WORTH) || Contains(q, MONEY) }

  /** `getAIResponse`: the topics are tried in a fixed order on the
      lower-cased query, and each answer is computed from the items. */
  function GetAIResponse(query: string, items: seq<FinancialItem>): (r: Reply)
    ensures var q := ToLower(query);
      && (AsksAboutCar(q) <==> r.CarInsurance? || r.CarNotFound?)
      && (r.CarInsurance? ==>
            (exists k :: 0 <= k < |items| && IsCarProduct(items[k])
                         && r == CarInsurance(items[k].institution, items[k].value)
                         && (forall j :: 0 <= j < k ==> !IsCarProduct(items[j]))))
      && (r.CarNotFound? ==> forall k :: 0 <= k < |items| ==> !IsCarProduct(items[k]))
      && (r.Passport? <==> !AsksAboutCar(q) && AsksAboutPassport(q))
      && (r.PensionTotal? || r.PensionNotFound? <==> !AsksAboutCar(q) && !AsksAboutPassport(q) && AsksAboutPension(q))
      && (r.PensionTotal? ==> OfCategory(items, INVESTMENTS) != [] && r.total == Total(OfCategory(items, INVESTMENTS)))
      && (r.PensionNotFound? ==> OfCategory(items, INVESTMENTS) == [])
      && (r.InsuranceTotal? <==> !AsksAboutCar(q) && !AsksAboutPassport(q) && !AsksAboutPension(q)
                                 && AsksAboutInsuranceCost(q))
      && (r.InsuranceTotal? ==> r.total == Total(OfCategory(items, INSURANCE)))
      && (r.NetWorth? <==> !AsksAboutCar(q) && !AsksAboutPassport(q) && !AsksAboutPension(q)
                           && !AsksAboutInsuranceCost(q) && AsksAboutNetWorth(q))
      && (r.NetWorth? ==> r.total == Total(items))
      && (r.Help? <==> !AsksAboutCar(q) && !AsksAboutPassport(q) && !AsksAboutPension(q)
                       && !AsksAboutInsuranceCost(q) && !AsksAboutNetWorth(q))
  {
    var q := ToLower(query);
    if AsksAboutCar(q) then
      var k := FindIndex(items, IsCarProduct);
      if k >= 0 then CarInsurance(items[k].institution, items[k].value) else CarNotFound
    else if AsksAboutPassport(q) then Passport
    else if AsksAboutPension(q) then
      var pension := OfCategory(items, INVESTMENTS);
      if |pension| > 0 then PensionTotal(Total(pension)) else PensionNotFound
    else if AsksAboutInsuranceCost(q) then InsuranceTotal(Total(OfCategory(items, INSURANCE)))
    else if AsksAboutNetWorth(q) then NetWorth(Total(items))
    else Help
  }

  /** The first car test is subsumed by the second: whatever mentions car
      insurance mentions a car. */
  lemma CarPhraseSubsumed(q: string)
    requires Contains(q, CAR_INSURANCE)
    ensures Contains(q, CAR)
  {
    var i := IndexOf(q, CAR_INSURANCE);
    assert CAR_INSURANCE[6..] == CAR;
    assert q[i + 6..i + 9] == CAR_INSURANCE[6..];
    OccursContains(q, CAR, i + 6);
  }

  /** With every item in one of the four categories, the net-worth answer is
      the sum of the four category totals. */
  lemma NetWorthIsSumOfCategories(query: string, items: seq<FinancialItem>)
    requires forall i :: 0 <= i < |items| ==> IsItemCategory(items[i].category)
    requires GetAIResponse(query, items).NetWorth?
    ensures GetAIResponse(query, items).total ==
      Total(OfCategory(items, FINANCE)) + Total(OfCategory(items, INSURANCE))
      + Total(OfCategory(items, INVESTMENTS)) + Total(OfCategory(items, ASSETS))
  {
    CategoriesPartition(items);
  }

  const CAR_TEXT_START: string := "ביטוח הרכב שלך הוא דרך "
  const CAR_TEXT_COST: string := ", בעלות שנתית של ₪"
  const CAR_TEXT_END: string := ". תאריך החידוש הקרוב: 26/01/2026."
  const CAR_NOT_FOUND_TEXT: string := "לא מצאתי מידע על ביטוח רכב במערכת."
  const PASSPORT_TEXT: string := "הדרכון שלך יפוג ב-12/04/2026. מומלץ להתחיל בתהליך החידוש לפחות 3 חודשים מראש."
  const PENSION_TEXT_START: string := "סך ההשקעות לטווח ארוך שלך: ₪"
  const PENSION_TEXT_END: string := ". זה כולל פנסיה וקרן השתלמות."
  const PENSION_NOT_FOUND_TEXT: string := "לא מצאתי מידע על חסכונות פנסיוניים."
  const INSURANCE_TEXT_START: string := "סך ההוצאות השנתיות על ביטוחים: ₪"
  const NET_WORTH_TEXT_START: string := "סך ההון העצמי הכולל שלך: ₪"
  const HELP_TEXT: string :=
    "אני יכול לעזור לך עם מידע על הנכסים, הביטוחים וההשקעות שלך. נסה לשאול שאלה ספציפית כמו 'כמה אני משלם על ביטוחים?' או 'מתי פג תוקף הדרכון?'"

  /** The text of a reply; `money` stands for `toLocaleString`. Every amount
      and institution the reply carries appears in the text. */
  function Render(r: Reply, money: real -> string): (text: string)
    ensures r.CarInsurance? ==> Contains(text, r.institution) && Contains(text, money(r.value))
    ensures r.PensionTotal? || r.InsuranceTotal? || r.NetWorth? ==> Contains(text, money(r.total))
  {
    match r
    case CarInsurance(institution, value) =>
      var text := CAR_TEXT_START + institution + CAR_TEXT_COST + money(value) + CAR_TEXT_END;
      ContainsMiddle(CAR_TEXT_START, institution, CAR_TEXT_COST + money(value) + CAR_TEXT_END);
      assert text == CAR_TEXT_START + institution + (CAR_TEXT_COST + money(value) + CAR_TEXT_END);
      ContainsMiddle(CAR_TEXT_START + institution + CAR_TEXT_COST, money(value), CAR_TEXT_END);
      text
    case CarNotFound => CAR_NOT_FOUND_TEXT
    case Passport => PASSPORT_TEXT
    case PensionTotal(total) =>
      ContainsMiddle(PENSION_TEXT_START, money(total), PENSION_TEXT_END);
      PENSION_TEXT_START + money(total) + PENSION_TEXT_END
    case PensionNotFound => PENSION_NOT_FOUND_TEXT
    case InsuranceTotal(total) =>
      ContainsMiddle(INSURANCE_TEXT_START, money(total), ".");
      INSURANCE_TEXT_START + money(total) + "."
    case NetWorth(total) =>
      ContainsMiddle(NET_WORTH_TEXT_START, money(total), ".");
      NET_WORTH_TEXT_START + money(total) + "."
    case Help => HELP_TEXT
  }

  // ---------------------------------------------------------------------------
  // The panel

  datatype Sender = User | Bot

  datatype Message = Message(id: string, content: string, sender: Sender, timestamp: int)

  /** A reply waiting for its timer: the text as it was sent and the items
      as they were when it was sent. */
  datatype PendingReply = PendingReply(query: string, items: seq<FinancialItem>)

  const GREETING: string :=
    "שלום! אני הבוט החכם שלך 🤖 אני יכול לעזור לך למצוא מידע על הנכסים והביטוחים שלך. מה תרצה לדעת?"

  /** How many messages in `msgs` come from `s`. */
  function CountFrom(msgs: seq<Message>, s: Sender): nat
  {
    if msgs == [] then 0
    else CountFrom(msgs[..|msgs| - 1], s) + (if msgs[|msgs| - 1].sender == s then 1 else 0)
  }

  lemma CountFromAppend(msgs: seq<Message>, m: Message, s: Sender)
    ensures CountFrom(msgs + [m], s) == CountFrom(msgs, s) + (if m.sender == s then 1 else 0)
  {
    assert (msgs + [m])[..|msgs|] == msgs;
  }

  class ChatPanel {
    var messages: seq<Message>
    var input: string
    /** The replies whose timers are running, oldest first; all timers have
        the same delay, so they fire in this order. */
    var pending: seq<PendingReply>

    /** Every user message is answered once: the greeting plus one reply per
        user message, delivered or still pending. */
    predicate Valid()
      reads this
    {
      && messages != []
      && messages[0].sender == Bot
      && CountFrom(messages, User) + 1 == CountFrom(messages, Bot) + |pending|
    }

    constructor(now: int)
      ensures Valid()
      ensures messages == [Message("1", GREETING, Bot, now)] && input == "" && pending == []
    {
      messages := [Message("1", GREETING, Bot, now)];
      input := "";
      pending := [];
      assert [Message("1", GREETING, Bot, now)][..0] == [];
    }

    method SetInput(text: string)
      requires Valid()
      modifies this
      ensures Valid()
      ensures input == text && messages == old(messages) && pending == old(pending)
    {
      input := text;
    }

    /** `handleSend`: blank input is ignored; otherwise the text is posted as
        the user's message with the clock reading `now` as its id, the input
        is cleared, and a reply to the text, over the current items, is
        queued. */
    method HandleSend(items: seq<FinancialItem>, now: nat)
      requires Valid()
      modifies this
      ensures Valid()
      ensures Trim(old(input)) == [] ==> messages == old(messages) && input == old(input) && pending == old(pending)
      ensures Trim(old(input)) != [] ==>
        && messages == old(messages) + [Message(NatToString(now), old(input), User, now)]
        && input == ""
        && pending == old(pending) + [PendingReply(old(input), items)]
    {
      if Trim(input) == [] {
        return;
      }
      var userMessage := Message(NatToString(now), input, User, now);
      CountFromAppend(messages, userMessage, User);
      CountFromAppend(messages, userMessage, Bot);
      assert (messages + [userMessage])[0] == messages[0];
      messages := messages + [userMessage];
      pending := pending + [PendingReply(input, items)];
      input := "";
    }

    /** The oldest timer fires: the answer to its text is posted as the
        bot's message, with id `now + 1`. */
    method DeliverReply(now: nat, money: real -> string)
      requires Valid() && pending != []
      modifies this
      ensures Valid()
      ensures var p := old(pending)[0];
        messages == old(messages) + [Message(NatToString(now + 1), Render(GetAIResponse(p.query, p.items), money), Bot, now)]
      ensures pending == old(pending)[1..] && input == old(input)
    {
      var p := pending[0];
      var botMessage := Message(NatToString(now + 1), Render(GetAIResponse(p.query, p.items), money), Bot, now);
      CountFromAppend(messages, botMessage, User);
      CountFromAppend(messages, botMessage, Bot);
      messages := messages + [botMessage];
      pending := pending[1..];
    }
  }
}
