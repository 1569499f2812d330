/** The part of src/services/openaiService.ts that does not talk to the
    model: the text that describes the user's items, unread alerts and
    documents to it, and how a failure is reported to the chat.

    `money` stands for `toLocaleString` on a value and `date` for how an
    expiry date is printed; the completion call itself is a parameter. */
module OpenAIService {
  import opened Wrappers
  import opened Text
  import opened Seqs
  import opened Domain
  import opened AppContext

  const HEADER: string := "נתונים פיננסיים של המשתמש:\n\n"
  const ITEMS_HEADER: string := "פריטים פיננסיים:\n"
  const ALERTS_HEADER: string := "התראות:\n"
  const DOCUMENTS_HEADER: string := "מסמכים:\n"
  const VALUE_LABEL: string := ", ערך: ₪"
  const EXPIRY_LABEL: string := ", תאריך פקיעה: "

  // ---------------------------------------------------------------------------
  // Lines

  /** The line of one item: its name, institution, category and amount, and
      the expiry part only when it has an expiry. */
  function ItemLine(item: FinancialItem, money: real -> string, date: Day -> string): (line: string)
    ensures line != [] && line[|line| - 1] == '\n'
    ensures Contains(line, item.name) && Contains(line, item.institution)
    ensures Contains(line, item.category) && Contains(line, money(item.value))
    ensures item.expiryDate.Some? ==> Contains(line, date(item.expiryDate.value))
  {
    var base := "- " + item.name + " (" + item.institution + "): " + item.category + VALUE_LABEL + money(item.value);
    ItemFieldsShown(item.name, item.institution, item.category, money(item.value));
    if item.expiryDate.Some? then
      var d := date(item.expiryDate.value);
      ContainsMiddle(base + EXPIRY_LABEL, d, "\n");
      FieldsKept(base, EXPIRY_LABEL + d + "\n", [item.name, item.institution, item.category, money(item.value)]);
      assert base + (EXPIRY_LABEL + d + "\n") == base + EXPIRY_LABEL + d + "\n";
      base + EXPIRY_LABEL + d + "\n"
    else
      FieldsKept(base, "\n", [item.name, item.institution, item.category, money(item.value)]);
      base + "\n"
  }

  /** The expiry decides only the suffix: an item without one gets the plain
      line, and an item with one gets the plain line with the expiry part put
      before its newline. */
  lemma ExpirySuffixOnly(item: FinancialItem, money: real -> string, date: Day -> string)
    ensures var plain := ItemLine(item.(expiryDate := None), money, date);
      && (item.expiryDate.None? ==> ItemLine(item, money, date) == plain)
      && (item.expiryDate.Some? ==>
            ItemLine(item, money, date) == plain[..|plain| - 1] + EXPIRY_LABEL + date(item.expiryDate.value) + "\n")
  {
    var base := "- " + item.name + " (" + item.institution + "): " + item.category + VALUE_LABEL + money(item.value);
    assert (base + "\n")[..|base|] == base;
  }

  /** The head of an item's line shows all four of its fields. */
  lemma ItemFieldsShown(name: string, institution: string, category: string, amount: string)
    ensures var head := "- " + name + " (" + institution + "): " + category + VALUE_LABEL + amount;
      forall f :: f in [name, institution, category, amount] ==> Contains(head, f)
  {
    var s := "- " + name;
    ContainsEnd("- ", name);
    FieldsKept(s, " (", [name]);
    s := s + " (";
    ContainsEnd(s, institution);
    FieldsKept(s, institution, [name]);
    s := s + institution;
    FieldsKept(s, "): ", [name, institution]);
    s := s + "): ";
    ContainsEnd(s, category);
    FieldsKept(s, category, [name, institution]);
    s := s + category;
    FieldsKept(s, VALUE_LABEL, [name, institution, category]);
    s := s + VALUE_LABEL;
    ContainsEnd(s, amount);
    FieldsKept(s, amount, [name, institution, category]);
  }

  /** Appending to a text keeps every part it already shows. */
  lemma FieldsKept(a: string, b: string, fields: seq<string>)
    requires forall f :: f in fields ==> Contains(a, f)
    ensures forall f :: f in fields ==> Contains(a + b, f)
  {
    forall f | f in fields
      ensures Contains(a + b, f)
    {
      ContainsPrefix(a, b, f);
    }
  }

  function AlertLine(alert: Alert): (line: string)
    ensures line != [] && line[|line| - 1] == '\n'
  {
    "- " + alert.title + ": " + alert.description + " (" + alert.date + ")\n"
  }

  function DocumentLine(doc: Document): (line: string)
    ensures line != [] && line[|line| - 1] == '\n'
  {
    "- " + doc.name + " (" + doc.category + ")\n"
  }

  function ItemLineOf(money: real -> string, date: Day -> string): FinancialItem -> string
  {
    (item: FinancialItem) => ItemLine(item, money, date)
  }

  /** The lines of all elements, one after the other. */
  function Concat<T>(s: seq<T>, line: T -> string): string
  {
    if s == [] then "" else Concat(s[..|s| - 1], line) + line(s[|s| - 1])
  }

  lemma ConcatStep<T>(s: seq<T>, i: nat, line: T -> string)
    requires i < |s|
    ensures Concat(s[..i + 1], line) == Concat(s[..i], line) + line(s[i])
  {
    assert s[..i + 1][..i] == s[..i];
  }

  // ---------------------------------------------------------------------------
  // The context

  /** The items section: present exactly when there are items. */
  function ItemsSection(items: seq<FinancialItem>, money: real -> string, date: Day -> string): (text: string)
    ensures text == [] <==> items == []
  {
    if |items| > 0 then ITEMS_HEADER + Concat(items, ItemLineOf(money, date)) + "\n" else ""
  }

  /** The alerts section: present whenever there are alerts, read or not,
      but it lists only the unread ones. */
  function AlertsSection(alerts: seq<Alert>): (text: string)
    ensures text == [] <==> alerts == []
  {
    if |alerts| > 0 then ALERTS_HEADER + Concat(Filter(alerts, IsUnread), AlertLine) + "\n" else ""
  }

  /** The documents section: present exactly when there are documents. */
  function DocumentsSection(documents: seq<Document>): (text: string)
    ensures text == [] <==> documents == []
  {
    if |documents| > 0 then DOCUMENTS_HEADER + Concat(documents, DocumentLine) else ""
  }

  /** The whole context: the fixed header, then the three sections. */
  function Context(items: seq<FinancialItem>, alerts: seq<Alert>, documents: seq<Document>,
                   money: real -> string, date: Day -> string): (text: string)
    ensures |text| >= |HEADER| && text[..|HEADER|] == HEADER
  {
    var sections := ItemsSection(items, money, date) + AlertsSection(alerts) + DocumentsSection(documents);
    PrefixOfAppend(HEADER, sections);
    HEADER + sections
  }

  lemma PrefixOfAppend(a: string, b: string)
    ensures (a + b)[..|a|] == a
  {
  }

  /** `formatFinancialData`: appends to the context section by section and
      line by line. */
  method FormatFinancialData(items: seq<FinancialItem>, alerts: seq<Alert>, documents: seq<Document>,
                             money: real -> string, date: Day -> string) returns (context: string)
    ensures context == Context(items, alerts, documents, money, date)
  {
    context := HEADER;
    context := AppendItems(context, items, money, date);
    context := AppendAlerts(context, alerts);
    context := AppendDocuments(context, documents);
    var a, b, c := ItemsSection(items, money, date), AlertsSection(alerts), DocumentsSection(documents);
    AppendAssoc(HEADER, a, b);
    AppendAssoc(HEADER, a + b, c);
  }

  method AppendItems(before: string, items: seq<FinancialItem>, money: real -> string, date: Day -> string)
    returns (context: string)
    ensures context == before + ItemsSection(items, money, date)
  {
    context := before;
    if |items| > 0 {
      context := context + ITEMS_HEADER;
      context := AppendItemLines(context, items, money, date);
      context := context + "\n";
      AppendAssoc(before, ITEMS_HEADER, Concat(items, ItemLineOf(money, date)));
      AppendAssoc(before, ITEMS_HEADER + Concat(items, ItemLineOf(money, date)), "\n");
    }
  }

  /** The `forEach` over the items: one line each, in order. */
  method AppendItemLines(before: string, items: seq<FinancialItem>, money: real -> string, date: Day -> string)
    returns (context: string)
    ensures context == before + Concat(items, ItemLineOf(money, date))
  {
    context := before;
    for i := 0 to |items|
      invariant context == before + Concat(items[..i], ItemLineOf(money, date))
    {
      ConcatStep(items, i, ItemLineOf(money, date));
      AppendAssoc(before, Concat(items[..i], ItemLineOf(money, date)), ItemLine(items[i], money, date));
      context := AppendItemLine(context, items[i], money, date);
    }
    assert items[..|items|] == items;
  }

  /** One item's line, with the expiry part only when there is an expiry. */
  method AppendItemLine(before: string, item: FinancialItem, money: real -> string, date: Day -> string)
    returns (context: string)
    ensures context == before + ItemLine(item, money, date)
  {
    var line := "- " + item.name + " (" + item.institution + "): " + item.category + VALUE_LABEL + money(item.value);
    if item.expiryDate.Some? {
      line := line + EXPIRY_LABEL + date(item.expiryDate.value);
    }
    context := before + (line + "\n");
  }

  method AppendAlerts(before: string, alerts: seq<Alert>) returns (context: string)
    ensures context == before + AlertsSection(alerts)
  {
    context := before;
    if |alerts| > 0 {
      context := context + ALERTS_HEADER;
      var unread := Filter(alerts, IsUnread);
      context := AppendAlertLines(context, unread);
      context := context + "\n";
      AppendAssoc(before, ALERTS_HEADER, Concat(unread, AlertLine));
      AppendAssoc(before, ALERTS_HEADER + Concat(unread, AlertLine), "\n");
    }
  }

  /** The `forEach` over the unread alerts. */
  method AppendAlertLines(before: string, unread: seq<Alert>) returns (context: string)
    ensures context == before + Concat(unread, AlertLine)
  {
    context := before;
    for i := 0 to |unread|
      invariant context == before + Concat(unread[..i], AlertLine)
    {
      ConcatStep(unread, i, AlertLine);
      AppendAssoc(before, Concat(unread[..i], AlertLine), AlertLine(unread[i]));
      context := AppendAlertLine(context, unread[i]);
    }
    assert unread[..|unread|] == unread;
  }

  method AppendAlertLine(before: string, alert: Alert) returns (context: string)
    ensures context == before + AlertLine(alert)
  {
    context := before + ("- " + alert.title + ": " + alert.description + " (" + alert.date + ")\n");
  }

  method AppendDocuments(before: string, documents: seq<Document>) returns (context: string)
    ensures context == before + DocumentsSection(documents)
  {
    context := before;
    if |documents| > 0 {
      context := context + DOCUMENTS_HEADER;
      context := AppendDocumentLines(context, documents);
      AppendAssoc(before, DOCUMENTS_HEADER, Concat(documents, DocumentLine));
    }
  }

  /** The `forEach` over the documents. */
  method AppendDocumentLines(before: string, documents: seq<Document>) returns (context: string)
    ensures context == before + Concat(documents, DocumentLine)
  {
    context := before;
    for i := 0 to |documents|
      invariant context == before + Concat(documents[..i], DocumentLine)
    {
      ConcatStep(documents, i, DocumentLine);
      AppendAssoc(before, Concat(documents[..i], DocumentLine), DocumentLine(documents[i]));
      context := AppendDocumentLine(context, documents[i]);
    }
    assert documents[..|documents|] == documents;
  }

  method AppendDocumentLine(before: string, doc: Document) returns (context: string)
    ensures context == before + DocumentLine(doc)
  {
    context := before + ("- " + doc.name + " (" + doc.category + ")\n");
  }

  lemma AppendAssoc(a: string, b: string, c: string)
    ensures a + b + c == a + (b + c)
  {
  }

  // ---------------------------------------------------------------------------
  // Line counts

  /** How many times `c` occurs in `s`. */
  function Occurrences(s: string, c: char): nat
  {
    if s == [] then 0 else Occurrences(s[..|s| - 1], c) + (if s[|s| - 1] == c then 1 else 0)
  }

  lemma {:induction false} OccurrencesAppend(a: string, b: string, c: char)
    ensures Occurrences(a + b, c) == Occurrences(a, c) + Occurrences(b, c)
  {
    if b == [] {
      assert a + b == a;
    } else {
      assert (a + b)[..|a + b| - 1] == a + b[..|b| - 1];
      OccurrencesAppend(a, b[..|b| - 1], c);
    }
  }

  lemma {:induction false} NoOccurrences(s: string, c: char)
    requires forall j :: 0 <= j < |s| ==> s[j] != c
    ensures Occurrences(s, c) == 0
  {
    if s != [] {
      NoOccurrences(s[..|s| - 1], c);
    }
  }

  predicate OneLine(s: string) { Occurrences(s, '\n') == 1 }
  predicate NoNewline(s: string) { Occurrences(s, '\n') == 0 }

  /** Lines of one newline each make as many newlines as there are elements. */
  lemma {:induction false} ConcatLines<T>(s: seq<T>, line: T -> string)
    requires forall i :: 0 <= i < |s| ==> OneLine(line(s[i]))
    ensures Occurrences(Concat(s, line), '\n') == |s|
  {
    if s != [] {
      ConcatLines(s[..|s| - 1], line);
      OccurrencesAppend(Concat(s[..|s| - 1], line), line(s[|s| - 1]), '\n');
    }
  }

  lemma NoNewlineAppend(a: string, b: string)
    requires NoNewline(a) && NoNewline(b)
    ensures NoNewline(a + b)
  {
    OccurrencesAppend(a, b, '\n');
  }

  lemma NoNewlineLiteral(s: string)
    requires forall j :: 0 <= j < |s| ==> s[j] != '\n'
    ensures NoNewline(s)
  {
    NoOccurrences(s, '\n');
  }

  /** The text of an item is on one line when none of its parts breaks it. */
  lemma ItemOnOneLine(item: FinancialItem, money: real -> string, date: Day -> string)
    requires NoNewline(item.name) && NoNewline(item.institution) && NoNewline(item.category)
    requires NoNewline(money(item.value))
    requires item.expiryDate.Some? ==> NoNewline(date(item.expiryDate.value))
    ensures OneLine(ItemLine(item, money, date))
  {
    var dash, open, close := "- ", " (", "): ";
    NoNewlineLiteral(dash);
    NoNewlineLiteral(open);
    NoNewlineLiteral(close);
    NoNewlineLiteral(VALUE_LABEL);
    NoNewlineLiteral(EXPIRY_LABEL);
    var base := dash;
    NoNewlineAppend(base, item.name);
    base := base + item.name;
    NoNewlineAppend(base, open);
    base := base + open;
    NoNewlineAppend(base, item.institution);
    base := base + item.institution;
    NoNewlineAppend(base, close);
    base := base + close;
    NoNewlineAppend(base, item.category);
    base := base + item.category;
    NoNewlineAppend(base, VALUE_LABEL);
    base := base + VALUE_LABEL;
    NoNewlineAppend(base, money(item.value));
    base := base + money(item.value);
    if item.expiryDate.Some? {
      NoNewlineAppend(base, EXPIRY_LABEL);
      NoNewlineAppend(base + EXPIRY_LABEL, date(item.expiryDate.value));
      base := base + EXPIRY_LABEL + date(item.expiryDate.value);
    }
    assert ItemLine(item, money, date) == base + "\n";
    assert Occurrences("\n", '\n') == 1;
    OccurrencesAppend(base, "\n", '\n');
  }

  /** One line per item: with no line break inside the items' texts, the
      items section has a line per item plus its header and blank line. */
  lemma ItemsSectionLines(items: seq<FinancialItem>, money: real -> string, date: Day -> string)
    requires items != []
    requires forall i :: 0 <= i < |items| ==>
      NoNewline(items[i].name) && NoNewline(items[i].institution) && NoNewline(items[i].category)
      && NoNewline(money(items[i].value))
      && (items[i].expiryDate.Some? ==> NoNewline(date(items[i].expiryDate.value)))
    ensures Occurrences(ItemsSection(items, money, date), '\n') == |items| + 2
  {
    var lines := Concat(items, ItemLineOf(money, date));
    ItemLinesCount(items, money, date);
    HeaderLines();
    OccurrencesAppend(ITEMS_HEADER, lines, '\n');
    OccurrencesAppend(ITEMS_HEADER + lines, "\n", '\n');
  }

  lemma ItemLinesCount(items: seq<FinancialItem>, money: real -> string, date: Day -> string)
    requires forall i :: 0 <= i < |items| ==>
      NoNewline(items[i].name) && NoNewline(items[i].institution) && NoNewline(items[i].category)
      && NoNewline(money(items[i].value))
      && (items[i].expiryDate.Some? ==> NoNewline(date(items[i].expiryDate.value)))
    ensures Occurrences(Concat(items, ItemLineOf(money, date)), '\n') == |items|
  {
    forall i | 0 <= i < |items| ensures OneLine(ItemLineOf(money, date)(items[i])) {
      ItemOnOneLine(items[i], money, date);
    }
    ConcatLines(items, ItemLineOf(money, date));
  }

  /** The items header and the closing blank line are one line each. */
  lemma HeaderLines()
    ensures Occurrences(ITEMS_HEADER, '\n') == 1 && Occurrences("\n", '\n') == 1
  {
    var title := "פריטים פיננסיים:";
    NoOccurrences(title, '\n');
    OccurrencesAppend(title, "\n", '\n');
    assert ITEMS_HEADER == title + "\n";
  }

  /** When every alert has been read the section is still there, but it is
      only its header and a blank line. */
  lemma AllReadAlerts(alerts: seq<Alert>)
    requires alerts != []
    requires forall i :: 0 <= i < |alerts| ==> alerts[i].read
    ensures AlertsSection(alerts) == ALERTS_HEADER + "\n"
  {
    FilterNone(alerts, IsUnread);
  }

  // ---------------------------------------------------------------------------
  // Errors

  const API_KEY: string := "API key"
  const MISSING_KEY_MESSAGE: string := "OpenAI " + API_KEY + " not found. Please add VITE_OPENAI_API_KEY to your .env file."
  const NO_RESPONSE_MESSAGE: string := "No response from OpenAI"
  const CONFIG_ERROR: string := "OpenAI API key לא הוגדר. אנא הוסף VITE_OPENAI_API_KEY ל-.env"
  const CONNECTION_PREFIX: string := "שגיאה בחיבור ל-OpenAI: "
  const UNKNOWN_ERROR: string := "שגיאה לא ידועה"

  /** The `catch` block: a message that mentions the API key becomes the
      configuration error; any other is wrapped, an absent or empty one as
      an unknown error. */
  function ReportedError(message: Option<string>): (e: string)
    ensures message.Some? && Contains(message.value, API_KEY) ==> e == CONFIG_ERROR
    ensures !(message.Some? && Contains(message.value, API_KEY)) ==>
      |e| > |CONNECTION_PREFIX| && e[..|CONNECTION_PREFIX|] == CONNECTION_PREFIX
    ensures message.Some? && message.value != "" && !Contains(message.value, API_KEY) ==>
      e == CONNECTION_PREFIX + message.value && Contains(e, message.value)
    ensures message.None? || message.value == "" ==> e == CONNECTION_PREFIX + UNKNOWN_ERROR
  {
    if message.Some? && Contains(message.value, API_KEY) then CONFIG_ERROR
    else
      var shown := if message.Some? && message.value != "" then message.value else UNKNOWN_ERROR;
      ContainsEnd(CONNECTION_PREFIX, shown);
      CONNECTION_PREFIX + shown
  }

  /** What the completion call gives back: the first choice's content, if
      any, or a failure with the error's message. */
  datatype Completion = Answered(content: Option<string>) | Failed(message: Option<string>)

  /** `getAIResponseWithOpenAI` after the call: no key, a failed call and an
      empty answer all end in an error; otherwise the answer, which is never
      empty. */
  function AIResponse(hasKey: bool, completion: Completion): (r: Result<string, string>)
    ensures !hasKey ==> r == Err(CONFIG_ERROR)
    ensures r.Ok? ==> r.value != "" && completion == Answered(Some(r.value))
    ensures hasKey && completion.Answered? && (completion.content.None? || completion.content.value == "") ==>
      r == Err(CONNECTION_PREFIX + NO_RESPONSE_MESSAGE)
    ensures hasKey && completion.Failed? ==> r == Err(ReportedError(completion.message))
    ensures hasKey && completion.Answered? && completion.content.Some? && completion.content.value != "" ==>
      r == Ok(completion.content.value)
  {
    if !hasKey then
      MissingKeyMentionsKey();
      Err(ReportedError(Some(MISSING_KEY_MESSAGE)))
    else
      match completion
      case Failed(message) => Err(ReportedError(message))
      case Answered(content) =>
        if content.None? || content.value == "" then
          NoResponseIsNotAboutKey();
          Err(ReportedError(Some(NO_RESPONSE_MESSAGE)))
        else Ok(content.value)
  }

  lemma MissingKeyMentionsKey()
    ensures Contains(MISSING_KEY_MESSAGE, API_KEY)
  {
    ContainsMiddle("OpenAI ", API_KEY, " not found. Please add VITE_OPENAI_API_KEY to your .env file.");
  }

  /** "No response" has no capital P, so it cannot contain "API key". */
  lemma NoResponseIsNotAboutKey()
    ensures !Contains(NO_RESPONSE_MESSAGE, API_KEY)
  {
    MissingCharNotContained(NO_RESPONSE_MESSAGE, API_KEY, 1);
  }

  /** A text that lacks one of the pattern's characters cannot contain it. */
  lemma MissingCharNotContained(s: string, pat: string, k: nat)
    requires k < |pat|
    requires forall j :: 0 <= j < |s| ==> s[j] != pat[k]
    ensures !Contains(s, pat)
  {
    forall j | 0 <= j && j + |pat| <= |s|
      ensures !OccursAt(s, pat, j)
    {
      assert s[j..j + |pat|][k] == s[j + k] != pat[k];
    }
  }
}
