/** The application state of src/contexts/AppContext.tsx: the items, alerts
    and documents the pages show, the navigation and modal flags, the search
    query, and the values derived from them on every render (search results,
    unread count, category summaries). */
module AppContext {
  import opened Wrappers
  import opened Text
  import opened Seqs
  import opened Domain

  const DASHBOARD: string := "dashboard"

  /** A category summary card: its total value and how many entries it has. */
  datatype Category = Category(id: string, title: string, value: real, itemCount: nat)

  // ---------------------------------------------------------------------------
  // Derived values

  /** The search matches an item when the query is a substring of its name,
      institution or product type. */
  predicate Matches(item: FinancialItem, query: string) {
    Contains(item.name, query) || Contains(item.institution, query) || Contains(item.productType, query)
  }

  predicate IsResult(item: FinancialItem, query: string) {
    query != "" && Matches(item, query)
  }

  /** `searchResults`: an empty query finds nothing; otherwise the items that
      match, in their order. */
  function SearchResults(items: seq<FinancialItem>, query: string): (r: seq<FinancialItem>)
    ensures query == "" ==> r == []
    ensures forall i :: 0 <= i < |r| ==> r[i] in items && Matches(r[i], query)
    ensures forall i :: 0 <= i < |items| && query != "" && Matches(items[i], query) ==> items[i] in r
    ensures IsSubseq(r, items)
    ensures forall x :: multiset(r)[x] == if query != "" && Matches(x, query) then multiset(items)[x] else 0
  {
    FilterIsSubseq(items, (item: FinancialItem) => IsResult(item, query));
    FilterCount(items, (item: FinancialItem) => IsResult(item, query));
    if query == "" then
      FilterNone(items, (item: FinancialItem) => IsResult(item, query));
      Filter(items, (item: FinancialItem) => IsResult(item, query))
    else
      Filter(items, (item: FinancialItem) => IsResult(item, query))
  }

  /** Typing more narrows the search: every result for `query + more` is a
      result for `query`. */
  lemma SearchNarrows(items: seq<FinancialItem>, query: string, more: string)
    requires query != ""
    ensures forall i :: 0 <= i < |SearchResults(items, query + more)| ==>
      SearchResults(items, query + more)[i] in SearchResults(items, query)
  {
    var longer := SearchResults(items, query + more);
    forall i | 0 <= i < |longer|
      ensures longer[i] in SearchResults(items, query)
    {
      var it := longer[i];
      if Contains(it.name, query + more) {
        ContainsPatternPrefix(it.name, query, more);
      } else if Contains(it.institution, query + more) {
        ContainsPatternPrefix(it.institution, query, more);
      } else {
        ContainsPatternPrefix(it.productType, query, more);
      }
      var k :| 0 <= k < |items| && items[k] == it;
    }
  }

  /** `markAlertAsRead`: every alert with that id is marked read, nothing
      else changes. */
  function MarkRead(alerts: seq<Alert>, id: string): (r: seq<Alert>)
    ensures |r| == |alerts|
    ensures forall i :: 0 <= i < |alerts| ==>
      r[i] == (if alerts[i].id == id then alerts[i].(read := true) else alerts[i])
  {
    if alerts == [] then []
    else
      var last := alerts[|alerts| - 1];
      MarkRead(alerts[..|alerts| - 1], id) + [if last.id == id then last.(read := true) else last]
  }

  predicate IsUnread(a: Alert) { !a.read }

  /** `unreadAlertsCount`: how many alerts are unread; zero exactly when
      every alert has been read. */
  function UnreadCount(alerts: seq<Alert>): (n: nat)
    ensures n <= |alerts|
    ensures n == 0 <==> forall i :: 0 <= i < |alerts| ==> alerts[i].read
  {
    var unread := Filter(alerts, IsUnread);
    assert forall i :: 0 <= i < |alerts| && IsUnread(alerts[i]) ==> alerts[i] in unread;
    assert unread != [] ==> IsUnread(unread[0]) && unread[0] in alerts;
    |unread|
  }

  /** The unread alerts that carry a given id. */
  function UnreadWithId(alerts: seq<Alert>, id: string): seq<Alert>
  {
    Filter(alerts, (a: Alert) => !a.read && a.id == id)
  }

  /** Marking an alert read lowers the unread count by exactly the number of
      unread alerts with that id. */
  lemma {:induction false} MarkReadCount(alerts: seq<Alert>, id: string)
    ensures UnreadCount(MarkRead(alerts, id)) == UnreadCount(alerts) - |UnreadWithId(alerts, id)|
  {
    if alerts != [] {
      var init := alerts[..|alerts| - 1];
      MarkReadCount(init, id);
      assert MarkRead(alerts, id)[..|alerts| - 1] == MarkRead(init, id);
    }
  }

  /** Marking the same alert twice is marking it once. */
  lemma MarkReadIdempotent(alerts: seq<Alert>, id: string)
    ensures MarkRead(MarkRead(alerts, id), id) == MarkRead(alerts, id)
  {
  }

  /** Afterwards no alert with that id is unread. */
  lemma {:induction false} MarkReadClears(alerts: seq<Alert>, id: string)
    ensures UnreadWithId(MarkRead(alerts, id), id) == []
  {
    if alerts != [] {
      var init := alerts[..|alerts| - 1];
      MarkReadClears(init, id);
      assert MarkRead(alerts, id)[..|alerts| - 1] == MarkRead(init, id);
    }
  }

  /** A card shows the total and the number of the items of its category. */
  predicate Summarises(c: Category, items: seq<FinancialItem>) {
    c.value == Total(OfCategory(items, c.id)) && c.itemCount == |OfCategory(items, c.id)|
  }

  function CategorySummary(items: seq<FinancialItem>, id: string, title: string): (c: Category)
    ensures c.id == id && Summarises(c, items)
  {
    Category(id, title, Total(OfCategory(items, id)), |OfCategory(items, id)|)
  }

  /** `categories`: the four item categories in a fixed order, each with the
      total and count of its items, then the documents card, which counts
      documents and is worth nothing. */
  function Categories(items: seq<FinancialItem>, documents: seq<Document>): (r: seq<Category>)
    ensures |r| == 5
    ensures r[0].id == FINANCE && r[1].id == INSURANCE && r[2].id == INVESTMENTS && r[3].id == ASSETS
    ensures forall k :: 0 <= k < 4 ==> Summarises(r[k], items)
    ensures r[4] == Category(DOCUMENTS, "מסמכים", 0.0, |documents|)
  {
    [ CategorySummary(items, FINANCE, "כספים ונזילות"),
      CategorySummary(items, INSURANCE, "ביטוחים"),
      CategorySummary(items, INVESTMENTS, "השקעות"),
      CategorySummary(items, ASSETS, "נכסים ונדל״ן"),
      Category(DOCUMENTS, "מסמכים", 0.0, |documents|) ]
  }

  /** The cards account for every item: their values add up to the total
      and their counts to the number of items. */
  lemma {:induction false} CategoriesCoverItems(items: seq<FinancialItem>, documents: seq<Document>)
    requires forall i :: 0 <= i < |items| ==> IsItemCategory(items[i].category)
    ensures var c := Categories(items, documents);
      && c[0].value + c[1].value + c[2].value + c[3].value + c[4].value == Total(items)
      && c[0].itemCount + c[1].itemCount + c[2].itemCount + c[3].itemCount == |items|
  {
    CategoriesPartition(items);
  }

  // ---------------------------------------------------------------------------
  // Initial data

  const INITIAL_ITEMS: seq<FinancialItem> := [
    FinancialItem("1", "חשבון עו״ש", "בנק לאומי", "חשבון בנק", 45000.0, CivilDay(2026, 1, 10), None, ACTIVE, FINANCE, None),
    FinancialItem("2", "חסכון לכל מטרה", "בנק הפועלים", "חסכון", 120000.0, CivilDay(2026, 1, 5), None, ACTIVE, FINANCE, None),
    FinancialItem("3", "ביטוח רכב מקיף", "הראל", "ביטוח רכב", 4500.0, CivilDay(2025, 12, 1), Some(CivilDay(2026, 1, 26)), ACTIVE, INSURANCE, None),
    FinancialItem("4", "ביטוח בריאות", "כלל", "בריאות", 6000.0, CivilDay(2025, 11, 15), None, ACTIVE, INSURANCE, None),
    FinancialItem("5", "קרן השתלמות", "מיטב דש", "קרן השתלמות", 450000.0, CivilDay(2026, 1, 1), None, ACTIVE, INVESTMENTS, None),
    FinancialItem("6", "פנסיה", "הפניקס", "פנסיה", 350000.0, CivilDay(2026, 1, 1), None, ACTIVE, INVESTMENTS, None),
    FinancialItem("7", "דירה בתל אביב", "בבעלות", "נדל״ן", 1850000.0, CivilDay(2025, 6, 1), None, ACTIVE, ASSETS, None)
  ]

  const INITIAL_ALERTS: seq<Alert> := [
    Alert("1", "חידוש ביטוח רכב", "הפוליסה של טויוטה קורולה פגה בעוד 14 יום", "26/01/2026", "urgent", "insurance", false),
    Alert("2", "תוקף דרכון", "הדרכון שלך יפוג בעוד 3 חודשים", "12/04/2026", "warning", "document", false),
    Alert("3", "חידוש מנוי נטפליקס", "חיוב אוטומטי של ₪59.90", "01/02/2026", "info", "subscription", true),
    Alert("4", "דו״ח רבעוני קרן השתלמות", "דו״ח Q4 2025 זמין לצפייה", "15/01/2026", "info", "investment", false)
  ]

  const INITIAL_DOCUMENTS: seq<Document> := [
    Document("1", "דרכון ישראלי", "PDF", DOCUMENTS, CivilDay(2025, 1, 15), "2.4 MB"),
    Document("2", "פוליסת ביטוח רכב", "PDF", INSURANCE, CivilDay(2025, 12, 1), "1.8 MB"),
    Document("3", "חוזה שכירות", "PDF", ASSETS, CivilDay(2025, 6, 10), "3.2 MB")
  ]

  /** The seed data is worth 2,825,500 in all and starts with three unread alerts. */
  lemma InitialFigures()
    ensures Total(INITIAL_ITEMS) == 2825500.0
    ensures UnreadCount(INITIAL_ALERTS) == 3
  {
    InitialTotal();
    InitialUnread();
  }

  lemma InitialTotal()
    ensures Total(INITIAL_ITEMS) == 2825500.0
  {
    var s := INITIAL_ITEMS;
    TotalPrefix(s, 1);
    TotalPrefix(s, 2);
    TotalPrefix(s, 3);
    TotalPrefix(s, 4);
    TotalPrefix(s, 5);
    TotalPrefix(s, 6);
    TotalPrefix(s, 7);
    assert s[..0] == [] && s[..7] == s;
  }

  lemma InitialUnread()
    ensures UnreadCount(INITIAL_ALERTS) == 3
  {
    var a := INITIAL_ALERTS;
    FilterPrefix(a, 1);
    FilterPrefix(a, 2);
    FilterPrefix(a, 3);
    FilterPrefix(a, 4);
    assert a[..0] == [] && a[..4] == a;
  }

  lemma TotalPrefix(s: seq<FinancialItem>, n: nat)
    requires 0 < n <= |s|
    ensures Total(s[..n]) == Total(s[..n - 1]) + s[n - 1].value
  {
    assert s[..n][..n - 1] == s[..n - 1];
  }

  lemma FilterPrefix(s: seq<Alert>, n: nat)
    requires 0 < n <= |s|
    ensures |Filter(s[..n], IsUnread)| == |Filter(s[..n - 1], IsUnread)| + (if s[n - 1].read then 0 else 1)
  {
    assert s[..n][..n - 1] == s[..n - 1];
  }

  // ---------------------------------------------------------------------------
  // The provider's state

  /** Everything the provider holds, as one value. */
  datatype Snapshot = Snapshot(
    activeSection: string,
    items: seq<FinancialItem>,
    alerts: seq<Alert>,
    documents: seq<Document>,
    isAddItemModalOpen: bool,
    isUploadModalOpen: bool,
    isSearchModalOpen: bool,
    isNotificationsOpen: bool,
    isSettingsOpen: bool,
    isChatOpen: bool,
    isMobileMenuOpen: bool,
    searchQuery: string)

  class AppState {
    var activeSection: string
    var items: seq<FinancialItem>
    var alerts: seq<Alert>
    var documents: seq<Document>

    var isAddItemModalOpen: bool
    var isUploadModalOpen: bool
    var isSearchModalOpen: bool
    var isNotificationsOpen: bool
    var isSettingsOpen: bool
    var isChatOpen: bool
    var isMobileMenuOpen: bool

    var searchQuery: string

    /** The whole state; each setter below changes one part of it and
        leaves the rest as it was. */
    function State(): Snapshot
      reads this
    {
      Snapshot(activeSection, items, alerts, documents, isAddItemModalOpen, isUploadModalOpen,
               isSearchModalOpen, isNotificationsOpen, isSettingsOpen, isChatOpen, isMobileMenuOpen, searchQuery)
    }

    constructor()
      ensures State() == Snapshot(DASHBOARD, INITIAL_ITEMS, INITIAL_ALERTS, INITIAL_DOCUMENTS,
                                  false, false, false, false, false, false, false, "")
    {
      activeSection := DASHBOARD;
      items := INITIAL_ITEMS;
      alerts := INITIAL_ALERTS;
      documents := INITIAL_DOCUMENTS;
      isAddItemModalOpen := false;
      isUploadModalOpen := false;
      isSearchModalOpen := false;
      isNotificationsOpen := false;
      isSettingsOpen := false;
      isChatOpen := false;
      isMobileMenuOpen := false;
      searchQuery := "";
    }

    /** The results the search modal shows for the current query. */
    function Results(): seq<FinancialItem>
      reads this
    {
      SearchResults(items, searchQuery)
    }

    /** `addItem`: the item is appended with the clock reading `now` as its id. */
    method AddItem(item: FinancialItem, now: nat)
      modifies this
      ensures State() == old(State()).(items := old(items) + [item.(id := NatToString(now))])
    {
      items := items + [item.(id := NatToString(now))];
    }

    /** `markAlertAsRead`: the unread count drops by the number of unread
        alerts with that id. */
    method MarkAlertAsRead(id: string)
      modifies this
      ensures State() == old(State()).(alerts := MarkRead(old(alerts), id))
      ensures UnreadCount(alerts) == UnreadCount(old(alerts)) - |UnreadWithId(old(alerts), id)|
    {
      MarkReadCount(alerts, id);
      alerts := MarkRead(alerts, id);
    }

    /** `addDocument`: the document is appended with the clock reading `now` as its id. */
    method AddDocument(doc: Document, now: nat)
      modifies this
      ensures State() == old(State()).(documents := old(documents) + [doc.(id := NatToString(now))])
    {
      documents := documents + [doc.(id := NatToString(now))];
    }

    method SetActiveSection(section: string)
      modifies this
      ensures State() == old(State()).(activeSection := section)
    {
      activeSection := section;
    }

    method SetSearchQuery(query: string)
      modifies this
      ensures State() == old(State()).(searchQuery := query)
    {
      searchQuery := query;
    }

    method SetSearchModalOpen(open: bool)
      modifies this
      ensures State() == old(State()).(isSearchModalOpen := open)
    {
      isSearchModalOpen := open;
    }

    method SetMobileMenuOpen(open: bool)
      modifies this
      ensures State() == old(State()).(isMobileMenuOpen := open)
    {
      isMobileMenuOpen := open;
    }

    method SetChatOpen(open: bool)
      modifies this
      ensures State() == old(State()).(isChatOpen := open)
    {
      isChatOpen := open;
    }

    method SetSettingsOpen(open: bool)
      modifies this
      ensures State() == old(State()).(isSettingsOpen := open)
    {
      isSettingsOpen := open;
    }

    method SetAddItemModalOpen(open: bool)
      modifies this
      ensures State() == old(State()).(isAddItemModalOpen := open)
    {
      isAddItemModalOpen := open;
    }

    method SetUploadModalOpen(open: bool)
      modifies this
      ensures State() == old(State()).(isUploadModalOpen := open)
    {
      isUploadModalOpen := open;
    }
  }
}
