/** src/components/modals/MobileMenu.tsx: what choosing an entry of the
    mobile menu does to the app state, and how the menu closes. */
module MobileMenu {
  import opened Domain
  import opened AppContext

  const CHAT: string := "chat"
  const SETTINGS: string := "settings"

  /** The ids of the menu's upper entries, then of its bottom entries. */
  const MENU_IDS: seq<string> := [DASHBOARD, FINANCE, INSURANCE, INVESTMENTS, ASSETS, DOCUMENTS]
  const BOTTOM_IDS: seq<string> := [CHAT, "sharing", SETTINGS, "help"]

  /** The app state after choosing the entry `id`: the chat and settings
      entries open their panel and keep the section; every other id, known
      or not, becomes the active section; the menu is closed either way. */
  function AfterItemClick(s: Snapshot, id: string): (t: Snapshot)
    ensures !t.isMobileMenuOpen
    ensures id == CHAT ==> t.isChatOpen && t.activeSection == s.activeSection
    ensures id == SETTINGS ==> t.isSettingsOpen && t.activeSection == s.activeSection
    ensures id != CHAT && id != SETTINGS ==> t.activeSection == id
    ensures t.items == s.items && t.alerts == s.alerts && t.documents == s.documents
    ensures t.searchQuery == s.searchQuery
  {
    if id == CHAT then s.(isChatOpen := true, isMobileMenuOpen := false)
    else if id == SETTINGS then s.(isSettingsOpen := true, isMobileMenuOpen := false)
    else s.(activeSection := id, isMobileMenuOpen := false)
  }

  /** Choosing an upper entry shows its section. */
  lemma MenuEntriesNavigate(s: Snapshot, i: nat)
    requires i < |MENU_IDS|
    ensures AfterItemClick(s, MENU_IDS[i]).activeSection == MENU_IDS[i]
    ensures AfterItemClick(s, MENU_IDS[i]).isChatOpen == s.isChatOpen
    ensures AfterItemClick(s, MENU_IDS[i]).isSettingsOpen == s.isSettingsOpen
  {
  }

  /** Choosing the same entry twice is the same as choosing it once. */
  lemma ItemClickIdempotent(s: Snapshot, id: string)
    ensures AfterItemClick(AfterItemClick(s, id), id) == AfterItemClick(s, id)
  {
  }

  class MobileMenu {
    const app: AppState

    constructor(app: AppState)
      ensures this.app == app
    {
      this.app := app;
    }

    /** `handleItemClick`. */
    method HandleItemClick(id: string)
      modifies app
      ensures app.State() == AfterItemClick(old(app.State()), id)
    {
      if id == CHAT {
        app.SetChatOpen(true);
      } else if id == SETTINGS {
        app.SetSettingsOpen(true);
      } else {
        app.SetActiveSection(id);
      }
      app.SetMobileMenuOpen(false);
    }

    /** The backdrop and the close button: the menu closes, nothing else
        changes. */
    method Close()
      modifies app
      ensures app.State() == old(app.State()).(isMobileMenuOpen := false)
    {
      app.SetMobileMenuOpen(false);
    }
  }
}
