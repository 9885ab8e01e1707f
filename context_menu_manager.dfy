/**
 * The right-click menu: the browser's registry of this extension's menu
 * entries and click listeners, and the manager that registers the single
 * summary entry and turns a click into a `SUMMARY_REQUESTED` message to the
 * clicked tab.
 */
module ContextMenus {
  import opened Values
  import opened Text
  import opened Browser

  const MenuId := "gpt-ai-flow-summary"
  const MenuTitle := "📝 AI总结选中文本"

  datatype MenuEntry = MenuEntry(id: string, title: string, contexts: seq<string>, documentUrlPatterns: seq<string>)

  /** The one entry the manager creates: shown on a selection, on http and https pages only. */
  const SummaryEntry := MenuEntry(MenuId, MenuTitle, ["selection"], ["http://*/*", "https://*/*"])

  /** The browser's error for a second entry with an id already in use. */
  function DuplicateIdError(id: string): string
  {
    "Cannot create item with duplicate id " + id
  }

  /** What the browser reports about a click: the entry's id and the selected text, if any. */
  datatype ClickInfo = ClickInfo(menuItemId: string, selectionText: Option<string>)

  /**
   * `handleMenuClick(info, tab)`: the message one listener sends, if any. It
   * sends exactly when the click is on the summary entry, the selection has
   * a non-whitespace character and the tab has a (truthy) id, and it then
   * sends `SUMMARY_REQUESTED` with the selection to that tab.
   */
  function ClickRequest(info: ClickInfo, tab: Option<Tab>): (r: Option<Delivery>)
    ensures r.Some? <==>
      && info.menuItemId == MenuId
      && info.selectionText.Some? && !AllWhitespace(info.selectionText.value)
      && tab.Some? && HasTruthyId(tab.value)
    ensures r.Some? ==> r.value == Delivery(tab.value.id.value, SummaryRequested(info.selectionText.value))
  {
    if info.menuItemId != MenuId then None
    else if info.selectionText.None? || |Trim(info.selectionText.value)| == 0 then None
    else if tab.Some? && HasTruthyId(tab.value) then
      Some(Delivery(tab.value.id.value, SummaryRequested(info.selectionText.value)))
    else None
  }

  /** `n` copies of `d`. */
  function Repeat(d: Delivery, n: nat): (r: seq<Delivery>)
    ensures |r| == n
    ensures forall i | 0 <= i < n :: r[i] == d
  {
    if n == 0 then [] else Repeat(d, n - 1) + [d]
  }

  /**
   * What one click delivers when `listeners` click listeners are installed:
   * each listener forwards the same request, and it arrives when the tab has
   * a listening page script.
   */
  function ClickDeliveries(listeners: nat, info: ClickInfo, tab: Option<Tab>, open: seq<Tab>): seq<Delivery>
  {
    var req := ClickRequest(info, tab);
    if req.Some? && Reachable(open, req.value.tabId) then Repeat(req.value, listeners) else []
  }

  /**
   * The browser's `chrome.contextMenus` for this extension: whether the API
   * exists, the entries by id, and the `onClicked` listeners in the order
   * they were added.
   */
  class MenuRegistry {
    const available: bool
    var entries: map<string, MenuEntry>
    var listeners: seq<ContextMenuManager>

    constructor (available: bool)
      ensures this.available == available && entries == map[] && listeners == []
    {
      this.available := available;
      entries := map[];
      listeners := [];
    }

    /** `contextMenus.removeAll`. */
    method RemoveAll()
      modifies this
      ensures entries == map[] && listeners == old(listeners)
    {
      entries := map[];
    }

    /** `contextMenus.create(entry)`: refused for an id in use, or when the browser reports `fault`. */
    method Create(entry: MenuEntry, fault: Option<string>) returns (r: Outcome)
      modifies this
      ensures listeners == old(listeners)
      ensures entry.id in old(entries) ==> r == Fail(DuplicateIdError(entry.id)) && entries == old(entries)
      ensures entry.id !in old(entries) && fault.Some? ==> r == Fail(fault.value) && entries == old(entries)
      ensures entry.id !in old(entries) && fault.None? ==> r == Pass && entries == old(entries)[entry.id := entry]
    {
      if entry.id in entries {
        r := Fail(DuplicateIdError(entry.id));
      } else if fault.Some? {
        r := Fail(fault.value);
      } else {
        entries := entries[entry.id := entry];
        r := Pass;
      }
    }

    /** `contextMenus.onClicked.addListener`. */
    method AddListener(m: ContextMenuManager)
      modifies this
      ensures listeners == old(listeners) + [m] && entries == old(entries)
    {
      listeners := listeners + [m];
    }

    /** A click on a menu entry: every installed listener handles it in turn. */
    method Click(tabs: Tabs, info: ClickInfo, tab: Option<Tab>)
      modifies tabs
      ensures tabs.open == old(tabs.open)
      ensures tabs.delivered == old(tabs.delivered) + ClickDeliveries(|listeners|, info, tab, old(tabs.open))
    {
      var i := 0;
      while i < |listeners|
        invariant 0 <= i <= |listeners|
        invariant tabs.open == old(tabs.open)
        invariant tabs.delivered == old(tabs.delivered) + ClickDeliveries(i, info, tab, old(tabs.open))
      {
        listeners[i].HandleMenuClick(tabs, info, tab);
        i := i + 1;
      }
    }
  }

  class ContextMenuManager {
    var settings: map<string, Json>
    const menus: MenuRegistry

    constructor (settings: map<string, Json>, menus: MenuRegistry)
      ensures this.settings == settings && this.menus == menus
    {
      this.settings := settings;
      this.menus := menus;
    }

    /** `initialize()`: registers the menu. */
    method Initialize(createFault: Option<string>) returns (r: Outcome)
      modifies menus
      ensures !menus.available ==> r == Pass && menus.entries == old(menus.entries)
      ensures menus.available && createFault.None? ==>
        r == Pass && menus.entries == map[MenuId := SummaryEntry]
      ensures menus.available && createFault.Some? ==>
        r == Fail(createFault.value) && menus.entries == map[]
      ensures menus.listeners == old(menus.listeners) + (if menus.available && createFault.None? then [this] else [])
    {
      r := RegisterContextMenu(createFault);
    }

    /**
     * `registerContextMenu()`: without the API, nothing. Otherwise remove every
     * entry, create the summary entry (a refused create rejects with the
     * browser's message) and add this manager's click listener. Whatever was
     * registered before, a successful call leaves exactly the summary entry;
     * the listeners, though, accumulate.
     */
    method RegisterContextMenu(createFault: Option<string>) returns (r: Outcome)
      modifies menus
      ensures !menus.available ==> r == Pass && menus.entries == old(menus.entries)
      ensures menus.available && createFault.None? ==>
        r == Pass && menus.entries == map[MenuId := SummaryEntry]
      ensures menus.available && createFault.Some? ==>
        r == Fail(createFault.value) && menus.entries == map[]
      ensures menus.listeners == old(menus.listeners) + (if menus.available && createFault.None? then [this] else [])
    {
      if !menus.available {
        return Pass;
      }
      UnregisterContextMenu();
      r := menus.Create(SummaryEntry, createFault);
      if r.Fail? {
        return;
      }
      menus.AddListener(this);
    }

    /** `unregisterContextMenu()`: remove every entry when the API exists; never rejects, never removes a listener. */
    method UnregisterContextMenu()
      modifies menus
      ensures menus.entries == if menus.available then map[] else old(menus.entries)
      ensures menus.listeners == old(menus.listeners)
    {
      if !menus.available {
        return;
      }
      menus.RemoveAll();
    }

    /** This manager's click listener. */
    method HandleMenuClick(tabs: Tabs, info: ClickInfo, tab: Option<Tab>)
      modifies tabs
      ensures tabs.open == old(tabs.open)
      ensures tabs.delivered == old(tabs.delivered) + ClickDeliveries(1, info, tab, old(tabs.open))
    {
      if info.menuItemId != MenuId {
        return;
      }
      var selectedText := info.selectionText;
      if selectedText.None? || |Trim(selectedText.value)| == 0 {
        return;
      }
      if tab.Some? && HasTruthyId(tab.value) {
        var _ := tabs.SendMessage(tab.value.id.value, SummaryRequested(selectedText.value));
      }
    }

    /** `updateSettings(newSettings)`: `{...settings, ...newSettings}`. */
    method UpdateSettings(newSettings: map<string, Json>)
      modifies this
      ensures settings == Spread(old(settings), newSettings)
    {
      settings := Spread(settings, newSettings);
    }
  }

  /**
   * With `n` listeners installed, one click on a selection in a reachable tab
   * delivers `n` identical `SUMMARY_REQUESTED` messages to it: every
   * successful registration answers each later click once more.
   */
  lemma {:induction false} ClickFansOutToEveryListener(n: nat, info: ClickInfo, t: Tab, open: seq<Tab>)
    requires info.menuItemId == MenuId && info.selectionText.Some? && !AllWhitespace(info.selectionText.value)
    requires HasTruthyId(t) && Reachable(open, t.id.value)
    ensures |ClickDeliveries(n, info, Some(t), open)| == n
    ensures forall i | 0 <= i < n ::
      ClickDeliveries(n, info, Some(t), open)[i] == Delivery(t.id.value, SummaryRequested(info.selectionText.value))
  {
    var req := ClickRequest(info, Some(t));
    assert req == Some(Delivery(t.id.value, SummaryRequested(info.selectionText.value)));
  }
}
