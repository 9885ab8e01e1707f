/**
 * The coordinator's side of the extension: it seeds default settings,
 * registers the context menu, and answers page scripts' requests for
 * settings, history and statistics, broadcasting settings changes to every
 * open tab.
 */
module Background {
  import opened Values
  import opened Storage
  import opened Browser
  import opened ContextMenus

  /** The `chrome.storage.local` key the page script saves its history under. */
  const HistoryKey := "summaryHistory"
  const HistoryDefaults: map<string, Json> := map[HistoryKey := JArr([])]

  /** The defaults `initializeDefaultSettings` reads with: an unset `apiUrl` reads as "". */
  const UnsetDefaults: map<string, Json> := SettingsDefaults["apiUrl" := JStr("")]

  /** The message `chrome.storage.sync.set` rejects with when handed something other than an object. */
  const InvocationError := "Error in invocation of storage.set"

  /** The handler the listener picks for a message type. */
  datatype Handler = ServeSettings | ApplySettings | ServeHistory | ClearHistory | ServeStats | Unhandled

  const HandledTypes: set<string> :=
    {GetSettingsType, UpdateSettingsType, GetSummaryHistoryType, ClearSummaryHistoryType, GetStatsType}

  /** The `switch (message.type)` of the coordinator's listener. */
  function Route(msgType: string): (h: Handler)
    ensures h.Unhandled? <==> msgType !in HandledTypes
    ensures h == ServeSettings <==> msgType == GetSettingsType
    ensures h == ApplySettings <==> msgType == UpdateSettingsType
    ensures h == ServeHistory <==> msgType == GetSummaryHistoryType
    ensures h == ClearHistory <==> msgType == ClearSummaryHistoryType
    ensures h == ServeStats <==> msgType == GetStatsType
  {
    if msgType == GetSettingsType then ServeSettings
    else if msgType == UpdateSettingsType then ApplySettings
    else if msgType == GetSummaryHistoryType then ServeHistory
    else if msgType == ClearSummaryHistoryType then ClearHistory
    else if msgType == GetStatsType then ServeStats
    else Unhandled
  }

  /**
   * This coordinator answers neither feature execution nor plugin status
   * requests: for both, the listener returns false and no reply comes.
   */
  lemma ExecutionAndStatusGoUnanswered()
    ensures Route(ExecuteFeatureType).Unhandled?
    ensures Route(GetPluginStatusType).Unhandled?
    ensures Route(SummaryRequestedType).Unhandled? && Route(UpdateConfigType).Unhandled?
  {
  }

  /** A reply: `{success: true, ...}` with its payload, `{success: true}`, or `{success: false, error}`. */
  datatype Reply =
    | SettingsReply(settings: map<string, Json>)
    | HistoryReply(history: Json)
    | StatsReply(totalSummaries: Json, isConfigured: bool, lastUsed: Json)
    | Acknowledged
    | ErrorReply(error: string)

  /** `String(error)` for an `Error` rejected with this message. */
  function ErrorText(message: string): string
  {
    "Error: " + message
  }

  /** `getSettings()`: the settings with every missing key filled from the defaults, or the read's error. */
  function SettingsReplyOf(read: Result<map<string, Json>>): Reply
  {
    if read.Ok? then SettingsReply(read.value) else ErrorReply(ErrorText(read.error))
  }

  /** `getSummaryHistory()`: the stored list, [] when none is stored, or the read's error. */
  function HistoryReplyOf(read: Result<map<string, Json>>): Reply
  {
    if read.Ok? && HistoryKey in read.value then HistoryReply(read.value[HistoryKey])
    else if read.Ok? then HistoryReply(JArr([]))
    else ErrorReply(ErrorText(read.error))
  }

  /** The history as `history.history` sees it: undefined on an error reply. */
  function HistoryOf(reply: Reply): Option<Json>
  {
    if reply.HistoryReply? then Some(reply.history) else None
  }

  /** `settings.settings?.apiKey`. */
  function ApiKeyOf(reply: Reply): Option<Json>
  {
    if reply.SettingsReply? then Get(reply.settings, "apiKey") else None
  }

  /**
   * `getStats()`: the number of saved summaries, whether an API key is set,
   * and the timestamp of the newest entry (null when there is none).
   */
  function StatsOf(history: Reply, settings: Reply): (r: Reply)
    ensures r.StatsReply?
    ensures history.HistoryReply? && history.history.JArr? ==> r.totalSummaries == JNum(|history.history.items|)
    ensures !history.HistoryReply? ==> r.totalSummaries == JNum(0) && r.lastUsed == JNull
    ensures r.isConfigured <==> settings.SettingsReply? && Present(Get(settings.settings, "apiKey"))
    ensures history.HistoryReply? && history.history == JArr([]) ==> r.lastUsed == JNull
    ensures (history.HistoryReply? && history.history.JArr? && |history.history.items| > 0
             && history.history.items[0].JObj? && Present(Get(history.history.items[0].fields, "timestamp"))) ==>
              r.lastUsed == history.history.items[0].fields["timestamp"]
    ensures history.HistoryReply? && history.history.JArr?
            && !(|history.history.items| > 0 && history.history.items[0].JObj?
                 && Present(Get(history.history.items[0].fields, "timestamp"))) ==>
              r.lastUsed == JNull
  {
    var h := HistoryOf(history);
    StatsReply(
      OrElse(Prop(h, "length"), JNum(0)),
      Present(ApiKeyOf(settings)),
      OrElse(Prop(First(h), "timestamp"), JNull))
  }

  /**
   * `updateSettings` writes only the supplied keys: reading the settings back
   * gives each supplied key its new value and every other key what it read
   * as before.
   */
  lemma {:induction false} UpdatedSettingsReadBack(stored: map<string, Json>, update: map<string, Json>, k: string)
    requires k in SettingsDefaults
    ensures var before := WithDefaults(stored, SettingsDefaults);
      var after := WithDefaults(Spread(stored, update), SettingsDefaults);
      k in after && after[k] == if k in update then update[k] else before[k]
  {
  }

  /** After clearing, the history reads back empty and the statistics report no use. */
  lemma {:induction false} ClearedHistoryReadsEmpty(local: map<string, Json>, settings: Reply)
    ensures var cleared := Spread(local, HistoryDefaults);
      && HistoryReplyOf(Ok(WithDefaults(cleared, HistoryDefaults))) == HistoryReply(JArr([]))
      && StatsOf(HistoryReply(JArr([])), settings).totalSummaries == JNum(0)
      && StatsOf(HistoryReply(JArr([])), settings).lastUsed == JNull
  {
    var cleared := Spread(local, HistoryDefaults);
    assert cleared[HistoryKey] == JArr([]);
  }

  /**
   * The `UPDATE_CONFIG` messages a broadcast delivers: one per tab of the
   * snapshot, in order, for each tab with an id that has a listening page
   * script; a tab that cannot be reached is skipped.
   */
  function BroadcastDeliveries(snapshot: seq<Tab>, open: seq<Tab>, config: Json): seq<Delivery>
    decreases |snapshot|
  {
    if snapshot == [] then []
    else
      var earlier := BroadcastDeliveries(snapshot[..|snapshot| - 1], open, config);
      var t := snapshot[|snapshot| - 1];
      if HasTruthyId(t) && Reachable(open, t.id.value)
      then earlier + [Delivery(t.id.value, UpdateConfig(config))]
      else earlier
  }

  /** The tab can receive a broadcast. */
  predicate Listening(t: Tab, open: seq<Tab>)
  {
    HasTruthyId(t) && Reachable(open, t.id.value)
  }

  /** Number of tabs in `snapshot` that can receive a broadcast. */
  function ListeningCount(snapshot: seq<Tab>, open: seq<Tab>): (n: nat)
    ensures n <= |snapshot|
    decreases |snapshot|
  {
    if snapshot == [] then 0
    else ListeningCount(snapshot[..|snapshot| - 1], open) + (if Listening(snapshot[|snapshot| - 1], open) then 1 else 0)
  }

  /**
   * Broadcast is best effort: every listening tab receives exactly the new
   * config, unreachable tabs do not stop the others, and nothing else is
   * delivered; with N tabs of which M cannot be reached, N - M deliveries.
   */
  lemma {:induction false} BroadcastReachesEveryListeningTab(snapshot: seq<Tab>, open: seq<Tab>, config: Json)
    ensures |BroadcastDeliveries(snapshot, open, config)| == ListeningCount(snapshot, open)
    ensures forall d | d in BroadcastDeliveries(snapshot, open, config) ::
      d.message == UpdateConfig(config) && Reachable(open, d.tabId)
    ensures forall i | 0 <= i < |snapshot| && Listening(snapshot[i], open) ::
      Delivery(snapshot[i].id.value, UpdateConfig(config)) in BroadcastDeliveries(snapshot, open, config)
    decreases |snapshot|
  {
    if snapshot != [] {
      var earlier := snapshot[..|snapshot| - 1];
      BroadcastReachesEveryListeningTab(earlier, open, config);
      forall i | 0 <= i < |snapshot| - 1 && Listening(snapshot[i], open)
        ensures Delivery(snapshot[i].id.value, UpdateConfig(config)) in BroadcastDeliveries(snapshot, open, config)
      {
        assert snapshot[i] == earlier[i];
      }
    }
  }

  /** Which storage and tab calls reject during one request, and with what message. */
  datatype Faults = Faults(
    syncRead: Option<string>,
    syncWrite: Option<string>,
    localRead: Option<string>,
    localWrite: Option<string>,
    tabsQuery: Option<string>)

  /**
   * The synced settings after `initializeDefaultSettings`: the whole default
   * set written over them when the read and the write both succeed and the
   * stored `apiUrl` is missing or empty; otherwise as they were.
   */
  function SeededSettings(items: map<string, Json>, readFault: Option<string>, writeFault: Option<string>): (r: map<string, Json>)
    ensures readFault.None? && writeFault.None? && !Present(Get(items, "apiUrl")) ==> r == Spread(items, SettingsDefaults)
    ensures readFault.Some? || writeFault.Some? || Present(Get(items, "apiUrl")) ==> r == items
  {
    if readFault.None? && writeFault.None? && !Truthy(WithDefaults(items, UnsetDefaults)["apiUrl"])
    then Spread(items, SettingsDefaults) else items
  }

  /**
   * When seeding goes through, the stored `apiUrl` is set afterwards, so the
   * settings every later reader sees name an endpoint; seeding twice is the
   * same as seeding once.
   */
  lemma {:induction false} SeedingSetsApiUrl(items: map<string, Json>)
    ensures Present(Get(SeededSettings(items, None, None), "apiUrl"))
    ensures SeededSettings(SeededSettings(items, None, None), None, None) == SeededSettings(items, None, None)
  {
    if !Present(Get(items, "apiUrl")) {
      var seeded := Spread(items, SettingsDefaults);
      assert seeded["apiUrl"] == SettingsDefaults["apiUrl"];
    }
  }

  class TextSummaryBackground {
    var menuManager: ContextMenuManager?
    const sync: Store
    const local: Store
    const tabs: Tabs
    const menus: MenuRegistry

    constructor (sync: Store, local: Store, tabs: Tabs, menus: MenuRegistry)
      ensures this.sync == sync && this.local == local && this.tabs == tabs && this.menus == menus
      ensures menuManager == null
    {
      this.sync := sync;
      this.local := local;
      this.tabs := tabs;
      this.menus := menus;
      menuManager := null;
    }

    /**
     * `initializeDefaultSettings()`: when the stored `apiUrl` is missing or
     * empty, write the whole default set; otherwise, or when a call rejects,
     * leave the settings alone.
     */
    method InitializeDefaultSettings(readFault: Option<string>, writeFault: Option<string>)
      modifies sync
      ensures sync.items == SeededSettings(old(sync.items), readFault, writeFault)
    {
      var existing := sync.Get(UnsetDefaults, readFault);
      if existing.Err? {
        return;
      }
      if !Truthy(existing.value["apiUrl"]) {
        var _ := sync.Set(SettingsDefaults, writeFault);
      }
    }

    /**
     * `initializeContextMenu()`: a new menu manager over the current settings
     * (an empty object when they cannot be read), then register the menu;
     * a rejected registration is swallowed, leaving no entry behind since
     * every entry was removed first.
     */
    method InitializeContextMenu(readFault: Option<string>, createFault: Option<string>)
      modifies this, menus
      ensures fresh(menuManager) && menuManager.menus == menus
      ensures menuManager.settings == if readFault.None? then WithDefaults(sync.items, SettingsDefaults) else map[]
      ensures menus.entries ==
        if !menus.available then old(menus.entries)
        else if createFault.None? then map[MenuId := SummaryEntry] else map[]
      ensures menus.listeners == old(menus.listeners) + (if menus.available && createFault.None? then [menuManager] else [])
    {
      var settings := GetSettings(readFault);
      var initial := if settings.SettingsReply? then settings.settings else map[];
      menuManager := new ContextMenuManager(initial, menus);
      var _ := menuManager.Initialize(createFault);
    }

    /**
     * Start-up: seed the defaults, then register the menu with a manager over
     * the settings as seeded. `menuRead` decides the manager's own settings
     * read, which is separate from the seeding read.
     */
    method Init(f: Faults, menuRead: Option<string>, createFault: Option<string>)
      modifies this, sync, menus
      ensures sync.items == SeededSettings(old(sync.items), f.syncRead, f.syncWrite)
      ensures fresh(menuManager) && menuManager.menus == menus
      ensures menuManager.settings == if menuRead.None? then WithDefaults(sync.items, SettingsDefaults) else map[]
      ensures menus.entries ==
        if !menus.available then old(menus.entries)
        else if createFault.None? then map[MenuId := SummaryEntry] else map[]
      ensures menus.listeners == old(menus.listeners) + (if menus.available && createFault.None? then [menuManager] else [])
    {
      InitializeDefaultSettings(f.syncRead, f.syncWrite);
      InitializeContextMenu(menuRead, createFault);
    }

    /**
     * `runtime.onInstalled`: on install or update, seed the defaults and
     * register the menu again with yet another manager. Its click listener
     * joins those already installed. Any other reason changes nothing.
     */
    method OnInstalled(reason: string, f: Faults, menuRead: Option<string>, createFault: Option<string>)
      modifies this, sync, menus
      ensures reason != "install" && reason != "update" ==>
        menuManager == old(menuManager) && sync.items == old(sync.items)
        && menus.entries == old(menus.entries) && menus.listeners == old(menus.listeners)
      ensures (reason == "install" || reason == "update") ==>
        && sync.items == SeededSettings(old(sync.items), f.syncRead, f.syncWrite)
        && fresh(menuManager) && menuManager.menus == menus
        && menuManager.settings == (if menuRead.None? then WithDefaults(sync.items, SettingsDefaults) else map[])
        && menus.entries ==
             (if !menus.available then old(menus.entries)
              else if createFault.None? then map[MenuId := SummaryEntry] else map[])
        && menus.listeners == old(menus.listeners) + (if menus.available && createFault.None? then [menuManager] else [])
    {
      if reason == "install" || reason == "update" {
        InitializeDefaultSettings(f.syncRead, f.syncWrite);
        InitializeContextMenu(menuRead, createFault);
      }
    }

    /** `getSettings()`. */
    method GetSettings(fault: Option<string>) returns (r: Reply)
      ensures r == SettingsReplyOf(if fault.Some? then Err(fault.value) else Ok(WithDefaults(sync.items, SettingsDefaults)))
      ensures fault.Some? ==> r == ErrorReply(ErrorText(fault.value))
      ensures fault.None? ==> r.SettingsReply? && r.settings.Keys == SettingsDefaults.Keys
      ensures fault.None? ==>
        forall k | k in SettingsDefaults :: r.settings[k] == if k in sync.items then sync.items[k] else SettingsDefaults[k]
    {
      var read := sync.Get(SettingsDefaults, fault);
      r := SettingsReplyOf(read);
    }

    /**
     * `updateSettings(settings)`: write the supplied keys, then send
     * `UPDATE_CONFIG` to every open tab with an id, ignoring tabs that cannot
     * be reached. A rejected write or tab query rejects the call.
     */
    method UpdateSettings(settings: Option<Json>, f: Faults) returns (r: Outcome)
      modifies sync, tabs
      ensures tabs.open == old(tabs.open)
      ensures settings.None? || !settings.value.JObj? ==>
        r == Fail(InvocationError) && sync.items == old(sync.items) && tabs.delivered == old(tabs.delivered)
      ensures settings.Some? && settings.value.JObj? && f.syncWrite.Some? ==>
        r == Fail(f.syncWrite.value) && sync.items == old(sync.items) && tabs.delivered == old(tabs.delivered)
      ensures settings.Some? && settings.value.JObj? && f.syncWrite.None? ==>
        && sync.items == Spread(old(sync.items), settings.value.fields)
        && r == (if f.tabsQuery.Some? then Fail(f.tabsQuery.value) else Pass)
        && tabs.delivered == old(tabs.delivered) +
             (if f.tabsQuery.Some? then [] else BroadcastDeliveries(old(tabs.open), old(tabs.open), settings.value))
    {
      if settings.None? || !settings.value.JObj? {
        return Fail(InvocationError);
      }
      r := sync.Set(settings.value.fields, f.syncWrite);
      if r.Fail? {
        return;
      }
      if f.tabsQuery.Some? {
        return Fail(f.tabsQuery.value);
      }
      var snapshot := tabs.open;
      var i := 0;
      while i < |snapshot|
        invariant 0 <= i <= |snapshot|
        invariant tabs.open == snapshot
        invariant sync.items == Spread(old(sync.items), settings.value.fields)
        invariant tabs.delivered == old(tabs.delivered) + BroadcastDeliveries(snapshot[..i], snapshot, settings.value)
      {
        var t := snapshot[i];
        if HasTruthyId(t) {
          var _ := tabs.SendMessage(t.id.value, UpdateConfig(settings.value));
        }
        assert snapshot[..i + 1][..i] == snapshot[..i];
        i := i + 1;
      }
      assert snapshot[..i] == snapshot;
      r := Pass;
    }

    /** `getSummaryHistory()`. */
    method GetSummaryHistory(fault: Option<string>) returns (r: Reply)
      ensures r == HistoryReplyOf(if fault.Some? then Err(fault.value) else Ok(WithDefaults(local.items, HistoryDefaults)))
      ensures fault.Some? ==> r == ErrorReply(ErrorText(fault.value))
      ensures fault.None? ==> r == HistoryReply(if HistoryKey in local.items then local.items[HistoryKey] else JArr([]))
    {
      var read := local.Get(HistoryDefaults, fault);
      r := HistoryReplyOf(read);
    }

    /** `clearSummaryHistory()`: store an empty history; a rejected write rejects the call. */
    method ClearSummaryHistory(fault: Option<string>) returns (r: Outcome)
      modifies local
      ensures fault.Some? ==> r == Fail(fault.value) && local.items == old(local.items)
      ensures fault.None? ==> r == Pass && local.items == Spread(old(local.items), HistoryDefaults)
      ensures fault.None? ==> HistoryReplyOf(Ok(WithDefaults(local.items, HistoryDefaults))) == HistoryReply(JArr([]))
    {
      r := local.Set(HistoryDefaults, fault);
      ClearedHistoryReadsEmpty(old(local.items), Acknowledged);
    }

    /** `getStats()`: statistics over the history and settings replies. */
    method GetStats(f: Faults) returns (r: Reply)
      ensures r == StatsOf(
        HistoryReplyOf(if f.localRead.Some? then Err(f.localRead.value) else Ok(WithDefaults(local.items, HistoryDefaults))),
        SettingsReplyOf(if f.syncRead.Some? then Err(f.syncRead.value) else Ok(WithDefaults(sync.items, SettingsDefaults))))
    {
      var history := GetSummaryHistory(f.localRead);
      var settings := GetSettings(f.syncRead);
      r := StatsOf(history, settings);
    }

    /**
     * The coordinator's message listener: it returns true (reply to come) for
     * the five handled types and false for every other type. The reply is the
     * handler's result; for an update or a clear it is `{success: true}` once
     * the call settles, and none at all when it rejects. The synced and the
     * local area are two separate stores.
     */
    method OnMessage(m: Message, f: Faults) returns (keepOpen: bool, reply: Option<Reply>)
      requires sync != local
      modifies sync, local, tabs
      ensures keepOpen <==> m.msgType in HandledTypes
      ensures !keepOpen ==>
        reply.None? && sync.items == old(sync.items) && local.items == old(local.items) && tabs.delivered == old(tabs.delivered)
      ensures Route(m.msgType) == ServeSettings ==> reply == Some(SettingsReplyOf(
        if f.syncRead.Some? then Err(f.syncRead.value) else Ok(WithDefaults(sync.items, SettingsDefaults))))
      ensures Route(m.msgType) == ServeHistory ==> reply == Some(HistoryReplyOf(
        if f.localRead.Some? then Err(f.localRead.value) else Ok(WithDefaults(local.items, HistoryDefaults))))
      ensures Route(m.msgType) == ServeStats ==> reply == Some(StatsOf(
        HistoryReplyOf(if f.localRead.Some? then Err(f.localRead.value) else Ok(WithDefaults(local.items, HistoryDefaults))),
        SettingsReplyOf(if f.syncRead.Some? then Err(f.syncRead.value) else Ok(WithDefaults(sync.items, SettingsDefaults)))))
      ensures tabs.open == old(tabs.open)
      ensures Route(m.msgType) != ApplySettings && Route(m.msgType) != ClearHistory ==>
        sync.items == old(sync.items) && local.items == old(local.items) && tabs.delivered == old(tabs.delivered)
      ensures Route(m.msgType) == ClearHistory ==>
        && reply == (if f.localWrite.Some? then None else Some(Acknowledged))
        && local.items == (if f.localWrite.Some? then old(local.items) else Spread(old(local.items), HistoryDefaults))
        && sync.items == old(sync.items) && tabs.delivered == old(tabs.delivered)
      ensures Route(m.msgType) == ApplySettings ==>
        (reply == Some(Acknowledged) <==>
          Get(m.body, "settings").Some? && Get(m.body, "settings").value.JObj? && f.syncWrite.None? && f.tabsQuery.None?)
      ensures Route(m.msgType) == ApplySettings ==> reply.None? || reply == Some(Acknowledged)
      ensures Route(m.msgType) == ApplySettings ==>
        var settings := Get(m.body, "settings");
        && local.items == old(local.items)
        && (settings.Some? && settings.value.JObj? && f.syncWrite.None? ==>
              && sync.items == Spread(old(sync.items), settings.value.fields)
              && tabs.delivered == old(tabs.delivered) +
                   (if f.tabsQuery.Some? then [] else BroadcastDeliveries(old(tabs.open), old(tabs.open), settings.value)))
        && (settings.None? || !settings.value.JObj? || f.syncWrite.Some? ==>
              sync.items == old(sync.items) && tabs.delivered == old(tabs.delivered))
    {
      match Route(m.msgType)
      case ServeSettings =>
        var r := GetSettings(f.syncRead);
        return true, Some(r);
      case ApplySettings =>
        var r := UpdateSettings(Get(m.body, "settings"), f);
        return true, if r.Pass? then Some(Acknowledged) else None;
      case ServeHistory =>
        var r := GetSummaryHistory(f.localRead);
        return true, Some(r);
      case ClearHistory =>
        var r := ClearSummaryHistory(f.localWrite);
        return true, if r.Pass? then Some(Acknowledged) else None;
      case ServeStats =>
        var r := GetStats(f);
        return true, Some(r);
      case Unhandled =>
        return false, None;
    }
  }
}
