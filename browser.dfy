/**
 * The browser's messaging surface: messages, the open tabs that
 * `chrome.tabs.sendMessage` can reach, and the page-to-coordinator channel
 * `chrome.runtime.sendMessage`.
 */
module Browser {
  import opened Values

  /** A message: its `type` tag and the rest of its properties. */
  datatype Message = Message(msgType: string, body: map<string, Json>)

  const SummaryRequestedType := "SUMMARY_REQUESTED"
  const UpdateConfigType := "UPDATE_CONFIG"
  const ExecuteFeatureType := "EXECUTE_FEATURE"
  const GetPluginStatusType := "GET_PLUGIN_STATUS"
  const GetSettingsType := "GET_SETTINGS"
  const UpdateSettingsType := "UPDATE_SETTINGS"
  const GetSummaryHistoryType := "GET_SUMMARY_HISTORY"
  const ClearSummaryHistoryType := "CLEAR_SUMMARY_HISTORY"
  const GetStatsType := "GET_STATS"

  /** `{type: "SUMMARY_REQUESTED", selectedText}`. */
  function SummaryRequested(selectedText: string): Message
  {
    Message(SummaryRequestedType, map["selectedText" := JStr(selectedText)])
  }

  /** `{type: "UPDATE_CONFIG", config}`. */
  function UpdateConfig(config: Json): Message
  {
    Message(UpdateConfigType, map["config" := config])
  }

  /**
   * An open tab: its id, when it has one, and whether a page script is
   * listening in it (a send to a tab without one rejects).
   */
  datatype Tab = Tab(id: Option<int>, hasReceiver: bool)

  /** `if (tab.id)`: a tab without an id, or with id 0, is skipped. */
  predicate HasTruthyId(t: Tab)
  {
    t.id.Some? && t.id.value != 0
  }

  /** Some open tab with this id has a listening page script. */
  predicate Reachable(open: seq<Tab>, id: int)
  {
    exists i | 0 <= i < |open| :: open[i].id == Some(id) && open[i].hasReceiver
  }

  /** A message that arrived at a page script. */
  datatype Delivery = Delivery(tabId: int, message: Message)

  /** `chrome.tabs`: the open tabs and everything delivered to them so far. */
  class Tabs {
    var open: seq<Tab>
    var delivered: seq<Delivery>

    constructor (open: seq<Tab>)
      ensures this.open == open && delivered == []
    {
      this.open := open;
      delivered := [];
    }

    /** `chrome.tabs.sendMessage(tabId, m)`: delivered when the tab is reachable, rejected otherwise. */
    method SendMessage(tabId: int, m: Message) returns (ok: bool)
      modifies this
      ensures ok == Reachable(open, tabId)
      ensures open == old(open)
      ensures delivered == old(delivered) + (if ok then [Delivery(tabId, m)] else [])
    {
      ok := Reachable(open, tabId);
      if ok {
        delivered := delivered + [Delivery(tabId, m)];
      }
    }
  }

  /** `chrome.runtime` as a page script uses it: what it has sent to the coordinator. */
  class Runtime {
    var sent: seq<Message>

    constructor ()
      ensures sent == []
    {
      sent := [];
    }

    method SendMessage(m: Message)
      modifies this
      ensures sent == old(sent) + [m]
    {
      sent := sent + [m];
    }
  }
}
