/**
 * The page script the extension runs in every tab: it answers the
 * coordinator's messages, turns a summary request into an `EXECUTE_FEATURE`
 * request, shows the outcome as a notice or as a single result dialog, and
 * saves a shown summary to the history in `chrome.storage.local`.
 */
module ContentScript {
  import opened Values
  import opened Text
  import opened Storage
  import opened History
  import opened Browser
  import Feature = TextSummaryFeature
  import Background

  const ModalId := "summary-modal"
  const OverlayId := "summary-modal-overlay"

  const ShortSelectionWarning := "请选择至少10个字符的文本进行总结"
  const GeneratingNotice := "🤖 正在生成总结..."
  const RequestFailedNotice := "总结请求失败，请稍后重试"
  const FailurePrefix := "总结失败: "
  /** The summary shown when the reply carries no first action. */
  const DefaultSummary := "总结完成"
  const CopiedNotice := "总结已复制到剪贴板"
  const SavedNotice := "总结已保存到历史记录"

  datatype Level = InfoLevel | WarningLevel | ErrorLevel

  /** A notice shown in the page's corner. */
  datatype Notice = Notice(text: string, level: Level)

  /** An element the script adds to the page body: its id and, for the dialog, what it shows. */
  datatype Element = Element(id: string, originalText: string, summary: Json)

  const Overlay := Element(OverlayId, "", JNull)

  function Dialog(originalText: string, summary: Json): Element
  {
    Element(ModalId, originalText, summary)
  }

  /** Number of elements of `body` with this id. */
  function CountId(body: seq<Element>, id: string): nat
  {
    if body == [] then 0 else (if body[0].id == id then 1 else 0) + CountId(body[1..], id)
  }

  /** `document.getElementById(id)?.remove()`: drop the first element with this id. */
  function RemoveFirst(body: seq<Element>, id: string): seq<Element>
  {
    if body == [] then []
    else if body[0].id == id then body[1..]
    else [body[0]] + RemoveFirst(body[1..], id)
  }

  lemma {:induction false} CountIdAppend(a: seq<Element>, b: seq<Element>, id: string)
    ensures CountId(a + b, id) == CountId(a, id) + CountId(b, id)
  {
    if a != [] {
      assert (a + b)[1..] == a[1..] + b;
      CountIdAppend(a[1..], b, id);
    } else {
      assert a + b == b;
    }
  }

  /** Removing by id takes away one element with that id, when there is one, and no other. */
  lemma {:induction false} RemoveFirstCounts(body: seq<Element>, x: string, y: string)
    ensures CountId(RemoveFirst(body, x), y) == CountId(body, y) - (if x == y && CountId(body, x) > 0 then 1 else 0)
  {
    if body != [] && body[0].id != x {
      RemoveFirstCounts(body[1..], x, y);
      assert ([body[0]] + RemoveFirst(body[1..], x))[1..] == RemoveFirst(body[1..], x);
    }
  }

  /** The page body after `showSummaryResult`: the old dialog and overlay removed, a new pair appended. */
  function WithDialog(body: seq<Element>, originalText: string, summary: Json): seq<Element>
  {
    RemoveFirst(RemoveFirst(body, OverlayId), ModalId) + [Overlay, Dialog(originalText, summary)]
  }

  /**
   * Closing before showing keeps a single dialog: from a page with at most
   * one dialog and one overlay, showing a result leaves exactly one of each,
   * and every other element where it was counted.
   */
  lemma {:induction false} ShowingKeepsOneDialog(body: seq<Element>, originalText: string, summary: Json, other: string)
    requires CountId(body, ModalId) <= 1 && CountId(body, OverlayId) <= 1
    requires other != ModalId && other != OverlayId
    ensures CountId(WithDialog(body, originalText, summary), ModalId) == 1
    ensures CountId(WithDialog(body, originalText, summary), OverlayId) == 1
    ensures CountId(WithDialog(body, originalText, summary), other) == CountId(body, other)
  {
    var once := RemoveFirst(body, OverlayId);
    var twice := RemoveFirst(once, ModalId);
    var pair := [Overlay, Dialog(originalText, summary)];
    RemoveFirstCounts(body, OverlayId, ModalId);
    RemoveFirstCounts(body, OverlayId, OverlayId);
    RemoveFirstCounts(body, OverlayId, other);
    RemoveFirstCounts(once, ModalId, ModalId);
    RemoveFirstCounts(once, ModalId, OverlayId);
    RemoveFirstCounts(once, ModalId, other);
    CountIdAppend(twice, pair, ModalId);
    CountIdAppend(twice, pair, OverlayId);
    CountIdAppend(twice, pair, other);
    var last := [Dialog(originalText, summary)];
    assert pair[1..] == last && last[1..] == [];
    assert ModalId != OverlayId by { assert |ModalId| != |OverlayId|; }
    assert CountId(last, ModalId) == 1 && CountId(last, OverlayId) == 0 && CountId(last, other) == 0;
  }

  /** `String(v)` for a value read from a reply. */
  function JsString(v: Json): string
  {
    match v
    case JNull => "null"
    case JBool(b) => if b then "true" else "false"
    case JNum(n) => if n < 0 then "-" + DecimalString(-n) else DecimalString(n)
    case JStr(s) => s
    case JArr(items) => Join(seq(|items|, i requires 0 <= i < |items| => if items[i].JNull? then "" else JsString(items[i])))
    case JObj(_) => "[object Object]"
  }

  /** The parts separated by commas, as `Array.prototype.join` does. */
  function Join(parts: seq<string>): string
  {
    if parts == [] then "" else if |parts| == 1 then parts[0] else parts[0] + "," + Join(parts[1..])
  }

  /** A value as a template literal prints it: `undefined` when absent. */
  function TemplateText(v: Option<Json>): string
  {
    if v.Some? then JsString(v.value) else "undefined"
  }

  /**
   * The guard before a request is sent: None when the selection is a string
   * of at least 10 characters once trimmed, otherwise the notice shown
   * instead. A falsy or short selection draws the warning; a truthy
   * non-string makes `trim` throw, and the request fails.
   */
  function SelectionCheck(selectedText: Option<Json>): (r: Option<Notice>)
    ensures r.None? <==> selectedText.Some? && selectedText.value.JStr? && |Trim(selectedText.value.s)| >= Feature.MinSelection
    ensures r.Some? ==> r.value.level == WarningLevel || r.value == Notice(RequestFailedNotice, ErrorLevel)
    ensures r.Some? && r.value.level == WarningLevel ==> r.value.text == ShortSelectionWarning
    ensures !Present(selectedText) ==> r == Some(Notice(ShortSelectionWarning, WarningLevel))
    ensures selectedText.Some? && selectedText.value.JStr? && AllWhitespace(selectedText.value.s) ==>
      r == Some(Notice(ShortSelectionWarning, WarningLevel))
    ensures selectedText.Some? && selectedText.value.JStr? && |Trim(selectedText.value.s)| < Feature.MinSelection ==>
      r == Some(Notice(ShortSelectionWarning, WarningLevel))
    ensures Present(selectedText) && !selectedText.value.JStr? ==> r == Some(Notice(RequestFailedNotice, ErrorLevel))
  {
    if !Present(selectedText) then Some(Notice(ShortSelectionWarning, WarningLevel))
    else if !selectedText.value.JStr? then Some(Notice(RequestFailedNotice, ErrorLevel))
    else if |Trim(selectedText.value.s)| < Feature.MinSelection then Some(Notice(ShortSelectionWarning, WarningLevel))
    else None
  }

  /** The `settings` a request carries: the selection and the four settings as the read returned them. */
  function RequestSettings(selectedText: string, config: map<string, Json>): map<string, Json>
  {
    (map k | k in config.Keys * SettingsDefaults.Keys :: config[k])["selectedText" := JStr(selectedText)]
  }

  /** `{type: "EXECUTE_FEATURE", featureId: "text-summary", context: {settings, url}}`. */
  function ExecuteRequest(selectedText: string, config: map<string, Json>, href: string): Message
  {
    Message(ExecuteFeatureType, map[
      "featureId" := JStr(Feature.FeatureId),
      "context" := JObj(map["settings" := JObj(RequestSettings(selectedText, config)), "url" := JStr(href)])
    ])
  }

  /** The settings object inside a request built by `ExecuteRequest`. */
  function SettingsSent(m: Message): map<string, Json>
  {
    if "context" in m.body && m.body["context"].JObj? && "settings" in m.body["context"].fields
       && m.body["context"].fields["settings"].JObj?
    then m.body["context"].fields["settings"].fields
    else map[]
  }

  /**
   * A request built from the settings as read asks for the summary feature
   * and carries the selection and the four settings: each the stored value
   * when there is one, else its default; nothing else.
   */
  lemma {:induction false} RequestCarriesStoredSettings(selectedText: string, stored: map<string, Json>, href: string)
    ensures var m := ExecuteRequest(selectedText, WithDefaults(stored, SettingsDefaults), href);
      && m.msgType == ExecuteFeatureType && m.body["featureId"] == JStr(Feature.FeatureId)
      && SettingsSent(m).Keys == {"selectedText"} + SettingsDefaults.Keys
      && SettingsSent(m)["selectedText"] == JStr(selectedText)
      && forall k | k in SettingsDefaults :: SettingsSent(m)[k] == if k in stored then stored[k] else SettingsDefaults[k]
  {
    var config := WithDefaults(stored, SettingsDefaults);
    var settings := RequestSettings(selectedText, config);
    assert SettingsSent(ExecuteRequest(selectedText, config, href)) == settings;
    assert "selectedText" !in SettingsDefaults;
    assert settings.Keys == {"selectedText"} + SettingsDefaults.Keys;
  }

  /**
   * A selection that passed this page's guard, sent with the stored
   * settings, is one the feature runs exactly when the stored or default
   * `apiUrl` is truthy.
   */
  lemma {:induction false} RequestPassesFeatureGuard(selectedText: string, stored: map<string, Json>, href: string)
    requires SelectionCheck(Some(JStr(selectedText))).None?
    ensures var config := WithDefaults(stored, SettingsDefaults);
      Feature.CanExecute(SettingsSent(ExecuteRequest(selectedText, config, href))) == Some(Present(Get(config, "apiUrl")))
  {
    var config := WithDefaults(stored, SettingsDefaults);
    var settings := RequestSettings(selectedText, config);
    assert SettingsSent(ExecuteRequest(selectedText, config, href)) == settings;
    assert Get(settings, "selectedText") == Some(JStr(selectedText));
    assert "apiUrl" in config.Keys * SettingsDefaults.Keys;
    assert Get(settings, "apiUrl") == Get(config, "apiUrl");
  }

  /** What the user sees once the request is answered. */
  datatype Feedback = ShowResult(summary: Json) | ShowError(text: string)

  /**
   * The reaction to the reply: reading `success` from no reply or from null
   * throws, and the request fails; a truthy `success` shows the first action,
   * or "总结完成" when there is none; otherwise the reply's error is shown.
   */
  function FeedbackOf(response: Option<Json>): (f: Feedback)
    ensures f.ShowResult? <==> response.Some? && response.value.JObj? && Present(Get(response.value.fields, "success"))
    ensures f.ShowResult? ==> Truthy(f.summary)
    ensures f.ShowResult? ==>
      f.summary == if Present(First(Prop(response, "actions"))) then First(Prop(response, "actions")).value else JStr(DefaultSummary)
    ensures response.None? || response == Some(JNull) ==> f == ShowError(RequestFailedNotice)
    ensures response.Some? && response.value != JNull && f.ShowError? ==>
      f.text == FailurePrefix + TemplateText(Prop(response, "error"))
  {
    if response.None? || response.value.JNull? then ShowError(RequestFailedNotice)
    else if Present(Prop(response, "success")) then ShowResult(OrElse(First(Prop(response, "actions")), JStr(DefaultSummary)))
    else ShowError(FailurePrefix + TemplateText(Prop(response, "error")))
  }

  /**
   * The coordinator this extension ships answers no `EXECUTE_FEATURE`
   * request, so the reply is absent and every request that gets past the
   * guard ends in the request-failed notice.
   */
  lemma UnansweredRequestFails()
    ensures Background.Route(ExecuteFeatureType).Unhandled?
    ensures FeedbackOf(None) == ShowError(RequestFailedNotice)
  {
    Background.ExecutionAndStatusGoUnanswered();
  }

  /** The handler the page script's listener picks for a message type. */
  datatype ContentHandler = StartSummary | ApplyConfig | ForwardStatus | Ignore

  /** The `switch (message.type)` of the page script's listener. */
  function ContentRoute(msgType: string): (h: ContentHandler)
    ensures h.Ignore? <==> msgType !in {SummaryRequestedType, UpdateConfigType, GetPluginStatusType}
    ensures h == StartSummary <==> msgType == SummaryRequestedType
    ensures h == ApplyConfig <==> msgType == UpdateConfigType
    ensures h == ForwardStatus <==> msgType == GetPluginStatusType
  {
    if msgType == SummaryRequestedType then StartSummary
    else if msgType == UpdateConfigType then ApplyConfig
    else if msgType == GetPluginStatusType then ForwardStatus
    else Ignore
  }

  /** `{success: true}`. */
  const Ack := JObj(map["success" := JBool(true)])

  /**
   * What the rest of the browser does during one message: whether the
   * settings read rejects, the coordinator's reply to `EXECUTE_FEATURE` and
   * to `GET_PLUGIN_STATUS` (None: no reply), and whether a settings write
   * rejects.
   */
  datatype Environment = Environment(
    configFault: Option<string>,
    executeResponse: Option<Json>,
    statusResponse: Option<Json>,
    configWriteFault: Option<string>)

  /** The page script's settings read: the stored settings with defaults, or the rejection. */
  function SettingsRead(items: map<string, Json>, fault: Option<string>): (r: Result<map<string, Json>>)
    ensures fault.Some? ==> r == Err(fault.value)
    ensures fault.None? ==> r.Ok? && r.value.Keys == SettingsDefaults.Keys
    ensures fault.None? ==>
      forall k | k in SettingsDefaults :: r.value[k] == if k in items then items[k] else SettingsDefaults[k]
  {
    if fault.Some? then Err(fault.value) else Ok(WithDefaults(items, SettingsDefaults))
  }

  /**
   * The notices one summary request adds: none before initialization; the
   * guard's notice for a bad selection; otherwise the progress notice,
   * followed by the request-failed notice for a rejected settings read or
   * by the reply's error notice.
   */
  function SummaryNotices(initialized: bool, selectedText: Option<Json>, config: Result<map<string, Json>>,
                          response: Option<Json>): (r: seq<Notice>)
    ensures !initialized ==> r == []
    ensures initialized && SelectionCheck(selectedText).Some? ==> r == [SelectionCheck(selectedText).value]
    ensures initialized && SelectionCheck(selectedText).None? ==>
      && 1 <= |r| <= 2 && r[0] == Notice(GeneratingNotice, InfoLevel)
      && (|r| == 2 <==> config.Err? || FeedbackOf(response).ShowError?)
  {
    if !initialized then []
    else if SelectionCheck(selectedText).Some? then [SelectionCheck(selectedText).value]
    else
      var outcome :=
        if config.Err? then [Notice(RequestFailedNotice, ErrorLevel)]
        else if FeedbackOf(response).ShowError? then [Notice(FeedbackOf(response).text, ErrorLevel)]
        else [];
      [Notice(GeneratingNotice, InfoLevel)] + outcome
  }

  /** The messages one summary request sends: the one request, exactly when the guard and the settings read pass. */
  function SummarySent(initialized: bool, selectedText: Option<Json>, config: Result<map<string, Json>>, href: string): (r: seq<Message>)
    ensures |r| <= 1
    ensures |r| == 1 <==> initialized && SelectionCheck(selectedText).None? && config.Ok?
    ensures |r| == 1 ==> r[0].msgType == ExecuteFeatureType
  {
    if initialized && SelectionCheck(selectedText).None? && config.Ok?
    then [ExecuteRequest(selectedText.value.s, config.value, href)]
    else []
  }

  /** The page body after one summary request: a new dialog only when the reply carries a summary. */
  function SummaryBody(body: seq<Element>, initialized: bool, selectedText: Option<Json>,
                       config: Result<map<string, Json>>, response: Option<Json>): (r: seq<Element>)
    ensures !(initialized && SelectionCheck(selectedText).None? && config.Ok? && FeedbackOf(response).ShowResult?) ==> r == body
  {
    if initialized && SelectionCheck(selectedText).None? && config.Ok? && FeedbackOf(response).ShowResult?
    then WithDialog(body, selectedText.value.s, FeedbackOf(response).summary)
    else body
  }

  /** The page: its body, the notices shown on it, and its address. */
  class Page {
    var body: seq<Element>
    var notices: seq<Notice>
    const href: string

    constructor (body: seq<Element>, href: string)
      ensures this.body == body && notices == [] && this.href == href
    {
      this.body := body;
      notices := [];
      this.href := href;
    }

    /** `showNotification(text, level)`. */
    method ShowNotification(text: string, level: Level)
      modifies this
      ensures notices == old(notices) + [Notice(text, level)] && body == old(body)
    {
      notices := notices + [Notice(text, level)];
    }

    /** `document.getElementById(id)?.remove()`. */
    method RemoveById(id: string)
      modifies this
      ensures body == RemoveFirst(old(body), id) && notices == old(notices)
    {
      body := RemoveFirst(body, id);
    }

    /** `document.body.appendChild(e)`. */
    method Append(e: Element)
      modifies this
      ensures body == old(body) + [e] && notices == old(notices)
    {
      body := body + [e];
    }
  }

  class ContentScriptManager {
    var isInitialized: bool
    var awaitingDomContentLoaded: bool
    var currentModal: Option<Element>
    var currentOverlay: Option<Element>
    const page: Page
    const sync: Store
    const local: Store
    const runtime: Runtime

    /** The dialog references match the page: at most one dialog and one overlay, both referenced or neither. */
    ghost predicate Valid()
      reads this, page
    {
      && (currentModal.Some? <==> currentOverlay.Some?)
      && CountId(page.body, ModalId) == (if currentModal.Some? then 1 else 0)
      && CountId(page.body, OverlayId) == (if currentOverlay.Some? then 1 else 0)
      && (currentModal.Some? ==> currentModal.value.id == ModalId && currentModal.value in page.body)
      && (currentOverlay.Some? ==> currentOverlay == Some(Overlay) && Overlay in page.body)
    }

    /**
     * `new ContentScriptManager()` on a page that has no dialog of its own:
     * initialize now, or once the document has loaded.
     */
    constructor (page: Page, sync: Store, local: Store, runtime: Runtime, documentLoading: bool)
      requires CountId(page.body, ModalId) == 0 && CountId(page.body, OverlayId) == 0
      ensures this.page == page && this.sync == sync && this.local == local && this.runtime == runtime
      ensures isInitialized == !documentLoading && awaitingDomContentLoaded == documentLoading
      ensures currentModal.None? && Valid()
    {
      this.page := page;
      this.sync := sync;
      this.local := local;
      this.runtime := runtime;
      isInitialized := false;
      awaitingDomContentLoaded := false;
      currentModal := None;
      currentOverlay := None;
      new;
      Init(documentLoading);
    }

    /** `init()`: while the document is loading, wait for `DOMContentLoaded`; otherwise initialize now. */
    method Init(documentLoading: bool)
      modifies this
      ensures documentLoading ==> isInitialized == old(isInitialized) && awaitingDomContentLoaded
      ensures !documentLoading ==> isInitialized && awaitingDomContentLoaded == old(awaitingDomContentLoaded)
      ensures currentModal == old(currentModal) && currentOverlay == old(currentOverlay)
    {
      if documentLoading {
        awaitingDomContentLoaded := true;
      } else {
        InitializeContentScript();
      }
    }

    /** The document finished loading. */
    method OnDomContentLoaded()
      modifies this
      ensures isInitialized == (old(isInitialized) || old(awaitingDomContentLoaded))
      ensures awaitingDomContentLoaded == old(awaitingDomContentLoaded)
      ensures currentModal == old(currentModal) && currentOverlay == old(currentOverlay)
    {
      if awaitingDomContentLoaded {
        InitializeContentScript();
      }
    }

    /** `initializeContentScript()`: sets the flag once; a later call changes nothing. */
    method InitializeContentScript()
      modifies this
      ensures isInitialized
      ensures old(isInitialized) ==> unchanged(this)
      ensures awaitingDomContentLoaded == old(awaitingDomContentLoaded)
      ensures currentModal == old(currentModal) && currentOverlay == old(currentOverlay)
    {
      if isInitialized {
        return;
      }
      isInitialized := true;
    }

    /**
     * The page script's message listener: a summary request or a config
     * update is handled and answered `{success: true}`; a status request is
     * passed on to the coordinator and answered with its reply; the listener
     * returns true for these three types and false for every other.
     */
    method OnMessage(m: Message, env: Environment, clock: Clock) returns (keepOpen: bool, reply: Option<Json>)
      requires Valid()
      modifies this, page, runtime, sync
      ensures Valid()
      ensures keepOpen <==> !ContentRoute(m.msgType).Ignore?
      ensures ContentRoute(m.msgType) == StartSummary || ContentRoute(m.msgType) == ApplyConfig ==> reply == Some(Ack)
      ensures ContentRoute(m.msgType) == ForwardStatus ==>
        reply == env.statusResponse && runtime.sent == old(runtime.sent) + [Message(GetPluginStatusType, map[])]
      ensures ContentRoute(m.msgType).Ignore? ==>
        reply.None? && runtime.sent == old(runtime.sent) && page.body == old(page.body)
        && page.notices == old(page.notices) && sync.items == old(sync.items)
      ensures ContentRoute(m.msgType) != ApplyConfig ==> sync.items == old(sync.items)
      ensures ContentRoute(m.msgType) == ApplyConfig ==> sync.items == ItemsAfterConfigWrite(old(sync.items), Get(m.body, "config"), env.configWriteFault)
      ensures ContentRoute(m.msgType) == ForwardStatus || ContentRoute(m.msgType) == ApplyConfig ==>
        page.body == old(page.body) && page.notices == old(page.notices)
      ensures ContentRoute(m.msgType) == ApplyConfig ==> runtime.sent == old(runtime.sent)
      ensures ContentRoute(m.msgType) == StartSummary ==>
        var selectedText, config := Get(m.body, "selectedText"), SettingsRead(old(sync.items), env.configFault);
        && page.notices == old(page.notices) + SummaryNotices(old(isInitialized), selectedText, config, env.executeResponse)
        && runtime.sent == old(runtime.sent) + SummarySent(old(isInitialized), selectedText, config, page.href)
        && page.body == SummaryBody(old(page.body), old(isInitialized), selectedText, config, env.executeResponse)
    {
      match ContentRoute(m.msgType)
      case StartSummary =>
        HandleSummaryRequest(Get(m.body, "selectedText"), env.configFault, env.executeResponse);
        return true, Some(Ack);
      case ApplyConfig =>
        UpdateConfig(Get(m.body, "config"), env.configWriteFault);
        return true, Some(Ack);
      case ForwardStatus =>
        runtime.SendMessage(Message(GetPluginStatusType, map[]));
        return true, env.statusResponse;
      case Ignore =>
        return false, None;
    }
    /**
     * `handleSummaryRequest(selectedText)`: before initialization, nothing.
     * Otherwise the guard's notice, or the progress notice followed by a
     * request carrying the selection and the stored settings, and then the
     * reply's feedback: the result dialog or an error notice. A rejected
     * settings read ends in the request-failed notice with nothing sent.
     */
    method HandleSummaryRequest(selectedText: Option<Json>, configFault: Option<string>, response: Option<Json>)
      requires Valid()
      modifies this, page, runtime
      ensures Valid()
      ensures isInitialized == old(isInitialized) && awaitingDomContentLoaded == old(awaitingDomContentLoaded)
      ensures !old(isInitialized) || SelectionCheck(selectedText).Some? || configFault.Some? ||
              FeedbackOf(response).ShowError? ==>
        page.body == old(page.body) && currentModal == old(currentModal) && currentOverlay == old(currentOverlay)
      ensures !old(isInitialized) ==> page.notices == old(page.notices) && runtime.sent == old(runtime.sent)
      ensures old(isInitialized) && SelectionCheck(selectedText).Some? ==>
        page.notices == old(page.notices) + [SelectionCheck(selectedText).value] && runtime.sent == old(runtime.sent)
      ensures old(isInitialized) && SelectionCheck(selectedText).None? && configFault.Some? ==>
        page.notices == old(page.notices) + [Notice(GeneratingNotice, InfoLevel), Notice(RequestFailedNotice, ErrorLevel)]
        && runtime.sent == old(runtime.sent)
      ensures old(isInitialized) && SelectionCheck(selectedText).None? && configFault.None? ==>
        runtime.sent == old(runtime.sent) + [ExecuteRequest(selectedText.value.s, WithDefaults(sync.items, SettingsDefaults), page.href)]
      ensures old(isInitialized) && SelectionCheck(selectedText).None? && configFault.None? && FeedbackOf(response).ShowError? ==>
        page.notices == old(page.notices) + [Notice(GeneratingNotice, InfoLevel), Notice(FeedbackOf(response).text, ErrorLevel)]
      ensures old(isInitialized) && SelectionCheck(selectedText).None? && configFault.None? && FeedbackOf(response).ShowResult? ==>
        && page.notices == old(page.notices) + [Notice(GeneratingNotice, InfoLevel)]
        && page.body == WithDialog(old(page.body), selectedText.value.s, FeedbackOf(response).summary)
        && currentModal == Some(Dialog(selectedText.value.s, FeedbackOf(response).summary))
      ensures page.notices == old(page.notices) + SummaryNotices(old(isInitialized), selectedText, SettingsRead(sync.items, configFault), response)
      ensures runtime.sent == old(runtime.sent) + SummarySent(old(isInitialized), selectedText, SettingsRead(sync.items, configFault), page.href)
      ensures page.body == SummaryBody(old(page.body), old(isInitialized), selectedText, SettingsRead(sync.items, configFault), response)
    {
      if !isInitialized {
        return;
      }
      var refused := SelectionCheck(selectedText);
      if refused.Some? {
        page.ShowNotification(refused.value.text, refused.value.level);
        return;
      }
      page.ShowNotification(GeneratingNotice, InfoLevel);
      var config := sync.Get(SettingsDefaults, configFault);
      RequestSummary(selectedText.value.s, config, response);
    }

    /**
     * The part of `handleSummaryRequest` after the settings read: a rejected
     * read fails the request; otherwise send the request built from the
     * settings read and show the reply's feedback.
     */
    method RequestSummary(text: string, config: Result<map<string, Json>>, response: Option<Json>)
      requires Valid()
      modifies this, page, runtime
      ensures Valid()
      ensures isInitialized == old(isInitialized) && awaitingDomContentLoaded == old(awaitingDomContentLoaded)
      ensures config.Err? || FeedbackOf(response).ShowError? ==>
        page.body == old(page.body) && currentModal == old(currentModal) && currentOverlay == old(currentOverlay)
      ensures config.Err? ==>
        page.notices == old(page.notices) + [Notice(RequestFailedNotice, ErrorLevel)] && runtime.sent == old(runtime.sent)
      ensures config.Ok? ==> runtime.sent == old(runtime.sent) + [ExecuteRequest(text, config.value, page.href)]
      ensures config.Ok? && FeedbackOf(response).ShowError? ==>
        page.notices == old(page.notices) + [Notice(FeedbackOf(response).text, ErrorLevel)]
      ensures config.Ok? && FeedbackOf(response).ShowResult? ==>
        && page.notices == old(page.notices)
        && page.body == WithDialog(old(page.body), text, FeedbackOf(response).summary)
        && currentModal == Some(Dialog(text, FeedbackOf(response).summary))
    {
      if config.Err? {
        page.ShowNotification(RequestFailedNotice, ErrorLevel);
        return;
      }
      runtime.SendMessage(ExecuteRequest(text, config.value, page.href));
      ShowFeedback(text, FeedbackOf(response));
    }

    /** The UI feedback once the reply is in: the result dialog, or an error notice. */
    method ShowFeedback(text: string, feedback: Feedback)
      requires Valid()
      modifies this, page
      ensures Valid()
      ensures isInitialized == old(isInitialized) && awaitingDomContentLoaded == old(awaitingDomContentLoaded)
      ensures feedback.ShowError? ==>
        && page.notices == old(page.notices) + [Notice(feedback.text, ErrorLevel)]
        && page.body == old(page.body) && currentModal == old(currentModal) && currentOverlay == old(currentOverlay)
      ensures feedback.ShowResult? ==>
        && page.notices == old(page.notices)
        && page.body == WithDialog(old(page.body), text, feedback.summary)
        && currentModal == Some(Dialog(text, feedback.summary))
    {
      if feedback.ShowResult? {
        ShowSummaryResult(text, feedback.summary);
      } else {
        page.ShowNotification(feedback.text, ErrorLevel);
      }
    }

    /** `updateConfig(config)`: write it to the synced settings; a rejected write is swallowed. */
    method UpdateConfig(config: Option<Json>, fault: Option<string>)
      modifies sync
      ensures sync.items == ItemsAfterConfigWrite(old(sync.items), config, fault)
    {
      if config.None? || !config.value.JObj? {
        return;
      }
      var _ := sync.Set(config.value.fields, fault);
    }

    /** `closeExistingModal()`: remove the overlay and the dialog from the page and drop both references. */
    method CloseExistingModal()
      requires Valid()
      modifies this, page
      ensures page.body == RemoveFirst(RemoveFirst(old(page.body), OverlayId), ModalId)
      ensures page.notices == old(page.notices)
      ensures currentModal.None? && currentOverlay.None? && Valid()
      ensures CountId(page.body, ModalId) == 0 && CountId(page.body, OverlayId) == 0
      ensures isInitialized == old(isInitialized) && awaitingDomContentLoaded == old(awaitingDomContentLoaded)
    {
      ghost var before := page.body;
      page.RemoveById(OverlayId);
      page.RemoveById(ModalId);
      RemoveFirstCounts(before, OverlayId, ModalId);
      RemoveFirstCounts(before, OverlayId, OverlayId);
      RemoveFirstCounts(RemoveFirst(before, OverlayId), ModalId, ModalId);
      RemoveFirstCounts(RemoveFirst(before, OverlayId), ModalId, OverlayId);
      currentModal := None;
      currentOverlay := None;
    }

    /** `showSummaryResult(originalText, summary)`: close any dialog, then show a new one. */
    method ShowSummaryResult(originalText: string, summary: Json)
      requires Valid()
      modifies this, page
      ensures page.body == WithDialog(old(page.body), originalText, summary)
      ensures page.notices == old(page.notices)
      ensures currentModal == Some(Dialog(originalText, summary)) && currentOverlay == Some(Overlay) && Valid()
      ensures isInitialized == old(isInitialized) && awaitingDomContentLoaded == old(awaitingDomContentLoaded)
    {
      ghost var before := page.body;
      CloseExistingModal();
      var modal := Dialog(originalText, summary);
      currentModal := Some(modal);
      currentOverlay := Some(Overlay);
      page.Append(Overlay);
      page.Append(modal);
      ShowingKeepsOneDialog(before, originalText, summary, "");
      assert page.body == WithDialog(before, originalText, summary);
      assert page.body[|page.body| - 1] == modal && page.body[|page.body| - 2] == Overlay;
    }

    /** The dialog's copy button: a notice once the clipboard accepts the summary. */
    method OnCopyClicked(clipboardFault: Option<string>)
      modifies page
      ensures page.body == old(page.body)
      ensures page.notices == old(page.notices) + (if clipboardFault.None? then [Notice(CopiedNotice, InfoLevel)] else [])
    {
      if clipboardFault.None? {
        page.ShowNotification(CopiedNotice, InfoLevel);
      }
    }

    /**
     * The dialog's save button: read the history (an empty list when none is
     * stored), prepend a record stamped with the current time and page, keep
     * 50 entries, and write it back; the saved notice follows the write
     * whether or not it succeeded. A failed read, or a stored value that is
     * not a list, writes nothing and shows nothing.
     */
    method OnSaveClicked(originalText: string, summary: Json, clock: Clock,
                         readFault: Option<string>, writeFault: Option<string>)
      modifies local, page
      ensures page.body == old(page.body)
      ensures local.items == ItemsAfterPageSave(old(local.items), readFault,
        NewRecord(JNum(clock.nowMs), clock, page.href, originalText, summary), writeFault)
      ensures page.notices == old(page.notices) +
        (if SavedHistory(old(local.items), readFault, NewRecord(JNum(clock.nowMs), clock, page.href, originalText, summary)).Some?
         then [Notice(SavedNotice, InfoLevel)] else [])
    {
      var read := local.Get(Background.HistoryDefaults, readFault);
      if read.Err? {
        return;
      }
      var stored := read.value[Background.HistoryKey];
      if !stored.JArr? {
        return;
      }
      var history := stored.items;
      var record := NewRecord(JNum(clock.nowMs), clock, page.href, originalText, summary);
      history := [record] + history;
      if |history| > MaxEntries {
        history := history[..MaxEntries];
      }
      assert history == PushNewest(stored.items, record);
      var _ := local.Set(map[Background.HistoryKey := JArr(history)], writeFault);
      page.ShowNotification(SavedNotice, InfoLevel);
    }
  }

  /** The synced settings after `updateConfig`: the object's keys written over the old ones, unless the write fails. */
  function ItemsAfterConfigWrite(items: map<string, Json>, config: Option<Json>, fault: Option<string>): map<string, Json>
  {
    if config.Some? && config.value.JObj? && fault.None? then Spread(items, config.value.fields) else items
  }

  /** The history the save button writes, or None when the read fails or the stored value is not a list. */
  function SavedHistory(items: map<string, Json>, readFault: Option<string>, record: Json): (r: Option<seq<Json>>)
    ensures readFault.Some? ==> r.None?
    ensures readFault.None? && Background.HistoryKey !in items ==> r == Some([record])
    ensures readFault.None? && Background.HistoryKey in items && items[Background.HistoryKey].JArr? ==>
      r == Some(PushNewest(items[Background.HistoryKey].items, record))
    ensures r.Some? ==> 0 < |r.value| <= MaxEntries && r.value[0] == record
    ensures r.Some? && Background.HistoryKey in items ==>
      items[Background.HistoryKey].JArr? && r.value == PushNewest(items[Background.HistoryKey].items, record)
  {
    var stored := WithDefaults(items, Background.HistoryDefaults)[Background.HistoryKey];
    if readFault.Some? || !stored.JArr? then None
    else
      assert PushNewest([], record) == [record];
      Some(PushNewest(stored.items, record))
  }

  /** `chrome.storage.local` after the save button: the new history written, unless nothing is written or the write fails. */
  function ItemsAfterPageSave(items: map<string, Json>, readFault: Option<string>, record: Json, writeFault: Option<string>): map<string, Json>
  {
    var h := SavedHistory(items, readFault, record);
    if h.Some? && writeFault.None? then items[Background.HistoryKey := JArr(h.value)] else items
  }

  /**
   * A save from the dialog shows up first in the coordinator's history reply,
   * with the selection cut to 500 characters and the list within 50 entries.
   */
  lemma {:induction false} SavedSummaryHeadsHistory(items: map<string, Json>, clock: Clock, href: string,
                                                    originalText: string, summary: Json)
    requires Background.HistoryKey in items ==> items[Background.HistoryKey].JArr?
    ensures var record := NewRecord(JNum(clock.nowMs), clock, href, originalText, summary);
      var reply := Background.HistoryReplyOf(Ok(WithDefaults(ItemsAfterPageSave(items, None, record, None), Background.HistoryDefaults)));
      && reply.HistoryReply? && reply.history.JArr?
      && 0 < |reply.history.items| <= MaxEntries
      && reply.history.items[0] == record
      && reply.history.items[0].fields["originalText"] == JStr(Prefix(originalText, MaxOriginalText))
  {
    var record := NewRecord(JNum(clock.nowMs), clock, href, originalText, summary);
    var h := SavedHistory(items, None, record);
    assert h.Some?;
    var after := ItemsAfterPageSave(items, None, record, None);
    assert after[Background.HistoryKey] == JArr(h.value);
  }
}
