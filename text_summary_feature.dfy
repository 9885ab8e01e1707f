/**
 * The text-summary feature: whether it applies to a page, whether a request
 * may run, and running it, which returns a (stubbed) summary and records it
 * in the framework storage's history under `text_summary_history`.
 */
module TextSummaryFeature {
  import opened Values
  import opened Text
  import opened Storage
  import opened History

  const FeatureId := "text-summary"
  const HistoryKey := "text_summary_history"
  const MinSelection: nat := 10

  /** The summary the feature returns in place of a network call. */
  const PlaceholderSummary := "这是AI生成的总结内容..."
  const PreconditionError := "无法执行总结：缺少选中文本或API配置"
  /** Prefix of the error returned when the execution itself throws. */
  const ExecutionErrorPrefix := "总结失败: "
  /** The TypeError thrown when `selectedText` is truthy but not a string. */
  const TrimTypeError := "selectedText.trim is not a function"

  /** The feature applies to every site. */
  predicate IsApplicable(url: string)
  {
    true
  }

  lemma AppliesEverywhere(url: string)
    ensures IsApplicable(url)
  {
  }

  /** The request carries a string selection of at least 10 characters once trimmed. */
  predicate SelectionLongEnough(settings: map<string, Json>)
  {
    var sel := Get(settings, "selectedText");
    sel.Some? && sel.value.JStr? && |Trim(sel.value.s)| >= MinSelection
  }

  /** `selectedText` is truthy but not a string, so `trim` throws. */
  predicate SelectionNotText(settings: map<string, Json>)
  {
    var sel := Get(settings, "selectedText");
    Present(sel) && !sel.value.JStr?
  }

  /**
   * `canExecute(context)`: Some(answer), or None when it throws. It answers
   * true exactly when the selection is long enough and `apiUrl` is set, and
   * throws exactly when the selection is a truthy non-string.
   */
  function CanExecute(settings: map<string, Json>): (r: Option<bool>)
    ensures r == Some(true) <==> SelectionLongEnough(settings) && Present(Get(settings, "apiUrl"))
    ensures r.None? <==> SelectionNotText(settings)
    ensures !Present(Get(settings, "selectedText")) ==> r == Some(false)
  {
    var sel := Get(settings, "selectedText");
    if !Present(sel) then Some(false)
    else if !sel.value.JStr? then None
    else if |Trim(sel.value.s)| == 0 then Some(false)
    else if |Trim(sel.value.s)| < MinSelection then Some(false)
    else if !Present(Get(settings, "apiUrl")) then Some(false)
    else Some(true)
  }

  /** A whitespace-only selection can never run, whatever else is configured. */
  lemma BlankSelectionCannotRun(settings: map<string, Json>, text: string)
    requires Get(settings, "selectedText") == Some(JStr(text))
    requires AllWhitespace(text)
    ensures CanExecute(settings) == Some(false)
  {
  }

  /** `{success: true, actions}` or `{success: false, error}`. */
  datatype ExecutionResult = Succeeded(actions: seq<string>) | Failed(error: string)

  /**
   * What the history key holds after `saveSummaryHistory`, or None when
   * nothing is written: the read rejected, or the stored value is not an
   * array (so `unshift` throws). An unsuccessful read counts as an empty
   * history.
   */
  function HistoryAfterSave(read: ItemRead, record: Json): (r: Option<Json>)
    ensures read.Raised? ==> r.None?
    ensures read.Declined? ==> r == Some(JArr([record]))
    ensures read.Delivered? ==> r == (if read.data.JArr? then Some(JArr(PushNewest(read.data.items, record))) else None)
    ensures r.Some? ==> r.value.JArr? && 0 < |r.value.items| <= MaxEntries && r.value.items[0] == record
  {
    match read
    case Raised(_) => None
    case Declined =>
      assert PushNewest([], record) == [record];
      Some(JArr(PushNewest([], record)))
    case Delivered(data) =>
      if data.JArr? then Some(JArr(PushNewest(data.items, record))) else None
  }

  /** The record the feature saves for one run. */
  function FeatureRecord(clock: Clock, url: string, originalText: string, summary: string): Json
  {
    NewRecord(JStr(DecimalString(clock.nowMs)), clock, url, originalText, JStr(summary))
  }

  /**
   * The framework storage after a save: unchanged when nothing is written or
   * the write does not commit, otherwise the history key replaced.
   */
  function ItemsAfterSave(items: map<string, Json>, read: ItemRead, record: Json, write: WriteOutcome): map<string, Json>
  {
    var h := HistoryAfterSave(read, record);
    if h.Some? then ItemsAfterWrite(items, HistoryKey, h.value, write) else items
  }

  /**
   * `saveSummaryHistory`: prepend the record, keep 50, write back. Every
   * failure is swallowed; without storage nothing happens.
   */
  method SaveSummaryHistory(storage: Store?, url: string, originalText: string, summary: string,
                            clock: Clock, read: ReadOutcome, write: WriteOutcome)
    modifies storage
    ensures storage != null ==> storage.items == ItemsAfterSave(old(storage.items),
      ItemReadOf(old(storage.items), HistoryKey, JArr([]), read),
      FeatureRecord(clock, url, originalText, summary), write)
  {
    if storage == null {
      return;
    }
    var historyResult := storage.GetItem(HistoryKey, JArr([]), read);
    if historyResult.Raised? {
      return;
    }
    var stored := if historyResult.Delivered? then historyResult.data else JArr([]);
    if !stored.JArr? {
      return;
    }
    var history := stored.items;
    var record := FeatureRecord(clock, url, originalText, summary);
    history := [record] + history;
    if |history| > MaxEntries {
      history := history[..MaxEntries];
    }
    assert history == PushNewest(stored.items, record);
    var _ := storage.SetItem(HistoryKey, JArr(history), write);
  }

  /**
   * `execute(context)`: refuse when `canExecute` is false, report the thrown
   * error when it throws, otherwise save the history (failures swallowed) and
   * return the summary.
   */
  method Execute(settings: map<string, Json>, url: string, storage: Store?, clock: Clock,
                 read: ReadOutcome, write: WriteOutcome) returns (r: ExecutionResult)
    modifies storage
    ensures CanExecute(settings) == Some(false) ==> r == Failed(PreconditionError)
    ensures CanExecute(settings).None? ==> r == Failed(ExecutionErrorPrefix + TrimTypeError)
    ensures CanExecute(settings) != Some(true) && storage != null ==> storage.items == old(storage.items)
    ensures CanExecute(settings) == Some(true) ==> r == Succeeded([PlaceholderSummary])
    ensures CanExecute(settings) == Some(true) && storage != null ==>
      storage.items == ItemsAfterSave(old(storage.items),
        ItemReadOf(old(storage.items), HistoryKey, JArr([]), read),
        FeatureRecord(clock, url, settings["selectedText"].s, PlaceholderSummary), write)
  {
    var canRun := CanExecute(settings);
    if canRun.None? {
      return Failed(ExecutionErrorPrefix + TrimTypeError);
    }
    if !canRun.value {
      return Failed(PreconditionError);
    }
    var selectedText := settings["selectedText"].s;
    var summary := PlaceholderSummary;
    SaveSummaryHistory(storage, url, selectedText, summary, clock, read, write);
    r := Succeeded([summary]);
  }

  /**
   * `getSummaryHistory(storage)`: the stored list, or [] when the read fails
   * or there is no storage to read (the call on it throws and is caught).
   */
  method GetSummaryHistory(storage: Store?, read: ReadOutcome) returns (history: Json)
    ensures storage != null && read == ReadDelivers ==>
      history == if HistoryKey in storage.items then storage.items[HistoryKey] else JArr([])
    ensures storage != null && read != ReadDelivers ==> history == JArr([])
    ensures storage == null ==> history == JArr([])
  {
    if storage == null {
      return JArr([]);
    }
    var result := storage.GetItem(HistoryKey, JArr([]), read);
    history := if result.Delivered? then result.data else JArr([]);
  }

  /**
   * A successful run followed by a read shows the new record first, holding
   * the selection cut to 500 characters, in a history of at most 50 entries.
   */
  lemma SavedRecordComesFirst(items: map<string, Json>, clock: Clock, url: string, text: string, summary: string)
    requires HistoryKey in items ==> items[HistoryKey].JArr?
    ensures var after := ItemsAfterSave(items, ItemReadOf(items, HistoryKey, JArr([]), ReadDelivers),
                                        FeatureRecord(clock, url, text, summary), WriteCommits);
      && HistoryKey in after && after[HistoryKey].JArr?
      && |after[HistoryKey].items| == Min((if HistoryKey in items then |items[HistoryKey].items| else 0) + 1, MaxEntries)
      && after[HistoryKey].items[0].fields["originalText"] == JStr(Prefix(text, MaxOriginalText))
  {
  }
}
