/**
 * Key-value storage as the extension sees it. One class serves the three
 * stores the code touches: `chrome.storage.sync` (settings),
 * `chrome.storage.local` (the page-side history) and the plugin framework's
 * storage handle (the feature's history, the plugin config). A failing
 * storage call is decided by a parameter, since the real outcome comes from
 * the browser.
 */
module Storage {
  import opened Values

  /**
   * `area.get(defaults)`: one entry per default key, holding the stored value
   * when the key is stored and the default otherwise.
   */
  function WithDefaults(stored: map<string, Json>, defaults: map<string, Json>): (r: map<string, Json>)
    ensures r.Keys == defaults.Keys
    ensures forall k | k in r :: r[k] == if k in stored then stored[k] else defaults[k]
  {
    map k | k in defaults :: if k in stored then stored[k] else defaults[k]
  }

  /**
   * The settings defaults the coordinator and the page script both read
   * `chrome.storage.sync` with.
   */
  const SettingsDefaults: map<string, Json> := map[
    "apiUrl" := JStr("https://api.openai.com/v1/chat/completions"),
    "apiKey" := JStr(""),
    "maxLength" := JNum(200),
    "language" := JStr("zh-CN")
  ]

  /** How a framework `getItem` call turns out. */
  datatype ReadOutcome = ReadDelivers | ReadDeclines | ReadRaises(error: string)

  /** What a framework `getItem` call yields: `{success: true, data}`, `{success: false}`, or a rejection. */
  datatype ItemRead = Delivered(data: Json) | Declined | Raised(error: string)

  /** `getItem(key, default)`: the stored value, or the default when the key is not stored. */
  function ItemReadOf(items: map<string, Json>, key: string, default: Json, outcome: ReadOutcome): (r: ItemRead)
    ensures outcome == ReadDelivers ==> r == Delivered(if key in items then items[key] else default)
    ensures outcome == ReadDeclines ==> r == Declined
    ensures outcome.ReadRaises? ==> r == Raised(outcome.error)
  {
    match outcome
    case ReadDelivers => Delivered(if key in items then items[key] else default)
    case ReadDeclines => Declined
    case ReadRaises(e) => Raised(e)
  }

  /** How a framework `setItem` call turns out. */
  datatype WriteOutcome = WriteCommits | WriteDeclines | WriteRaises(error: string)

  /** The stored entries after `setItem(key, value)`: only a committed write changes them. */
  function ItemsAfterWrite(items: map<string, Json>, key: string, value: Json, outcome: WriteOutcome): (r: map<string, Json>)
    ensures outcome == WriteCommits ==> key in r && r[key] == value && forall k | k in items && k != key :: k in r && r[k] == items[k]
    ensures outcome == WriteCommits ==> r.Keys == items.Keys + {key}
    ensures outcome != WriteCommits ==> r == items
  {
    if outcome == WriteCommits then items[key := value] else items
  }

  class Store {
    var items: map<string, Json>

    constructor (initial: map<string, Json>)
      ensures items == initial
    {
      items := initial;
    }

    /** `area.get(defaults)`; rejects with `fault` when one is given. */
    method Get(defaults: map<string, Json>, fault: Option<string>) returns (r: Result<map<string, Json>>)
      ensures fault.Some? ==> r == Err(fault.value)
      ensures fault.None? ==> r == Ok(WithDefaults(items, defaults))
    {
      if fault.Some? {
        r := Err(fault.value);
      } else {
        r := Ok(WithDefaults(items, defaults));
      }
    }

    /** `area.set(entries)`: writes every entry, or nothing when it rejects. */
    method Set(entries: map<string, Json>, fault: Option<string>) returns (r: Outcome)
      modifies this
      ensures fault.Some? ==> r == Fail(fault.value) && items == old(items)
      ensures fault.None? ==> r == Pass && items == Spread(old(items), entries)
    {
      if fault.Some? {
        r := Fail(fault.value);
      } else {
        items := Spread(items, entries);
        r := Pass;
      }
    }

    /** The framework's `getItem(key, default)`. */
    method GetItem(key: string, default: Json, outcome: ReadOutcome) returns (r: ItemRead)
      ensures r == ItemReadOf(items, key, default, outcome)
    {
      match outcome
      case ReadDelivers =>
        r := Delivered(if key in items then items[key] else default);
      case ReadDeclines =>
        r := Declined;
      case ReadRaises(e) =>
        r := Raised(e);
    }

    /**
     * The framework's `setItem(key, value)`: resolves `{success: true}` having
     * written the key, resolves `{success: false}` having written nothing, or
     * rejects having written nothing.
     */
    method SetItem(key: string, value: Json, outcome: WriteOutcome) returns (r: Result<bool>)
      modifies this
      ensures outcome.WriteRaises? ==> r == Err(outcome.error)
      ensures outcome == WriteDeclines ==> r == Ok(false)
      ensures outcome == WriteCommits ==> r == Ok(true)
      ensures items == ItemsAfterWrite(old(items), key, value, outcome)
    {
      match outcome
      case WriteRaises(e) =>
        r := Err(e);
      case WriteDeclines =>
        r := Ok(false);
      case WriteCommits =>
        items := items[key := value];
        r := Ok(true);
    }
  }
}
