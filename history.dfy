/**
 * The summary history both the feature and the page script keep: a list of
 * records, newest first, never longer than 50, each holding at most 500
 * characters of the summarised text.
 */
module History {
  import opened Values
  import opened Text

  const MaxEntries: nat := 50
  const MaxOriginalText: nat := 500

  /** The wall clock as read once per save: `Date.now()` and `new Date().toISOString()`. */
  datatype Clock = Clock(nowMs: nat, isoTimestamp: string)

  /**
   * The record a save prepends. `id` is `Date.now()` as the caller stores it
   * (a decimal string in the feature, a number in the page script); the
   * summary is kept as the value it was handed.
   */
  function NewRecord(id: Json, clock: Clock, url: string, originalText: string, summary: Json): (r: Json)
    ensures r.JObj? && r.fields.Keys == {"id", "timestamp", "url", "originalText", "summary"}
    ensures r.fields["id"] == id && r.fields["url"] == JStr(url) && r.fields["summary"] == summary
    ensures r.fields["originalText"] == JStr(Prefix(originalText, MaxOriginalText))
    ensures |r.fields["originalText"].s| == Min(|originalText|, MaxOriginalText)
    ensures r.fields["timestamp"] == JStr(clock.isoTimestamp)
  {
    JObj(map[
      "id" := id,
      "timestamp" := JStr(clock.isoTimestamp),
      "url" := JStr(url),
      "originalText" := JStr(Prefix(originalText, MaxOriginalText)),
      "summary" := summary
    ])
  }

  /**
   * `history.unshift(x); if (history.length > 50) history.splice(50);`:
   * `x` becomes entry 0, the old entries follow in order, and the list is cut
   * to 50 entries.
   */
  function PushNewest<T>(history: seq<T>, x: T): (r: seq<T>)
    ensures |r| == Min(|history| + 1, MaxEntries)
    ensures r[0] == x
    ensures forall i | 1 <= i < |r| :: r[i] == history[i - 1]
  {
    var grown := [x] + history;
    if |grown| > MaxEntries then grown[..MaxEntries] else grown
  }

  /** The first 50 entries of `s`. */
  function Cap<T>(s: seq<T>): seq<T>
  {
    s[..Min(|s|, MaxEntries)]
  }

  function Reverse<T>(s: seq<T>): seq<T>
  {
    if s == [] then [] else Reverse(s[1..]) + [s[0]]
  }

  /** The history after saving each of `xs` in turn. */
  function PushAll<T>(history: seq<T>, xs: seq<T>): seq<T>
    decreases |xs|
  {
    if xs == [] then history else PushAll(PushNewest(history, xs[0]), xs[1..])
  }

  lemma CapOfAppendCap<T>(a: seq<T>, b: seq<T>)
    ensures Cap(a + Cap(b)) == Cap(a + b)
  {
    var n := Min(|a + b|, MaxEntries);
    assert |Cap(a + Cap(b))| == n;
    forall i | 0 <= i < n ensures Cap(a + Cap(b))[i] == Cap(a + b)[i] {
      if i >= |a| {
        assert (a + Cap(b))[i] == Cap(b)[i - |a|];
      }
    }
  }

  /**
   * Repeated saves are a bounded newest-first buffer: after saving `xs` in
   * order, the history is the 50 most recent records, the last one saved
   * first, followed by what was there before.
   */
  lemma {:induction false} PushAllIsNewestFirst<T>(history: seq<T>, xs: seq<T>)
    requires xs != []
    ensures PushAll(history, xs) == Cap(Reverse(xs) + history)
    decreases |xs|
  {
    var x, rest := xs[0], xs[1..];
    assert PushNewest(history, x) == Cap([x] + history);
    if rest == [] {
      assert Reverse(xs) == [x];
    } else {
      PushAllIsNewestFirst(PushNewest(history, x), rest);
      CapOfAppendCap(Reverse(rest), [x] + history);
      assert Reverse(rest) + ([x] + history) == Reverse(xs) + history;
    }
  }

  /** Once a history is within bounds, no number of saves takes it out of bounds. */
  lemma {:induction false} PushAllStaysBounded<T>(history: seq<T>, xs: seq<T>)
    requires |history| <= MaxEntries
    ensures |PushAll(history, xs)| <= MaxEntries
    ensures xs != [] ==> |PushAll(history, xs)| > 0 && PushAll(history, xs)[0] == xs[|xs| - 1]
    decreases |xs|
  {
    if xs != [] {
      PushAllStaysBounded(PushNewest(history, xs[0]), xs[1..]);
      if |xs| == 1 {
        assert PushAll(PushNewest(history, xs[0]), xs[1..]) == PushNewest(history, xs[0]);
      } else {
        assert xs[1..][|xs[1..]| - 1] == xs[|xs| - 1];
      }
    }
  }
}
