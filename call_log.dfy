/** The bounded, newest-first call log kept in `call_logs.json`. */
module CallLog {
  import opened JsValues
  import opened Sequences

  /** The number of entries `saveCallLog` keeps. */
  const Cap: nat := 100

  /** The `source` of every entry and the `from` of every incoming-call event. */
  const Kiosk: string := "Sidney Kiosk"

  /** One object of the log: `{ sid, accepted, time, source }`. */
  datatype Entry = Entry(sid: JsValue, accepted: JsValue, time: string, source: string)

  /**
   * `saveCallLog(entry)`: the log after `logs.unshift(entry)` and `logs.slice(0, 100)`.
   * The new entry is first and the previous log follows, cut to the cap.
   */
  function Saved(log: seq<Entry>, entry: Entry): (r: seq<Entry>)
    ensures |r| <= Cap
    ensures |r| == if |log| < Cap then |log| + 1 else Cap
    ensures r[0] == entry
    ensures r[1..] == log[..|r| - 1]
  {
    Prefix([entry] + log, Cap)
  }

  /** The log after saving `entries[0]`, `entries[1]`, ... in that order. */
  function SavedAll(log: seq<Entry>, entries: seq<Entry>): seq<Entry>
    decreases |entries|
  {
    if entries == [] then log else SavedAll(Saved(log, entries[0]), entries[1..])
  }

  lemma PrefixOfPrefix<T>(a: seq<T>, s: seq<T>, n: nat)
    ensures Prefix(a + Prefix(s, n), n) == Prefix(a + s, n)
  {
  }

  /**
   * Saving a series of entries leaves them newest first in front of the old log, the whole cut
   * to the cap: no entry is lost below the cap, none is duplicated, and the oldest go first.
   */
  lemma {:induction false} SavedAllNewestFirst(log: seq<Entry>, entries: seq<Entry>)
    requires entries != []
    ensures SavedAll(log, entries) == Prefix(Reversed(entries) + log, Cap)
    decreases |entries|
  {
    var e := entries[0];
    if |entries| == 1 {
      assert entries == [e];
    } else {
      SavedAllNewestFirst(Saved(log, e), entries[1..]);
      PrefixOfPrefix(Reversed(entries[1..]), [e] + log, Cap);
      assert Reversed(entries[1..]) + ([e] + log) == Reversed(entries) + log;
    }
  }

  /**
   * After at least `Cap` saves the log holds exactly the last `Cap` entries, newest first: nothing
   * of the log before them survives (a 101st save evicts the oldest entry).
   */
  lemma LastCapEntries(log: seq<Entry>, entries: seq<Entry>)
    requires |entries| >= Cap
    ensures SavedAll(log, entries) == Reversed(entries[|entries| - Cap..])
  {
    SavedAllNewestFirst(log, entries);
    var k := |entries| - Cap;
    assert entries == entries[..k] + entries[k..];
    ReversedAppend(entries[..k], entries[k..]);
    assert Reversed(entries) + log == Reversed(entries[k..]) + (Reversed(entries[..k]) + log);
  }

  lemma {:induction false} ReversedAppend<T>(a: seq<T>, b: seq<T>)
    ensures Reversed(a + b) == Reversed(b) + Reversed(a)
  {
    if a == [] {
      assert a + b == b;
    } else {
      assert (a + b)[1..] == a[1..] + b;
      ReversedAppend(a[1..], b);
    }
  }
}
