/** The bounded logs of the tutorial views (the parent's event log, the action log,
    the focus log, the key history) all follow one rule: push the new entry at the
    end, then, if the log has grown past its cap, remove the entry at index 0. */
module BoundedLog {

  /** The last `cap` entries of `s`, or all of `s` when it is shorter. */
  function Newest<T>(s: seq<T>, cap: nat): (r: seq<T>)
    ensures |r| == if |s| <= cap then |s| else cap
    ensures r == s[|s| - |r|..]
  {
    if |s| <= cap then s else s[|s| - cap..]
  }

  /** One `push` followed by the `remove(0)` that brings the log back under its cap. */
  function Push<T>(log: seq<T>, entry: T, cap: nat): (r: seq<T>)
    // a log within its cap stays within it
    ensures |log| <= cap ==> |r| <= cap
    // below the cap nothing is dropped
    ensures |log| < cap ==> r == log + [entry]
    // at (or over) the cap exactly the oldest entry is dropped
    ensures |log| >= cap ==> |r| == |log|
    ensures |log| >= cap && |log| > 0 ==> r == log[1..] + [entry]
    // the new entry is always the last one kept
    ensures |r| > 0 ==> r[|r| - 1] == entry
  {
    var grown := log + [entry];
    if |grown| > cap then grown[1..] else grown
  }

  /** The log after pushing `entries` one by one, in order. */
  function PushAll<T>(log: seq<T>, entries: seq<T>, cap: nat): seq<T>
    decreases |entries|
  {
    if entries == [] then log else PushAll(Push(log, entries[0], cap), entries[1..], cap)
  }

  /** A log that is within its cap, after one more push, holds the newest `cap`
      entries of everything pushed. */
  lemma PushKeepsNewest<T>(log: seq<T>, entry: T, cap: nat)
    requires |log| <= cap
    ensures Push(log, entry, cap) == Newest(log + [entry], cap)
  {
  }

  /** Trimming to the newest `cap` entries early does not change which entries
      are the newest `cap` once more entries arrive. */
  lemma NewestOfNewest<T>(s: seq<T>, t: seq<T>, cap: nat)
    ensures Newest(Newest(s, cap) + t, cap) == Newest(s + t, cap)
  {
    var u := Newest(s, cap);
    assert u + t == (s + t)[|s| - |u|..];
    var a, b := Newest(u + t, cap), Newest(s + t, cap);
    assert |a| == |b|;
    forall i | 0 <= i < |a|
      ensures a[i] == b[i]
    {
      assert a[i] == (u + t)[|u + t| - |a| + i];
      assert b[i] == (s + t)[|s + t| - |b| + i];
    }
  }

  /** However many entries are pushed, a bounded log holds exactly the newest `cap`
      of all entries it has seen, in arrival order: the oldest are dropped first. */
  lemma {:induction false} PushAllKeepsNewest<T>(log: seq<T>, entries: seq<T>, cap: nat)
    requires |log| <= cap
    ensures PushAll(log, entries, cap) == Newest(log + entries, cap)
    decreases |entries|
  {
    if entries == [] {
      assert log + entries == log;
    } else {
      var next := Push(log, entries[0], cap);
      PushKeepsNewest(log, entries[0], cap);
      PushAllKeepsNewest(next, entries[1..], cap);
      NewestOfNewest(log + [entries[0]], entries[1..], cap);
      assert log + [entries[0]] + entries[1..] == log + entries;
    }
  }
}
