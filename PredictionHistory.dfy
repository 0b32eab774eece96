/** The client's log of past trade plans: newest first, at most five. */
module PredictionHistory {
  import opened Numbers

  const Capacity: nat := 5

  /** `[entry, ...history].slice(0, 5)`. */
  function Push<T>(entry: T, history: seq<T>): (h: seq<T>)
    ensures |h| == Min(Capacity, |history| + 1)
    ensures h[0] == entry
    ensures h[1..] <= history
  {
    ([entry] + history)[..Min(Capacity, |history| + 1)]
  }

  /** On overflow the oldest entry is the one dropped. */
  lemma PushFull<T>(entry: T, history: seq<T>)
    requires |history| == Capacity
    ensures Push(entry, history) == [entry] + history[..Capacity - 1]
  {
    assert Push(entry, history)[1..] == history[..Capacity - 1];
  }

  function Reverse<T>(s: seq<T>): (r: seq<T>)
    ensures |r| == |s|
    decreases |s|
  {
    if s == [] then [] else [s[|s| - 1]] + Reverse(s[..|s| - 1])
  }

  /** Element k of the reversal is element |s| - 1 - k of s. */
  lemma {:induction false} ReverseIndex<T>(s: seq<T>, k: nat)
    requires k < |s|
    ensures Reverse(s)[k] == s[|s| - 1 - k]
    decreases |s|
  {
    if k > 0 {
      ReverseIndex(s[..|s| - 1], k - 1);
    }
  }

  /** The log after pushing the entries one by one, first to last. */
  function PushAll<T>(history: seq<T>, entries: seq<T>): seq<T>
    decreases |entries|
  {
    if entries == [] then history
    else Push(entries[|entries| - 1], PushAll(history, entries[..|entries| - 1]))
  }

  /** After any series of pushes onto a log of at most five entries, the log
      holds the five most recent entries, newest first. */
  lemma {:induction false} PushAllKeepsNewest<T>(history: seq<T>, entries: seq<T>)
    requires |history| <= Capacity
    ensures PushAll(history, entries) == (Reverse(entries) + history)[..Min(Capacity, |entries| + |history|)]
    decreases |entries|
  {
    if entries != [] {
      var n := |entries| - 1;
      PushAllKeepsNewest(history, entries[..n]);
      var before := (Reverse(entries[..n]) + history)[..Min(Capacity, n + |history|)];
      var all := Reverse(entries) + history;
      assert all == [entries[n]] + (Reverse(entries[..n]) + history);
      var m := Min(Capacity, |entries| + |history|);
      assert ([entries[n]] + before)[..m] == all[..m];
    }
  }

  /** Six plans pushed onto an empty log leave five, the sixth first and the
      second last. */
  lemma SixPushes<T>(p1: T, p2: T, p3: T, p4: T, p5: T, p6: T)
    ensures PushAll([], [p1, p2, p3, p4, p5, p6]) == [p6, p5, p4, p3, p2]
  {
    var entries := [p1, p2, p3, p4, p5, p6];
    PushAllKeepsNewest([], entries);
    forall k | 0 <= k < 6 ensures Reverse(entries)[k] == entries[5 - k] {
      ReverseIndex(entries, k);
    }
    assert (Reverse(entries) + [])[..5] == [p6, p5, p4, p3, p2];
  }
}
