/** Tables in least-recently-used order, for any entry type with a time stamp. */
module Recency {

  /** Later entries were active later, and nothing was active in the future. */
  ghost predicate Ordered<T>(entries: seq<T>, stamp: T -> int, now: int) {
    && (forall i, j :: 0 <= i < j < |entries| ==> stamp(entries[i]) <= stamp(entries[j]))
    && (forall i :: 0 <= i < |entries| ==> stamp(entries[i]) <= now)
  }

  /** The entries a complete filter keeps, in their order. */
  function Lively<T>(entries: seq<T>, stamp: T -> int, now: int, idle: nat): seq<T> {
    if entries == [] then []
    else (if now - stamp(entries[0]) < idle then [entries[0]] else []) + Lively(entries[1..], stamp, now, idle)
  }

  lemma WithoutOrdered<T>(entries: seq<T>, i: nat, stamp: T -> int, now: int)
    requires Ordered(entries, stamp, now) && i < |entries|
    ensures Ordered(entries[..i] + entries[i + 1..], stamp, now)
  {
  }

  lemma TailOrdered<T>(entries: seq<T>, i: nat, stamp: T -> int, now: int)
    requires Ordered(entries, stamp, now) && i <= |entries|
    ensures Ordered(entries[i..], stamp, now)
  {
  }

  lemma SnocOrdered<T>(entries: seq<T>, x: T, stamp: T -> int, now: int)
    requires Ordered(entries, stamp, now) && stamp(x) == now
    ensures Ordered(entries + [x], stamp, now)
  {
  }

  lemma SameStamps<T>(a: seq<T>, b: seq<T>, stamp: T -> int, now: int)
    requires Ordered(a, stamp, now) && |a| == |b| && forall i :: 0 <= i < |a| ==> stamp(a[i]) == stamp(b[i])
    ensures Ordered(b, stamp, now)
  {
  }

  lemma LaterOrdered<T>(entries: seq<T>, stamp: T -> int, before: int, now: int)
    requires Ordered(entries, stamp, before) && before <= now
    ensures Ordered(entries, stamp, now)
  {
  }

  /** In an ordered table a fresh first entry means that nothing is stale. */
  lemma {:induction false} FreshHead<T>(entries: seq<T>, stamp: T -> int, before: int, now: int, idle: nat)
    requires Ordered(entries, stamp, before) && (entries != [] ==> now - stamp(entries[0]) < idle)
    ensures Lively(entries, stamp, now, idle) == entries
    decreases |entries|
  {
    if entries != [] {
      TailOrdered(entries, 1, stamp, before);
      FreshHead(entries[1..], stamp, before, now, idle);
      assert entries == [entries[0]] + entries[1..];
    }
  }

  /** A filter that has passed the first `i` entries and meets one to keep. */
  lemma KeepAt<T>(entries: seq<T>, i: nat, stamp: T -> int, now: int, idle: nat)
    requires i < |entries| && now - stamp(entries[i]) < idle
    ensures entries[..i] + Lively(entries[i..], stamp, now, idle)
            == entries[..i + 1] + Lively(entries[i + 1..], stamp, now, idle)
  {
    assert entries[i..][0] == entries[i] && entries[i..][1..] == entries[i + 1..];
    assert entries[..i + 1] == entries[..i] + [entries[i]];
  }

  /** A filter that has passed the first `i` entries and meets one to drop. */
  lemma DropAt<T>(entries: seq<T>, i: nat, stamp: T -> int, now: int, idle: nat)
    requires i < |entries| && now - stamp(entries[i]) >= idle
    ensures var rest := entries[..i] + entries[i + 1..];
            entries[..i] + Lively(entries[i..], stamp, now, idle) == rest[..i] + Lively(rest[i..], stamp, now, idle)
  {
    var rest := entries[..i] + entries[i + 1..];
    assert entries[i..][0] == entries[i] && entries[i..][1..] == entries[i + 1..];
    assert rest[..i] == entries[..i] && rest[i..] == entries[i + 1..];
  }
}
