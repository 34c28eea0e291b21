/**
 * Expiry of incomplete datagrams over whole runs. By activity the scan stops at the first fresh
 * datagram, which removes exactly what a full scan would as long as the clock never runs backwards.
 */
module FragmentExpiry {
  import opened Common
  import opened Recency
  import opened Fragments
  import opened FragmentTheorems

  function Activity(s: Datagram): int { s.activity }

  function CaptureTime(s: Datagram): int { s.lastSeen }

  // ---------------------------------------------------------------- one fragment

  /** All entries but the last are ordered. */
  ghost predicate InitOrdered(states: seq<Datagram>, now: int) {
    states != [] && Ordered(states[..|states| - 1], Activity, now)
  }

  lemma SnocInit(states: seq<Datagram>, s: Datagram, now: int)
    requires Ordered(states, Activity, now)
    ensures InitOrdered(states + [s], now)
  {
    AppendSnoc(states, s);
  }

  /** Afterwards only the last entry, which is about to be stamped, may be out of order. */
  lemma LocateOrdered(t: Table, p: Fragment, now: int)
    requires Ordered(t.states, Activity, now)
    ensures InitOrdered(Locate(t, p, now).states, now)
  {
    var i := Find(t.states, p.key);
    if i < |t.states| {
      WithoutOrdered(t.states, i, Activity, now);
      SnocInit(Without(t.states, i), t.states[i], now);
    } else {
      SnocInit(t.states, NewDatagram(p, now), now);
    }
  }

  /** Stamping the last entry restores the order. */
  lemma StampOrdered(t: Table, s: Datagram, now: int)
    requires InitOrdered(t.states, now) && s.activity == now
    ensures Ordered(Write(t, s).states, Activity, now)
  {
    var n := |t.states| - 1;
    assert Write(t, s).states == t.states[..n] + [s];
    SnocOrdered(t.states[..n], s, Activity, now);
  }

  lemma SettleOrdered(t: Table, now: int)
    requires t.states != [] && Ordered(t.states, Activity, now)
    ensures Ordered(Settle(t).t.states, Activity, now)
  {
    WithoutOrdered(t.states, |t.states| - 1, Activity, now);
  }

  lemma AdmitOrdered(L: Limits, t: Table, now: int)
    requires t.states != [] && Ordered(t.states, Activity, now)
    ensures Ordered(Admit(L, t).t.states, Activity, now)
  {
    if |Last(t).ranges| > L.maxRangesPerDatagram {
      WithoutOrdered(t.states, |t.states| - 1, Activity, now);
    } else {
      var r := EvictToLimits(L, t);
      EvictSuffix(L, t);
      TailOrdered(t.states, |t.states| - |r.states|, Activity, now);
      if r.states != [] {
        SettleOrdered(r, now);
      }
    }
  }

  lemma MergeOrdered(L: Limits, t: Table, p: Fragment, now: int)
    requires InitOrdered(t.states, now)
    ensures Ordered(Merge(L, t, p, now).t.states, Activity, now)
  {
    var s := Refresh(Last(t), p, now);
    if Clashes(s, p) {
      assert Without(t.states, |t.states| - 1) == t.states[..|t.states| - 1];
    } else {
      StampOrdered(t, Absorb(s, p), now);
      AdmitOrdered(L, Write(t, Absorb(s, p)), now);
    }
  }

  /** With a monotone clock, processing keeps the table ordered by activity. */
  lemma ProcessOrdered(L: Limits, t: Table, p: Fragment, now: int)
    requires Ordered(t.states, Activity, now)
    ensures Ordered(Process(L, t, p, now).t.states, Activity, now)
  {
    if p.fragmented && !(p.offset == 0 && !p.more) {
      if Malformed(L, p) {
        var i := Find(t.states, p.key);
        if i < |t.states| {
          WithoutOrdered(t.states, i, Activity, now);
        }
      } else {
        LocateOrdered(t, p, now);
        MergeOrdered(L, Locate(t, p, now), p, now);
      }
    }
  }

  // ---------------------------------------------------------------- the two expiries

  /** Stopping at the first fresh datagram removes exactly what a complete filter would remove. */
  lemma {:induction false} EarlyExitIsFilter(L: Limits, t: Table, before: int, now: int)
    requires Ordered(t.states, Activity, before)
    ensures ExpirePrefix(L, t, now).states == Lively(t.states, Activity, now, L.idle)
    ensures Ordered(ExpirePrefix(L, t, now).states, Activity, before)
    decreases |t.states|
  {
    if t.states == [] || now - t.states[0].activity < L.idle {
      FreshHead(t.states, Activity, before, now, L.idle);
    } else {
      assert Without(t.states, 0) == t.states[1..];
      TailOrdered(t.states, 1, Activity, before);
      EarlyExitIsFilter(L, Lapse(t), before, now);
    }
  }

  /** Expiry by capture time is the complete filter, whatever the order of the table. */
  lemma {:induction false} CaptureScanIsFilter(L: Limits, t: Table, i: nat, clock: int)
    requires i <= |t.states|
    ensures ExpireAll(L, t, i, clock).states == t.states[..i] + Lively(t.states[i..], CaptureTime, clock, L.idle)
    decreases |t.states| - i
  {
    if i == |t.states| {
      assert t.states[..i] + [] == t.states;
    } else if clock - t.states[i].lastSeen < L.idle {
      CaptureScanIsFilter(L, t, i + 1, clock);
      KeepAt(t.states, i, CaptureTime, clock, L.idle);
    } else {
      CaptureScanIsFilter(L, LapseAt(t, i), i, clock);
      DropAt(t.states, i, CaptureTime, clock, L.idle);
    }
  }

  lemma {:induction false} CaptureScanOrdered(L: Limits, t: Table, i: nat, clock: int, now: int)
    requires i <= |t.states| && Ordered(t.states, Activity, now)
    ensures Ordered(ExpireAll(L, t, i, clock).states, Activity, now)
    decreases |t.states| - i
  {
    if i < |t.states| {
      if clock - t.states[i].lastSeen < L.idle {
        CaptureScanOrdered(L, t, i + 1, clock, now);
      } else {
        WithoutOrdered(t.states, i, Activity, now);
        CaptureScanOrdered(L, LapseAt(t, i), i, clock, now);
      }
    }
  }

  // ---------------------------------------------------------------- runs

  /** The reading of the monotonic clock that the call makes, or the given one if it makes none. */
  function Reading(call: Call, now: int): int {
    match call
    case Feed(_, t) => t
    case ExpireIdle(t) => t
    case ExpireCaptured(_) => now
  }

  /** The first `n` readings of the monotonic clock never decrease and end by `now`. */
  predicate Monotone(calls: seq<Call>, n: nat, now: int)
    requires n <= |calls|
  {
    n == 0 || (Reading(calls[n - 1], now) <= now && Monotone(calls, n - 1, Reading(calls[n - 1], now)))
  }

  lemma ApplyOrdered(L: Limits, t: Table, call: Call, now: int)
    requires Reading(call, now) <= now && Ordered(t.states, Activity, Reading(call, now))
    ensures Ordered(Apply(L, t, call).states, Activity, now)
  {
    match call
    case Feed(p, at) =>
      ProcessOrdered(L, t, p, at);
      LaterOrdered(Process(L, t, p, at).t.states, Activity, at, now);
    case ExpireIdle(at) =>
      EarlyExitIsFilter(L, t, at, at);
      LaterOrdered(ExpirePrefix(L, t, at).states, Activity, at, now);
    case ExpireCaptured(clock) =>
      CaptureScanOrdered(L, t, 0, clock, now);
  }

  /** In every run with a monotone clock the table is ordered by activity. */
  lemma {:induction false} RunOrdered(L: Limits, calls: seq<Call>, tables: seq<Table>, n: nat, now: int)
    requires IsRun(L, calls, tables) && n <= |calls| && Monotone(calls, n, now)
    ensures Ordered(tables[n].states, Activity, now)
  {
    if n > 0 {
      RunOrdered(L, calls, tables, n - 1, Reading(calls[n - 1], now));
      assert Stepped(L, calls, tables, n - 1);
      ApplyOrdered(L, tables[n - 1], calls[n - 1], now);
    }
  }

  /**
   * In every run with a monotone clock, each expiry by activity leaves exactly the datagrams that a
   * complete filter leaves, although it stops at the first fresh one; and each expiry by capture
   * time leaves exactly those that a complete filter by capture time leaves.
   */
  lemma ExpiryIsComplete(L: Limits, calls: seq<Call>, tables: seq<Table>, n: nat, now: int)
    requires IsRun(L, calls, tables) && n < |calls| && Monotone(calls, n, now)
    ensures calls[n].ExpireIdle? ==>
              tables[n + 1].states == Lively(tables[n].states, Activity, calls[n].now, L.idle)
    ensures calls[n].ExpireCaptured? ==>
              tables[n + 1].states == Lively(tables[n].states, CaptureTime, calls[n].clock, L.idle)
  {
    RunOrdered(L, calls, tables, n, now);
    assert Stepped(L, calls, tables, n);
    match calls[n]
    case ExpireIdle(t) => EarlyExitIsFilter(L, tables[n], now, t);
    case ExpireCaptured(clock) => CaptureScanIsFilter(L, tables[n], 0, clock);
    case Feed(_, _) =>
  }
}
