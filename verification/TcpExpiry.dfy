/**
 * Expiry over whole runs. By activity the scan stops at the first fresh flow, which removes exactly
 * what a full scan would as long as the clock never runs backwards; by capture time it scans all.
 */
module TcpExpiry {
  import opened Common
  import opened Recency
  import opened TcpDirection
  import opened TcpMachine
  import opened TcpLedger
  import opened TcpRuns
  import opened TcpTheorems

  function Activity(f: Flow): int { f.activity }

  function CaptureTime(f: Flow): int { f.lastSeen }

  // ---------------------------------------------------------------- one packet

  /** With a monotone clock, processing keeps the table ordered by activity. */
  lemma ProcessOrdered(L: Limits, m: Tcp, p: Packet, now: int)
    requires 1 <= L.maxFlows && Ordered(m.flows, Activity, now)
    ensures Ordered(Process(L, m, p, now).m.flows, Activity, now)
  {
    if p.isTcp {
      var a := Reset(L, m, p);
      if Reopens(m, p) {
        WithoutOrdered(m.flows, Find(m.flows, p.key), Activity, now);
      }
      LocateOrdered(L, a.m, p, now);
      AdvanceOrdered(L, Locate(L, a.m, p, now).m, p, now);
    }
  }

  lemma SuffixOrdered(r: seq<Flow>, flows: seq<Flow>, now: int)
    requires Ordered(flows, Activity, now) && Suffix(r, flows)
    ensures Ordered(r, Activity, now)
  {
    TailOrdered(flows, |flows| - |r|, Activity, now);
  }

  /** All entries but the last are ordered. */
  ghost predicate InitOrdered(flows: seq<Flow>, now: int) {
    flows != [] && Ordered(flows[..|flows| - 1], Activity, now)
  }

  lemma SnocInit(flows: seq<Flow>, f: Flow, now: int)
    requires Ordered(flows, Activity, now)
    ensures InitOrdered(flows + [f], now)
  {
    AppendSnoc(flows, f);
  }

  lemma EnrollOrdered(flows: seq<Flow>, r: Step, p: Packet, now: int)
    requires Ordered(flows, Activity, now) && Suffix(r.m.flows, flows)
    ensures InitOrdered(Enroll(r, p, now).m.flows, now)
  {
    SuffixOrdered(r.m.flows, flows, now);
    SnocInit(r.m.flows, FreshFlow(p.key, r.m.nextEpoch, p.ts, now), now);
  }

  /** Afterwards only the last entry, which is about to be stamped, may be out of order. */
  lemma LocateOrdered(L: Limits, m: Tcp, p: Packet, now: int)
    requires 1 <= L.maxFlows && Ordered(m.flows, Activity, now)
    ensures InitOrdered(Locate(L, m, p, now).m.flows, now)
  {
    var i := Find(m.flows, p.key);
    if i < |m.flows| {
      WithoutOrdered(m.flows, i, Activity, now);
      SnocInit(Remove(m.flows, i), m.flows[i], now);
    } else {
      EvictToFitSuffix(L, m);
      EnrollOrdered(m.flows, EvictToFit(L, m), p, now);
    }
  }

  lemma LandOrdered(L: Limits, m: Tcp, p: Packet, now: int)
    requires InitOrdered(m.flows, now)
    ensures Ordered(Land(L, m, p, now).m.flows, Activity, now)
  {
    var r := Land(L, m, p, now).m.flows;
    assert r == m.flows[..|m.flows| - 1] + [r[|r| - 1]];
    SnocOrdered(m.flows[..|m.flows| - 1], r[|r| - 1], Activity, now);
  }

  lemma AdvanceOrdered(L: Limits, m: Tcp, p: Packet, now: int)
    requires InitOrdered(m.flows, now)
    ensures Ordered(Advance(L, m, p, now).m.flows, Activity, now)
  {
    var a := Land(L, m, p, now);
    LandOrdered(L, m, p, now);
    var e := if a.inserted then EvictToBudget(L, a.m) else Step(a.m, []);
    if a.inserted {
      EvictToBudgetSuffix(L, a.m);
      SuffixOrdered(e.m.flows, a.m.flows, now);
    }
    if !a.probe && e.m.flows != [] {
      CloseOrdered(L, e.m, p, now);
    }
  }

  lemma CloseOrdered(L: Limits, m: Tcp, p: Packet, now: int)
    requires m.flows != [] && Ordered(m.flows, Activity, now)
    ensures Ordered(Close(L, m, p).m.flows, Activity, now)
  {
    var a := Finish(L, m, p).m;
    SameStamps(m.flows, a.flows, Activity, now);
    if Departs(a, p) {
      var f := FlushAt(L, a, |a.flows| - 1, 1 - p.side, p.key).m;
      SameStamps(a.flows, f.flows, Activity, now);
      WithoutOrdered(f.flows, |a.flows| - 1, Activity, now);
    }
  }

  // ---------------------------------------------------------------- the two expiries

  /** Stopping at the first fresh entry removes exactly what a complete filter would remove. */
  lemma {:induction false} EarlyExitIsFilter(L: Limits, m: Tcp, before: int, now: int)
    requires Ordered(m.flows, Activity, before)
    ensures ExpirePrefix(L, m, now).m.flows == Lively(m.flows, Activity, now, L.idle)
    ensures Ordered(ExpirePrefix(L, m, now).m.flows, Activity, before)
    decreases |m.flows|
  {
    if m.flows == [] || now - m.flows[0].activity < L.idle {
      FreshHead(m.flows, Activity, before, now, L.idle);
    } else {
      assert Remove(m.flows, 0) == m.flows[1..];
      TailOrdered(m.flows, 1, Activity, before);
      EarlyExitIsFilter(L, Lapse(L, m, 0).m, before, now);
    }
  }

  /** Expiry by capture time is the complete filter, whatever the order of the table. */
  lemma {:induction false} CaptureScanIsFilter(L: Limits, m: Tcp, i: nat, clock: int)
    requires i <= |m.flows|
    ensures ExpireAll(L, m, i, clock).m.flows == m.flows[..i] + Lively(m.flows[i..], CaptureTime, clock, L.idle)
    decreases |m.flows| - i
  {
    if i == |m.flows| {
      assert m.flows[..i] + [] == m.flows;
    } else if clock - m.flows[i].lastSeen < L.idle {
      CaptureScanIsFilter(L, m, i + 1, clock);
      KeepAt(m.flows, i, CaptureTime, clock, L.idle);
    } else {
      CaptureScanIsFilter(L, Lapse(L, m, i).m, i, clock);
      DropAt(m.flows, i, CaptureTime, clock, L.idle);
    }
  }

  lemma {:induction false} CaptureScanOrdered(L: Limits, m: Tcp, i: nat, clock: int, now: int)
    requires i <= |m.flows| && Ordered(m.flows, Activity, now)
    ensures Ordered(ExpireAll(L, m, i, clock).m.flows, Activity, now)
    decreases |m.flows| - i
  {
    if i < |m.flows| {
      if clock - m.flows[i].lastSeen < L.idle {
        CaptureScanOrdered(L, m, i + 1, clock, now);
      } else {
        WithoutOrdered(m.flows, i, Activity, now);
        CaptureScanOrdered(L, Lapse(L, m, i).m, i, clock, now);
      }
    }
  }

  lemma {:induction false} FlushAllEmpties(L: Limits, m: Tcp)
    ensures FlushAll(L, m).m.flows == []
    decreases |m.flows|
  {
    if m.flows != [] {
      FlushAllEmpties(L, Dismiss(L, m, 0).m);
    }
  }

  // ---------------------------------------------------------------- runs

  /** The reading of the monotonic clock that the call makes, or the given one if it makes none. */
  function Reading(call: Call, now: int): int {
    match call
    case Feed(_, t) => t
    case ExpireIdle(t) => t
    case ExpireCaptured(_) => now
    case FlushEverything => now
  }

  /** The first `n` readings of the monotonic clock never decrease and end by `now`. */
  predicate Monotone(calls: seq<Call>, n: nat, now: int)
    requires n <= |calls|
  {
    n == 0 || (Reading(calls[n - 1], now) <= now && Monotone(calls, n - 1, Reading(calls[n - 1], now)))
  }

  lemma ApplyOrdered(L: Limits, w: World, call: Call, now: int)
    requires 1 <= L.maxFlows && Reading(call, now) <= now
    requires Ordered(w.m.flows, Activity, Reading(call, now))
    ensures Ordered(Apply(L, w, call).m.flows, Activity, now)
  {
    match call
    case Feed(p, t) =>
      ProcessOrdered(L, w.m, p, t);
      LaterOrdered(Process(L, w.m, p, t).m.flows, Activity, t, now);
    case ExpireIdle(t) =>
      EarlyExitIsFilter(L, w.m, t, t);
      LaterOrdered(ExpirePrefix(L, w.m, t).m.flows, Activity, t, now);
    case ExpireCaptured(clock) =>
      CaptureScanOrdered(L, w.m, 0, clock, now);
    case FlushEverything =>
      FlushAllEmpties(L, w.m);
  }

  /** In every run with a monotone clock the table is ordered by activity. */
  lemma {:induction false} RunOrdered(L: Limits, epochNamespace: nat, calls: seq<Call>, worlds: seq<World>, n: nat,
                                      now: int)
    requires 1 <= L.maxFlows && IsRun(L, epochNamespace, calls, worlds) && n <= |calls| && Monotone(calls, n, now)
    ensures Ordered(worlds[n].m.flows, Activity, now)
  {
    if n > 0 {
      var call := calls[n - 1];
      RunOrdered(L, epochNamespace, calls, worlds, n - 1, Reading(call, now));
      assert Stepped(L, calls, worlds, n - 1);
      ApplyOrdered(L, worlds[n - 1], call, now);
    }
  }

  /**
   * In every run with a monotone clock, each expiry by activity leaves exactly the flows that a
   * complete filter leaves, although it stops at the first fresh one; and each expiry by capture
   * time leaves exactly those that a complete filter by capture time leaves.
   */
  lemma ExpiryIsComplete(L: Limits, epochNamespace: nat, calls: seq<Call>, worlds: seq<World>, n: nat, now: int)
    requires 1 <= L.maxFlows && IsRun(L, epochNamespace, calls, worlds) && n < |calls| && Monotone(calls, n, now)
    ensures calls[n].ExpireIdle? ==>
              worlds[n + 1].m.flows == Lively(worlds[n].m.flows, Activity, calls[n].now, L.idle)
    ensures calls[n].ExpireCaptured? ==>
              worlds[n + 1].m.flows == Lively(worlds[n].m.flows, CaptureTime, calls[n].clock, L.idle)
  {
    RunOrdered(L, epochNamespace, calls, worlds, n, now);
    assert Stepped(L, calls, worlds, n);
    match calls[n]
    case ExpireIdle(t) => EarlyExitIsFilter(L, worlds[n].m, now, t);
    case ExpireCaptured(clock) => CaptureScanIsFilter(L, worlds[n].m, 0, clock);
    case _ =>
  }
}
