/**
 * The reassembler's contract over whole runs: exactly-once delivery, first-seen bytes, provenance,
 * conservation and caps.
 */
module TcpTheorems {
  import opened Common
  import opened Ranges
  import opened Spans
  import opened TcpDirection
  import opened TcpEpoch
  import opened TcpStream
  import opened TcpMachine
  import opened TcpLedger
  import opened TcpRuns

  // ---------------------------------------------------------------- one packet

  ghost predicate Accounted(L: Limits, log: Log, r: Result) { MachineOk(L, r.m, Recorded(log, r.arrivals, r.chunks)) }

  lemma RecordMore(log: Log, arrivals: seq<Arrival>, a: seq<Chunk>, b: seq<Chunk>)
    ensures WithChunks(Recorded(log, arrivals, a), b) == Recorded(log, arrivals, a + b)
    ensures Recorded(WithChunks(log, a), arrivals, b) == Recorded(log, arrivals, a + b)
  {
    AppendAssoc(log.out, a, b);
  }

  lemma AdvanceOk(L: Limits, m: Tcp, log: Log, p: Packet, now: int)
    requires MachineOk(L, m, log) && m.flows != [] && CapsOk(L, m)
    ensures Accounted(L, log, Advance(L, m, p, now)) && CapsOk(L, Advance(L, m, p, now).m)
  {
    var a := Land(L, m, p, now);
    LandOk(L, m, log, p, now);
    LandFit(L, m, log, p, now);
    var log1 := Recorded(log, a.arrivals, a.chunks);
    var e := if a.inserted then EvictToBudget(L, a.m) else Step(a.m, []);
    if a.inserted {
      EvictToBudgetOk(L, a.m, log1);
      BudgetFit(L, a.m, log1);
    } else {
      SoundNothing(L, a.m, log1);
    }
    RecordMore(log, a.arrivals, a.chunks, e.chunks);
    if !a.probe && e.m.flows != [] {
      AdvanceClose(L, e.m, WithChunks(log1, e.chunks), p);
      RecordMore(log, a.arrivals, a.chunks + e.chunks, Close(L, e.m, p).chunks);
    }
  }

  lemma AdvanceClose(L: Limits, m: Tcp, log: Log, p: Packet)
    requires MachineOk(L, m, log) && m.flows != [] && CapsOk(L, m)
    ensures Sound(L, log, Close(L, m, p)) && CapsOk(L, Close(L, m, p).m)
  {
    assert FlowFit(L, m.flows[|m.flows| - 1]);
    CloseOk(L, m, log, p);
    CloseFit(L, m, log, p);
  }

  /** Making room and moving the flow never adds to the buffers. */
  lemma {:induction false} EvictToFitShrinks(L: Limits, m: Tcp, log: Log)
    requires 1 <= L.maxFlows && MachineOk(L, m, log)
    ensures EvictToFit(L, m).m.c.bytes <= m.c.bytes && EvictToFit(L, m).m.c.segments <= m.c.segments
    decreases |m.flows|
  {
    if |m.flows| >= L.maxFlows {
      var a := EvictOldest(L, m, false);
      DismissOk(L, m, log, 0);
      DismissShrinks(L, m, log, 0);
      EvictToFitShrinks(L, a.m, WithChunks(log, a.chunks));
    }
  }

  lemma DismissShrinks(L: Limits, m: Tcp, log: Log, i: nat)
    requires MachineOk(L, m, log) && i < |m.flows|
    ensures Dismiss(L, m, i).m.c.bytes <= m.c.bytes && Dismiss(L, m, i).m.c.segments <= m.c.segments
  {
    DismissOk(L, m, log, i);
    SumsSplit(m.flows, i);
    assert FlowOk(m.flows[i], log, L.history);
    PendingNonNegative(m.flows[i], log, L.history);
  }

  lemma PendingNonNegative(f: Flow, log: Log, cap: nat)
    requires FlowOk(f, log, cap)
    ensures 0 <= f.Bytes() && 0 <= f.Segments()
  {
    SideMeans(f.d0, log, f.epoch, 0, cap);
    SideMeans(f.d1, log, f.epoch, 1, cap);
  }

  lemma ResetShrinks(L: Limits, m: Tcp, log: Log, p: Packet)
    requires MachineOk(L, m, log)
    ensures Reset(L, m, p).m.c.bytes <= m.c.bytes && Reset(L, m, p).m.c.segments <= m.c.segments
  {
    if Reopens(m, p) {
      DismissShrinks(L, m, log, Find(m.flows, p.key));
    }
  }

  lemma LocateShrinks(L: Limits, m: Tcp, log: Log, p: Packet, now: int)
    requires 1 <= L.maxFlows && MachineOk(L, m, log)
    ensures Locate(L, m, p, now).m.c.bytes <= m.c.bytes && Locate(L, m, p, now).m.c.segments <= m.c.segments
  {
    EvictToFitShrinks(L, m, log);
  }

  lemma ArriveOk(L: Limits, m: Tcp, log: Log, p: Packet, now: int)
    requires 1 <= L.maxFlows && MachineOk(L, m, log) && CapsOk(L, m)
    ensures var b := Locate(L, m, p, now); Sound(L, log, b) && CapsOk(L, b.m) && b.m.flows != []
  {
    LocateOk(L, m, log, p, now);
    LocateFit(L, m, p, now);
    LocateShrinks(L, m, log, p, now);
  }

  lemma RestartOk(L: Limits, m: Tcp, log: Log, p: Packet)
    requires MachineOk(L, m, log) && CapsOk(L, m)
    ensures Sound(L, log, Reset(L, m, p)) && CapsOk(L, Reset(L, m, p).m)
  {
    ResetOk(L, m, log, p);
    ResetFit(L, m, p);
    ResetShrinks(L, m, log, p);
  }

  /** One packet: sound, accounted for, and inside every cap afterwards. */
  lemma ProcessOk(L: Limits, m: Tcp, log: Log, p: Packet, now: int)
    requires 1 <= L.maxFlows && MachineOk(L, m, log) && CapsOk(L, m)
    ensures Accounted(L, log, Process(L, m, p, now)) && CapsOk(L, Process(L, m, p, now).m)
  {
    if !p.isTcp {
      AppendNil(log.out);
      AppendNil(log.arrivals);
    } else {
      var a := Reset(L, m, p);
      RestartOk(L, m, log, p);
      var log1 := WithChunks(log, a.chunks);
      var b := Locate(L, a.m, p, now);
      ArriveOk(L, a.m, log1, p, now);
      var r := Advance(L, b.m, p, now);
      AdvanceOk(L, b.m, WithChunks(log1, b.chunks), p, now);
      RecordMore(log1, r.arrivals, b.chunks, r.chunks);
      RecordMore(log, r.arrivals, a.chunks, b.chunks + r.chunks);
      AppendAssoc(a.chunks, b.chunks, r.chunks);
    }
  }

  // ---------------------------------------------------------------- runs

  datatype Call = Feed(packet: Packet, now: int) | ExpireIdle(now: int) | ExpireCaptured(clock: int) | FlushEverything

  datatype World = World(m: Tcp, log: Log)

  function Apply(L: Limits, w: World, call: Call): World
    requires 1 <= L.maxFlows
  {
    match call
    case Feed(p, now) =>
      var r := Process(L, w.m, p, now);
      World(r.m, Recorded(w.log, r.arrivals, r.chunks))
    case ExpireIdle(now) => var r := ExpirePrefix(L, w.m, now); World(r.m, WithChunks(w.log, r.chunks))
    case ExpireCaptured(clock) => var r := ExpireAll(L, w.m, 0, clock); World(r.m, WithChunks(w.log, r.chunks))
    case FlushEverything => var r := FlushAll(L, w.m); World(r.m, WithChunks(w.log, r.chunks))
  }

  /** The states that a sequence of calls passes through, starting from an empty table. */
  ghost predicate IsRun(L: Limits, epochNamespace: nat, calls: seq<Call>, worlds: seq<World>)
    requires 1 <= L.maxFlows
  {
    && |worlds| == |calls| + 1
    && worlds[0] == World(Initial(epochNamespace), Log([], []))
    && forall i: nat {:trigger Stepped(L, calls, worlds, i)} :: i < |calls| ==> Stepped(L, calls, worlds, i)
  }

  ghost predicate Stepped(L: Limits, calls: seq<Call>, worlds: seq<World>, i: nat)
    requires 1 <= L.maxFlows && i < |calls| && |worlds| == |calls| + 1
  {
    worlds[i + 1] == Apply(L, worlds[i], calls[i])
  }

  ghost predicate WorldOk(L: Limits, w: World) { MachineOk(L, w.m, w.log) && CapsOk(L, w.m) }

  lemma LapseFit(L: Limits, m: Tcp, log: Log, i: nat)
    requires MachineOk(L, m, log) && CapsOk(L, m) && i < |m.flows|
    ensures Sound(L, log, Lapse(L, m, i)) && CapsOk(L, Lapse(L, m, i).m)
  {
    LapseOk(L, m, log, i);
    DismissShrinks(L, m, log, i);
    RemoveFit(L, m.flows, i);
  }

  lemma {:induction false} ExpirePrefixFit(L: Limits, m: Tcp, log: Log, now: int)
    requires MachineOk(L, m, log) && CapsOk(L, m)
    ensures CapsOk(L, ExpirePrefix(L, m, now).m)
    decreases |m.flows|
  {
    if m.flows != [] && now - m.flows[0].activity >= L.idle {
      var a := Lapse(L, m, 0);
      LapseFit(L, m, log, 0);
      ExpirePrefixFit(L, a.m, WithChunks(log, a.chunks), now);
    }
  }

  lemma {:induction false} ExpireAllFit(L: Limits, m: Tcp, log: Log, i: nat, now: int)
    requires MachineOk(L, m, log) && CapsOk(L, m) && i <= |m.flows|
    ensures CapsOk(L, ExpireAll(L, m, i, now).m)
    decreases |m.flows| - i
  {
    if i < |m.flows| {
      if now - m.flows[i].lastSeen < L.idle {
        ExpireAllFit(L, m, log, i + 1, now);
      } else {
        var a := Lapse(L, m, i);
        LapseFit(L, m, log, i);
        ExpireAllFit(L, a.m, WithChunks(log, a.chunks), i, now);
      }
    }
  }

  lemma {:induction false} FlushAllFit(L: Limits, m: Tcp, log: Log)
    requires MachineOk(L, m, log)
    ensures var r := FlushAll(L, m).m; r.flows == [] && r.c.bytes == 0 && r.c.segments == 0
    decreases |m.flows|
  {
    if m.flows != [] {
      var a := Dismiss(L, m, 0);
      DismissOk(L, m, log, 0);
      FlushAllFit(L, a.m, WithChunks(log, a.chunks));
    }
  }

  lemma ApplyOk(L: Limits, w: World, call: Call)
    requires 1 <= L.maxFlows && WorldOk(L, w)
    ensures WorldOk(L, Apply(L, w, call))
  {
    match call
    case Feed(p, now) =>
      ProcessOk(L, w.m, w.log, p, now);
    case ExpireIdle(now) =>
      ExpirePrefixOk(L, w.m, w.log, now);
      ExpirePrefixFit(L, w.m, w.log, now);
    case ExpireCaptured(clock) =>
      ExpireAllOk(L, w.m, w.log, 0, clock);
      ExpireAllFit(L, w.m, w.log, 0, clock);
    case FlushEverything =>
      FlushAllOk(L, w.m, w.log);
      FlushAllFit(L, w.m, w.log);
  }

  lemma StartOk(L: Limits, epochNamespace: nat)
    ensures WorldOk(L, World(Initial(epochNamespace), Log([], [])))
  {
    forall e: nat, s: Side ensures PastAt(Log([], []), e, s) && SilentAt(Log([], []), e, s) {
      SilentStart(e, s);
    }
  }

  lemma SilentStart(e: nat, s: Side)
    ensures PastAt(Log([], []), e, s) && SilentAt(Log([], []), e, s)
  {
    PastMeans(Log([], []), e, s);
    assert AllEqual(OriginsOf([], e, s), 0);
  }

  /** Every reachable state satisfies the invariant and all caps. */
  lemma {:induction false} RunOk(L: Limits, epochNamespace: nat, calls: seq<Call>, worlds: seq<World>, n: nat)
    requires 1 <= L.maxFlows && IsRun(L, epochNamespace, calls, worlds) && n < |worlds|
    ensures WorldOk(L, worlds[n])
  {
    if n == 0 {
      StartOk(L, epochNamespace);
    } else {
      RunOk(L, epochNamespace, calls, worlds, n - 1);
      assert Stepped(L, calls, worlds, n - 1);
      ApplyOk(L, worlds[n - 1], calls[n - 1]);
    }
  }

  // ---------------------------------------------------------------- what a run guarantees

  lemma PastOfRun(L: Limits, epochNamespace: nat, calls: seq<Call>, worlds: seq<World>, n: nat, e: nat, s: Side)
    requires 1 <= L.maxFlows && IsRun(L, epochNamespace, calls, worlds) && n < |worlds|
    ensures PastAt(worlds[n].log, e, s)
  {
    RunOk(L, epochNamespace, calls, worlds, n);
    PastOfWorld(L, worlds[n], e, s);
  }

  lemma PastOfWorld(L: Limits, w: World, e: nat, s: Side)
    requires WorldOk(L, w)
    ensures PastAt(w.log, e, s)
  {
  }

  /**
   * Each byte is handed over at most once: the chunks of one direction of one epoch occupy
   * disjoint, increasing intervals of non-negative stream offsets, whatever was fed.
   */
  lemma ExactlyOnce(L: Limits, epochNamespace: nat, calls: seq<Call>, worlds: seq<World>, n: nat, e: nat, s: Side,
                    i: nat, j: nat)
    requires 1 <= L.maxFlows && IsRun(L, epochNamespace, calls, worlds) && n < |worlds|
    requires var chunks := ChunksOf(worlds[n].log.out, e, s); i < j < |chunks|
    ensures var chunks := ChunksOf(worlds[n].log.out, e, s);
            0 <= chunks[i].offset < chunks[i].End() <= chunks[j].offset
  {
    var w := worlds[n];
    RunOk(L, epochNamespace, calls, worlds, n);
    assert PastAt(w.log, e, s);
    PastMeans(w.log, e, s);
    assert ChunkOk(ChunksOf(w.log.out, e, s)[i], ViewOf(w.log, e, s));
  }

  /**
   * First-seen bytes win, even among contradictory packets: every byte handed over is the one that
   * the first packet of its epoch and direction to cover that offset carried there.
   */
  lemma FirstSeenWins(L: Limits, epochNamespace: nat, calls: seq<Call>, worlds: seq<World>, n: nat, e: nat, s: Side,
                      i: nat, k: nat)
    requires 1 <= L.maxFlows && IsRun(L, epochNamespace, calls, worlds) && n < |worlds|
    requires var chunks := ChunksOf(worlds[n].log.out, e, s); i < |chunks| && k < |chunks[i].data|
    ensures var log := worlds[n].log;
            var chunk := ChunksOf(log.out, e, s)[i];
            var first := FirstCell(ArrivalsOf(log.arrivals, e, s), chunk.offset + k);
            first.Some? && first.value.b == chunk.data[k]
  {
    PastOfRun(L, epochNamespace, calls, worlds, n, e, s);
    FirstSeenIn(worlds[n].log, e, s, i, k);
  }

  lemma FirstSeenIn(log: Log, e: nat, s: Side, i: nat, k: nat)
    requires PastAt(log, e, s)
    requires var chunks := ChunksOf(log.out, e, s); i < |chunks| && k < |chunks[i].data|
    ensures var chunk := ChunksOf(log.out, e, s)[i];
            var first := FirstCell(ArrivalsOf(log.arrivals, e, s), chunk.offset + k);
            first.Some? && first.value.b == chunk.data[k]
  {
    var chunk := ChunksOf(log.out, e, s)[i];
    PastMeans(log, e, s);
    assert ChunkOk(chunk, ViewOf(log, e, s));
    assert ByteIs(ViewOf(log, e, s), chunk.offset + k, chunk.data[k]);
  }

  /**
   * Provenance is exact at the source: a chunk's spans tile it, and at every offset the span there
   * names exactly the packets of the arrival that supplied the byte. The chunk's own packet list is
   * the union of its spans'.
   */
  lemma ChunkProvenance(L: Limits, epochNamespace: nat, calls: seq<Call>, worlds: seq<World>, n: nat, e: nat, s: Side,
                        i: nat)
    requires 1 <= L.maxFlows && IsRun(L, epochNamespace, calls, worlds) && n < |worlds|
    requires i < |ChunksOf(worlds[n].log.out, e, s)|
    ensures var log := worlds[n].log;
            var chunk := ChunksOf(log.out, e, s)[i];
            && Tiles(chunk.spans, chunk.offset, chunk.End())
            && (forall x :: x in chunk.ids <==> exists k :: 0 <= k < |chunk.spans| && x in chunk.spans[k].ids)
            && forall k, off :: 0 <= k < |chunk.spans| && chunk.spans[k].Holds(off) ==>
                 && chunk.spans[k].complete
                 && FirstCell(ArrivalsOf(log.arrivals, e, s), off).Some?
                 && chunk.spans[k].ids == IdsOf(FirstCell(ArrivalsOf(log.arrivals, e, s), off).value.src)
  {
    var w := worlds[n];
    RunOk(L, epochNamespace, calls, worlds, n);
    assert PastAt(w.log, e, s);
    PastMeans(w.log, e, s);
    var chunk := ChunksOf(w.log.out, e, s)[i];
    var f := ViewOf(w.log, e, s);
    assert ChunkOk(chunk, f);
    forall k, off | 0 <= k < |chunk.spans| && chunk.spans[k].Holds(off)
      ensures chunk.spans[k].complete && FirstCell(ArrivalsOf(w.log.arrivals, e, s), off).Some?
      ensures chunk.spans[k].ids == IdsOf(FirstCell(ArrivalsOf(w.log.arrivals, e, s), off).value.src)
    {
      assert SpanFrom(chunk.spans[k], f);
      assert f(off) == FirstCell(ArrivalsOf(w.log.arrivals, e, s), off);
    }
  }

  /**
   * Conservation and caps after every call: payload bytes in are bytes handed over, plus bytes
   * counted as retransmitted, plus bytes still pending; the two buffer counters are the sums over
   * the table; and the flow, byte, segment and per-direction bounds all hold.
   */
  lemma ConservedAndBounded(L: Limits, epochNamespace: nat, calls: seq<Call>, worlds: seq<World>, n: nat)
    requires 1 <= L.maxFlows && IsRun(L, epochNamespace, calls, worlds) && n < |worlds|
    ensures var w := worlds[n];
            && ArrivalLength(w.log.arrivals) == DataLength(w.log.out) + w.m.c.retransmitted + SumBytes(w.m.flows)
            && w.m.c.bytes == SumBytes(w.m.flows) <= L.maxBytes
            && w.m.c.segments == SumSegments(w.m.flows) <= L.maxBufferedSegments
            && |w.m.flows| <= L.maxFlows
            && forall i, s: Side :: 0 <= i < |w.m.flows| ==>
                 && w.m.flows[i].Dir(s).pendingBytes == Total(w.m.flows[i].Dir(s).pending) <= L.maxPending
                 && |w.m.flows[i].Dir(s).pending| <= L.maxSegments
  {
    var w := worlds[n];
    RunOk(L, epochNamespace, calls, worlds, n);
    forall i, s: Side | 0 <= i < |w.m.flows|
      ensures w.m.flows[i].Dir(s).pendingBytes == Total(w.m.flows[i].Dir(s).pending) <= L.maxPending
      ensures |w.m.flows[i].Dir(s).pending| <= L.maxSegments
    {
      assert FlowFit(L, w.m.flows[i]) && FlowOk(w.m.flows[i], w.log, L.history);
      BufferedTotal(w.m.flows[i], s, w.log, L.history);
    }
  }

  lemma BufferedTotal(f: Flow, s: Side, log: Log, cap: nat)
    requires FlowOk(f, log, cap)
    ensures f.Dir(s).pendingBytes == Total(f.Dir(s).pending)
  {
    SideMeans(f.Dir(s), log, f.epoch, s, cap);
  }

  /** A final flush leaves nothing behind: every payload byte was handed over or counted as repeated. */
  lemma FlushDeliversAll(L: Limits, epochNamespace: nat, calls: seq<Call>, worlds: seq<World>, n: nat)
    requires 1 <= L.maxFlows && IsRun(L, epochNamespace, calls, worlds) && n < |worlds|
    ensures var w := Apply(L, worlds[n], FlushEverything);
            w.m.flows == [] && ArrivalLength(w.log.arrivals) == DataLength(w.log.out) + w.m.c.retransmitted
  {
    RunOk(L, epochNamespace, calls, worlds, n);
    FlushedWorld(L, worlds[n]);
  }

  lemma FlushedWorld(L: Limits, w: World)
    requires 1 <= L.maxFlows && WorldOk(L, w)
    ensures var r := Apply(L, w, FlushEverything);
            r.m.flows == [] && ArrivalLength(r.log.arrivals) == DataLength(r.log.out) + r.m.c.retransmitted
  {
    FlushAllOk(L, w.m, w.log);
    FlushAllFit(L, w.m, w.log);
  }

  // ---------------------------------------------------------------- contradictions

  /** The consumed window holds byte `b` at stream offset `off`. */
  predicate Remembers(d: Direction, off: int, b: Byte) {
    d.next.Some? && d.historyStart.Some?
    && var k := d.Origin() + off - d.historyStart.value; 0 <= k < |d.history| && d.history[k] == b
  }

  lemma RememberedIs(d: Direction, f: Supply, out: seq<Chunk>, cap: nat, off: int, b: Byte)
    requires DirectionOk(d, f, out, cap) && Remembers(d, off, b)
    ensures 0 <= off < d.offset && f(off).Some? && f(off).value.b == b
  {
    var k := d.Origin() + off - d.historyStart.value;
    assert ByteIs(f, d.historyStart.value - d.Origin() + k, d.history[k]);
  }

  /**
   * The window kept for contradiction checks, in every reachable state: it is within its bound, lies
   * below what is expected next, and each of its bytes is the first-seen byte of its stream offset.
   */
  lemma RememberedIsFirstSeen(L: Limits, epochNamespace: nat, calls: seq<Call>, worlds: seq<World>, n: nat, i: nat,
                              s: Side,
                              off: int, b: Byte)
    requires 1 <= L.maxFlows && IsRun(L, epochNamespace, calls, worlds) && n < |worlds| && i < |worlds[n].m.flows|
    requires Remembers(worlds[n].m.flows[i].Dir(s), off, b)
    ensures var w := worlds[n];
            var d := w.m.flows[i].Dir(s);
            var first := FirstCell(ArrivalsOf(w.log.arrivals, w.m.flows[i].epoch, s), off);
            && |d.history| <= L.history && 0 <= off < d.offset
            && first.Some? && first.value.b == b
  {
    var w := worlds[n];
    var f := w.m.flows[i];
    RunOk(L, epochNamespace, calls, worlds, n);
    assert FlowOk(f, w.log, L.history);
    SideMeans(f.Dir(s), w.log, f.epoch, s, L.history);
    RememberedIs(f.Dir(s), ViewOf(w.log, f.epoch, s), ChunksOf(w.log.out, f.epoch, s), L.history, off, b);
  }

  /** What the window remembers is what was handed over: every chunk at that offset has the same byte. */
  lemma RememberedIsEmitted(L: Limits, epochNamespace: nat, calls: seq<Call>, worlds: seq<World>, n: nat, i: nat,
                            s: Side,
                            off: int, b: Byte, j: nat)
    requires 1 <= L.maxFlows && IsRun(L, epochNamespace, calls, worlds) && n < |worlds| && i < |worlds[n].m.flows|
    requires Remembers(worlds[n].m.flows[i].Dir(s), off, b)
    requires var chunks := ChunksOf(worlds[n].log.out, worlds[n].m.flows[i].epoch, s);
             j < |chunks| && chunks[j].offset <= off < chunks[j].End()
    ensures var chunk := ChunksOf(worlds[n].log.out, worlds[n].m.flows[i].epoch, s)[j];
            chunk.data[off - chunk.offset] == b
  {
    var e := worlds[n].m.flows[i].epoch;
    RememberedIsFirstSeen(L, epochNamespace, calls, worlds, n, i, s, off, b);
    PastOfRun(L, epochNamespace, calls, worlds, n, e, s);
    FirstSeenIn(worlds[n].log, e, s, j, off - ChunksOf(worlds[n].log.out, e, s)[j].offset);
  }

  /** Byte `k` of the payload lies in the window and differs from what is there. */
  predicate DiffersAt(hs: int, history: Bytes, start: int, data: Bytes, k: nat) {
    k < |data| && hs <= start + k < hs + |history| && history[start + k - hs] != data[k]
  }

  lemma StretchDiffers(a: Bytes, i: nat, i': nat, b: Bytes, j: nat, j': nat) returns (k: nat)
    requires i <= i' <= |a| && j <= j' <= |b| && i' - i == j' - j && a[i..i'] != b[j..j']
    ensures i + k < i' && a[i + k] != b[j + k]
  {
    var x, y := a[i..i'], b[j..j'];
    var m :| 0 <= m < |x| && x[m] != y[m];
    k := m;
  }

  lemma StretchAgrees(a: Bytes, i: nat, i': nat, b: Bytes, j: nat, j': nat, k: nat)
    requires i <= i' <= |a| && j <= j' <= |b| && i' - i == j' - j && a[i..i'] == b[j..j'] && i + k < i'
    ensures a[i + k] == b[j + k]
  {
    assert a[i..i'][k] == a[i + k] && b[j..j'][k] == b[j + k];
  }

  lemma ConflictFound(d: Direction, start: int, data: Bytes) returns (k: nat)
    requires ConflictsWithConsumed(d, start, data)
    ensures DiffersAt(d.historyStart.value, d.history, start, data, k)
  {
    var hs := d.historyStart.value;
    var lo, hi := Max(start, hs), Min(start + |data|, hs + |d.history|);
    k := StretchDiffers(data, lo - start, hi - start, d.history, lo - hs, hi - hs);
    k := lo - start + k;
  }

  lemma DifferenceIsConflict(d: Direction, start: int, data: Bytes, k: nat)
    requires d.historyStart.Some? && DiffersAt(d.historyStart.value, d.history, start, data, k)
    ensures ConflictsWithConsumed(d, start, data)
  {
    if !ConflictsWithConsumed(d, start, data) {
      var hs := d.historyStart.value;
      var lo, hi := Max(start, hs), Min(start + |data|, hs + |d.history|);
      StretchAgrees(data, lo - start, hi - start, d.history, lo - hs, hi - hs, start + k - lo);
    }
  }

  /** A retransmission contradicts the window exactly when it differs from a byte the window remembers. */
  lemma ContradictionIsReal(d: Direction, start: int, data: Bytes)
    ensures ConflictsWithConsumed(d, start, data)
            <==> d.historyStart.Some? && exists k: nat :: DiffersAt(d.historyStart.value, d.history, start, data, k)
  {
    if ConflictsWithConsumed(d, start, data) {
      var k := ConflictFound(d, start, data);
    }
    if d.historyStart.Some? {
      forall k: nat | DiffersAt(d.historyStart.value, d.history, start, data, k) ensures ConflictsWithConsumed(d,
          start, data) {
        DifferenceIsConflict(d, start, data, k);
      }
    }
  }
}
