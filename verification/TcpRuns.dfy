/** Every call of the reassembler keeps its invariant, and so does every run of calls. */
module TcpRuns {
  import opened Common
  import opened Ranges
  import opened TcpDirection
  import opened TcpEpoch
  import opened TcpStream
  import opened TcpMachine
  import opened TcpLedger

  // ---------------------------------------------------------------- flushing and leaving

  lemma FlushDirection(c: Counters, d: Direction, key: Key, s: Side, log: Log, e: nat, cap: nat)
    requires SideOk(d, log, e, s, cap)
    ensures var r := Flush(c, d, key, s, cap);
            && OnlyAt(log, WithChunks(log, r.chunks), e, s)
            && SideOk(r.d, WithChunks(log, r.chunks), e, s, cap)
            && Moved(c, d, r, s)
            && r.d.pending == [] && r.d.pendingBytes == 0
  {
    var r := Flush(c, d, key, s, cap);
    SideMeans(d, log, e, s, cap);
    SideMeans(r.d, WithChunks(log, r.chunks), e, s, cap);
    if d.next.None? {
      AppendNil(log.out);
    } else {
      FlushOk(c, d, key, s, cap, ViewOf(log, e, s), ChunksOf(log.out, e, s));
      WithChunksView(log, r.chunks, e, s);
    }
  }

  /** Chunks that leave the buffer keep the books balanced. */
  lemma BalancedAfter(c: Counters, c': Counters, log: Log, chunks: seq<Chunk>)
    requires Balanced(c, log) && c'.bytes == c.bytes - DataLength(chunks) && c'.retransmitted == c.retransmitted
    ensures Balanced(c', WithChunks(log, chunks))
  {
    DataLengthAppend(log.out, chunks);
  }

  /** A step keeps the invariant once its chunks are on record. */
  ghost predicate Sound(L: Limits, log: Log, r: Step) { MachineOk(L, r.m, WithChunks(log, r.chunks)) }

  lemma SoundTrans(L: Limits, log: Log, a: Step, b: Step)
    requires Sound(L, WithChunks(log, a.chunks), b)
    ensures Sound(L, log, Then(a, b))
  {
    AppendAssoc(log.out, a.chunks, b.chunks);
  }

  lemma SoundNothing(L: Limits, m: Tcp, log: Log)
    requires MachineOk(L, m, log)
    ensures Sound(L, log, Step(m, []))
  {
    AppendNil(log.out);
  }

  /** One direction of flow `i` has nothing pending any more, and the other is untouched. */
  predicate Emptied(m: Tcp, m': Tcp, i: nat, s: Side)
    requires i < |m.flows| == |m'.flows|
  {
    && m'.flows[i].Dir(s).pending == [] && m'.flows[i].Dir(s).pendingBytes == 0
    && m'.flows[i].Dir(1 - s) == m.flows[i].Dir(1 - s) && m'.flows[i].key == m.flows[i].key
    && m'.flows[i].Dir(s).closed == m.flows[i].Dir(s).closed
    && (forall j :: 0 <= j < |m.flows| && j != i ==> m'.flows[j] == m.flows[j])
    && m'.c.bytes <= m.c.bytes && m'.c.segments <= m.c.segments
  }

  lemma FlushedSound(L: Limits, m: Tcp, log: Log, i: nat, s: Side, a: Outcome)
    requires MachineOk(L, m, log) && i < |m.flows|
    requires OnlyAt(log, WithChunks(log, a.chunks), m.flows[i].epoch, s)
    requires SideOk(a.d, WithChunks(log, a.chunks), m.flows[i].epoch, s, L.history)
    requires Moved(m.c, m.flows[i].Dir(s), a, s)
    ensures Sound(L, log, Flushed(m, i, s, a))
  {
    BalancedAfter(m.c, a.c, log, a.chunks);
    WriteOk(L, m, log, i, s, a.d, a.c, WithChunks(log, a.chunks));
  }

  lemma FlushedEmpties(m: Tcp, i: nat, s: Side, a: Outcome)
    requires i < |m.flows| && Moved(m.c, m.flows[i].Dir(s), a, s) && a.d.pending == [] && a.d.pendingBytes == 0
    ensures Emptied(m, Flushed(m, i, s, a).m, i, s)
  {
  }

  lemma FlushAtSound(L: Limits, m: Tcp, log: Log, i: nat, s: Side, key: Key)
    requires MachineOk(L, m, log) && i < |m.flows|
    ensures Sound(L, log, FlushAt(L, m, i, s, key))
  {
    var f := m.flows[i];
    assert FlowOk(f, log, L.history);
    FlushDirection(m.c, f.Dir(s), key, s, log, f.epoch, L.history);
    FlushedSound(L, m, log, i, s, Flush(m.c, f.Dir(s), key, s, L.history));
  }

  lemma FlushAtEmpties(L: Limits, m: Tcp, log: Log, i: nat, s: Side, key: Key)
    requires i < |m.flows| && FlowOk(m.flows[i], log, L.history)
    ensures Emptied(m, FlushAt(L, m, i, s, key).m, i, s)
  {
    var f := m.flows[i];
    FlushDirection(m.c, f.Dir(s), key, s, log, f.epoch, L.history);
    FlushedEmpties(m, i, s, Flush(m.c, f.Dir(s), key, s, L.history));
  }

  lemma FlushAtOk(L: Limits, m: Tcp, log: Log, i: nat, s: Side, key: Key)
    requires MachineOk(L, m, log) && i < |m.flows|
    ensures Sound(L, log, FlushAt(L, m, i, s, key)) && Emptied(m, FlushAt(L, m, i, s, key).m, i, s)
  {
    assert FlowOk(m.flows[i], log, L.history);
    FlushAtSound(L, m, log, i, s, key);
    FlushAtEmpties(L, m, log, i, s, key);
  }

  /** Removing a flow that buffers nothing changes no total. */
  lemma RemoveFlowOk(L: Limits, m: Tcp, log: Log, i: nat)
    requires MachineOk(L, m, log) && i < |m.flows|
    requires m.flows[i].Bytes() == 0 && m.flows[i].Segments() == 0
    ensures MachineOk(L, RemoveFlow(m, i), log)
  {
    RemoveOk(L, m, log, i);
  }

  lemma DismissOk(L: Limits, m: Tcp, log: Log, i: nat)
    requires MachineOk(L, m, log) && i < |m.flows|
    ensures Sound(L, log, Dismiss(L, m, i))
  {
    var key := m.flows[i].key;
    var a := FlushAt(L, m, i, 0, key);
    FlushAtOk(L, m, log, i, 0, key);
    var b := FlushAt(L, a.m, i, 1, key);
    FlushAtOk(L, a.m, WithChunks(log, a.chunks), i, 1, key);
    RemoveFlowOk(L, b.m, WithChunks(WithChunks(log, a.chunks), b.chunks), i);
    SoundTrans(L, log, a, Step(RemoveFlow(b.m, i), b.chunks));
  }

  lemma {:induction false} EvictToFitOk(L: Limits, m: Tcp, log: Log)
    requires 1 <= L.maxFlows && MachineOk(L, m, log)
    ensures Sound(L, log, EvictToFit(L, m))
    decreases |m.flows|
  {
    if |m.flows| < L.maxFlows {
      SoundNothing(L, m, log);
    } else {
      var a := EvictOldest(L, m, false);
      DismissOk(L, m, log, 0);
      EvictToFitOk(L, a.m, WithChunks(log, a.chunks));
      SoundTrans(L, log, a, EvictToFit(L, a.m));
    }
  }

  lemma {:induction false} EvictToBudgetOk(L: Limits, m: Tcp, log: Log)
    requires MachineOk(L, m, log)
    ensures Sound(L, log, EvictToBudget(L, m))
    decreases |m.flows|
  {
    if !OverBudget(L, m.c) || m.flows == [] {
      SoundNothing(L, m, log);
    } else {
      var a := EvictOldest(L, m, true);
      DismissOk(L, m, log, 0);
      EvictToBudgetOk(L, a.m, WithChunks(log, a.chunks));
      SoundTrans(L, log, a, EvictToBudget(L, a.m));
    }
  }

  lemma LapseOk(L: Limits, m: Tcp, log: Log, i: nat)
    requires MachineOk(L, m, log) && i < |m.flows|
    ensures Sound(L, log, Lapse(L, m, i))
  {
    DismissOk(L, m, log, i);
  }

  lemma {:induction false} ExpirePrefixOk(L: Limits, m: Tcp, log: Log, now: int)
    requires MachineOk(L, m, log)
    ensures Sound(L, log, ExpirePrefix(L, m, now))
    decreases |m.flows|
  {
    if m.flows == [] || now - m.flows[0].activity < L.idle {
      SoundNothing(L, m, log);
    } else {
      var a := Lapse(L, m, 0);
      LapseOk(L, m, log, 0);
      ExpirePrefixOk(L, a.m, WithChunks(log, a.chunks), now);
      SoundTrans(L, log, a, ExpirePrefix(L, a.m, now));
    }
  }

  lemma {:induction false} ExpireAllOk(L: Limits, m: Tcp, log: Log, i: nat, now: int)
    requires MachineOk(L, m, log) && i <= |m.flows|
    ensures Sound(L, log, ExpireAll(L, m, i, now))
    decreases |m.flows| - i
  {
    if i == |m.flows| {
      SoundNothing(L, m, log);
    } else if now - m.flows[i].lastSeen < L.idle {
      ExpireAllOk(L, m, log, i + 1, now);
    } else {
      var a := Lapse(L, m, i);
      LapseOk(L, m, log, i);
      ExpireAllOk(L, a.m, WithChunks(log, a.chunks), i, now);
      SoundTrans(L, log, a, ExpireAll(L, a.m, i, now));
    }
  }

  lemma {:induction false} FlushAllOk(L: Limits, m: Tcp, log: Log)
    requires MachineOk(L, m, log)
    ensures Sound(L, log, FlushAll(L, m))
    decreases |m.flows|
  {
    if m.flows == [] {
      SoundNothing(L, m, log);
    } else {
      var a := Dismiss(L, m, 0);
      DismissOk(L, m, log, 0);
      FlushAllOk(L, a.m, WithChunks(log, a.chunks));
      SoundTrans(L, log, a, FlushAll(L, a.m));
    }
  }

  // ---------------------------------------------------------------- opening a direction

  lemma OpenUnopened(d: Direction, e: Direction, f: Supply, cap: nat)
    requires Unopened(d, f, []) && e.next.Some? && e.offset == 0 && !e.hadGap && e.pending == [] && e.pendingBytes == 0
    requires e.historyStart.None? && e.history == []
    ensures DirectionOk(e, f, [], cap)
  {
  }

  /** Equal in everything the invariant looks at. */
  predicate SameContent(d: Direction, e: Direction) {
    && d.epoch == e.epoch && d.next == e.next && d.offset == e.offset && d.hadGap == e.hadGap
    && d.pending == e.pending && d.pendingBytes == e.pendingBytes
    && d.historyStart == e.historyStart && d.history == e.history
  }

  lemma ContentKeeps(d: Direction, d': Direction, log: Log, e: nat, s: Side, cap: nat)
    requires SideOk(d, log, e, s, cap) && SameContent(d, d')
    ensures SideOk(d', log, e, s, cap)
  {
    SideMeans(d, log, e, s, cap);
    SameDirection(d, d', ViewOf(log, e, s), ChunksOf(log.out, e, s), cap);
    SideMeans(d', log, e, s, cap);
  }

  lemma SameDirection(d: Direction, d': Direction, f: Supply, out: seq<Chunk>, cap: nat)
    requires DirectionOk(d, f, out, cap) && SameContent(d, d')
    ensures DirectionOk(d', f, out, cap)
  {
  }

  /** Opening fixes the origin; a direction that is open already is left as it was. */
  lemma OpenOk(d: Direction, p: Packet, log: Log, e: nat, s: Side, cap: nat)
    requires SideOk(d, log, e, s, cap)
    ensures SideOk(Open(d, p), log, e, s, cap)
    ensures p.payload != [] ==> Open(d, p).next.Some?
    ensures Open(d, p).pending == d.pending && Open(d, p).pendingBytes == d.pendingBytes
  {
    if d.next.None? && Open(d, p).next.Some? {
      SideMeans(d, log, e, s, cap);
      SideMeans(Open(d, p), log, e, s, cap);
      OpenUnopened(d, Open(d, p), ViewOf(log, e, s), cap);
    } else {
      ContentKeeps(d, Open(d, p), log, e, s, cap);
    }
  }

  lemma NoteAckOk(d: Direction, p: Packet, log: Log, e: nat, s: Side, cap: nat)
    requires SideOk(d, log, e, s, cap)
    ensures SideOk(NoteAck(d, p), log, e, s, cap)
    ensures NoteAck(d, p).pending == d.pending && NoteAck(d, p).pendingBytes == d.pendingBytes
  {
    ContentKeeps(d, NoteAck(d, p), log, e, s, cap);
  }

  lemma WithOk(f: Flow, s: Side, d: Direction, log: Log, cap: nat)
    requires FlowOk(f, log, cap) && SideOk(d, log, f.epoch, s, cap)
    requires d.pending == f.Dir(s).pending && d.pendingBytes == f.Dir(s).pendingBytes
    ensures var g := f.With(s, d);
            FlowOk(g, log, cap) && g.key == f.key && g.epoch == f.epoch
            && g.Bytes() == f.Bytes() && g.Segments() == f.Segments() && g.Dir(1 - s) == f.Dir(1 - s)
  {
  }

  lemma TouchOk(f: Flow, p: Packet, now: int, log: Log, cap: nat)
    requires FlowOk(f, log, cap)
    ensures var g := Touch(f, p, now);
            && FlowOk(g, log, cap) && g.key == f.key && g.epoch == f.epoch
            && g.Bytes() == f.Bytes() && g.Segments() == f.Segments()
  {
    NoteAckOk(f.Dir(1 - p.side), p, log, f.epoch, 1 - p.side, cap);
    OpenOk(f.Dir(p.side), p, log, f.epoch, p.side, cap);
    TouchedOk(f, p.side, NoteAck(f.Dir(1 - p.side), p), Open(f.Dir(p.side), p), Max(f.lastSeen, p.ts), now, log, cap);
  }

  lemma TouchedOk(f: Flow, s: Side, theirs: Direction, ours: Direction, seen: int, now: int, log: Log, cap: nat)
    requires FlowOk(f, log, cap) && SideOk(theirs, log, f.epoch, 1 - s, cap) && SideOk(ours, log, f.epoch, s, cap)
    requires theirs.pending == f.Dir(1 - s).pending && theirs.pendingBytes == f.Dir(1 - s).pendingBytes
    requires ours.pending == f.Dir(s).pending && ours.pendingBytes == f.Dir(s).pendingBytes
    ensures var g := Touched(f, s, theirs, ours, seen, now);
            && FlowOk(g, log, cap) && g.key == f.key && g.epoch == f.epoch
            && g.Bytes() == f.Bytes() && g.Segments() == f.Segments()
  {
  }

  // ---------------------------------------------------------------- payload

  /** The log after a delivery: the arrival first, then the chunks it released. */
  function Recorded(log: Log, arrivals: seq<Arrival>, chunks: seq<Chunk>): Log {
    WithChunks(WithArrivals(log, arrivals), chunks)
  }

  lemma SupplyExtends(arrivals: seq<Piece>, x: Piece)
    ensures Extends(SupplyOf(arrivals), x, SupplyOf(arrivals + [x]))
  {
    forall off ensures SupplyOf(arrivals + [x])(off)
                       == (if SupplyOf(arrivals)(off).Some? then SupplyOf(arrivals)(off)
                           else if x.Covers(off) then Some(Cell(x.At(off), x.src)) else None)
    {
      FirstCellAppend(arrivals, x, off);
    }
  }

  /** Everything the rest of the proof needs from one delivery. */
  ghost predicate DeliveredWell(L: Limits, c: Counters, d: Direction, o: Outcome, log: Log, log': Log, e: nat,
                                s: Side) {
    && OnlyAt(log, log', e, s)
    && SideOk(o.d, log', e, s, L.history)
    && o.c.bytes - c.bytes == o.d.pendingBytes - d.pendingBytes
    && o.c.segments - c.segments == |o.d.pending| - |d.pending|
    && (Balanced(c, log) ==> Balanced(o.c, log'))
  }

  lemma OnlyAtTrans(a: Log, b: Log, c: Log, e: nat, s: Side)
    requires OnlyAt(a, b, e, s) && OnlyAt(b, c, e, s)
    ensures OnlyAt(a, c, e, s)
  {
    forall e': nat, s': Side | e' != e || s' != s ensures SameView(a, c, e', s') {
      assert SameView(a, b, e', s') && SameView(b, c, e', s');
    }
  }

  /** A packet below `next` only counts as retransmitted. */
  lemma StaleDelivery(L: Limits, c: Counters, d: Direction, x: Piece, log: Log, e: nat, s: Side)
    requires SideOk(d, log, e, s, L.history) && d.next.Some? && x.End() <= d.offset
    ensures DeliveredWell(L, c, d, Outcome(c.(retransmitted := c.retransmitted + |x.data|), d, []),
                          log, Recorded(log, [Arrival(e, s, d.Origin(), x)], []), e, s)
  {
    AppendNil(log.out);
    StaleSide(d, x, log, Arrival(e, s, d.Origin(), x), L.history);
    WithArrivalView(log, Arrival(e, s, d.Origin(), x));
  }

  lemma StaleSide(d: Direction, x: Piece, log: Log, a: Arrival, cap: nat)
    requires SideOk(d, log, a.epoch, a.side, cap) && d.next.Some? && x.End() <= d.offset
    requires a.origin == d.Origin() && a.piece == x
    ensures SideOk(d, WithArrivals(log, [a]), a.epoch, a.side, cap)
  {
    var seen, out := ArrivalsOf(log.arrivals, a.epoch, a.side), ChunksOf(log.out, a.epoch, a.side);
    WithArrivalView(log, a);
    SupplyExtends(seen, x);
    SideMeans(d, log, a.epoch, a.side, cap);
    StaleOk(d, SupplyOf(seen), out, cap, x, SupplyOf(seen + [x]));
    SideMeans(d, WithArrivals(log, [a]), a.epoch, a.side, cap);
  }

  lemma AdmitCore(L: Limits, c: Counters, d: Direction, p: Packet, start: int, f: Supply, x: Piece, g: Supply,
                  out: seq<Chunk>)
    requires Loose(d, f, out, L.history) && d.next.value < start + |p.payload|
    requires x == Piece(start - d.Origin(), p.payload, SourceOf(p)) && Extends(f, x, g)
    ensures var o := Admit(L, c, d, p, start);
            && Loose(o.d, g, out + o.chunks, L.history) && Settled(o.d)
            && Admitted(L, c, d, o, p.payload, p.side)
  {
    var accepted := Accept(c, d, start, p.payload, SourceOf(p));
    AcceptOk(c, d, start, p.payload, SourceOf(p), L.history, f, x, g, out);
    var a := Drain(accepted.0, accepted.1, p.key, p.side, false, L.history);
    DrainOk(accepted.0, accepted.1, p.key, p.side, false, L.history, g, out);
    RelieveOk(a.c, a.d, p.key, p.side, L.history, L.maxPending, L.maxSegments, g, out + a.chunks);
    KeptTrans(accepted.0, accepted.1, a, Relieve(a.c, a.d, p.key, p.side, L.history, L.maxPending, L.maxSegments),
              p.side, L.history, g, out);
  }

  lemma RecordedBalance(c: Counters, c': Counters, log: Log, a: Arrival, chunks: seq<Chunk>)
    requires c'.retransmitted + c'.bytes + DataLength(chunks) == c.retransmitted + c.bytes + |a.piece.data|
    ensures Balanced(c, log) ==> Balanced(c', Recorded(log, [a], chunks))
  {
    WithArrivalView(log, a);
    DataLengthAppend(log.out, chunks);
  }

  lemma RecordedView(log: Log, a: Arrival, chunks: seq<Chunk>)
    requires AllFrom(chunks, a.epoch, a.side)
    ensures OnlyAt(log, Recorded(log, [a], chunks), a.epoch, a.side)
    ensures ViewOf(Recorded(log, [a], chunks), a.epoch, a.side)
            == SupplyOf(ArrivalsOf(log.arrivals, a.epoch, a.side) + [a.piece])
    ensures OriginsOf(Recorded(log, [a], chunks).arrivals, a.epoch, a.side)
            == OriginsOf(log.arrivals, a.epoch, a.side) + [a.origin]
    ensures ChunksOf(Recorded(log, [a], chunks).out, a.epoch, a.side) == ChunksOf(log.out, a.epoch, a.side) + chunks
  {
    WithArrivalView(log, a);
    WithChunksView(WithArrivals(log, [a]), chunks, a.epoch, a.side);
    OnlyAtTrans(log, WithArrivals(log, [a]), Recorded(log, [a], chunks), a.epoch, a.side);
  }

  /** The counters of an admission, apart from what it did to the stream. */
  ghost predicate Admitted(L: Limits, c: Counters, d: Direction, o: Outcome, payload: Bytes, s: Side) {
    && AllFrom(o.chunks, d.epoch, s)
    && SameFrame(d, o.d)
    && !OverPending(o.d, L.maxPending, L.maxSegments)
    && o.c.bytes - c.bytes == o.d.pendingBytes - d.pendingBytes
    && o.c.segments - c.segments == |o.d.pending| - |d.pending|
    && o.c.retransmitted + o.c.bytes + DataLength(o.chunks) == c.retransmitted + c.bytes + |payload|
  }

  lemma AdmitSide(L: Limits, c: Counters, d: Direction, p: Packet, start: int, a: Arrival, log: Log)
    requires SideOk(d, log, a.epoch, p.side, L.history) && d.next.Some? && d.next.value < start + |p.payload|
    requires a.side == p.side && a.origin == d.Origin() && a.piece == Piece(start - d.Origin(), p.payload, SourceOf(p))
    ensures var o := Admit(L, c, d, p, start);
            && Admitted(L, c, d, o, p.payload, p.side)
            && SideOk(o.d, Recorded(log, [a], o.chunks), a.epoch, a.side, L.history)
  {
    SideMeans(d, log, a.epoch, p.side, L.history);
    var arrivals, out := ArrivalsOf(log.arrivals, a.epoch, p.side), ChunksOf(log.out, a.epoch, p.side);
    SupplyExtends(arrivals, a.piece);
    AdmitCore(L, c, d, p, start, SupplyOf(arrivals), a.piece, SupplyOf(arrivals + [a.piece]), out);
    var o := Admit(L, c, d, p, start);
    RecordedView(log, a, o.chunks);
    RecordedSide(o.d, log, Recorded(log, [a], o.chunks), a, o.chunks, L.history);
  }

  lemma AdmitDelivery(L: Limits, c: Counters, d: Direction, p: Packet, start: int, a: Arrival, log: Log)
    requires SideOk(d, log, a.epoch, p.side, L.history) && d.next.Some? && d.next.value < start + |p.payload|
    requires a.side == p.side && a.origin == d.Origin() && a.piece == Piece(start - d.Origin(), p.payload, SourceOf(p))
    ensures var o := Admit(L, c, d, p, start);
            && DeliveredWell(L, c, d, o, log, Recorded(log, [a], o.chunks), a.epoch, p.side)
            && Admitted(L, c, d, o, p.payload, p.side)
  {
    AdmitSide(L, c, d, p, start, a, log);
    AdmittedWell(L, c, d, Admit(L, c, d, p, start), a, log);
  }

  lemma AdmittedWell(L: Limits, c: Counters, d: Direction, o: Outcome, a: Arrival, log: Log)
    requires Admitted(L, c, d, o, a.piece.data, a.side) && d.epoch == a.epoch
    requires SideOk(o.d, Recorded(log, [a], o.chunks), a.epoch, a.side, L.history)
    ensures DeliveredWell(L, c, d, o, log, Recorded(log, [a], o.chunks), a.epoch, a.side)
  {
    RecordedView(log, a, o.chunks);
    RecordedBalance(c, o.c, log, a, o.chunks);
  }

  lemma RecordedSide(d: Direction, log: Log, log': Log, a: Arrival, chunks: seq<Chunk>, cap: nat)
    requires d.next.Some? && d.epoch == a.epoch && d.Origin() == a.origin && Settled(d)
    requires AllEqual(OriginsOf(log.arrivals, a.epoch, a.side), a.origin)
    requires OriginsOf(log'.arrivals, a.epoch, a.side) == OriginsOf(log.arrivals, a.epoch, a.side) + [a.origin]
    requires ViewOf(log', a.epoch, a.side) == SupplyOf(ArrivalsOf(log.arrivals, a.epoch, a.side) + [a.piece])
    requires ChunksOf(log'.out, a.epoch, a.side) == ChunksOf(log.out, a.epoch, a.side) + chunks
    requires Loose(d, SupplyOf(ArrivalsOf(log.arrivals, a.epoch, a.side) + [a.piece]),
                   ChunksOf(log.out, a.epoch, a.side) + chunks, cap)
    ensures SideOk(d, log', a.epoch, a.side, cap)
  {
    SideMeans(d, log', a.epoch, a.side, cap);
  }

  ghost predicate DeliveryOk(L: Limits, c: Counters, d: Direction, s: Side, log: Log, e: nat, dl: Delivery) {
    && DeliveredWell(L, c, d, dl.o, log, Recorded(log, ArrivalsIn(dl, e, s, d), dl.o.chunks), e, s)
    && SameFrame(d, dl.o.d)
    && (dl.inserted ==> !OverPending(dl.o.d, L.maxPending, L.maxSegments))
    && (!dl.inserted ==> dl.o.d == d && dl.o.chunks == [] && dl.o.c.bytes == c.bytes && dl.o.c.segments == c.segments)
  }

  lemma NoDelivery(L: Limits, c: Counters, d: Direction, s: Side, log: Log, e: nat, probe: bool)
    requires SideOk(d, log, e, s, L.history)
    ensures DeliveryOk(L, c, d, s, log, e, Delivery(Outcome(c, d, []), None, false, probe))
  {
    AppendNil(log.out);
    AppendNil(log.arrivals);
  }

  lemma StaleDeliveryOk(L: Limits, c: Counters, d: Direction, p: Packet, start: int, log: Log, e: nat)
    requires SideOk(d, log, e, p.side, L.history) && d.next.Some? && start + |p.payload| <= d.next.value
    ensures DeliveryOk(L, c, d, p.side, log, e, DeliverStale(c, d, p, start))
  {
    var x := Piece(start - d.Origin(), p.payload, SourceOf(p));
    assert x.End() <= d.offset;
    assert ArrivalsIn(DeliverStale(c, d, p, start), e, p.side, d) == [Arrival(e, p.side, d.Origin(), x)];
    StaleDelivery(L, c, d, x, log, e, p.side);
  }

  lemma FreshDeliveryOk(L: Limits, c: Counters, d: Direction, p: Packet, start: int, log: Log, e: nat)
    requires SideOk(d, log, e, p.side, L.history) && d.next.Some? && d.next.value < start + |p.payload|
    ensures DeliveryOk(L, c, d, p.side, log, e, DeliverFresh(L, c, d, p, start))
  {
    var x := Piece(start - d.Origin(), p.payload, SourceOf(p));
    assert ArrivalsIn(DeliverFresh(L, c, d, p, start), e, p.side, d) == [Arrival(e, p.side, d.Origin(), x)];
    AdmitDelivery(L, c, d, p, start, Arrival(e, p.side, d.Origin(), x), log);
  }

  lemma DeliverOk(L: Limits, c: Counters, d: Direction, p: Packet, log: Log, e: nat)
    requires SideOk(d, log, e, p.side, L.history)
    ensures DeliveryOk(L, c, d, p.side, log, e, Deliver(L, c, d, p))
  {
    if p.payload == [] || d.next.None? {
      NoDelivery(L, c, d, p.side, log, e, false);
    } else {
      var start := Unwrap(p.PayloadSeq(), d.next.value);
      if Keepalive(d, p, start) {
        NoDelivery(L, c, d, p.side, log, e, true);
      } else if start + |p.payload| <= d.next.value {
        StaleDeliveryOk(L, c, d, p, start, log, e);
      } else {
        FreshDeliveryOk(L, c, d, p, start, log, e);
      }
    }
  }

  // ---------------------------------------------------------------- one packet

  /** Replacing a flow by one that is as sound and buffers as much keeps the invariant. */
  lemma ReplaceOk(L: Limits, m: Tcp, log: Log, i: nat, g: Flow)
    requires MachineOk(L, m, log) && i < |m.flows|
    requires g.key == m.flows[i].key && g.epoch == m.flows[i].epoch && FlowOk(g, log, L.history)
    requires g.Bytes() == m.flows[i].Bytes() && g.Segments() == m.flows[i].Segments()
    ensures MachineOk(L, m.(flows := m.flows[i := g]), log)
  {
    SumsUpdate(m.flows, i, g);
    WrittenFlows(m.flows, i, g, log, L.history, m.nextEpoch);
  }

  lemma ResetOk(L: Limits, m: Tcp, log: Log, p: Packet)
    requires MachineOk(L, m, log)
    ensures Sound(L, log, Reset(L, m, p))
  {
    if Reopens(m, p) {
      DismissOk(L, m, log, Find(m.flows, p.key));
    } else {
      SoundNothing(L, m, log);
    }
  }

  ghost predicate Suffix<T>(r: seq<T>, s: seq<T>) { |r| <= |s| && r == s[|s| - |r|..] }

  lemma SuffixDrop<T>(r: seq<T>, s: seq<T>)
    requires s != [] && Suffix(r, Remove(s, 0))
    ensures Suffix(r, s)
  {
    assert Remove(s, 0) == s[1..];
  }

  /** Evicting from the old end leaves a suffix of the table. */
  lemma {:induction false} EvictToFitSuffix(L: Limits, m: Tcp)
    requires 1 <= L.maxFlows
    ensures var r := EvictToFit(L, m).m;
            |r.flows| < L.maxFlows && Suffix(r.flows, m.flows) && r.nextEpoch == m.nextEpoch
    decreases |m.flows|
  {
    if |m.flows| >= L.maxFlows {
      var a := EvictOldest(L, m, false);
      EvictToFitSuffix(L, a.m);
      SuffixDrop(EvictToFit(L, a.m).m.flows, m.flows);
    }
  }

  lemma {:induction false} EvictToBudgetSuffix(L: Limits, m: Tcp)
    ensures var r := EvictToBudget(L, m).m;
            && Suffix(r.flows, m.flows) && r.nextEpoch == m.nextEpoch
            && (r.flows == [] || !OverBudget(L, r.c))
    decreases |m.flows|
  {
    if OverBudget(L, m.c) && m.flows != [] {
      var a := EvictOldest(L, m, true);
      EvictToBudgetSuffix(L, a.m);
      SuffixDrop(EvictToBudget(L, a.m).m.flows, m.flows);
    }
  }

  lemma LocateKnown(L: Limits, m: Tcp, log: Log, i: nat)
    requires MachineOk(L, m, log) && i < |m.flows|
    ensures Sound(L, log, Step(m.(flows := Remove(m.flows, i) + [m.flows[i]]), []))
  {
    MoveOk(L, m, log, i);
    SoundNothing(L, m.(flows := Remove(m.flows, i) + [m.flows[i]]), log);
  }

  lemma LocateOk(L: Limits, m: Tcp, log: Log, p: Packet, now: int)
    requires 1 <= L.maxFlows && MachineOk(L, m, log)
    ensures Sound(L, log, Locate(L, m, p, now))
  {
    var i := Find(m.flows, p.key);
    if i < |m.flows| {
      LocateKnown(L, m, log, i);
    } else {
      EvictToFitOk(L, m, log);
      EvictToFitSuffix(L, m);
      JoinOk(L, m.flows, EvictToFit(L, m), log, p, now);
    }
  }

  lemma JoinOk(L: Limits, flows: seq<Flow>, r: Step, log: Log, p: Packet, now: int)
    requires Sound(L, log, r) && Suffix(r.m.flows, flows)
    requires forall j :: 0 <= j < |flows| ==> flows[j].key != p.key
    ensures Sound(L, log, Enroll(r, p, now))
  {
    AddOk(L, r.m, WithChunks(log, r.chunks), p.key, p.ts, now);
  }

  lemma TouchLast(L: Limits, m: Tcp, log: Log, p: Packet, now: int)
    requires MachineOk(L, m, log) && m.flows != []
    ensures MachineOk(L, SetLast(m, Touch(m.flows[|m.flows| - 1], p, now), m.c), log)
  {
    var f := m.flows[|m.flows| - 1];
    assert FlowOk(f, log, L.history);
    TouchOk(f, p, now, log, L.history);
    ReplaceOk(L, m, log, |m.flows| - 1, Touch(f, p, now));
  }

  lemma WriteDelivery(L: Limits, m: Tcp, log: Log, s: Side, dl: Delivery)
    requires MachineOk(L, m, log) && m.flows != []
    requires var f := m.flows[|m.flows| - 1]; DeliveryOk(L, m.c, f.Dir(s), s, log, f.epoch, dl)
    ensures var f := m.flows[|m.flows| - 1];
            MachineOk(L, SetLast(m, f.With(s, dl.o.d), dl.o.c),
                      Recorded(log, ArrivalsIn(dl, f.epoch, s, f.Dir(s)), dl.o.chunks))
  {
    var f := m.flows[|m.flows| - 1];
    WriteOk(L, m, log, |m.flows| - 1, s, dl.o.d, dl.o.c,
            Recorded(log, ArrivalsIn(dl, f.epoch, s, f.Dir(s)), dl.o.chunks));
  }

  lemma SetLastTwice(m: Tcp, f: Flow, g: Flow, c: Counters)
    requires m.flows != []
    ensures SetLast(SetLast(m, f, m.c), g, c) == SetLast(m, g, c)
  {
  }

  lemma LandOk(L: Limits, m: Tcp, log: Log, p: Packet, now: int)
    requires MachineOk(L, m, log) && m.flows != []
    ensures var r := Land(L, m, p, now); MachineOk(L, r.m, Recorded(log, r.arrivals, r.chunks))
  {
    var f := Touch(m.flows[|m.flows| - 1], p, now);
    var m1 := SetLast(m, f, m.c);
    TouchLast(L, m, log, p, now);
    assert FlowOk(m1.flows[|m1.flows| - 1], log, L.history);
    DeliverOk(L, m.c, f.Dir(p.side), p, log, f.epoch);
    var dl := Deliver(L, m.c, f.Dir(p.side), p);
    WriteDelivery(L, m1, log, p.side, dl);
    SetLastTwice(m, f, f.With(p.side, dl.o.d), dl.o.c);
  }

  // ---------------------------------------------------------------- closing

  /** If the flow leaves, what the packet's own direction buffered has been handed over. */
  ghost predicate ReadyToDepart(m: Tcp, p: Packet)
    requires m.flows != []
  {
    var d := m.flows[|m.flows| - 1].Dir(p.side);
    Departs(m, p) ==> d.pending == [] && d.pendingBytes == 0
  }

  lemma MarkClosedOk(L: Limits, m: Tcp, log: Log, s: Side)
    requires MachineOk(L, m, log) && m.flows != []
    ensures MachineOk(L, MarkClosed(m, s), log)
  {
    var f := m.flows[|m.flows| - 1];
    assert FlowOk(f, log, L.history);
    ContentKeeps(f.Dir(s), f.Dir(s).(closed := true), log, f.epoch, s, L.history);
    WithOk(f, s, f.Dir(s).(closed := true), log, L.history);
    ReplaceOk(L, m, log, |m.flows| - 1, f.With(s, f.Dir(s).(closed := true)));
  }

  lemma FinishOk(L: Limits, m: Tcp, log: Log, p: Packet)
    requires MachineOk(L, m, log) && m.flows != []
    requires var f := m.flows[|m.flows| - 1]; !(f.d0.closed && f.d1.closed)
    ensures Sound(L, log, Finish(L, m, p))
    ensures ReadyToDepart(Finish(L, m, p).m, p)
  {
    if !p.fin && !p.rst {
      SoundNothing(L, m, log);
    } else {
      var a := FlushAt(L, m, |m.flows| - 1, p.side, p.key);
      FlushAtOk(L, m, log, |m.flows| - 1, p.side, p.key);
      MarkClosedOk(L, a.m, WithChunks(log, a.chunks), p.side);
    }
  }

  lemma DepartingOk(L: Limits, m: Tcp, log: Log, i: nat, own: Side, key: Key)
    requires MachineOk(L, m, log) && i < |m.flows|
    requires m.flows[i].Dir(own).pending == [] && m.flows[i].Dir(own).pendingBytes == 0
    ensures Sound(L, log, FlushAndRemove(L, m, i, 1 - own, key))
  {
    var a := FlushAt(L, m, i, 1 - own, key);
    FlushAtOk(L, m, log, i, 1 - own, key);
    RemoveFlowOk(L, a.m, WithChunks(log, a.chunks), i);
  }

  lemma DepartOk(L: Limits, a: Step, log: Log, p: Packet)
    requires Sound(L, log, a) && a.m.flows != [] && ReadyToDepart(a.m, p)
    ensures Sound(L, log, Depart(L, a, p))
  {
    if Departs(a.m, p) {
      LeaveOk(L, a, log, |a.m.flows| - 1, p.side, p.key);
    }
  }

  lemma LeaveOk(L: Limits, a: Step, log: Log, i: nat, own: Side, key: Key)
    requires Sound(L, log, a) && i < |a.m.flows|
    requires a.m.flows[i].Dir(own).pending == [] && a.m.flows[i].Dir(own).pendingBytes == 0
    ensures Sound(L, log, Then(a, FlushAndRemove(L, a.m, i, 1 - own, key)))
  {
    DepartingOk(L, a.m, WithChunks(log, a.chunks), i, own, key);
    SoundTrans(L, log, a, FlushAndRemove(L, a.m, i, 1 - own, key));
  }

  lemma CloseOk(L: Limits, m: Tcp, log: Log, p: Packet)
    requires MachineOk(L, m, log) && m.flows != []
    requires var f := m.flows[|m.flows| - 1]; !(f.d0.closed && f.d1.closed)
    ensures Sound(L, log, Close(L, m, p))
  {
    FinishOk(L, m, log, p);
    DepartOk(L, Finish(L, m, p), log, p);
  }

  // ---------------------------------------------------------------- caps

  predicate FlowFit(L: Limits, f: Flow) {
    && !OverPending(f.d0, L.maxPending, L.maxSegments) && !OverPending(f.d1, L.maxPending, L.maxSegments)
    && !(f.d0.closed && f.d1.closed)
  }

  predicate TableFit(L: Limits, flows: seq<Flow>) { forall i :: 0 <= i < |flows| ==> FlowFit(L, flows[i]) }

  /** Every bound the reassembler promises to keep between two calls. */
  predicate CapsOk(L: Limits, m: Tcp) {
    |m.flows| <= L.maxFlows && !OverBudget(L, m.c) && TableFit(L, m.flows)
  }

  lemma ResetFit(L: Limits, m: Tcp, p: Packet)
    requires TableFit(L, m.flows)
    ensures TableFit(L, Reset(L, m, p).m.flows) && |Reset(L, m, p).m.flows| <= |m.flows|
  {
    if Reopens(m, p) {
      RemoveFit(L, m.flows, Find(m.flows, p.key));
    }
  }

  lemma RemoveFit(L: Limits, flows: seq<Flow>, i: nat)
    requires TableFit(L, flows) && i < |flows|
    ensures TableFit(L, Remove(flows, i)) && |Remove(flows, i)| == |flows| - 1
  {
  }

  lemma SuffixFit(L: Limits, r: seq<Flow>, flows: seq<Flow>)
    requires TableFit(L, flows) && Suffix(r, flows)
    ensures TableFit(L, r)
  {
  }

  lemma LocateFit(L: Limits, m: Tcp, p: Packet, now: int)
    requires 1 <= L.maxFlows && TableFit(L, m.flows) && |m.flows| <= L.maxFlows
    ensures var flows := Locate(L, m, p, now).m.flows;
            flows != [] && TableFit(L, flows) && |flows| <= L.maxFlows
  {
    var i := Find(m.flows, p.key);
    if i < |m.flows| {
      RemoveFit(L, m.flows, i);
    } else {
      EvictToFitSuffix(L, m);
      SuffixFit(L, EvictToFit(L, m).m.flows, m.flows);
    }
  }

  lemma TouchFit(L: Limits, f: Flow, p: Packet, now: int)
    requires FlowFit(L, f)
    ensures FlowFit(L, Touch(f, p, now))
  {
  }

  lemma LastFit(L: Limits, flows: seq<Flow>, f: Flow)
    requires TableFit(L, flows) && flows != [] && FlowFit(L, f)
    ensures TableFit(L, flows[|flows| - 1 := f])
  {
  }

  lemma LandFit(L: Limits, m: Tcp, log: Log, p: Packet, now: int)
    requires MachineOk(L, m, log) && m.flows != [] && TableFit(L, m.flows)
    ensures var r := Land(L, m, p, now);
            && TableFit(L, r.m.flows)
            && (!r.inserted ==> r.m.c.bytes == m.c.bytes && r.m.c.segments == m.c.segments)
  {
    var f0 := m.flows[|m.flows| - 1];
    var f := Touch(f0, p, now);
    assert FlowOk(f0, log, L.history);
    TouchOk(f0, p, now, log, L.history);
    TouchFit(L, f0, p, now);
    DeliverOk(L, m.c, f.Dir(p.side), p, log, f.epoch);
    DeliveryFit(L, m.c, f, p.side, log, Deliver(L, m.c, f.Dir(p.side), p));
    LastFit(L, m.flows, f.With(p.side, Deliver(L, m.c, f.Dir(p.side), p).o.d));
  }

  lemma DeliveryFit(L: Limits, c: Counters, f: Flow, s: Side, log: Log, dl: Delivery)
    requires FlowFit(L, f) && DeliveryOk(L, c, f.Dir(s), s, log, f.epoch, dl)
    ensures FlowFit(L, f.With(s, dl.o.d))
  {
  }

  lemma EmptiedFit(L: Limits, m: Tcp, m': Tcp, i: nat, s: Side)
    requires i < |m.flows| == |m'.flows| && Emptied(m, m', i, s) && TableFit(L, m.flows)
    ensures TableFit(L, m'.flows)
  {
  }

  /** The table stays within its caps except that the last flow may have just been closed on both sides. */
  lemma FinishFit(L: Limits, m: Tcp, log: Log, p: Packet)
    requires MachineOk(L, m, log) && m.flows != [] && TableFit(L, m.flows)
    ensures var r := Finish(L, m, p).m;
            && r.c.bytes <= m.c.bytes && r.c.segments <= m.c.segments
            && (Departs(r, p) ==> TableFit(L, r.flows[..|r.flows| - 1]))
            && (!Departs(r, p) ==> TableFit(L, r.flows))
  {
    if p.fin || p.rst {
      var a := FlushAt(L, m, |m.flows| - 1, p.side, p.key);
      FlushAtOk(L, m, log, |m.flows| - 1, p.side, p.key);
      EmptiedFit(L, m, a.m, |m.flows| - 1, p.side);
      MarkFit(L, a.m, p);
    }
  }

  lemma MarkFit(L: Limits, m: Tcp, p: Packet)
    requires m.flows != [] && TableFit(L, m.flows)
    ensures var r := MarkClosed(m, p.side);
            && (Departs(r, p) ==> TableFit(L, r.flows[..|r.flows| - 1]))
            && (!Departs(r, p) ==> TableFit(L, r.flows))
  {
    var r := MarkClosed(m, p.side);
    assert forall j :: 0 <= j < |m.flows| - 1 ==> r.flows[j] == m.flows[j];
  }

  lemma DepartingFit(L: Limits, m: Tcp, log: Log, i: nat, own: Side, key: Key)
    requires MachineOk(L, m, log) && i == |m.flows| - 1 && TableFit(L, m.flows[..i])
    requires m.flows[i].Dir(own).pending == [] && m.flows[i].Dir(own).pendingBytes == 0
    ensures var r := FlushAndRemove(L, m, i, 1 - own, key).m;
            r.c.bytes <= m.c.bytes && r.c.segments <= m.c.segments && r.flows == m.flows[..i]
  {
    var a := FlushAt(L, m, i, 1 - own, key);
    FlushAtOk(L, m, log, i, 1 - own, key);
    LeavesFit(m, a.m, i, own);
  }

  lemma LeavesFit(m: Tcp, a: Tcp, i: nat, own: Side)
    requires i < |m.flows| == |a.flows| && Emptied(m, a, i, 1 - own) && i == |m.flows| - 1
    requires m.flows[i].Dir(own).pending == [] && m.flows[i].Dir(own).pendingBytes == 0
    ensures RemoveFlow(a, i).c == a.c.(bytes := a.c.bytes, segments := a.c.segments)
    ensures RemoveFlow(a, i).flows == m.flows[..i]
  {
    assert Remove(a.flows, i) == a.flows[..i];
    assert a.flows[..i] == m.flows[..i];
  }

  /** Within the caps, except for a last flow that is about to leave. */
  ghost predicate AlmostFit(L: Limits, m: Tcp, p: Packet)
    requires m.flows != []
  {
    && |m.flows| <= L.maxFlows && !OverBudget(L, m.c)
    && (Departs(m, p) ==> TableFit(L, m.flows[..|m.flows| - 1]))
    && (!Departs(m, p) ==> TableFit(L, m.flows))
  }

  lemma DepartFit(L: Limits, a: Step, log: Log, p: Packet)
    requires Sound(L, log, a) && a.m.flows != [] && ReadyToDepart(a.m, p) && AlmostFit(L, a.m, p)
    ensures CapsOk(L, Depart(L, a, p).m)
  {
    if Departs(a.m, p) {
      DepartingFit(L, a.m, WithChunks(log, a.chunks), |a.m.flows| - 1, p.side, p.key);
    }
  }

  lemma CloseFit(L: Limits, m: Tcp, log: Log, p: Packet)
    requires MachineOk(L, m, log) && m.flows != [] && CapsOk(L, m)
    ensures CapsOk(L, Close(L, m, p).m)
  {
    assert FlowFit(L, m.flows[|m.flows| - 1]);
    FinishOk(L, m, log, p);
    FinishFit(L, m, log, p);
    DepartFit(L, Finish(L, m, p), log, p);
  }

  lemma BudgetFit(L: Limits, m: Tcp, log: Log)
    requires MachineOk(L, m, log) && TableFit(L, m.flows) && |m.flows| <= L.maxFlows
    ensures CapsOk(L, EvictToBudget(L, m).m)
  {
    EvictToBudgetOk(L, m, log);
    EvictToBudgetSuffix(L, m);
    SuffixFit(L, EvictToBudget(L, m).m.flows, m.flows);
  }
}
