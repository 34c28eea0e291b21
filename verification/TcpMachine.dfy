/**
 * The bounded multi-flow TCP reassembler as a state machine. The flow table is a sequence in
 * least-recently-used order, as in the ordered dictionary it models; the clock is a parameter.
 */
module TcpMachine {
  import opened Common
  import opened Ranges
  import opened TcpDirection

  datatype Limits = Limits(
    maxFlows: nat, maxPending: nat, maxSegments: nat, maxBytes: nat, maxBufferedSegments: nat,
    history: nat, idle: nat)
  {
    /** The constructor refuses anything smaller. */
    predicate Valid() {
      1 <= maxFlows && 1 <= maxPending && 1 <= maxSegments && 1 <= maxBytes && 1 <= maxBufferedSegments
      && 1 <= history
    }
  }

  /** A parsed packet with its canonical flow and direction. */
  datatype Packet = Packet(
    isTcp: bool, key: Key, side: Side, id: nat, sourceIds: seq<nat>, ts: int,
    seqNo: int, ackNo: int, syn: bool, ack: bool, fin: bool, rst: bool, payload: Bytes)
  {
    function Ids(): seq<nat> { if sourceIds != [] then sourceIds else [id] }
    /** The sequence number of the first payload byte, as 32 bits. */
    function PayloadSeq(): int { (seqNo + if syn then 1 else 0) % SEQ_MODULUS }
  }

  datatype Flow = Flow(key: Key, epoch: nat, d0: Direction, d1: Direction, lastSeen: int, activity: int) {
    function Dir(s: Side): Direction { if s == 0 then d0 else d1 }
    function With(s: Side, d: Direction): Flow { if s == 0 then this.(d0 := d) else this.(d1 := d) }
    function Bytes(): int { d0.pendingBytes + d1.pendingBytes }
    function Segments(): int { |d0.pending| + |d1.pending| }
  }

  datatype Tcp = Tcp(
    flows: seq<Flow>, nextEpoch: nat, c: Counters, conflicts: nat, evicted: nat, budgetEvicted: nat, expired: nat)

  datatype Step = Step(m: Tcp, chunks: seq<Chunk>)

  function Initial(epochNamespace: nat): Tcp {
    Tcp([], epochNamespace * SEQ_MODULUS + 1, Counters(0, 0, 0, 0), 0, 0, 0, 0)
  }

  /** Index of the flow with this key, or the table's length. */
  function Find(flows: seq<Flow>, key: Key): (i: nat)
    ensures i <= |flows|
    ensures i < |flows| ==> flows[i].key == key
    ensures forall j :: 0 <= j < i ==> flows[j].key != key
  {
    if flows == [] then 0 else if flows[0].key == key then 0 else 1 + Find(flows[1..], key)
  }

  function Remove<T>(s: seq<T>, i: nat): seq<T>
    requires i < |s|
  {
    s[..i] + s[i + 1..]
  }

  // ---------------------------------------------------------------- leaving the table

  /** Flushes one direction of flow `i`. */
  function FlushAt(L: Limits, m: Tcp, i: nat, s: Side, key: Key): (r: Step)
    requires i < |m.flows|
    ensures |r.m.flows| == |m.flows| && r.m.nextEpoch == m.nextEpoch
  {
    Flushed(m, i, s, Flush(m.c, m.flows[i].Dir(s), key, s, L.history))
  }

  function Flushed(m: Tcp, i: nat, s: Side, a: Outcome): (r: Step)
    requires i < |m.flows|
    ensures |r.m.flows| == |m.flows| && r.m.nextEpoch == m.nextEpoch
  {
    Step(m.(flows := m.flows[i := m.flows[i].With(s, a.d)], c := a.c), a.chunks)
  }

  /** Takes flow `i` out of the table, with whatever it still buffers. */
  function RemoveFlow(m: Tcp, i: nat): (r: Tcp)
    requires i < |m.flows|
  {
    m.(flows := Remove(m.flows, i),
       c := m.c.(bytes := m.c.bytes - m.flows[i].Bytes(), segments := m.c.segments - m.flows[i].Segments()))
  }

  /** Flushes both directions of flow `i` and takes it out of the table. */
  function Dismiss(L: Limits, m: Tcp, i: nat): (r: Step)
    requires i < |m.flows|
    ensures r.m.flows == Remove(m.flows, i) && r.m.nextEpoch == m.nextEpoch
  {
    var a := FlushAt(L, m, i, 0, m.flows[i].key);
    var b := FlushAt(L, a.m, i, 1, m.flows[i].key);
    Step(RemoveFlow(b.m, i), a.chunks + b.chunks)
  }

  function EvictOldest(L: Limits, m: Tcp, budget: bool): Step
    requires m.flows != []
  {
    var r := Dismiss(L, m, 0);
    Step(r.m.(evicted := r.m.evicted + 1, budgetEvicted := r.m.budgetEvicted + if budget then 1 else 0), r.chunks)
  }

  /** Makes room for one more flow. */
  function EvictToFit(L: Limits, m: Tcp): Step
    requires 1 <= L.maxFlows
    decreases |m.flows|
  {
    if |m.flows| < L.maxFlows then Step(m, [])
    else
      var a := EvictOldest(L, m, false);
      var b := EvictToFit(L, a.m);
      Step(b.m, a.chunks + b.chunks)
  }

  predicate OverBudget(L: Limits, c: Counters) {
    c.bytes > L.maxBytes || c.segments > L.maxBufferedSegments
  }

  /** Evicts whole flows until the shared budgets hold. */
  function EvictToBudget(L: Limits, m: Tcp): Step
    decreases |m.flows|
  {
    if !OverBudget(L, m.c) || m.flows == [] then Step(m, [])
    else
      var a := EvictOldest(L, m, true);
      var b := EvictToBudget(L, a.m);
      Step(b.m, a.chunks + b.chunks)
  }

  // ---------------------------------------------------------------- one packet

  /** A new SYN on a known tuple ends the previous epoch. */
  predicate Reopens(m: Tcp, p: Packet) {
    p.syn && !p.ack
    && var i := Find(m.flows, p.key);
       i < |m.flows| && (m.flows[i].Dir(p.side).syn != Some(p.seqNo) || m.flows[i].Dir(p.side).closed)
  }

  function Reset(L: Limits, m: Tcp, p: Packet): Step {
    if Reopens(m, p) then Dismiss(L, m, Find(m.flows, p.key)) else Step(m, [])
  }

  function FreshFlow(key: Key, epoch: nat, ts: int, now: int): Flow {
    Flow(key, epoch, FreshDirection(epoch), FreshDirection(epoch), ts, now)
  }

  /** Makes the packet's flow the most recent entry, creating it when there is none. */
  function Locate(L: Limits, m: Tcp, p: Packet, now: int): (r: Step)
    requires 1 <= L.maxFlows
    ensures r.m.flows != []
  {
    var i := Find(m.flows, p.key);
    if i < |m.flows| then Step(m.(flows := Remove(m.flows, i) + [m.flows[i]]), [])
    else Enroll(EvictToFit(L, m), p, now)
  }

  /** Starts a new connection epoch for the packet's flow. */
  function Enroll(r: Step, p: Packet, now: int): Step {
    Step(r.m.(flows := r.m.flows + [FreshFlow(p.key, r.m.nextEpoch, p.ts, now)], nextEpoch := r.m.nextEpoch + 1),
         r.chunks)
  }

  function NoteAck(d: Direction, p: Packet): Direction {
    if !p.ack || d.next.None? then d
    else
      var peer := Unwrap(p.ackNo, d.next.value);
      if d.peerAcked.None? || peer > d.peerAcked.value then d.(peerAcked := Some(peer)) else d
  }

  function Open(d: Direction, p: Packet): Direction {
    var e := d.(lastSeen := Max(d.lastSeen, p.ts));
    var o := if e.next.Some? then e
             else if p.syn then e.(syn := Some(p.seqNo), next := Some(p.PayloadSeq()), midstream := false)
             else if p.payload != [] then e.(next := Some(p.PayloadSeq()), midstream := true)
             else e;
    if p.syn && o.syn.None? then o.(syn := Some(p.seqNo)) else o
  }

  function Touch(f: Flow, p: Packet, now: int): Flow {
    Touched(f, p.side, NoteAck(f.Dir(1 - p.side), p), Open(f.Dir(p.side), p), Max(f.lastSeen, p.ts), now)
  }

  function Touched(f: Flow, s: Side, theirs: Direction, ours: Direction, seen: int, now: int): Flow {
    f.(lastSeen := seen, activity := now).With(1 - s, theirs).With(s, ours)
  }

  /** An idle probe: one already acknowledged octet right before `next`. */
  predicate Keepalive(d: Direction, p: Packet, start: int)
    requires d.next.Some?
  {
    |p.payload| == 1 && p.ack && !p.syn && !p.fin && !p.rst && start == d.next.value - 1
    && d.peerAcked.Some? && d.peerAcked.value >= d.next.value
  }

  /** How many pending segments disagree with the piece on a shared position. */
  function PendingConflicts(pending: seq<Piece>, piece: Piece): nat {
    if pending == [] then 0
    else
      var q := pending[|pending| - 1];
      var lo, hi := Max(piece.start, q.start), Min(piece.End(), q.End());
      PendingConflicts(pending[..|pending| - 1], piece)
      + (if lo < hi && piece.data[lo - piece.start..hi - piece.start] != q.data[lo - q.start..hi - q.start]
         then 1 else 0)
  }

  /** What the payload did: the record kept for the whole-run statements names its stream position. */
  datatype Delivery = Delivery(o: Outcome, arrival: Option<Piece>, inserted: bool, probe: bool)

  function SourceOf(p: Packet): Source { Captured(p.Ids(), p.ts) }

  /** How often the payload contradicts bytes already handed over or still pending. */
  function ConflictsOf(d: Direction, p: Packet): nat {
    if p.payload == [] || d.next.None? || Keepalive(d, p, Unwrap(p.PayloadSeq(), d.next.value)) then 0
    else
      var start := Unwrap(p.PayloadSeq(), d.next.value);
      (if start < d.next.value && ConflictsWithConsumed(d, start, p.payload) then 1 else 0)
      + (if start + |p.payload| <= d.next.value then 0
         else PendingConflicts(d.pending, TrimmedPiece(d, start, p.payload, SourceOf(p))))
  }

  /** A payload that ends at or before `next` repeats what was handed over or skipped. */
  function DeliverStale(c: Counters, d: Direction, p: Packet, start: int): Delivery
    requires d.next.Some?
  {
    Delivery(Outcome(c.(retransmitted := c.retransmitted + |p.payload|), d, []),
             Some(Piece(start - d.Origin(), p.payload, SourceOf(p))), false, false)
  }

  function DeliverFresh(L: Limits, c: Counters, d: Direction, p: Packet, start: int): Delivery
    requires d.next.Some? && d.next.value < start + |p.payload|
  {
    Delivery(Admit(L, c, d, p, start), Some(Piece(start - d.Origin(), p.payload, SourceOf(p))), true, false)
  }

  function Deliver(L: Limits, c: Counters, d: Direction, p: Packet): Delivery {
    if p.payload == [] || d.next.None? then Delivery(Outcome(c, d, []), None, false, false)
    else
      var start := Unwrap(p.PayloadSeq(), d.next.value);
      if Keepalive(d, p, start) then Delivery(Outcome(c, d, []), None, false, true)
      else if start + |p.payload| <= d.next.value then DeliverStale(c, d, p, start)
      else DeliverFresh(L, c, d, p, start)
  }

  /** Buffers the new bytes, hands over what became contiguous, and skips gaps if a cap is exceeded. */
  function Admit(L: Limits, c: Counters, d: Direction, p: Packet, start: int): Outcome
    requires d.next.Some? && d.next.value < start + |p.payload|
  {
    var accepted := Accept(c, d, start, p.payload, SourceOf(p));
    var a := Drain(accepted.0, accepted.1, p.key, p.side, false, L.history);
    var b := Relieve(a.c, a.d, p.key, p.side, L.history, L.maxPending, L.maxSegments);
    Outcome(b.c, b.d, a.chunks + b.chunks)
  }

  /** Replaces the most recent flow. */
  function SetLast(m: Tcp, f: Flow, c: Counters): Tcp
    requires m.flows != []
  {
    m.(flows := m.flows[|m.flows| - 1 := f], c := c)
  }

  /** FIN and RST flush their direction and close it. */
  function Finish(L: Limits, m: Tcp, p: Packet): (r: Step)
    requires m.flows != []
    ensures |r.m.flows| == |m.flows|
  {
    if !p.fin && !p.rst then Step(m, [])
    else
      var a := FlushAt(L, m, |m.flows| - 1, p.side, p.key);
      Step(MarkClosed(a.m, p.side), a.chunks)
  }

  function MarkClosed(m: Tcp, s: Side): Tcp
    requires m.flows != []
  {
    var f := m.flows[|m.flows| - 1];
    SetLast(m, f.With(s, f.Dir(s).(closed := true)), m.c)
  }

  predicate Departs(m: Tcp, p: Packet)
    requires m.flows != []
  {
    p.rst || (m.flows[|m.flows| - 1].d0.closed && m.flows[|m.flows| - 1].d1.closed)
  }

  /** Flushes one direction of flow `i` and takes the flow out. */
  function FlushAndRemove(L: Limits, m: Tcp, i: nat, s: Side, key: Key): Step
    requires i < |m.flows|
  {
    var a := FlushAt(L, m, i, s, key);
    Step(RemoveFlow(a.m, i), a.chunks)
  }

  /** A payload that was not an idle probe: its origin on the sequence line and its stream position. */
  datatype Arrival = Arrival(epoch: nat, side: Side, origin: int, piece: Piece)

  datatype Result = Result(m: Tcp, chunks: seq<Chunk>, arrivals: seq<Arrival>)

  /** The packet's flow is touched and its payload delivered. */
  datatype Landing = Landing(m: Tcp, chunks: seq<Chunk>, arrivals: seq<Arrival>, inserted: bool, probe: bool)

  function Land(L: Limits, m: Tcp, p: Packet, now: int): (r: Landing)
    requires m.flows != []
    ensures |r.m.flows| == |m.flows|
  {
    var f := Touch(m.flows[|m.flows| - 1], p, now);
    var dl := Deliver(L, m.c, f.Dir(p.side), p);
    Landing(SetLast(m, f.With(p.side, dl.o.d), dl.o.c).(conflicts := m.conflicts + ConflictsOf(f.Dir(p.side), p)),
            dl.o.chunks, ArrivalsIn(dl, f.epoch, p.side, f.Dir(p.side)), dl.inserted, dl.probe)
  }

  function ArrivalsIn(dl: Delivery, e: nat, s: Side, d: Direction): seq<Arrival> {
    if dl.arrival.Some? && d.next.Some? then [Arrival(e, s, d.Origin(), dl.arrival.value)] else []
  }

  function Then(a: Step, b: Step): Step { Step(b.m, a.chunks + b.chunks) }

  /** After RST, or once both directions are closed, the other direction is flushed and the flow leaves. */
  function Close(L: Limits, m: Tcp, p: Packet): Step
    requires m.flows != []
  {
    Depart(L, Finish(L, m, p), p)
  }

  function Depart(L: Limits, a: Step, p: Packet): Step
    requires a.m.flows != []
  {
    if Departs(a.m, p) then Then(a, FlushAndRemove(L, a.m, |a.m.flows| - 1, 1 - p.side, p.key)) else a
  }

  /** Everything after the packet's flow has become the most recent entry. */
  function Advance(L: Limits, m: Tcp, p: Packet, now: int): Result
    requires m.flows != []
  {
    var a := Land(L, m, p, now);
    var e := if a.inserted then EvictToBudget(L, a.m) else Step(a.m, []);
    if a.probe || e.m.flows == [] then Result(e.m, a.chunks + e.chunks, a.arrivals)
    else
      var z := Close(L, e.m, p);
      Result(z.m, a.chunks + e.chunks + z.chunks, a.arrivals)
  }

  function Process(L: Limits, m: Tcp, p: Packet, now: int): Result
    requires 1 <= L.maxFlows
  {
    if !p.isTcp then Result(m, [], [])
    else
      var a := Reset(L, m, p);
      var b := Locate(L, a.m, p, now);
      var r := Advance(L, b.m, p, now);
      Result(r.m, a.chunks + b.chunks + r.chunks, r.arrivals)
  }

  // ---------------------------------------------------------------- expiry

  function Lapse(L: Limits, m: Tcp, i: nat): (r: Step)
    requires i < |m.flows|
    ensures r.m.flows == Remove(m.flows, i)
  {
    var a := Dismiss(L, m, i);
    Step(a.m.(expired := a.m.expired + 1), a.chunks)
  }

  /** Drops stale flows from the old end of the table and stops at the first fresh one. */
  function ExpirePrefix(L: Limits, m: Tcp, now: int): Step
    decreases |m.flows|
  {
    if m.flows == [] || now - m.flows[0].activity < L.idle then Step(m, [])
    else
      var a := Lapse(L, m, 0);
      var b := ExpirePrefix(L, a.m, now);
      Step(b.m, a.chunks + b.chunks)
  }

  /** Drops every flow that is stale by capture time, wherever it is in the table. */
  function ExpireAll(L: Limits, m: Tcp, i: nat, now: int): Step
    requires i <= |m.flows|
    decreases |m.flows| - i
  {
    if i == |m.flows| then Step(m, [])
    else if now - m.flows[i].lastSeen < L.idle then ExpireAll(L, m, i + 1, now)
    else
      var a := Lapse(L, m, i);
      var b := ExpireAll(L, a.m, i, now);
      Step(b.m, a.chunks + b.chunks)
  }

  function FlushAll(L: Limits, m: Tcp): Step
    decreases |m.flows|
  {
    if m.flows == [] then Step(m, [])
    else
      var a := Dismiss(L, m, 0);
      var b := FlushAll(L, a.m);
      Step(b.m, a.chunks + b.chunks)
  }
}
