/**
 * The invariant of the whole reassembler over a run: every direction of every live flow agrees
 * with the packets and chunks recorded for it, past epochs stay sound, and no byte is unaccounted.
 */
module TcpLedger {
  import opened Common
  import opened Ranges
  import opened TcpDirection
  import opened TcpEpoch
  import opened TcpStream
  import opened TcpMachine

  /** Everything that went in and came out of the reassembler so far. */
  datatype Log = Log(arrivals: seq<Arrival>, out: seq<Chunk>)

  function ArrivalsOf(arrivals: seq<Arrival>, e: nat, s: Side): seq<Piece> {
    if arrivals == [] then []
    else
      var a := arrivals[|arrivals| - 1];
      ArrivalsOf(arrivals[..|arrivals| - 1], e, s) + if a.epoch == e && a.side == s then [a.piece] else []
  }

  function OriginsOf(arrivals: seq<Arrival>, e: nat, s: Side): seq<int> {
    if arrivals == [] then []
    else
      var a := arrivals[|arrivals| - 1];
      OriginsOf(arrivals[..|arrivals| - 1], e, s) + if a.epoch == e && a.side == s then [a.origin] else []
  }

  function ChunksOf(out: seq<Chunk>, e: nat, s: Side): seq<Chunk> {
    if out == [] then []
    else
      var c := out[|out| - 1];
      ChunksOf(out[..|out| - 1], e, s) + if c.epoch == e && c.side == s then [c] else []
  }

  function ArrivalLength(arrivals: seq<Arrival>): nat {
    if arrivals == [] then 0
    else ArrivalLength(arrivals[..|arrivals| - 1]) + |arrivals[|arrivals| - 1].piece.data|
  }

  // ---------------------------------------------------------------- views of the log

  ghost predicate SameView(a: Log, b: Log, e: nat, s: Side) {
    && ArrivalsOf(a.arrivals, e, s) == ArrivalsOf(b.arrivals, e, s)
    && OriginsOf(a.arrivals, e, s) == OriginsOf(b.arrivals, e, s)
    && ChunksOf(a.out, e, s) == ChunksOf(b.out, e, s)
  }

  /** Only what is recorded for one direction of one epoch differs. */
  ghost predicate OnlyAt(a: Log, b: Log, e: nat, s: Side) {
    forall e': nat, s': Side :: e' != e || s' != s ==> SameView(a, b, e', s')
  }

  function WithChunks(log: Log, chunks: seq<Chunk>): Log { log.(out := log.out + chunks) }

  function WithArrivals(log: Log, arrivals: seq<Arrival>): Log { log.(arrivals := log.arrivals + arrivals) }

  lemma {:induction false} ChunksAppend(out: seq<Chunk>, chunks: seq<Chunk>, e: nat, s: Side, e': nat, s': Side)
    requires AllFrom(chunks, e, s)
    ensures ChunksOf(out + chunks, e', s') == if e' == e && s' == s then ChunksOf(out, e', s') + chunks
            else ChunksOf(out, e', s')
    decreases |chunks|
  {
    if chunks == [] {
      AppendNil(out);
    } else {
      var init, last := chunks[..|chunks| - 1], chunks[|chunks| - 1];
      ChunksAppend(out, init, e, s, e', s');
      assert (out + chunks)[..|out + chunks| - 1] == out + init;
      assert chunks == init + [last];
    }
  }

  lemma WithChunksView(log: Log, chunks: seq<Chunk>, e: nat, s: Side)
    requires AllFrom(chunks, e, s)
    ensures OnlyAt(log, WithChunks(log, chunks), e, s)
    ensures ChunksOf(WithChunks(log, chunks).out, e, s) == ChunksOf(log.out, e, s) + chunks
  {
    ChunksAppend(log.out, chunks, e, s, e, s);
    forall e': nat, s': Side | e' != e || s' != s ensures SameView(log, WithChunks(log, chunks), e', s') {
      ChunksAppend(log.out, chunks, e, s, e', s');
    }
  }

  lemma WithArrivalView(log: Log, a: Arrival)
    ensures OnlyAt(log, WithArrivals(log, [a]), a.epoch, a.side)
    ensures ArrivalsOf(WithArrivals(log, [a]).arrivals, a.epoch, a.side)
            == ArrivalsOf(log.arrivals, a.epoch, a.side) + [a.piece]
    ensures OriginsOf(WithArrivals(log, [a]).arrivals, a.epoch, a.side)
            == OriginsOf(log.arrivals, a.epoch, a.side) + [a.origin]
    ensures ArrivalLength(WithArrivals(log, [a]).arrivals) == ArrivalLength(log.arrivals) + |a.piece.data|
  {
    AppendSnoc(log.arrivals, a);
    forall e': nat, s': Side | e' != a.epoch || s' != a.side
      ensures SameView(log, WithArrivals(log, [a]), e', s')
    {
      AppendNil(ArrivalsOf(log.arrivals, e', s'));
      AppendNil(OriginsOf(log.arrivals, e', s'));
    }
  }

  // ---------------------------------------------------------------- the invariant

  ghost function ViewOf(log: Log, e: nat, s: Side): Supply { SupplyOf(ArrivalsOf(log.arrivals, e, s)) }

  ghost predicate Matches(d: Direction, arrivals: seq<Piece>, origins: seq<int>, chunks: seq<Chunk>, cap: nat) {
    DirectionOk(d, SupplyOf(arrivals), chunks, cap) && OriginsOk(d.next, d.offset, origins)
  }

  /** `Matches`, behind a recursion that keeps the solver from unfolding it where it is only passed on. */
  ghost predicate Sealed(depth: nat, d: Direction, arrivals: seq<Piece>, origins: seq<int>, chunks: seq<Chunk>,
                         cap: nat) {
    if depth == 0 then Matches(d, arrivals, origins, chunks, cap)
    else Sealed(depth - 1, d, arrivals, origins, chunks, cap)
  }

  lemma {:induction false} Unseal(depth: nat, d: Direction, arrivals: seq<Piece>, origins: seq<int>,
                                  chunks: seq<Chunk>, cap: nat)
    ensures Sealed(depth, d, arrivals, origins, chunks, cap) <==> Matches(d, arrivals, origins, chunks, cap)
  {
    if depth > 0 {
      Unseal(depth - 1, d, arrivals, origins, chunks, cap);
    }
  }

  /** The direction agrees with everything recorded for it. */
  ghost predicate SideOk(d: Direction, log: Log, e: nat, s: Side, cap: nat) {
    d.epoch == e
    && Sealed(cap + 4, d, ArrivalsOf(log.arrivals, e, s), OriginsOf(log.arrivals, e, s), ChunksOf(log.out, e, s), cap)
  }

  lemma SideMeans(d: Direction, log: Log, e: nat, s: Side, cap: nat)
    ensures SideOk(d, log, e, s, cap)
            <==> d.epoch == e && DirectionOk(d, ViewOf(log, e, s), ChunksOf(log.out, e, s), cap)
                 && OriginsOk(d.next, d.offset, OriginsOf(log.arrivals, e, s))
  {
    Unseal(cap + 4, d, ArrivalsOf(log.arrivals, e, s), OriginsOf(log.arrivals, e, s), ChunksOf(log.out, e, s), cap);
  }

  /** The stream offset is always `next` minus one fixed origin, the same for every arrival. */
  ghost predicate OriginsOk(next: Option<int>, offset: int, origins: seq<int>) {
    if next.None? then origins == [] else AllEqual(origins, next.value - offset)
  }

  ghost predicate AllEqual(s: seq<int>, x: int) { forall k :: 0 <= k < |s| ==> s[k] == x }

  ghost predicate FlowOk(f: Flow, log: Log, cap: nat) {
    SideOk(f.d0, log, f.epoch, 0, cap) && SideOk(f.d1, log, f.epoch, 1, cap)
  }

  ghost predicate FlowsOk(flows: seq<Flow>, log: Log, cap: nat) {
    forall i :: 0 <= i < |flows| ==> FlowOk(flows[i], log, cap)
  }

  ghost predicate TableOk(flows: seq<Flow>, nextEpoch: nat) {
    && (forall i :: 0 <= i < |flows| ==> flows[i].epoch < nextEpoch)
    && (forall i, j :: 0 <= i < j < |flows| ==> flows[i].key != flows[j].key && flows[i].epoch != flows[j].epoch)
  }

  function SumBytes(flows: seq<Flow>): int {
    if flows == [] then 0 else SumBytes(flows[..|flows| - 1]) + flows[|flows| - 1].Bytes()
  }

  function SumSegments(flows: seq<Flow>): int {
    if flows == [] then 0 else SumSegments(flows[..|flows| - 1]) + flows[|flows| - 1].Segments()
  }

  ghost predicate OneOrigin(origins: seq<int>) { exists o :: AllEqual(origins, o) }

  ghost predicate Past(depth: nat, arrivals: seq<Piece>, origins: seq<int>, chunks: seq<Chunk>) {
    if depth == 0 then StreamOk(chunks, SupplyOf(arrivals)) && OneOrigin(origins)
    else Past(depth - 1, arrivals, origins, chunks)
  }

  lemma {:induction false} OpenPast(depth: nat, arrivals: seq<Piece>, origins: seq<int>, chunks: seq<Chunk>)
    ensures Past(depth, arrivals, origins, chunks)
            <==> StreamOk(chunks, SupplyOf(arrivals)) && OneOrigin(origins)
  {
    if depth > 0 {
      OpenPast(depth - 1, arrivals, origins, chunks);
    }
  }

  /** The chunks recorded for a direction of an epoch are sound, whether or not its flow is still there. */
  ghost predicate PastAt(log: Log, e: nat, s: Side) {
    Past(|log.out| + 4, ArrivalsOf(log.arrivals, e, s), OriginsOf(log.arrivals, e, s), ChunksOf(log.out, e, s))
  }

  lemma PastMeans(log: Log, e: nat, s: Side)
    ensures PastAt(log, e, s)
            <==> StreamOk(ChunksOf(log.out, e, s), ViewOf(log, e, s)) && OneOrigin(OriginsOf(log.arrivals, e, s))
  {
    OpenPast(|log.out| + 4, ArrivalsOf(log.arrivals, e, s), OriginsOf(log.arrivals, e, s), ChunksOf(log.out, e, s));
  }

  /** Live or gone, every direction of every epoch has a sound chunk sequence. */
  ghost predicate PastOk(log: Log) { forall e: nat, s: Side :: PastAt(log, e, s) }

  ghost predicate FutureOk(log: Log, nextEpoch: nat) {
    forall e: nat, s: Side :: nextEpoch <= e ==> SilentAt(log, e, s)
  }

  ghost predicate SilentAt(log: Log, e: nat, s: Side) {
    ArrivalsOf(log.arrivals, e, s) == [] && OriginsOf(log.arrivals, e, s) == [] && ChunksOf(log.out, e, s) == []
  }

  /** Bytes in, bytes out, bytes dropped as repeated, bytes still waiting. */
  ghost predicate Balanced(c: Counters, log: Log) {
    ArrivalLength(log.arrivals) == DataLength(log.out) + c.retransmitted + c.bytes
  }

  ghost predicate MachineOk(L: Limits, m: Tcp, log: Log) {
    && TableOk(m.flows, m.nextEpoch)
    && FlowsOk(m.flows, log, L.history)
    && m.c.bytes == SumBytes(m.flows) && m.c.segments == SumSegments(m.flows)
    && PastOk(log) && FutureOk(log, m.nextEpoch)
    && Balanced(m.c, log)
  }

  // ---------------------------------------------------------------- table updates

  lemma {:induction false} SumsAppend(a: seq<Flow>, b: seq<Flow>)
    ensures SumBytes(a + b) == SumBytes(a) + SumBytes(b)
    ensures SumSegments(a + b) == SumSegments(a) + SumSegments(b)
    decreases |b|
  {
    if b == [] {
      AppendNil(a);
    } else {
      SumsAppend(a, b[..|b| - 1]);
      assert (a + b)[..|a + b| - 1] == a + b[..|b| - 1];
    }
  }

  lemma SumsOne(f: Flow)
    ensures SumBytes([f]) == f.Bytes() && SumSegments([f]) == f.Segments()
  {
    assert [f][..0] == [];
  }

  lemma SumsSplit(flows: seq<Flow>, i: nat)
    requires i < |flows|
    ensures SumBytes(flows) == SumBytes(Remove(flows, i)) + flows[i].Bytes()
    ensures SumSegments(flows) == SumSegments(Remove(flows, i)) + flows[i].Segments()
  {
    SplitAt(flows, i);
    SumsAppend(flows[..i], [flows[i]] + flows[i + 1..]);
    SumsAppend([flows[i]], flows[i + 1..]);
    SumsAppend(flows[..i], flows[i + 1..]);
    SumsOne(flows[i]);
  }

  lemma SumsUpdate(flows: seq<Flow>, i: nat, f: Flow)
    requires i < |flows|
    ensures SumBytes(flows[i := f]) == SumBytes(flows) - flows[i].Bytes() + f.Bytes()
    ensures SumSegments(flows[i := f]) == SumSegments(flows) - flows[i].Segments() + f.Segments()
  {
    SumsSplit(flows, i);
    SumsSplit(flows[i := f], i);
    assert Remove(flows[i := f], i) == Remove(flows, i);
  }

  lemma OtherFlowsKeep(flows: seq<Flow>, log: Log, log': Log, cap: nat, e: nat, s: Side)
    requires FlowsOk(flows, log, cap) && OnlyAt(log, log', e, s)
    ensures forall j :: 0 <= j < |flows| && flows[j].epoch != e ==> FlowOk(flows[j], log', cap)
  {
    forall j | 0 <= j < |flows| && flows[j].epoch != e ensures FlowOk(flows[j], log', cap) {
      assert FlowOk(flows[j], log, cap);
      assert SameView(log, log', flows[j].epoch, 0) && SameView(log, log', flows[j].epoch, 1);
    }
  }

  lemma PastKeeps(log: Log, log': Log, e: nat, s: Side, nextEpoch: nat)
    requires PastOk(log) && FutureOk(log, nextEpoch) && OnlyAt(log, log', e, s) && e < nextEpoch
    requires PastAt(log', e, s)
    ensures PastOk(log') && FutureOk(log', nextEpoch)
  {
    forall e': nat, s': Side ensures PastAt(log', e', s') {
      if e' != e || s' != s {
        assert SameView(log, log', e', s') && PastAt(log, e', s');
        PastMeans(log, e', s');
        PastMeans(log', e', s');
      }
    }
    forall e': nat, s': Side | nextEpoch <= e'
      ensures SilentAt(log', e', s')
    {
      assert SameView(log, log', e', s') && SilentAt(log, e', s');
    }
  }

  lemma SidePast(d: Direction, log: Log, e: nat, s: Side, cap: nat)
    requires SideOk(d, log, e, s, cap)
    ensures PastAt(log, e, s)
  {
    SideMeans(d, log, e, s, cap);
    PastMeans(log, e, s);
    assert AllEqual(OriginsOf(log.arrivals, e, s), if d.next.Some? then d.Origin() else 0);
  }

  /** Writing one direction of one flow, together with what it records, keeps the invariant. */
  lemma WriteOk(L: Limits, m: Tcp, log: Log, i: nat, s: Side, d: Direction, c: Counters, log': Log)
    requires MachineOk(L, m, log) && i < |m.flows|
    requires OnlyAt(log, log', m.flows[i].epoch, s)
    requires SideOk(d, log', m.flows[i].epoch, s, L.history)
    requires c.bytes - m.c.bytes == d.pendingBytes - m.flows[i].Dir(s).pendingBytes
    requires c.segments - m.c.segments == |d.pending| - |m.flows[i].Dir(s).pending|
    requires Balanced(c, log')
    ensures MachineOk(L, m.(flows := m.flows[i := m.flows[i].With(s, d)], c := c), log')
  {
    var f := m.flows[i];
    var g := f.With(s, d);
    SumsUpdate(m.flows, i, g);
    OtherFlowsKeep(m.flows, log, log', L.history, f.epoch, s);
    SidePast(d, log', f.epoch, s, L.history);
    PastKeeps(log, log', f.epoch, s, m.nextEpoch);
    assert FlowOk(f, log, L.history);
    WrittenFlow(f, s, d, log, log', L.history);
    WrittenFlows(m.flows, i, g, log', L.history, m.nextEpoch);
  }

  lemma WrittenFlow(f: Flow, s: Side, d: Direction, log: Log, log': Log, cap: nat)
    requires FlowOk(f, log, cap) && OnlyAt(log, log', f.epoch, s) && SideOk(d, log', f.epoch, s, cap)
    ensures FlowOk(f.With(s, d), log', cap)
  {
    var other: Side := 1 - s;
    assert SameView(log, log', f.epoch, other);
  }

  lemma WrittenFlows(flows: seq<Flow>, i: nat, g: Flow, log': Log, cap: nat, nextEpoch: nat)
    requires i < |flows| && TableOk(flows, nextEpoch) && g.key == flows[i].key && g.epoch == flows[i].epoch
    requires forall j :: 0 <= j < |flows| && flows[j].epoch != g.epoch ==> FlowOk(flows[j], log', cap)
    requires FlowOk(g, log', cap)
    ensures TableOk(flows[i := g], nextEpoch) && FlowsOk(flows[i := g], log', cap)
  {
    var r := flows[i := g];
    forall j | 0 <= j < |r| ensures FlowOk(r[j], log', cap) {
      if j != i {
        assert flows[j].epoch != g.epoch;
      }
    }
  }

  lemma RemovedFlows(flows: seq<Flow>, i: nat, log: Log, cap: nat, nextEpoch: nat)
    requires i < |flows| && TableOk(flows, nextEpoch) && FlowsOk(flows, log, cap)
    ensures TableOk(Remove(flows, i), nextEpoch) && FlowsOk(Remove(flows, i), log, cap)
    ensures forall j :: 0 <= j < |Remove(flows, i)| ==>
              Remove(flows, i)[j].key != flows[i].key && Remove(flows, i)[j].epoch != flows[i].epoch
  {
    var r := Remove(flows, i);
    assert forall j :: 0 <= j < i ==> r[j] == flows[j];
    assert forall j :: i <= j < |r| ==> r[j] == flows[j + 1];
  }

  lemma JoinedFlows(flows: seq<Flow>, f: Flow, log: Log, cap: nat, nextEpoch: nat)
    requires TableOk(flows, nextEpoch) && FlowsOk(flows, log, cap) && FlowOk(f, log, cap) && f.epoch < nextEpoch
    requires forall j :: 0 <= j < |flows| ==> flows[j].key != f.key && flows[j].epoch != f.epoch
    ensures TableOk(flows + [f], nextEpoch) && FlowsOk(flows + [f], log, cap)
  {
    var r := flows + [f];
    forall j | 0 <= j < |r| ensures FlowOk(r[j], log, cap) && r[j].epoch < nextEpoch {
      if j < |flows| {
        assert r[j] == flows[j];
      }
    }
    forall i, j | 0 <= i < j < |r| ensures r[i].key != r[j].key && r[i].epoch != r[j].epoch {
      assert r[i] == flows[i];
    }
  }

  /** A flow with nothing pending may leave the table. */
  lemma RemoveOk(L: Limits, m: Tcp, log: Log, i: nat)
    requires MachineOk(L, m, log) && i < |m.flows|
    requires m.flows[i].Bytes() == 0 && m.flows[i].Segments() == 0
    ensures MachineOk(L, m.(flows := Remove(m.flows, i)), log)
  {
    SumsSplit(m.flows, i);
    RemovedFlows(m.flows, i, log, L.history, m.nextEpoch);
  }

  lemma MoveOk(L: Limits, m: Tcp, log: Log, i: nat)
    requires MachineOk(L, m, log) && i < |m.flows|
    ensures MachineOk(L, m.(flows := Remove(m.flows, i) + [m.flows[i]]), log)
  {
    SumsSplit(m.flows, i);
    SumsAppend(Remove(m.flows, i), [m.flows[i]]);
    SumsOne(m.flows[i]);
    RemovedFlows(m.flows, i, log, L.history, m.nextEpoch);
    JoinedFlows(Remove(m.flows, i), m.flows[i], log, L.history, m.nextEpoch);
  }

  lemma NothingYet()
    ensures NothingArrived(SupplyOf([]))
  {
  }

  /** A fresh epoch joins the table as its most recent flow. */
  lemma AddOk(L: Limits, m: Tcp, log: Log, key: Key, ts: int, now: int)
    requires MachineOk(L, m, log) && forall j :: 0 <= j < |m.flows| ==> m.flows[j].key != key
    ensures MachineOk(L, m.(flows := m.flows + [FreshFlow(key, m.nextEpoch, ts, now)], nextEpoch := m.nextEpoch + 1),
                      log)
  {
    var f := FreshFlow(key, m.nextEpoch, ts, now);
    SumsAppend(m.flows, [f]);
    SumsOne(f);
    FreshFlowOk(log, key, m.nextEpoch, ts, now, L.history);
    JoinedFlows(m.flows, f, log, L.history, m.nextEpoch + 1);
  }

  lemma FreshFlowOk(log: Log, key: Key, epoch: nat, ts: int, now: int, cap: nat)
    requires FutureOk(log, epoch)
    ensures FlowOk(FreshFlow(key, epoch, ts, now), log, cap)
  {
    NothingYet();
    assert SilentAt(log, epoch, 0) && SilentAt(log, epoch, 1);
    SideMeans(FreshDirection(epoch), log, epoch, 0, cap);
    SideMeans(FreshDirection(epoch), log, epoch, 1, cap);
  }
}
