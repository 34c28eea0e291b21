/**
 * The reassembler as the mutable object it is. Every method is proved to compute the state
 * machine's function, so the whole-run theorems hold of it.
 */
module TcpReassembler {
  import opened Common
  import opened Ranges
  import opened Spans
  import opened TcpDirection
  import opened TcpMachine

  class TCPReassembler {
    const L: Limits
    var flows: seq<Flow>
    var nextEpoch: nat
    var c: Counters
    var conflicts: nat
    var evicted: nat
    var budgetEvicted: nat
    var expired: nat

    constructor (limits: Limits, epochNamespace: nat)
      requires limits.Valid()
      ensures L == limits && State() == Initial(epochNamespace)
    {
      L := limits;
      flows, nextEpoch, c := [], epochNamespace * SEQ_MODULUS + 1, Counters(0, 0, 0, 0);
      conflicts, evicted, budgetEvicted, expired := 0, 0, 0, 0;
    }

    function State(): Tcp
      reads this
    {
      Tcp(flows, nextEpoch, c, conflicts, evicted, budgetEvicted, expired)
    }

    /** Drains, settles the shared totals and hands the joined bytes over. */
    method DrainDirection(start: Direction, key: Key, side: Side, forced: bool)
      returns (d: Direction, chunks: seq<Chunk>)
      modifies this`c
      ensures Outcome(c, d, chunks) == Drain(old(c), start, key, side, forced, L.history)
    {
      d, chunks := start, [];
      if d.next.None? || d.pending == [] {
        return;
      }
      var r := DrainPending(d, L.history);
      c := c.(bytes := c.bytes - (d.pendingBytes - r.d.pendingBytes),
              segments := c.segments - (|d.pending| - |r.d.pending|),
              retransmitted := c.retransmitted + r.retransmitted);
      d, chunks := r.d, Emit(key, side, d.offset, r.d, r.acc, forced);
    }

    method SkipToNextSegment(start: Direction, key: Key, side: Side)
      returns (d: Direction, chunks: seq<Chunk>)
      modifies this`c
      ensures Outcome(c, d, chunks) == Skip(old(c), start, key, side, L.history)
    {
      d, chunks := start, [];
      if d.next.None? || d.pending == [] {
        return;
      }
      if d.pending[0].start > d.next.value {
        c := c.(gaps := c.gaps + d.pending[0].start - d.next.value);
        d := Jump(d);
      }
      d, chunks := DrainDirection(d, key, side, true);
    }

    /** Drains and skips until nothing is pending. */
    method FlushDirection(start: Direction, key: Key, side: Side)
      returns (d: Direction, chunks: seq<Chunk>)
      modifies this`c
      ensures Outcome(c, d, chunks) == Flush(old(c), start, key, side, L.history)
    {
      d, chunks := start, [];
      ghost var goal := Flush(c, d, key, side, L.history);
      while d.pending != [] && d.next.Some?
        invariant goal == Joined(chunks, Flush(c, d, key, side, L.history))
        decreases |d.pending|
      {
        ghost var c0, d0, chunks0 := c, d, chunks;
        var before := |d.pending|;
        var more: seq<Chunk>;
        d, more := DrainDirection(d, key, side, false);
        chunks := chunks + more;
        if d.pending != [] && |d.pending| == before {
          ghost var more0 := more;
          d, more := SkipToNextSegment(d, key, side);
          chunks := chunks + more;
          AppendAssoc(chunks0, more0, more);
        }
        ghost var round := FlushRound(c0, d0, key, side, L.history);
        assert round.c == c && round.d == d && chunks == chunks0 + round.chunks;
        JoinedRound(chunks0, round.chunks, Flush(c, d, key, side, L.history));
      }
    }

    /** Skips gaps while the direction is over one of its own caps and skipping still helps. */
    method RelieveDirection(start: Direction, key: Key, side: Side)
      returns (d: Direction, chunks: seq<Chunk>)
      modifies this`c
      ensures Outcome(c, d, chunks) == Relieve(old(c), start, key, side, L.history, L.maxPending, L.maxSegments)
    {
      d, chunks := start, [];
      ghost var goal := Relieve(c, d, key, side, L.history, L.maxPending, L.maxSegments);
      while OverPending(d, L.maxPending, L.maxSegments)
        invariant goal == Joined(chunks, Relieve(c, d, key, side, L.history, L.maxPending, L.maxSegments))
        decreases |d.pending|
      {
        ghost var chunks0 := chunks;
        var forced: seq<Chunk>;
        d, forced := SkipToNextSegment(d, key, side);
        if forced == [] {
          AppendNil(chunks);
          return;
        }
        chunks := chunks + forced;
        JoinedRound(chunks0, forced, Relieve(c, d, key, side, L.history, L.maxPending, L.maxSegments));
      }
    }

    // -------------------------------------------------------------- the flow table

    /** Flushes one direction of a flow in place. */
    method FlushFlow(i: nat, side: Side, key: Key) returns (chunks: seq<Chunk>)
      requires i < |flows|
      modifies this`c, this`flows
      ensures Step(State(), chunks) == FlushAt(L, old(State()), i, side, key)
    {
      var d: Direction;
      d, chunks := FlushDirection(flows[i].Dir(side), key, side);
      flows := flows[i := flows[i].With(side, d)];
    }

    method DropFlow(i: nat)
      requires i < |flows|
      modifies this`c, this`flows
      ensures State() == RemoveFlow(old(State()), i)
    {
      c := c.(bytes := c.bytes - flows[i].Bytes(), segments := c.segments - flows[i].Segments());
      flows := Remove(flows, i);
    }

    method DismissFlow(i: nat) returns (chunks: seq<Chunk>)
      requires i < |flows|
      modifies this`c, this`flows
      ensures Step(State(), chunks) == Dismiss(L, old(State()), i)
    {
      var key := flows[i].key;
      var first := FlushFlow(i, 0, key);
      var second := FlushFlow(i, 1, key);
      DropFlow(i);
      chunks := first + second;
    }

    method EvictOldestFlow(budget: bool) returns (chunks: seq<Chunk>)
      requires flows != []
      modifies this`c, this`flows, this`evicted, this`budgetEvicted
      ensures Step(State(), chunks) == EvictOldest(L, old(State()), budget)
    {
      chunks := DismissFlow(0);
      evicted := evicted + 1;
      if budget {
        budgetEvicted := budgetEvicted + 1;
      }
    }

    method MakeRoom() returns (chunks: seq<Chunk>)
      requires 1 <= L.maxFlows
      modifies this`c, this`flows, this`evicted, this`budgetEvicted
      ensures Step(State(), chunks) == EvictToFit(L, old(State()))
    {
      chunks := [];
      while |flows| >= L.maxFlows
        invariant EvictToFit(L, old(State())) == After(chunks, EvictToFit(L, State()))
        decreases |flows|
      {
        var more := EvictOldestFlow(false);
        AfterRound(chunks, more, EvictToFit(L, State()));
        chunks := chunks + more;
      }
      AppendNil(chunks);
    }

    method EnforceBudget() returns (chunks: seq<Chunk>)
      modifies this`c, this`flows, this`evicted, this`budgetEvicted
      ensures Step(State(), chunks) == EvictToBudget(L, old(State()))
    {
      chunks := [];
      while OverBudget(L, c) && flows != []
        invariant EvictToBudget(L, old(State())) == After(chunks, EvictToBudget(L, State()))
        decreases |flows|
      {
        var more := EvictOldestFlow(true);
        AfterRound(chunks, more, EvictToBudget(L, State()));
        chunks := chunks + more;
      }
      AppendNil(chunks);
    }

    // -------------------------------------------------------------- packets

    method ResetIfReopened(p: Packet) returns (chunks: seq<Chunk>)
      modifies this`c, this`flows
      ensures Step(State(), chunks) == Reset(L, old(State()), p)
    {
      chunks := [];
      if Reopens(State(), p) {
        chunks := DismissFlow(Find(flows, p.key));
      }
    }

    method LocateFlow(p: Packet, now: int) returns (chunks: seq<Chunk>)
      requires 1 <= L.maxFlows
      modifies this
      ensures Step(State(), chunks) == Locate(L, old(State()), p, now)
    {
      chunks := [];
      var i := Find(flows, p.key);
      if i < |flows| {
        flows := Remove(flows, i) + [flows[i]];
      } else {
        chunks := MakeRoom();
        flows := flows + [FreshFlow(p.key, nextEpoch, p.ts, now)];
        nextEpoch := nextEpoch + 1;
      }
    }

    /** Trims what is consumed, subtracts what is pending, and inserts the rest in order. */
    method AcceptPayload(start: Direction, p: Packet, position: int) returns (d: Direction)
      requires start.next.Some? && start.next.value < position + |p.payload|
      modifies this`c
      ensures (c, d) == Accept(old(c), start, position, p.payload, SourceOf(p))
    {
      d := start;
      var payload, at := p.payload, position;
      if at < d.next.value {
        var trim := d.next.value - at;
        c := c.(retransmitted := c.retransmitted + trim);
        payload, at := payload[trim..], d.next.value;
      }
      assert Piece(at, payload, SourceOf(p)) == TrimmedPiece(start, position, p.payload, SourceOf(p));
      var additions := UncoveredRanges(at, payload, SourceOf(p), d.pending);
      var added := Total(additions);
      c := c.(retransmitted := c.retransmitted + |payload| - added,
              bytes := c.bytes + added, segments := c.segments + |additions|);
      d := d.(pending := SortByStart(d.pending + additions), pendingBytes := d.pendingBytes + added);
    }

    /** Buffers a payload that reaches beyond `next`. */
    method AdmitPayload(start: Direction, p: Packet, position: int) returns (d: Direction, chunks: seq<Chunk>)
      requires start.next.Some? && start.next.value < position + |p.payload|
      modifies this`c
      ensures Outcome(c, d, chunks) == Admit(L, old(c), start, p, position)
    {
      d := AcceptPayload(start, p, position);
      d, chunks := DrainDirection(d, p.key, p.side, false);
      var forced: seq<Chunk>;
      d, forced := RelieveDirection(d, p.key, p.side);
      chunks := chunks + forced;
    }

    method DeliverPayload(start: Direction, p: Packet)
      returns (d: Direction, chunks: seq<Chunk>, inserted: bool, probe: bool)
      modifies this`c, this`conflicts
      ensures var dl := Deliver(L, old(c), start, p);
              && Outcome(c, d, chunks) == dl.o && conflicts == old(conflicts) + ConflictsOf(start, p)
              && inserted == dl.inserted && probe == dl.probe
    {
      d, chunks, inserted, probe := start, [], false, false;
      if p.payload == [] || d.next.None? {
        return;
      }
      var position := Unwrap(p.PayloadSeq(), d.next.value);
      if Keepalive(d, p, position) {
        probe := true;
        return;
      }
      if position < d.next.value && ConflictsWithConsumed(d, position, p.payload) {
        conflicts := conflicts + 1;
      }
      if position + |p.payload| <= d.next.value {
        c := c.(retransmitted := c.retransmitted + |p.payload|);
      } else {
        d, chunks := TakeFresh(d, p, position);
        inserted := true;
      }
    }

    /** Bytes that end behind `next`: count contradictions with what is pending, then admit. */
    method TakeFresh(start: Direction, p: Packet, position: int) returns (d: Direction, chunks: seq<Chunk>)
      requires start.next.Some? && start.next.value < position + |p.payload|
      modifies this`c, this`conflicts
      ensures Outcome(c, d, chunks) == DeliverFresh(L, old(c), start, p, position).o
      ensures conflicts
              == old(conflicts) + PendingConflicts(start.pending, TrimmedPiece(start, position, p.payload, SourceOf(p)))
    {
      conflicts := conflicts + PendingConflicts(start.pending, TrimmedPiece(start, position, p.payload, SourceOf(p)));
      d, chunks := AdmitPayload(start, p, position);
    }

    method LandPacket(p: Packet, now: int) returns (chunks: seq<Chunk>, inserted: bool, probe: bool)
      requires flows != []
      modifies this`c, this`conflicts, this`flows
      ensures var r := Land(L, old(State()), p, now);
              State() == r.m && chunks == r.chunks && inserted == r.inserted && probe == r.probe
    {
      var f := Touch(flows[|flows| - 1], p, now);
      var d: Direction;
      d, chunks, inserted, probe := DeliverPayload(f.Dir(p.side), p);
      flows := flows[|flows| - 1 := f.With(p.side, d)];
    }

    method FinishDirection(p: Packet) returns (chunks: seq<Chunk>)
      requires flows != []
      modifies this`c, this`flows
      ensures Step(State(), chunks) == Finish(L, old(State()), p)
    {
      chunks := [];
      if p.fin || p.rst {
        var last := |flows| - 1;
        chunks := FlushFlow(last, p.side, p.key);
        flows := flows[last := flows[last].With(p.side, flows[last].Dir(p.side).(closed := true))];
      }
    }

    method CloseIfFinished(p: Packet) returns (chunks: seq<Chunk>)
      requires flows != []
      modifies this`c, this`flows
      ensures Step(State(), chunks) == Close(L, old(State()), p)
    {
      chunks := FinishDirection(p);
      chunks := DepartIfClosed(chunks, p);
    }

    /** After RST, or with both directions closed, the other direction is flushed and the flow leaves. */
    method DepartIfClosed(before: seq<Chunk>, p: Packet) returns (chunks: seq<Chunk>)
      requires flows != []
      modifies this`c, this`flows
      ensures Step(State(), chunks) == Depart(L, Step(old(State()), before), p)
    {
      chunks := before;
      var last := |flows| - 1;
      if p.rst || (flows[last].d0.closed && flows[last].d1.closed) {
        var more := FlushFlow(last, 1 - p.side, p.key);
        DropFlow(last);
        chunks := chunks + more;
      }
    }

    method AdvancePacket(p: Packet, now: int) returns (chunks: seq<Chunk>)
      requires flows != []
      modifies this
      ensures var r := Advance(L, old(State()), p, now); State() == r.m && chunks == r.chunks
    {
      var inserted, probe;
      chunks, inserted, probe := LandPacket(p, now);
      var more: seq<Chunk> := [];
      if inserted {
        more := EnforceBudget();
      }
      chunks := chunks + more;
      if probe || flows == [] {
        return;
      }
      more := CloseIfFinished(p);
      chunks := chunks + more;
    }

    /** Accepts one packet and returns the newly contiguous bytes. */
    method ProcessPacket(p: Packet, now: int) returns (chunks: seq<Chunk>)
      requires 1 <= L.maxFlows
      modifies this
      ensures var r := Process(L, old(State()), p, now); State() == r.m && chunks == r.chunks
    {
      if !p.isTcp {
        return [];
      }
      var first := ResetIfReopened(p);
      var second := LocateFlow(p, now);
      LocateNonEmpty(L, Reset(L, old(State()), p).m, p, now);
      var third := AdvancePacket(p, now);
      chunks := first + second + third;
    }

    // -------------------------------------------------------------- expiry

    method LapseFlow(i: nat) returns (chunks: seq<Chunk>)
      requires i < |flows|
      modifies this`c, this`flows, this`expired
      ensures Step(State(), chunks) == Lapse(L, old(State()), i)
    {
      chunks := DismissFlow(i);
      expired := expired + 1;
    }

    /** Flushes and drops idle flows, stopping at the first fresh one. */
    method Expire(now: int) returns (chunks: seq<Chunk>)
      modifies this`c, this`flows, this`expired
      ensures Step(State(), chunks) == ExpirePrefix(L, old(State()), now)
    {
      chunks := [];
      while flows != [] && now - flows[0].activity >= L.idle
        invariant ExpirePrefix(L, old(State()), now) == After(chunks, ExpirePrefix(L, State(), now))
        decreases |flows|
      {
        var more := LapseFlow(0);
        AfterRound(chunks, more, ExpirePrefix(L, State(), now));
        chunks := chunks + more;
      }
      AppendNil(chunks);
    }

    /** Expiry by capture time checks every flow. */
    method ExpireByCapture(clock: int) returns (chunks: seq<Chunk>)
      modifies this`c, this`flows, this`expired
      ensures Step(State(), chunks) == ExpireAll(L, old(State()), 0, clock)
    {
      chunks := [];
      var i := 0;
      while i < |flows|
        invariant 0 <= i <= |flows|
        invariant ExpireAll(L, old(State()), 0, clock) == After(chunks, ExpireAll(L, State(), i, clock))
        decreases |flows| - i
      {
        if clock - flows[i].lastSeen < L.idle {
          i := i + 1;
        } else {
          var more := LapseFlow(i);
          AfterRound(chunks, more, ExpireAll(L, State(), i, clock));
          chunks := chunks + more;
        }
      }
      AppendNil(chunks);
    }

    method FlushAllFlows() returns (chunks: seq<Chunk>)
      modifies this`c, this`flows
      ensures Step(State(), chunks) == FlushAll(L, old(State()))
    {
      chunks := [];
      while flows != []
        invariant FlushAll(L, old(State())) == After(chunks, FlushAll(L, State()))
        decreases |flows|
      {
        var more := DismissFlow(0);
        AfterRound(chunks, more, FlushAll(L, State()));
        chunks := chunks + more;
      }
      AppendNil(chunks);
    }
  }

  ghost function After(before: seq<Chunk>, r: Step): Step { r.(chunks := before + r.chunks) }

  lemma AfterRound(before: seq<Chunk>, more: seq<Chunk>, rest: Step)
    ensures After(before, Step(rest.m, more + rest.chunks)) == After(before + more, rest)
  {
    AppendAssoc(before, more, rest.chunks);
  }

  lemma LocateNonEmpty(L: Limits, m: Tcp, p: Packet, now: int)
    requires 1 <= L.maxFlows
    ensures Locate(L, m, p, now).m.flows != []
  {
  }

  ghost function Joined(before: seq<Chunk>, o: Outcome): Outcome { o.(chunks := before + o.chunks) }

  lemma JoinedRound(before: seq<Chunk>, more: seq<Chunk>, rest: Outcome)
    ensures Joined(before, Outcome(rest.c, rest.d, more + rest.chunks)) == Joined(before + more, rest)
  {
    AppendAssoc(before, more, rest.chunks);
  }

  /** Pops pending segments while they are consumed or contiguous, and joins the new bytes. */
  method DrainPending(start: Direction, cap: nat) returns (r: Drained)
    requires start.next.Some?
    ensures r == DrainLoop(start, EMPTY_ACC, 0, cap)
  {
    r := Drained(start, EMPTY_ACC, 0);
    while r.d.pending != [] && r.d.pending[0].start <= r.d.next.value
      invariant r.d.next.Some?
      invariant DrainLoop(r.d, r.acc, r.retransmitted, cap) == DrainLoop(start, EMPTY_ACC, 0, cap)
      decreases |r.d.pending|
    {
      r := DrainOnce(r.d, r.acc, r.retransmitted, cap);
    }
  }
}
