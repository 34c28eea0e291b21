/**
 * One direction of one TCP connection epoch: sequence unwrapping, the pending list, draining,
 * forced gap skipping and flushing, as functions on an immutable direction record.
 */
module TcpDirection {
  import opened Common
  import opened Ranges
  import opened Spans

  const SEQ_MODULUS := 0x1_0000_0000
  const SEQ_HALF := 0x8000_0000

  /** Maps a 32-bit sequence number onto the unbounded line, next to `reference`. */
  function Unwrap(sequence: int, reference: int): int {
    var candidate := reference - reference % SEQ_MODULUS + sequence % SEQ_MODULUS;
    if candidate - reference > SEQ_HALF then candidate - SEQ_MODULUS
    else if reference - candidate > SEQ_HALF then candidate + SEQ_MODULUS
    else candidate
  }

  datatype Key = Key(session: string, flow: string)

  /** Index of a direction inside its flow. */
  type Side = s: nat | s < 2

  datatype Completeness = Complete | Midstream | Gapped

  datatype Chunk = Chunk(
    key: Key, side: Side, epoch: nat, offset: int, data: Bytes, ids: seq<nat>,
    firstTs: int, lastTs: int, completeness: Completeness, spans: seq<Span>)
  {
    function End(): int { offset + |data| }
  }

  datatype Direction = Direction(
    epoch: nat, next: Option<int>, offset: int, midstream: bool, hadGap: bool, syn: Option<int>,
    pending: seq<Piece>, pendingBytes: int, historyStart: Option<int>, history: Bytes,
    peerAcked: Option<int>, lastSeen: int, closed: bool)
  {
    /** The absolute sequence position of stream offset zero. */
    function Origin(): int requires next.Some? { next.value - offset }
  }

  function FreshDirection(epoch: nat): Direction {
    Direction(epoch, None, 0, false, false, None, [], 0, None, [], None, 0, false)
  }

  // ---------------------------------------------------------------- consumed history

  /** Extends the window when the bytes continue it, restarts it otherwise, and keeps a bounded suffix. */
  function Window(historyStart: Option<int>, history: Bytes, start: int, data: Bytes, cap: nat): (int, Bytes) {
    if historyStart.Some? && historyStart.value + |history| == start
    then KeepLast(historyStart.value, history + data, cap)
    else KeepLast(start, data, cap)
  }

  function KeepLast(start: int, data: Bytes, cap: nat): (int, Bytes) {
    var excess := Max(0, |data| - cap);
    (start + excess, data[excess..])
  }

  function RememberConsumed(d: Direction, start: int, data: Bytes, cap: nat): Direction {
    if data == [] then d
    else
      var w := Window(d.historyStart, d.history, start, data, cap);
      d.(historyStart := Some(w.0), history := w.1)
  }

  predicate ConflictsWithConsumed(d: Direction, start: int, data: Bytes) {
    d.historyStart.Some? && d.history != [] && data != []
    && var lo := Max(start, d.historyStart.value);
       var hi := Min(start + |data|, d.historyStart.value + |d.history|);
       lo < hi && data[lo - start..hi - start]
                  != d.history[lo - d.historyStart.value..hi - d.historyStart.value]
  }

  // ---------------------------------------------------------------- draining

  /** The parts of the chunk under construction. */
  datatype Acc = Acc(data: Bytes, ids: seq<nat>, spans: seq<Span>, stamps: seq<int>)

  const EMPTY_ACC := Acc([], [], [], [])

  function Pop(d: Direction): Direction
    requires d.pending != []
  {
    d.(pending := d.pending[1..], pendingBytes := d.pendingBytes - |d.pending[0].data|)
  }

  function IdsOf(s: Source): seq<nat> { if s.Captured? then s.ids else [] }

  function StampOf(s: Source): int { if s.Captured? then s.ts else 0 }

  /** Consumes the first pending segment from `next` on. */
  function ConsumeDirection(d: Direction, cap: nat): Direction
    requires d.next.Some? && d.pending != []
    requires d.pending[0].start <= d.next.value < d.pending[0].End()
  {
    var unseen := d.pending[0].data[d.next.value - d.pending[0].start..];
    RememberConsumed(Pop(d), d.next.value, unseen, cap)
    .(next := Some(d.next.value + |unseen|), offset := d.offset + |unseen|)
  }

  function Extend(acc: Acc, at: int, data: Bytes, src: Source): Acc {
    Acc(acc.data + data,
        AppendNew(acc.ids, IdsOf(src)),
        Push(acc.spans, Span(at, at + |data|, IdsOf(src), true)),
        acc.stamps + [StampOf(src)])
  }

  function ConsumeAcc(d: Direction, acc: Acc): Acc
    requires d.next.Some? && d.pending != []
    requires d.pending[0].start <= d.next.value < d.pending[0].End()
  {
    Extend(acc, d.offset, d.pending[0].data[d.next.value - d.pending[0].start..], d.pending[0].src)
  }

  datatype Drained = Drained(d: Direction, acc: Acc, retransmitted: nat)

  /** One turn of the draining loop: drop a segment that is consumed already, or consume from it. */
  function DrainOnce(d: Direction, acc: Acc, retransmitted: nat, cap: nat): (r: Drained)
    requires d.next.Some? && d.pending != [] && d.pending[0].start <= d.next.value
    ensures r.d.next.Some? && |r.d.pending| == |d.pending| - 1
  {
    var segment := d.pending[0];
    if segment.End() <= d.next.value then Drained(Pop(d), acc, retransmitted + |segment.data|)
    else Drained(ConsumeDirection(d, cap), ConsumeAcc(d, acc), retransmitted + (d.next.value - segment.start))
  }

  /** The draining loop, up to the first hole. */
  function DrainLoop(d: Direction, acc: Acc, retransmitted: nat, cap: nat): (r: Drained)
    requires d.next.Some?
    ensures r.d.next.Some? && |r.d.pending| <= |d.pending|
    ensures d.pending != [] && d.pending[0].start <= d.next.value ==> |r.d.pending| < |d.pending|
    decreases |d.pending|
  {
    if d.pending == [] || d.pending[0].start > d.next.value then Drained(d, acc, retransmitted)
    else
      var step := DrainOnce(d, acc, retransmitted, cap);
      DrainLoop(step.d, step.acc, step.retransmitted, cap)
  }

  function MinOf(s: seq<int>): int
    requires s != []
  {
    if |s| == 1 then s[0] else Min(s[0], MinOf(s[1..]))
  }

  function MaxOf(s: seq<int>): int
    requires s != []
  {
    if |s| == 1 then s[0] else Max(s[0], MaxOf(s[1..]))
  }

  /** The chunk that a finished drain hands over, if it consumed anything. */
  function Emit(key: Key, side: Side, start: int, d: Direction, acc: Acc, forced: bool): seq<Chunk> {
    if acc.data == [] || acc.stamps == [] then []
    else
      [Chunk(key, side, d.epoch, start, acc.data, acc.ids, MinOf(acc.stamps), MaxOf(acc.stamps),
             if forced || d.hadGap then Gapped else if d.midstream then Midstream else Complete,
             acc.spans)]
  }

  /** The running totals that the direction operations maintain for the whole reassembler. */
  datatype Counters = Counters(bytes: int, segments: int, retransmitted: int, gaps: int)

  datatype Outcome = Outcome(c: Counters, d: Direction, chunks: seq<Chunk>)

  /** Settles the totals and hands the collected bytes over. */
  function Conclude(c: Counters, d: Direction, r: Drained, key: Key, side: Side, forced: bool): Outcome {
    Outcome(
      c.(bytes := c.bytes - (d.pendingBytes - r.d.pendingBytes),
         segments := c.segments - (|d.pending| - |r.d.pending|),
         retransmitted := c.retransmitted + r.retransmitted),
      r.d,
      Emit(key, side, d.offset, r.d, r.acc, forced))
  }

  function Drain(c: Counters, d: Direction, key: Key, side: Side, forced: bool, cap: nat): (r: Outcome)
    ensures d.next.Some? ==> r.d.next.Some?
    ensures |r.d.pending| <= |d.pending|
    ensures d.pending != [] && d.next.Some? && d.pending[0].start <= d.next.value ==> |r.d.pending| < |d.pending|
  {
    if d.next.None? || d.pending == [] then Outcome(c, d, [])
    else
      Conclude(c, d, DrainLoop(d, EMPTY_ACC, 0, cap), key, side, forced)
  }

  /** Moves over the hole in front of the first pending segment. */
  function Jump(d: Direction): Direction
    requires d.next.Some? && d.pending != []
  {
    d.(next := Some(d.pending[0].start), offset := d.offset + d.pending[0].start - d.next.value, hadGap := true)
  }

  /** Declares the bytes before the first pending segment lost and drains from there. */
  function Skip(c: Counters, d: Direction, key: Key, side: Side, cap: nat): (r: Outcome)
    ensures d.next.Some? ==> r.d.next.Some?
    ensures d.pending != [] && d.next.Some? ==> |r.d.pending| < |d.pending|
  {
    if d.next.None? || d.pending == [] then Outcome(c, d, [])
    else if d.pending[0].start > d.next.value then
      Drain(c.(gaps := c.gaps + d.pending[0].start - d.next.value), Jump(d), key, side, true, cap)
    else Drain(c, d, key, side, true, cap)
  }

  /** One round of a flush: drain, and skip a hole if draining did not help. */
  function FlushRound(c: Counters, d: Direction, key: Key, side: Side, cap: nat): (r: Outcome)
    ensures d.next.Some? ==> r.d.next.Some?
    ensures d.pending != [] && d.next.Some? ==> |r.d.pending| < |d.pending|
  {
    var a := Drain(c, d, key, side, false, cap);
    if a.d.pending == [] || |a.d.pending| != |d.pending| then a
    else
      var b := Skip(a.c, a.d, key, side, cap);
      Outcome(b.c, b.d, a.chunks + b.chunks)
  }

  /**
   * Hands over everything pending, declaring every hole a gap. An unopened direction has nothing
   * pending; stopping there keeps the function total.
   */
  function Flush(c: Counters, d: Direction, key: Key, side: Side, cap: nat): Outcome
    decreases |d.pending|
  {
    if d.pending == [] || d.next.None? then Outcome(c, d, [])
    else
      var a := FlushRound(c, d, key, side, cap);
      var rest := Flush(a.c, a.d, key, side, cap);
      Outcome(rest.c, rest.d, a.chunks + rest.chunks)
  }

  predicate OverPending(d: Direction, maxBytes: int, maxSegments: int) {
    d.pendingBytes > maxBytes || |d.pending| > maxSegments
  }

  /** Skips gaps until the direction is within its own caps. */
  function Relieve(c: Counters, d: Direction, key: Key, side: Side, cap: nat, maxBytes: int, maxSegments: int): Outcome
    decreases |d.pending|
  {
    if !OverPending(d, maxBytes, maxSegments) then Outcome(c, d, [])
    else
      var a := Skip(c, d, key, side, cap);
      if a.chunks == [] then Outcome(a.c, a.d, [])
      else
        var rest := Relieve(a.c, a.d, key, side, cap, maxBytes, maxSegments);
        Outcome(rest.c, rest.d, a.chunks + rest.chunks)
  }

  /** Accepts payload bytes that end after `next`: trim, subtract what is pending, insert, drain. */
  function TrimmedPiece(d: Direction, start: int, payload: Bytes, src: Source): Piece
    requires d.next.Some? && d.next.value < start + |payload|
  {
    if start < d.next.value then Piece(d.next.value, payload[d.next.value - start..], src)
    else Piece(start, payload, src)
  }

  function Accept(c: Counters, d: Direction, start: int, payload: Bytes, src: Source): (r: (Counters, Direction))
    requires d.next.Some? && d.next.value < start + |payload|
    ensures r.1.next == d.next
  {
    var piece := TrimmedPiece(d, start, payload, src);
    var additions := Uncovered(piece, d.pending);
    var added := Total(additions);
    (c.(retransmitted := c.retransmitted + (|payload| - |piece.data|) + (|piece.data| - added),
        bytes := c.bytes + added,
        segments := c.segments + |additions|),
     d.(pending := SortByStart(d.pending + additions), pendingBytes := d.pendingBytes + added))
  }
}
