/**
 * Faithfulness to the sender over whole runs: sequence numbers are unwrapped correctly, every chunk
 * equals the sender's stream at its offset, and without a skipped gap nothing is missing.
 */
module TcpSender {
  import opened Common
  import opened Ranges
  import opened TcpDirection
  import opened TcpEpoch
  import opened TcpStream
  import opened TcpMachine
  import opened TcpLedger
  import opened TcpRuns
  import opened TcpTheorems

  // ---------------------------------------------------------------- faithfulness to the sender

  /** Unwrapping keeps the 32-bit residue and stays within half the number space of the reference. */
  lemma UnwrapNearest(sequence: int, reference: int)
    ensures Unwrap(sequence, reference) % SEQ_MODULUS == sequence % SEQ_MODULUS
    ensures -SEQ_HALF <= Unwrap(sequence, reference) - reference <= SEQ_HALF
  {
  }

  /**
   * Unwrapping recovers the true position exactly when it lies within half the number space; at the
   * exact tie the side is decided by the low half of the reference.
   */
  lemma UnwrapExact(position: int, reference: int)
    ensures Unwrap(position % SEQ_MODULUS, reference) == position
            <==> || -SEQ_HALF < position - reference < SEQ_HALF
                 || (position - reference == SEQ_HALF && reference % SEQ_MODULUS < SEQ_HALF)
                 || (reference - position == SEQ_HALF && reference % SEQ_MODULUS >= SEQ_HALF)
  {
  }

  /** The sender's byte at each stream offset; a midstream pickup may see negative offsets. */
  type SenderStream = int -> Byte

  ghost predicate SliceOf(stream: SenderStream, piece: Piece) {
    forall off :: piece.Covers(off) ==> piece.At(off) == stream(off)
  }

  ghost predicate AllSlices(stream: SenderStream, arrivals: seq<Piece>) {
    forall i :: 0 <= i < |arrivals| ==> SliceOf(stream, arrivals[i])
  }

  lemma {:induction false} FirstCellFaithful(arrivals: seq<Piece>, stream: SenderStream, off: int)
    requires AllSlices(stream, arrivals)
    ensures FirstCell(arrivals, off).Some? ==> FirstCell(arrivals, off).value.b == stream(off)
  {
    if arrivals != [] && !arrivals[0].Covers(off) {
      FirstCellFaithful(arrivals[1..], stream, off);
    }
  }

  // ---------------------------------------------------------------- from calls to recorded arrivals

  /** The flow as the packet's payload meets it: after any reset, eviction and the packet's own opening. */
  function Receiver(L: Limits, m: Tcp, p: Packet, now: int): Flow
    requires 1 <= L.maxFlows
  {
    var b := Locate(L, Reset(L, m, p).m, p, now).m;
    Touch(b.flows[|b.flows| - 1], p, now)
  }

  /** The direction that takes the packet's payload. */
  function Taker(L: Limits, m: Tcp, p: Packet, now: int): Direction
    requires 1 <= L.maxFlows
  {
    Receiver(L, m, p, now).Dir(p.side)
  }

  /** The packet brings payload to an open direction and is not an idle probe. */
  predicate Counts(d: Direction, p: Packet) {
    p.isTcp && p.payload != [] && d.next.Some? && !Keepalive(d, p, Unwrap(p.PayloadSeq(), d.next.value))
  }

  /** The call brings payload to side `s` of epoch `e`. */
  predicate LandsIn(L: Limits, w: World, call: Call, e: nat, s: Side)
    requires 1 <= L.maxFlows
  {
    call.Feed? && call.packet.side == s
    && Counts(Taker(L, w.m, call.packet, call.now), call.packet)
    && Receiver(L, w.m, call.packet, call.now).epoch == e
  }

  /** The payload is the sender's bytes from stream offset `k` on, and within half the number space of `next`. */
  ghost predicate SentFrom(d: Direction, p: Packet, stream: SenderStream, k: int)
    requires d.next.Some?
  {
    && p.PayloadSeq() == (d.Origin() + k) % SEQ_MODULUS
    && -SEQ_HALF < d.Origin() + k - d.next.value < SEQ_HALF
    && forall j :: 0 <= j < |p.payload| ==> p.payload[j] == stream(k + j)
  }

  /** Call `c`, if it lands in this direction, carries the sender's bytes from offset `pos[c]` on. */
  ghost predicate Truthful(L: Limits, calls: seq<Call>, worlds: seq<World>, e: nat, s: Side, stream: SenderStream,
                           pos: seq<int>, c: nat)
    requires 1 <= L.maxFlows && c < |calls| == |pos| && |calls| < |worlds|
  {
    LandsIn(L, worlds[c], calls[c], e, s)
    ==> SentFrom(Taker(L, worlds[c].m, calls[c].packet, calls[c].now), calls[c].packet, stream, pos[c])
  }

  /** The first `n` calls bring slices of one sender stream to this direction, at true offsets `pos`. */
  ghost predicate Sends(L: Limits, calls: seq<Call>, worlds: seq<World>, n: nat, e: nat, s: Side,
                        stream: SenderStream, pos: seq<int>)
    requires 1 <= L.maxFlows && n <= |calls| == |pos| && |calls| < |worlds|
  {
    forall c {:trigger Truthful(L, calls, worlds, e, s, stream, pos, c)} ::
      0 <= c < n ==> Truthful(L, calls, worlds, e, s, stream, pos, c)
  }

  /** The payloads that landed here, in order, each at the offset its unwrapped sequence number gives. */
  function Landed(L: Limits, calls: seq<Call>, worlds: seq<World>, n: nat, e: nat, s: Side): seq<Piece>
    requires 1 <= L.maxFlows && n <= |calls| < |worlds|
  {
    if n == 0 then []
    else Landed(L, calls, worlds, n - 1, e, s) + LandedBy(L, worlds[n - 1], calls[n - 1], e, s)
  }

  function LandedBy(L: Limits, w: World, call: Call, e: nat, s: Side): seq<Piece>
    requires 1 <= L.maxFlows
  {
    LandedSealed(L, w, call, e, s, |w.m.flows| + 3)
  }

  /** The definition of `LandedBy`, behind a recursion that the solver does not unfold where it is only passed on. */
  function LandedSealed(L: Limits, w: World, call: Call, e: nat, s: Side, depth: nat): seq<Piece>
    requires 1 <= L.maxFlows
  {
    if depth > 0 then LandedSealed(L, w, call, e, s, depth - 1)
    else if LandsIn(L, w, call, e, s) then [PieceAt(Taker(L, w.m, call.packet, call.now), call.packet)]
    else []
  }

  lemma {:induction false} LandedMeans(L: Limits, w: World, call: Call, e: nat, s: Side, depth: nat)
    requires 1 <= L.maxFlows
    ensures LandedSealed(L, w, call, e, s, depth)
            == if LandsIn(L, w, call, e, s) then [PieceAt(Taker(L, w.m, call.packet, call.now), call.packet)] else []
  {
    if depth > 0 {
      LandedMeans(L, w, call, e, s, depth - 1);
    }
  }

  function PieceAt(d: Direction, p: Packet): Piece
    requires d.next.Some?
  {
    Piece(Unwrap(p.PayloadSeq(), d.next.value) - d.Origin(), p.payload, SourceOf(p))
  }

  /** The landed payloads at their true offsets. */
  function Placed(L: Limits, calls: seq<Call>, worlds: seq<World>, n: nat, e: nat, s: Side, pos: seq<int>): seq<Piece>
    requires 1 <= L.maxFlows && n <= |calls| == |pos| && |calls| < |worlds|
  {
    if n == 0 then []
    else Placed(L, calls, worlds, n - 1, e, s, pos) + PlacedBy(L, worlds[n - 1], calls[n - 1], e, s, pos[n - 1])
  }

  function PlacedBy(L: Limits, w: World, call: Call, e: nat, s: Side, k: int): seq<Piece>
    requires 1 <= L.maxFlows
  {
    if LandsIn(L, w, call, e, s) then [Piece(k, call.packet.payload, SourceOf(call.packet))] else []
  }

  lemma OneArrival(log: seq<Arrival>, a: Arrival, e: nat, s: Side)
    ensures ArrivalsOf(log + [a], e, s) == ArrivalsOf(log, e, s) + if a.epoch == e && a.side == s then [a.piece] else []
  {
    AppendSnoc(log, a);
  }

  /** What one delivery adds to the record of side `s` of epoch `e`. */
  lemma DeliveryRecords(L: Limits, c: Counters, d: Direction, p: Packet, here: nat, log: seq<Arrival>, e: nat, s: Side)
    requires p.isTcp
    ensures ArrivalsOf(log + ArrivalsIn(Deliver(L, c, d, p), here, p.side, d), e, s)
            == ArrivalsOf(log, e, s) + if Counts(d, p) && p.side == s && here == e then [PieceAt(d, p)] else []
  {
    if Counts(d, p) {
      OneArrival(log, Arrival(here, p.side, d.Origin(), PieceAt(d, p)), e, s);
    } else {
      AppendNil(log);
      AppendNil(ArrivalsOf(log, e, s));
    }
  }

  /** What one packet adds to the log is what its landing recorded. */
  lemma ProcessRecords(L: Limits, m: Tcp, p: Packet, now: int)
    requires 1 <= L.maxFlows && p.isTcp
    ensures var c := Locate(L, Reset(L, m, p).m, p, now).m.c;
            var d := Taker(L, m, p, now);
            Process(L, m, p, now).arrivals
            == ArrivalsIn(Deliver(L, c, d, p), Receiver(L, m, p, now).epoch, p.side, d)
  {
    var b := Locate(L, Reset(L, m, p).m, p, now).m;
    assert Process(L, m, p, now).arrivals == Land(L, b, p, now).arrivals;
  }

  /** One call adds its payload if it lands here, and nothing otherwise. */
  lemma CallRecords(L: Limits, w: World, call: Call, e: nat, s: Side)
    requires 1 <= L.maxFlows
    ensures ArrivalsOf(Apply(L, w, call).log.arrivals, e, s)
            == ArrivalsOf(w.log.arrivals, e, s) + LandedBy(L, w, call, e, s)
  {
    LandedMeans(L, w, call, e, s, |w.m.flows| + 3);
    if call.Feed? && call.packet.isTcp {
      var p := call.packet;
      ProcessRecords(L, w.m, p, call.now);
      DeliveryRecords(L, Locate(L, Reset(L, w.m, p).m, p, call.now).m.c, Taker(L, w.m, p, call.now), p,
                      Receiver(L, w.m, p, call.now).epoch, w.log.arrivals, e, s);
    } else {
      AppendNil(w.log.arrivals);
      AppendNil(ArrivalsOf(w.log.arrivals, e, s));
    }
  }

  /** The record of a direction is exactly the payloads that landed there, once each and in order. */
  lemma {:induction false} RecordIsLanded(L: Limits, epochNamespace: nat, calls: seq<Call>, worlds: seq<World>, n: nat,
                                          e: nat, s: Side)
    requires 1 <= L.maxFlows && IsRun(L, epochNamespace, calls, worlds) && n <= |calls|
    ensures ArrivalsOf(worlds[n].log.arrivals, e, s) == Landed(L, calls, worlds, n, e, s)
  {
    if n > 0 {
      RecordIsLanded(L, epochNamespace, calls, worlds, n - 1, e, s);
      RecordGrows(L, epochNamespace, calls, worlds, n - 1, e, s);
    }
  }

  lemma RecordGrows(L: Limits, epochNamespace: nat, calls: seq<Call>, worlds: seq<World>, n: nat, e: nat, s: Side)
    requires 1 <= L.maxFlows && IsRun(L, epochNamespace, calls, worlds) && n < |calls|
    ensures ArrivalsOf(worlds[n + 1].log.arrivals, e, s)
            == ArrivalsOf(worlds[n].log.arrivals, e, s) + LandedBy(L, worlds[n], calls[n], e, s)
  {
    assert Stepped(L, calls, worlds, n);
    CallRecords(L, worlds[n], calls[n], e, s);
  }

  /** A payload sent from offset `k`, within half the number space of `next`, is placed at offset `k`. */
  lemma PlacedTruly(d: Direction, p: Packet, stream: SenderStream, k: int)
    requires d.next.Some? && SentFrom(d, p, stream, k)
    ensures PieceAt(d, p) == Piece(k, p.payload, SourceOf(p))
  {
    UnwrapExact(d.Origin() + k, d.next.value);
  }

  /** Unwrapping puts every payload at its true offset, across any number of 32-bit wraps. */
  lemma {:induction false} LandedIsPlaced(L: Limits, calls: seq<Call>, worlds: seq<World>, n: nat, e: nat, s: Side,
                                          stream: SenderStream, pos: seq<int>)
    requires 1 <= L.maxFlows && n <= |calls| == |pos| && |calls| < |worlds|
    requires Sends(L, calls, worlds, n, e, s, stream, pos)
    ensures Landed(L, calls, worlds, n, e, s) == Placed(L, calls, worlds, n, e, s, pos)
  {
    if n > 0 {
      LandedIsPlaced(L, calls, worlds, n - 1, e, s, stream, pos);
      assert Truthful(L, calls, worlds, e, s, stream, pos, n - 1);
      LandedMeans(L, worlds[n - 1], calls[n - 1], e, s, |worlds[n - 1].m.flows| + 3);
      if LandsIn(L, worlds[n - 1], calls[n - 1], e, s) {
        PlacedTruly(Taker(L, worlds[n - 1].m, calls[n - 1].packet, calls[n - 1].now), calls[n - 1].packet, stream,
                    pos[n - 1]);
      }
    }
  }

  lemma RecordIsPlaced(L: Limits, epochNamespace: nat, calls: seq<Call>, worlds: seq<World>, n: nat,
                       e: nat, s: Side, stream: SenderStream, pos: seq<int>)
    requires 1 <= L.maxFlows && IsRun(L, epochNamespace, calls, worlds) && n <= |calls| == |pos|
    requires Sends(L, calls, worlds, n, e, s, stream, pos)
    ensures ArrivalsOf(worlds[n].log.arrivals, e, s) == Placed(L, calls, worlds, n, e, s, pos)
  {
    RecordIsLanded(L, epochNamespace, calls, worlds, n, e, s);
    LandedIsPlaced(L, calls, worlds, n, e, s, stream, pos);
  }

  lemma {:induction false} PlacedAreSlices(L: Limits, calls: seq<Call>, worlds: seq<World>, n: nat, e: nat, s: Side,
                                           stream: SenderStream, pos: seq<int>)
    requires 1 <= L.maxFlows && n <= |calls| == |pos| && |calls| < |worlds|
    requires Sends(L, calls, worlds, n, e, s, stream, pos)
    ensures AllSlices(stream, Placed(L, calls, worlds, n, e, s, pos))
  {
    if n > 0 {
      PlacedAreSlices(L, calls, worlds, n - 1, e, s, stream, pos);
      assert Truthful(L, calls, worlds, e, s, stream, pos, n - 1);
      if LandsIn(L, worlds[n - 1], calls[n - 1], e, s) {
        SentIsSlice(Taker(L, worlds[n - 1].m, calls[n - 1].packet, calls[n - 1].now), calls[n - 1].packet, stream,
                    pos[n - 1]);
      }
    }
  }

  lemma RecordsAreSlices(L: Limits, epochNamespace: nat, calls: seq<Call>, worlds: seq<World>, n: nat,
                         e: nat, s: Side, stream: SenderStream, pos: seq<int>)
    requires 1 <= L.maxFlows && IsRun(L, epochNamespace, calls, worlds) && n <= |calls| == |pos|
    requires Sends(L, calls, worlds, n, e, s, stream, pos)
    ensures AllSlices(stream, ArrivalsOf(worlds[n].log.arrivals, e, s))
  {
    RecordIsPlaced(L, epochNamespace, calls, worlds, n, e, s, stream, pos);
    PlacedAreSlices(L, calls, worlds, n, e, s, stream, pos);
  }

  lemma SentIsSlice(d: Direction, p: Packet, stream: SenderStream, k: int)
    requires d.next.Some? && SentFrom(d, p, stream, k)
    ensures SliceOf(stream, Piece(k, p.payload, SourceOf(p)))
  {
    var piece := Piece(k, p.payload, SourceOf(p));
    forall off | piece.Covers(off) ensures piece.At(off) == stream(off) {
      assert p.payload[off - k] == stream(k + (off - k));
    }
  }

  /** Call `c` landed in this direction with the byte of stream offset `k`. */
  predicate Carries(L: Limits, calls: seq<Call>, worlds: seq<World>, e: nat, s: Side, pos: seq<int>, c: nat, k: int)
    requires 1 <= L.maxFlows && c < |calls| == |pos| && |calls| < |worlds|
  {
    LandsIn(L, worlds[c], calls[c], e, s) && pos[c] <= k < pos[c] + |calls[c].packet.payload|
  }

  /** Some call among the first `n` landed in this direction with the byte of stream offset `k`. */
  ghost predicate Carried(L: Limits, calls: seq<Call>, worlds: seq<World>, n: nat, e: nat, s: Side, pos: seq<int>,
                          k: int)
    requires 1 <= L.maxFlows && n <= |calls| == |pos| && |calls| < |worlds|
  {
    exists c {:trigger Carries(L, calls, worlds, e, s, pos, c, k)} ::
      0 <= c < n && Carries(L, calls, worlds, e, s, pos, c, k)
  }

  lemma {:induction false} PlacedCovers(L: Limits, calls: seq<Call>, worlds: seq<World>, n: nat, e: nat, s: Side,
                                        pos: seq<int>, k: int)
    requires 1 <= L.maxFlows && n <= |calls| == |pos| && |calls| < |worlds|
    ensures Covered(Placed(L, calls, worlds, n, e, s, pos), k) <==> Carried(L, calls, worlds, n, e, s, pos, k)
  {
    if n > 0 {
      PlacedCovers(L, calls, worlds, n - 1, e, s, pos, k);
      PlacedCoversStep(L, calls, worlds, n, e, s, pos, k);
      CarriedStep(L, calls, worlds, n, e, s, pos, k);
    }
  }

  lemma PlacedCoversStep(L: Limits, calls: seq<Call>, worlds: seq<World>, n: nat, e: nat, s: Side, pos: seq<int>,
                         k: int)
    requires 1 <= L.maxFlows && 0 < n <= |calls| == |pos| && |calls| < |worlds|
    ensures Covered(Placed(L, calls, worlds, n, e, s, pos), k)
            <==> || Covered(Placed(L, calls, worlds, n - 1, e, s, pos), k)
                 || Carries(L, calls, worlds, e, s, pos, n - 1, k)
  {
    CoveredJoin(Placed(L, calls, worlds, n - 1, e, s, pos),
                PlacedBy(L, worlds[n - 1], calls[n - 1], e, s, pos[n - 1]), k);
    PlacedByCovers(L, calls, worlds, n - 1, e, s, pos, k);
  }

  lemma CarriedStep(L: Limits, calls: seq<Call>, worlds: seq<World>, n: nat, e: nat, s: Side, pos: seq<int>, k: int)
    requires 1 <= L.maxFlows && 0 < n <= |calls| == |pos| && |calls| < |worlds|
    ensures Carried(L, calls, worlds, n, e, s, pos, k)
            <==> Carried(L, calls, worlds, n - 1, e, s, pos, k) || Carries(L, calls, worlds, e, s, pos, n - 1, k)
  {
  }

  lemma PlacedByCovers(L: Limits, calls: seq<Call>, worlds: seq<World>, c: nat, e: nat, s: Side, pos: seq<int>, k: int)
    requires 1 <= L.maxFlows && c < |calls| == |pos| && |calls| < |worlds|
    ensures Covered(PlacedBy(L, worlds[c], calls[c], e, s, pos[c]), k) <==> Carries(L, calls, worlds, e, s, pos, c, k)
  {
    if LandsIn(L, worlds[c], calls[c], e, s) {
      var piece := Piece(pos[c], calls[c].packet.payload, SourceOf(calls[c].packet));
      assert PlacedBy(L, worlds[c], calls[c], e, s, pos[c]) == [piece] && piece in [piece];
    }
  }

  lemma CoveredJoin(a: seq<Piece>, b: seq<Piece>, k: int)
    ensures Covered(a + b, k) <==> Covered(a, k) || Covered(b, k)
  {
  }

  // ---------------------------------------------------------------- what the sender can rely on

  /**
   * Faithfulness: if every payload that reaches a direction of an epoch is a slice of one sender
   * stream, then in any order, with any overlap or duplication, across 32-bit wraps and forced
   * gaps, every chunk equals the stream at its offset. The packets are described by what the sender
   * put on the wire; that they are placed correctly is part of the conclusion.
   */
  lemma Faithful(L: Limits, epochNamespace: nat, calls: seq<Call>, worlds: seq<World>, n: nat, e: nat, s: Side,
                 stream: SenderStream, pos: seq<int>, i: nat, k: nat)
    requires 1 <= L.maxFlows && IsRun(L, epochNamespace, calls, worlds) && n <= |calls| == |pos|
    requires Sends(L, calls, worlds, n, e, s, stream, pos)
    requires var chunks := ChunksOf(worlds[n].log.out, e, s); i < |chunks| && k < |chunks[i].data|
    ensures ChunksOf(worlds[n].log.out, e, s)[i].data[k] == stream(ChunksOf(worlds[n].log.out, e, s)[i].offset + k)
    ensures OneOrigin(OriginsOf(worlds[n].log.arrivals, e, s))
  {
    PastOfRun(L, epochNamespace, calls, worlds, n, e, s);
    RecordsAreSlices(L, epochNamespace, calls, worlds, n, e, s, stream, pos);
    FaithfulIn(worlds[n].log, e, s, stream, i, k);
  }

  lemma FaithfulIn(log: Log, e: nat, s: Side, stream: SenderStream, i: nat, k: nat)
    requires PastAt(log, e, s)
    requires AllSlices(stream, ArrivalsOf(log.arrivals, e, s))
    requires i < |ChunksOf(log.out, e, s)| && k < |ChunksOf(log.out, e, s)[i].data|
    ensures ChunksOf(log.out, e, s)[i].data[k] == stream(ChunksOf(log.out, e, s)[i].offset + k)
    ensures OneOrigin(OriginsOf(log.arrivals, e, s))
  {
    PastMeans(log, e, s);
    FirstSeenIn(log, e, s, i, k);
    FirstCellFaithful(ArrivalsOf(log.arrivals, e, s), stream, ChunksOf(log.out, e, s)[i].offset + k);
  }

  /** The handed-over bytes in order. */
  function Text(chunks: seq<Chunk>): Bytes {
    if chunks == [] then [] else Text(chunks[..|chunks| - 1]) + chunks[|chunks| - 1].data
  }

  lemma {:induction false} ContiguousText(chunks: seq<Chunk>, n: int, f: Supply)
    requires Contiguous(chunks, n) && forall i :: 0 <= i < |chunks| ==> BytesFrom(chunks[i].data, f, chunks[i].offset)
    ensures |Text(chunks)| == n && BytesFrom(Text(chunks), f, 0)
    decreases |chunks|
  {
    if chunks != [] {
      var init, last := chunks[..|chunks| - 1], chunks[|chunks| - 1];
      ContiguousText(init, last.offset, f);
      BytesJoin(Text(init), last.data, f, 0);
    }
  }

  /**
   * A chunk that is not marked gapped proves that nothing before its end is missing: the chunks up
   * to it concatenate to exactly the sender's bytes from offset zero to its end.
   */
  lemma UngappedIsPrefix(L: Limits, epochNamespace: nat, calls: seq<Call>, worlds: seq<World>, n: nat, e: nat, s: Side,
                         stream: SenderStream, pos: seq<int>, i: nat)
    requires 1 <= L.maxFlows && IsRun(L, epochNamespace, calls, worlds) && n <= |calls| == |pos|
    requires Sends(L, calls, worlds, n, e, s, stream, pos)
    requires i < |ChunksOf(worlds[n].log.out, e, s)|
    requires !ChunksOf(worlds[n].log.out, e, s)[i].completeness.Gapped?
    ensures var chunks := ChunksOf(worlds[n].log.out, e, s);
            0 <= chunks[i].End() && Text(chunks[..i + 1]) == Prefix(stream, chunks[i].End())
  {
    PastOfRun(L, epochNamespace, calls, worlds, n, e, s);
    PastMeans(worlds[n].log, e, s);
    RecordsAreSlices(L, epochNamespace, calls, worlds, n, e, s, stream, pos);
    UngappedText(ChunksOf(worlds[n].log.out, e, s), ViewOf(worlds[n].log, e, s), i);
    SuppliedText(Text(ChunksOf(worlds[n].log.out, e, s)[..i + 1]), ArrivalsOf(worlds[n].log.arrivals, e, s), stream);
  }

  /** Bytes supplied from offset zero by slices of the stream are the stream's prefix. */
  lemma SuppliedText(text: Bytes, arrivals: seq<Piece>, stream: SenderStream)
    requires BytesFrom(text, SupplyOf(arrivals), 0) && AllSlices(stream, arrivals)
    ensures text == Prefix(stream, |text|)
  {
    forall k | 0 <= k < |text| ensures text[k] == stream(k) {
      assert ByteIs(SupplyOf(arrivals), 0 + k, text[k]);
      FirstCellFaithful(arrivals, stream, k);
    }
  }

  lemma UngappedText(chunks: seq<Chunk>, f: Supply, i: nat)
    requires StreamOk(chunks, f) && i < |chunks| && !chunks[i].completeness.Gapped?
    ensures |Text(chunks[..i + 1])| == chunks[i].End() && BytesFrom(Text(chunks[..i + 1]), f, 0)
  {
    var prefix := chunks[..i + 1];
    assert MarkOk(chunks, i);
    forall j | 0 <= j < |prefix| ensures BytesFrom(prefix[j].data, f, prefix[j].offset) {
      assert prefix[j] == chunks[j] && ChunkOk(chunks[j], f);
    }
    ContiguousText(prefix, chunks[i].End(), f);
  }

  /** The bytes [0, n) of the sender stream. */
  function Prefix(stream: SenderStream, n: nat): Bytes { seq(n, k => stream(k)) }

  /** Every offset in [0, n) was carried by some recorded packet. */
  ghost predicate CoversPrefix(arrivals: seq<Piece>, n: nat) { forall k :: 0 <= k < n ==> Covered(arrivals, k) }

  /**
   * Completeness: while a direction has skipped no gap, whatever contiguous prefix the calls carried
   * to it has been handed over, so the chunks concatenate to a prefix of the sender's stream at
   * least that long, and to exactly that prefix if no call carried the byte after it.
   */
  lemma DeliversPrefix(L: Limits, epochNamespace: nat, calls: seq<Call>, worlds: seq<World>, n: nat, i: nat, s: Side,
                       stream: SenderStream, pos: seq<int>, size: nat)
    requires 1 <= L.maxFlows && IsRun(L, epochNamespace, calls, worlds) && n <= |calls| == |pos|
    requires i < |worlds[n].m.flows|
    requires var f := worlds[n].m.flows[i];
             && f.Dir(s).next.Some? && !f.Dir(s).hadGap
             && Sends(L, calls, worlds, n, f.epoch, s, stream, pos)
             && forall k :: 0 <= k < size ==> Carried(L, calls, worlds, n, f.epoch, s, pos, k)
    ensures var e := worlds[n].m.flows[i].epoch;
            var text := Text(ChunksOf(worlds[n].log.out, e, s));
            && size <= |text| && text == Prefix(stream, |text|)
            && (!Carried(L, calls, worlds, n, e, s, pos, size) ==> text == Prefix(stream, size))
  {
    var w := worlds[n];
    RunOk(L, epochNamespace, calls, worlds, n);
    var f := w.m.flows[i];
    assert FlowOk(f, w.log, L.history);
    SideMeans(f.Dir(s), w.log, f.epoch, s, L.history);
    RecordIsPlaced(L, epochNamespace, calls, worlds, n, f.epoch, s, stream, pos);
    PlacedAreSlices(L, calls, worlds, n, f.epoch, s, stream, pos);
    CarriedCovers(L, calls, worlds, n, f.epoch, s, pos, size);
    PlacedCovers(L, calls, worlds, n, f.epoch, s, pos, size);
    LiveText(f.Dir(s), ArrivalsOf(w.log.arrivals, f.epoch, s), ChunksOf(w.log.out, f.epoch, s), L.history, stream,
             size);
  }

  lemma CarriedCovers(L: Limits, calls: seq<Call>, worlds: seq<World>, n: nat, e: nat, s: Side, pos: seq<int>,
                      size: nat)
    requires 1 <= L.maxFlows && n <= |calls| == |pos| && |calls| < |worlds|
    requires forall k :: 0 <= k < size ==> Carried(L, calls, worlds, n, e, s, pos, k)
    ensures CoversPrefix(Placed(L, calls, worlds, n, e, s, pos), size)
  {
    forall k | 0 <= k < size ensures Covered(Placed(L, calls, worlds, n, e, s, pos), k) {
      PlacedCovers(L, calls, worlds, n, e, s, pos, k);
    }
  }

  lemma LiveText(d: Direction, arrivals: seq<Piece>, chunks: seq<Chunk>, cap: nat, stream: SenderStream, n: nat)
    requires DirectionOk(d, SupplyOf(arrivals), chunks, cap) && d.next.Some? && !d.hadGap
    requires AllSlices(stream, arrivals)
    requires CoversPrefix(arrivals, n)
    ensures var text := Text(chunks);
            && n <= |text| && text == Prefix(stream, |text|)
            && (!Covered(arrivals, n) ==> text == Prefix(stream, n))
  {
    var f := SupplyOf(arrivals);
    forall j | 0 <= j < |chunks| ensures BytesFrom(chunks[j].data, f, chunks[j].offset) {
      assert ChunkOk(chunks[j], f);
    }
    ContiguousText(chunks, d.offset, f);
    var text := Text(chunks);
    SuppliedText(text, arrivals, stream);
    NextIsMissing(d, arrivals, chunks, cap);
    assert |text| < n ==> Covered(arrivals, |text|);
    if n < |text| {
      assert ByteIs(f, 0 + n, text[n]);
      FirstCellMeaning(arrivals, n);
    }
  }

  /** Between calls the expected byte is one that no packet has carried. */
  lemma NextIsMissing(d: Direction, arrivals: seq<Piece>, chunks: seq<Chunk>, cap: nat)
    requires DirectionOk(d, SupplyOf(arrivals), chunks, cap) && d.next.Some?
    ensures !Covered(arrivals, d.offset)
  {
    assert !Covered(d.pending, d.next.value);
    assert d.next.value - d.Origin() == d.offset;
    FirstCellMeaning(arrivals, d.offset);
  }

  lemma RememberedText(d: Direction, arrivals: seq<Piece>, chunks: seq<Chunk>, cap: nat, off: int, b: Byte)
    requires DirectionOk(d, SupplyOf(arrivals), chunks, cap) && d.next.Some? && !d.hadGap && Remembers(d, off, b)
    ensures 0 <= off < |Text(chunks)| && Text(chunks)[off] == b
  {
    var f := SupplyOf(arrivals);
    RememberedIs(d, f, chunks, cap, off, b);
    forall j | 0 <= j < |chunks| ensures BytesFrom(chunks[j].data, f, chunks[j].offset) {
      assert ChunkOk(chunks[j], f);
    }
    ContiguousText(chunks, d.offset, f);
    assert ByteIs(f, 0 + off, Text(chunks)[off]);
  }

  /** While a direction has skipped no gap, its contradiction window is a stretch of the bytes handed over. */
  lemma WindowIsEmitted(L: Limits, epochNamespace: nat, calls: seq<Call>, worlds: seq<World>, n: nat, i: nat, s: Side,
                        off: int, b: Byte)
    requires 1 <= L.maxFlows && IsRun(L, epochNamespace, calls, worlds) && n < |worlds| && i < |worlds[n].m.flows|
    requires !worlds[n].m.flows[i].Dir(s).hadGap && Remembers(worlds[n].m.flows[i].Dir(s), off, b)
    ensures var text := Text(ChunksOf(worlds[n].log.out, worlds[n].m.flows[i].epoch, s));
            0 <= off < |text| && text[off] == b
  {
    var w := worlds[n];
    var f := w.m.flows[i];
    RunOk(L, epochNamespace, calls, worlds, n);
    assert FlowOk(f, w.log, L.history);
    SideMeans(f.Dir(s), w.log, f.epoch, s, L.history);
    RememberedText(f.Dir(s), ArrivalsOf(w.log.arrivals, f.epoch, s), ChunksOf(w.log.out, f.epoch, s), L.history, off,
                   b);
  }
}
