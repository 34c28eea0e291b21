/** The chunks that one direction of one epoch hands over, and what every operation keeps of them. */
module TcpStream {
  import opened Common
  import opened Ranges
  import opened Spans
  import opened TcpDirection
  import opened TcpEpoch

  // ---------------------------------------------------------------- chunk sequences

  ghost predicate ChunkOk(ch: Chunk, f: Supply) {
    && ch.data != [] && 0 <= ch.offset
    && BytesFrom(ch.data, f, ch.offset)
    && Tiles(ch.spans, ch.offset, ch.End())
    && SpansFrom(ch.spans, f)
    && IdsFrom(ch.ids, ch.spans)
  }

  ghost predicate Increasing(out: seq<Chunk>) {
    forall i, j :: 0 <= i < j < |out| ==> out[i].End() <= out[j].offset
  }

  /** The chunks follow each other from offset zero to `n` without a hole. */
  ghost predicate Contiguous(out: seq<Chunk>, n: int) {
    if out == [] then n == 0
    else out[|out| - 1].End() == n && Contiguous(out[..|out| - 1], out[|out| - 1].offset)
  }

  /** A chunk that is not marked gapped has no hole anywhere before its end. */
  ghost predicate MarkOk(out: seq<Chunk>, i: nat)
    requires i < |out|
  {
    out[i].completeness.Gapped? || Contiguous(out[..i + 1], out[i].End())
  }

  /** What every sequence of chunks of one direction of one epoch satisfies. */
  ghost predicate StreamOk(out: seq<Chunk>, f: Supply) {
    && Increasing(out)
    && (forall i :: 0 <= i < |out| ==> ChunkOk(out[i], f))
    && (forall i :: 0 <= i < |out| ==> MarkOk(out, i))
  }

  ghost predicate OutOk(out: seq<Chunk>, f: Supply, hi: int) {
    StreamOk(out, f) && forall i :: 0 <= i < |out| ==> out[i].End() <= hi
  }

  function DataLength(out: seq<Chunk>): nat {
    if out == [] then 0 else DataLength(out[..|out| - 1]) + |out[|out| - 1].data|
  }

  lemma DataLengthAppend(a: seq<Chunk>, b: seq<Chunk>)
    ensures DataLength(a + b) == DataLength(a) + DataLength(b)
    decreases |b|
  {
    if b == [] {
      assert a + b == a;
    } else {
      assert (a + b)[..|a + b| - 1] == a + b[..|b| - 1];
      DataLengthAppend(a, b[..|b| - 1]);
    }
  }

  ghost predicate AllFrom(chunks: seq<Chunk>, epoch: nat, side: Side) {
    forall i :: 0 <= i < |chunks| ==> chunks[i].epoch == epoch && chunks[i].side == side
  }

  lemma OutSnoc(out: seq<Chunk>, ch: Chunk, f: Supply, hi: int)
    requires OutOk(out, f, hi) && hi <= ch.offset && ChunkOk(ch, f)
    requires ch.completeness.Gapped? || Contiguous(out, ch.offset)
    ensures OutOk(out + [ch], f, ch.End())
    ensures Contiguous(out, ch.offset) ==> Contiguous(out + [ch], ch.End())
  {
    var r := out + [ch];
    assert r[..|r| - 1] == out;
    forall i | 0 <= i < |r| ensures MarkOk(r, i) {
      if i < |out| {
        assert MarkOk(out, i);
        assert r[..i + 1] == out[..i + 1];
      } else {
        assert r[..i + 1] == r;
      }
    }
  }

  // ---------------------------------------------------------------- the direction invariant

  ghost predicate NothingArrived(f: Supply) { forall off :: f(off).None? }

  ghost predicate Unopened(d: Direction, f: Supply, out: seq<Chunk>) {
    && d.next.None? && d.offset == 0 && !d.hadGap && d.pending == [] && d.pendingBytes == 0
    && d.historyStart.None? && d.history == [] && out == [] && NothingArrived(f)
  }

  /** Sound, but perhaps with bytes that could still be drained. */
  ghost predicate Loose(d: Direction, f: Supply, out: seq<Chunk>, cap: nat) {
    Core(d, f, cap) && OutOk(out, f, d.offset) && (!d.hadGap ==> Contiguous(out, d.offset))
  }

  /** What holds of every direction between two calls. */
  ghost predicate DirectionOk(d: Direction, f: Supply, out: seq<Chunk>, cap: nat) {
    if d.next.None? then Unopened(d, f, out) else Loose(d, f, out, cap) && Settled(d)
  }

  lemma OutWiden(out: seq<Chunk>, f: Supply, lo: int, hi: int)
    requires OutOk(out, f, lo) && lo <= hi
    ensures OutOk(out, f, hi)
  {
  }

  // ---------------------------------------------------------------- operations that hand chunks over

  /** How an operation moved bytes from the buffer into chunks. */
  ghost predicate Moved(c: Counters, d: Direction, r: Outcome, side: Side) {
    && AllFrom(r.chunks, d.epoch, side)
    && SameFrame(d, r.d)
    && r.c.bytes == c.bytes - DataLength(r.chunks)
    && r.d.pendingBytes == d.pendingBytes - DataLength(r.chunks)
    && r.c.segments == c.segments - (|d.pending| - |r.d.pending|)
    && r.c.retransmitted == c.retransmitted
  }

  lemma EmitOk(key: Key, side: Side, start: int, e: Direction, acc: Acc, forced: bool, f: Supply, out: seq<Chunk>)
    requires AccOk(acc, f, start, e.offset) && OutOk(out, f, start) && 0 <= start
    requires !e.hadGap ==> Contiguous(out, start)
    ensures var chunks := Emit(key, side, start, e, acc, forced);
            && OutOk(out + chunks, f, e.offset) && (!e.hadGap ==> Contiguous(out + chunks, e.offset))
            && DataLength(chunks) == e.offset - start && AllFrom(chunks, e.epoch, side)
  {
    if acc.data == [] {
      AppendNil(out);
    } else {
      var ch := Emit(key, side, start, e, acc, forced)[0];
      DataLengthOne(ch);
      OutSnoc(out, ch, f, start);
    }
  }

  lemma DataLengthOne(ch: Chunk)
    ensures DataLength([ch]) == |ch.data|
  {
    assert [ch][..0] == [];
  }

  lemma EmptyAccOk(f: Supply, lo: int)
    ensures AccOk(EMPTY_ACC, f, lo, lo)
  {
  }

  lemma ConcludeOk(c: Counters, d: Direction, r: Drained, key: Key, side: Side, forced: bool, cap: nat, f: Supply,
                   out: seq<Chunk>)
    requires Loose(d, f, out, cap)
    requires Core(r.d, f, cap) && SameFrame(d, r.d) && r.d.hadGap == d.hadGap && AccOk(r.acc, f, d.offset, r.d.offset)
    requires r.retransmitted == 0 && 0 <= r.d.offset - d.offset == d.pendingBytes - r.d.pendingBytes
    ensures var o := Conclude(c, d, r, key, side, forced);
            && Loose(o.d, f, out + o.chunks, cap) && Moved(c, d, o, side) && o.c.gaps == c.gaps
            && (d.offset < r.d.offset ==> o.chunks != [])
  {
    EmitOk(key, side, d.offset, r.d, r.acc, forced, f, out);
  }

  /** What a drain does to a sound direction. */
  ghost predicate DrainedWell(c: Counters, d: Direction, r: Outcome, side: Side, cap: nat, f: Supply, out: seq<Chunk>) {
    && Loose(r.d, f, out + r.chunks, cap) && Settled(r.d)
    && Moved(c, d, r, side) && r.c.gaps == c.gaps
    && (d.pending != [] && d.next.Some? && d.pending[0].start == d.next.value ==> r.chunks != [])
  }

  lemma DrainNothing(c: Counters, d: Direction, side: Side, cap: nat, f: Supply, out: seq<Chunk>)
    requires Loose(d, f, out, cap) && d.pending == []
    ensures DrainedWell(c, d, Outcome(c, d, []), side, cap, f, out)
  {
    AppendNil(out);
  }

  lemma DrainSomething(c: Counters, d: Direction, key: Key, side: Side, forced: bool, cap: nat, f: Supply,
                       out: seq<Chunk>)
    requires Loose(d, f, out, cap)
    ensures DrainedWell(c, d, Conclude(c, d, DrainLoop(d, EMPTY_ACC, 0, cap), key, side, forced), side, cap, f, out)
  {
    EmptyAccOk(f, d.offset);
    DrainLoopOk(d, EMPTY_ACC, 0, cap, f, d.offset);
    ConcludeOk(c, d, DrainLoop(d, EMPTY_ACC, 0, cap), key, side, forced, cap, f, out);
  }

  lemma DrainOk(c: Counters, d: Direction, key: Key, side: Side, forced: bool, cap: nat, f: Supply, out: seq<Chunk>)
    requires Loose(d, f, out, cap)
    ensures DrainedWell(c, d, Drain(c, d, key, side, forced, cap), side, cap, f, out)
  {
    if d.pending == [] {
      DrainNothing(c, d, side, cap, f, out);
    } else {
      DrainSomething(c, d, key, side, forced, cap, f, out);
    }
  }

  lemma FirstIsLeast(pending: seq<Piece>)
    requires SortedDisjoint(pending) && pending != []
    ensures forall q :: q in pending ==> pending[0].start <= q.start
  {
    forall q | q in pending ensures pending[0].start <= q.start {
      var i :| 0 <= i < |pending| && pending[i] == q;
      assert pending[0] in pending;
    }
  }

  lemma JumpOk(d: Direction, f: Supply, cap: nat, out: seq<Chunk>)
    requires Loose(d, f, out, cap) && d.pending != [] && d.next.value <= d.pending[0].start
    ensures Loose(Jump(d), f, out, cap) && SameFrame(d, Jump(d))
  {
    FirstIsLeast(d.pending);
    OutWiden(out, f, d.offset, Jump(d).offset);
  }

  /** What an operation on a sound direction leaves behind, whatever it handed over. */
  ghost predicate Kept(c: Counters, d: Direction, r: Outcome, side: Side, cap: nat, f: Supply, out: seq<Chunk>) {
    Loose(r.d, f, out + r.chunks, cap) && Moved(c, d, r, side)
  }

  lemma SkipHole(c: Counters, d: Direction, key: Key, side: Side, cap: nat, f: Supply, out: seq<Chunk>)
    requires Loose(d, f, out, cap) && d.pending != [] && d.pending[0].start > d.next.value
    ensures var r := Skip(c, d, key, side, cap);
            Kept(c, d, r, side, cap, f, out) && Settled(r.d) && r.chunks != []
  {
    JumpOk(d, f, cap, out);
    DrainOk(c.(gaps := c.gaps + d.pending[0].start - d.next.value), Jump(d), key, side, true, cap, f, out);
  }

  lemma SkipOk(c: Counters, d: Direction, key: Key, side: Side, cap: nat, f: Supply, out: seq<Chunk>)
    requires Loose(d, f, out, cap) && d.pending != []
    ensures var r := Skip(c, d, key, side, cap);
            Kept(c, d, r, side, cap, f, out) && Settled(r.d) && r.chunks != []
  {
    assert d.pending[0] in d.pending;
    if d.pending[0].start > d.next.value {
      SkipHole(c, d, key, side, cap, f, out);
    } else {
      DrainOk(c, d, key, side, true, cap, f, out);
    }
  }

  lemma KeptTrans(c: Counters, d: Direction, a: Outcome, b: Outcome, side: Side, cap: nat, f: Supply, out: seq<Chunk>)
    requires Moved(c, d, a, side) && Kept(a.c, a.d, b, side, cap, f, out + a.chunks)
    ensures Kept(c, d, Outcome(b.c, b.d, a.chunks + b.chunks), side, cap, f, out)
  {
    DataLengthAppend(a.chunks, b.chunks);
    AppendAssoc(out, a.chunks, b.chunks);
  }

  lemma KeptNothing(c: Counters, d: Direction, side: Side, cap: nat, f: Supply, out: seq<Chunk>)
    requires Loose(d, f, out, cap)
    ensures Kept(c, d, Outcome(c, d, []), side, cap, f, out)
  {
    AppendNil(out);
  }

  lemma FlushRoundOk(c: Counters, d: Direction, key: Key, side: Side, cap: nat, f: Supply, out: seq<Chunk>)
    requires Loose(d, f, out, cap)
    ensures Kept(c, d, FlushRound(c, d, key, side, cap), side, cap, f, out)
  {
    var a := Drain(c, d, key, side, false, cap);
    DrainOk(c, d, key, side, false, cap, f, out);
    if a.d.pending != [] && |a.d.pending| == |d.pending| {
      SkipOk(a.c, a.d, key, side, cap, f, out + a.chunks);
      KeptTrans(c, d, a, Skip(a.c, a.d, key, side, cap), side, cap, f, out);
    }
  }

  /** Flushing empties the pending list into chunks; nothing is lost and nothing is repeated. */
  lemma {:induction false} FlushOk(c: Counters, d: Direction, key: Key, side: Side, cap: nat, f: Supply,
                                   out: seq<Chunk>)
    requires Loose(d, f, out, cap)
    ensures var r := Flush(c, d, key, side, cap);
            Kept(c, d, r, side, cap, f, out) && r.d.pending == []
    decreases |d.pending|
  {
    if d.pending == [] {
      KeptNothing(c, d, side, cap, f, out);
    } else {
      var a := FlushRound(c, d, key, side, cap);
      FlushRoundOk(c, d, key, side, cap, f, out);
      FlushOk(a.c, a.d, key, side, cap, f, out + a.chunks);
      KeptTrans(c, d, a, Flush(a.c, a.d, key, side, cap), side, cap, f, out);
    }
  }

  /** The forced-skip loop always makes progress, so it ends inside both per-direction caps. */
  lemma {:induction false} RelieveOk(c: Counters, d: Direction, key: Key, side: Side, cap: nat,
                                     maxBytes: int, maxSegments: int, f: Supply, out: seq<Chunk>)
    requires Loose(d, f, out, cap) && Settled(d) && 0 <= maxBytes && 0 <= maxSegments
    ensures var r := Relieve(c, d, key, side, cap, maxBytes, maxSegments);
            Kept(c, d, r, side, cap, f, out) && Settled(r.d) && !OverPending(r.d, maxBytes, maxSegments)
    decreases |d.pending|
  {
    if !OverPending(d, maxBytes, maxSegments) {
      KeptNothing(c, d, side, cap, f, out);
    } else {
      assert d.pending != [];
      var a := Skip(c, d, key, side, cap);
      SkipOk(c, d, key, side, cap, f, out);
      RelieveOk(a.c, a.d, key, side, cap, maxBytes, maxSegments, f, out + a.chunks);
      KeptTrans(c, d, a, Relieve(a.c, a.d, key, side, cap, maxBytes, maxSegments), side, cap, f, out);
    }
  }

  // ---------------------------------------------------------------- arrivals

  /** `g` is `f` after one more arrival: earlier bytes win. */
  ghost predicate Extends(f: Supply, x: Piece, g: Supply) {
    forall off :: g(off) == (if f(off).Some? then f(off)
                             else if x.Covers(off) then Some(Cell(x.At(off), x.src)) else None)
  }

  lemma BytesExtend(data: Bytes, f: Supply, x: Piece, g: Supply, lo: int)
    requires Extends(f, x, g) && BytesFrom(data, f, lo)
    ensures BytesFrom(data, g, lo)
  {
    forall k | 0 <= k < |data| ensures ByteIs(g, lo + k, data[k]) {
      assert ByteIs(f, lo + k, data[k]);
    }
  }

  lemma OutExtend(out: seq<Chunk>, f: Supply, x: Piece, g: Supply, hi: int)
    requires Extends(f, x, g) && OutOk(out, f, hi)
    ensures OutOk(out, g, hi)
  {
    forall i | 0 <= i < |out| ensures ChunkOk(out[i], g) {
      assert ChunkOk(out[i], f);
      BytesExtend(out[i].data, f, x, g, out[i].offset);
      forall k | 0 <= k < |out[i].spans| ensures SpanFrom(out[i].spans[k], g) {
        assert SpanFrom(out[i].spans[k], f);
      }
    }
  }

  lemma HistoryExtend(hs: Option<int>, h: Bytes, next: int, origin: int, f: Supply, x: Piece, g: Supply, cap: nat)
    requires Extends(f, x, g) && HistoryOk(hs, h, next, origin, f, cap)
    ensures HistoryOk(hs, h, next, origin, g, cap)
  {
    if hs.Some? {
      BytesExtend(h, f, x, g, hs.value - origin);
    }
  }

  /** A packet that ends at or before `next` changes nothing. */
  lemma StaleOk(d: Direction, f: Supply, out: seq<Chunk>, cap: nat, x: Piece, g: Supply)
    requires Loose(d, f, out, cap) && Settled(d) && Extends(f, x, g) && x.End() <= d.offset
    ensures Loose(d, g, out, cap)
  {
    OutExtend(out, f, x, g, d.offset);
    HistoryExtend(d.historyStart, d.history, d.next.value, d.Origin(), f, x, g, cap);
    forall p | d.next.value <= p ensures Covered(d.pending, p) <==> g(p - d.Origin()).Some? {
      assert Covered(d.pending, p) <==> f(p - d.Origin()).Some?;
    }
    forall q, p | q in d.pending && q.Covers(p) ensures g(p - d.Origin()) == Some(Cell(q.At(p), q.src)) {
      assert f(p - d.Origin()) == Some(Cell(q.At(p), q.src));
    }
  }

  /** Subtracting what is pending and inserting the rest keeps the first-seen reading. */
  lemma InsertMatches(pending: seq<Piece>, piece: Piece, next: int, origin: int, f: Supply, x: Piece, g: Supply)
    requires PendingShape(pending, next) && PendingMatches(pending, next, origin, f) && Extends(f, x, g)
    requires next <= piece.start
    requires forall p :: next <= p ==> (piece.Covers(p) <==> x.Covers(p - origin))
    requires forall p :: piece.Covers(p) ==> piece.At(p) == x.At(p - origin)
    requires piece.src == x.src
    ensures var merged := SortByStart(pending + Uncovered(piece, pending));
            && PendingShape(merged, next)
            && PendingMatches(merged, next, origin, g)
            && Total(merged) == Total(pending) + Total(Uncovered(piece, pending))
            && |merged| == |pending| + |Uncovered(piece, pending)|
  {
    var additions := Uncovered(piece, pending);
    var merged := SortByStart(pending + additions);
    UncoveredExact(piece, pending);
    SortExtended(pending, additions);
    SortMembers(pending + additions);
    TotalAppend(pending, additions);
    assert forall q :: q in merged <==> q in pending || q in additions;
    MergedShape(pending, additions, merged, piece, next);
    forall p | next <= p ensures Covered(merged, p) <==> g(p - origin).Some? {
      CoveredAppend(pending, additions, p);
      assert Covered(merged, p) <==> Covered(pending + additions, p);
    }
    forall q, p | q in merged && q.Covers(p) ensures g(p - origin) == Some(Cell(q.At(p), q.src)) {
      if q in pending {
        assert f(p - origin) == Some(Cell(q.At(p), q.src));
      } else {
        PartCell(q, piece, pending, p, next, origin, f, x, g);
      }
    }
  }

  lemma MergedShape(pending: seq<Piece>, additions: seq<Piece>, merged: seq<Piece>, piece: Piece, next: int)
    requires PendingShape(pending, next) && Parts(additions, piece) && next <= piece.start
    requires SortedDisjoint(merged) && forall q :: q in merged <==> q in pending || q in additions
    ensures PendingShape(merged, next)
  {
    forall q | q in merged ensures next <= q.start {
      if q in additions {
        assert PartOf(q, piece);
      }
    }
  }

  lemma PartCell(q: Piece, piece: Piece, pending: seq<Piece>, p: int, next: int, origin: int, f: Supply, x: Piece,
                 g: Supply)
    requires PendingMatches(pending, next, origin, f) && Extends(f, x, g)
    requires next <= piece.start && piece.src == x.src
    requires forall p :: next <= p ==> (piece.Covers(p) <==> x.Covers(p - origin))
    requires forall p :: piece.Covers(p) ==> piece.At(p) == x.At(p - origin)
    requires q in Uncovered(piece, pending) && q.Covers(p)
    ensures g(p - origin) == Some(Cell(q.At(p), q.src))
  {
    UncoveredExact(piece, pending);
    assert PartOf(q, piece);
    assert q.At(p) == piece.At(p);
    assert Covered(Uncovered(piece, pending), p);
    assert f(p - origin).None?;
  }

  lemma TrimmedMatches(d: Direction, start: int, payload: Bytes, src: Source, x: Piece)
    requires d.next.Some? && d.next.value < start + |payload|
    requires x == Piece(start - d.Origin(), payload, src)
    ensures var piece := TrimmedPiece(d, start, payload, src);
            && d.next.value <= piece.start && piece.src == x.src && |piece.data| <= |payload|
            && (forall p :: d.next.value <= p ==> (piece.Covers(p) <==> x.Covers(p - d.Origin())))
            && (forall p :: piece.Covers(p) ==> piece.At(p) == x.At(p - d.Origin()))
  {
  }

  /** Accepting a packet that reaches beyond `next`: sound, and no byte of it is unaccounted for. */
  lemma AcceptOk(c: Counters, d: Direction, start: int, payload: Bytes, src: Source, cap: nat,
                 f: Supply, x: Piece, g: Supply, out: seq<Chunk>)
    requires Loose(d, f, out, cap) && d.next.value < start + |payload|
    requires x == Piece(start - d.Origin(), payload, src) && Extends(f, x, g)
    ensures var r := Accept(c, d, start, payload, src);
            && Loose(r.1, g, out, cap) && SameFrame(d, r.1)
            && r.0.bytes - c.bytes == r.1.pendingBytes - d.pendingBytes
            && r.0.segments - c.segments == |r.1.pending| - |d.pending|
            && r.0.gaps == c.gaps
            && r.0.retransmitted + r.0.bytes == c.retransmitted + c.bytes + |payload|
            && c.retransmitted <= r.0.retransmitted
  {
    AcceptLoose(c, d, start, payload, src, cap, f, x, g, out);
    AcceptPending(d, start, payload, src, f, x, g);
    AdditionsFit(TrimmedPiece(d, start, payload, src), d.pending);
  }

  lemma AcceptLoose(c: Counters, d: Direction, start: int, payload: Bytes, src: Source, cap: nat,
                    f: Supply, x: Piece, g: Supply, out: seq<Chunk>)
    requires Loose(d, f, out, cap) && d.next.value < start + |payload|
    requires x == Piece(start - d.Origin(), payload, src) && Extends(f, x, g)
    ensures Loose(Accept(c, d, start, payload, src).1, g, out, cap)
  {
    AcceptPending(d, start, payload, src, f, x, g);
    OutExtend(out, f, x, g, d.offset);
    HistoryExtend(d.historyStart, d.history, d.next.value, d.Origin(), f, x, g, cap);
  }

  /** The pending list after an acceptance. */
  lemma AcceptPending(d: Direction, start: int, payload: Bytes, src: Source, f: Supply, x: Piece, g: Supply)
    requires d.next.Some? && d.next.value < start + |payload| && PendingShape(d.pending, d.next.value)
    requires PendingMatches(d.pending, d.next.value, d.Origin(), f)
    requires x == Piece(start - d.Origin(), payload, src) && Extends(f, x, g)
    ensures var additions := Uncovered(TrimmedPiece(d, start, payload, src), d.pending);
            var merged := SortByStart(d.pending + additions);
            && PendingShape(merged, d.next.value) && PendingMatches(merged, d.next.value, d.Origin(), g)
            && Total(merged) == Total(d.pending) + Total(additions) && |merged| == |d.pending| + |additions|
            && |TrimmedPiece(d, start, payload, src).data| <= |payload|
  {
    TrimmedMatches(d, start, payload, src, x);
    InsertMatches(d.pending, TrimmedPiece(d, start, payload, src), d.next.value, d.Origin(), f, x, g);
  }

  lemma AdditionsFit(piece: Piece, pending: seq<Piece>)
    ensures Total(Uncovered(piece, pending)) <= |piece.data|
  {
    UncoveredExact(piece, pending);
    PartsTotal(Uncovered(piece, pending), piece);
  }
}
