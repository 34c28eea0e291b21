/**
 * What one direction of one epoch guarantees about the packets that reached it. Arrivals are
 * recorded in stream offsets, so the statements do not mention sequence numbers any more.
 */
module TcpEpoch {
  import opened Common
  import opened Ranges
  import opened Spans
  import opened TcpDirection

  // ---------------------------------------------------------------- first-seen bytes

  /** A byte together with the packets that supplied it. */
  datatype Cell = Cell(b: Byte, src: Source)

  /** What each stream offset received first, if anything. */
  type Supply = int -> Option<Cell>

  /** The byte that the first arrival covering `off` has there. */
  function FirstCell(arrivals: seq<Piece>, off: int): Option<Cell> {
    if arrivals == [] then None
    else if arrivals[0].Covers(off) then Some(Cell(arrivals[0].At(off), arrivals[0].src))
    else FirstCell(arrivals[1..], off)
  }

  ghost function SupplyOf(arrivals: seq<Piece>): Supply { off => FirstCell(arrivals, off) }

  lemma {:induction false} FirstCellAppend(arrivals: seq<Piece>, x: Piece, off: int)
    ensures FirstCell(arrivals + [x], off)
            == (if FirstCell(arrivals, off).Some? then FirstCell(arrivals, off)
                else if x.Covers(off) then Some(Cell(x.At(off), x.src)) else None)
  {
    if arrivals == [] {
      assert [] + [x] == [x];
    } else {
      assert (arrivals + [x])[1..] == arrivals[1..] + [x];
      FirstCellAppend(arrivals[1..], x, off);
    }
  }

  /** The recursive search agrees with the declarative reading of "first arrival that covers". */
  lemma {:induction false} FirstCellMeaning(arrivals: seq<Piece>, off: int)
    ensures FirstCell(arrivals, off).None? <==> !Covered(arrivals, off)
    ensures FirstCell(arrivals, off).Some? ==>
              exists i :: 0 <= i < |arrivals| && arrivals[i].Covers(off)
                          && FirstCell(arrivals, off) == Some(Cell(arrivals[i].At(off), arrivals[i].src))
                          && forall j :: 0 <= j < i ==> !arrivals[j].Covers(off)
  {
    if arrivals != [] {
      assert arrivals == [arrivals[0]] + arrivals[1..];
      CoveredAppend([arrivals[0]], arrivals[1..], off);
      if arrivals[0].Covers(off) {
        assert arrivals[0] in [arrivals[0]];
      } else {
        FirstCellMeaning(arrivals[1..], off);
        if FirstCell(arrivals[1..], off).Some? {
          var i :| 0 <= i < |arrivals| - 1 && arrivals[1..][i].Covers(off)
                   && FirstCell(arrivals[1..], off) == Some(Cell(arrivals[1..][i].At(off), arrivals[1..][i].src))
                   && forall j :: 0 <= j < i ==> !arrivals[1..][j].Covers(off);
          assert arrivals[i + 1] == arrivals[1..][i];
          forall j | 0 <= j < i + 1 ensures !arrivals[j].Covers(off) {
            if j > 0 {
              assert arrivals[j] == arrivals[1..][j - 1];
            }
          }
        }
      }
    }
  }

  // ---------------------------------------------------------------- the pending list

  ghost predicate PendingShape(pending: seq<Piece>, next: int) {
    SortedDisjoint(pending) && forall q :: q in pending ==> next <= q.start
  }

  /** Pending holds exactly the first-seen bytes from `next` on. */
  ghost predicate PendingMatches(pending: seq<Piece>, next: int, origin: int, f: Supply) {
    && (forall p :: next <= p ==> (Covered(pending, p) <==> f(p - origin).Some?))
    && (forall q, p :: q in pending && q.Covers(p) ==> f(p - origin) == Some(Cell(q.At(p), q.src)))
  }

  ghost predicate ByteIs(f: Supply, off: int, b: Byte) { f(off).Some? && f(off).value.b == b }

  ghost predicate BytesFrom(data: Bytes, f: Supply, lo: int) {
    forall k :: 0 <= k < |data| ==> ByteIs(f, lo + k, data[k])
  }

  /** The history window is a run of first-seen bytes below `offset`. */
  ghost predicate HistoryOk(historyStart: Option<int>, history: Bytes, next: int, origin: int, f: Supply, cap: nat) {
    && |history| <= cap
    && (historyStart.None? ==> history == [])
    && (historyStart.Some? ==>
          && origin <= historyStart.value && historyStart.value + |history| <= next
          && BytesFrom(history, f, historyStart.value - origin))
  }

  // ---------------------------------------------------------------- the chunk under construction

  /** The span names the packets that supplied each of its offsets. */
  ghost predicate SpanFrom(s: Span, f: Supply) {
    s.complete && forall p :: s.Holds(p) ==> f(p).Some? && IdsOf(f(p).value.src) == s.ids
  }

  ghost predicate SpansFrom(spans: seq<Span>, f: Supply) {
    forall i :: 0 <= i < |spans| ==> SpanFrom(spans[i], f)
  }

  ghost predicate IdsFrom(ids: seq<nat>, spans: seq<Span>) {
    forall x :: x in ids <==> exists i :: 0 <= i < |spans| && x in spans[i].ids
  }

  ghost predicate AccOk(acc: Acc, f: Supply, lo: int, hi: int) {
    && |acc.data| == hi - lo
    && (acc.stamps == [] <==> acc.data == [])
    && BytesFrom(acc.data, f, lo)
    && Tiles(acc.spans, lo, hi)
    && SpansFrom(acc.spans, f)
    && IdsFrom(acc.ids, acc.spans)
  }

  // ---------------------------------------------------------------- one consumption step

  lemma ConsumeShape(pending: seq<Piece>, next: int)
    requires pending != [] && PendingShape(pending, next)
    ensures PendingShape(pending[1..], pending[0].End())
    ensures Total(pending) == |pending[0].data| + Total(pending[1..])
  {
    assert forall i :: 0 <= i < |pending| - 1 ==> pending[1..][i] == pending[i + 1];
    forall q | q in pending[1..] ensures q in pending && pending[0].End() <= q.start {
      var i :| 0 <= i < |pending| - 1 && pending[1..][i] == q;
      assert pending[i + 1] == q;
    }
  }

  lemma ConsumeMatches(pending: seq<Piece>, next: int, origin: int, f: Supply)
    requires pending != [] && PendingShape(pending, next) && PendingMatches(pending, next, origin, f)
    ensures PendingMatches(pending[1..], pending[0].End(), origin, f)
  {
    var first, rest := pending[0], pending[1..];
    assert pending == [first] + rest;
    forall p | first.End() <= p ensures Covered(rest, p) <==> f(p - origin).Some? {
      CoveredAppend([first], rest, p);
      assert first in pending;
    }
    assert forall q :: q in rest ==> q in pending;
  }

  lemma WindowOk(historyStart: Option<int>, history: Bytes, data: Bytes, next: int, origin: int, f: Supply, cap: nat)
    requires HistoryOk(historyStart, history, next, origin, f, cap)
    requires BytesFrom(data, f, next - origin) && origin <= next
    ensures var w := Window(historyStart, history, next, data, cap);
            HistoryOk(Some(w.0), w.1, next + |data|, origin, f, cap)
  {
    if historyStart.Some? && historyStart.value + |history| == next {
      assert next - origin == historyStart.value - origin + |history|;
      BytesJoin(history, data, f, historyStart.value - origin);
      SuffixOk(historyStart.value, history + data, origin, f, cap);
    } else {
      SuffixOk(next, data, origin, f, cap);
    }
  }

  lemma SuffixOk(start: int, data: Bytes, origin: int, f: Supply, cap: nat)
    requires BytesFrom(data, f, start - origin) && origin <= start
    ensures var w := KeepLast(start, data, cap);
            HistoryOk(Some(w.0), w.1, start + |data|, origin, f, cap)
  {
    var excess := Max(0, |data| - cap);
    BytesDrop(data, f, start - origin, excess);
    assert start - origin + excess == start + excess - origin;
  }

  lemma BytesJoin(a: Bytes, b: Bytes, f: Supply, lo: int)
    requires BytesFrom(a, f, lo) && BytesFrom(b, f, lo + |a|)
    ensures BytesFrom(a + b, f, lo)
  {
    forall k | 0 <= k < |a + b| ensures ByteIs(f, lo + k, (a + b)[k]) {
      if k < |a| {
        assert ByteIs(f, lo + k, a[k]);
      } else {
        assert ByteIs(f, lo + |a| + (k - |a|), b[k - |a|]);
      }
    }
  }

  lemma BytesDrop(a: Bytes, f: Supply, lo: int, n: nat)
    requires BytesFrom(a, f, lo) && n <= |a|
    ensures BytesFrom(a[n..], f, lo + n)
  {
    forall k | 0 <= k < |a[n..]| ensures ByteIs(f, lo + n + k, a[n..][k]) {
      assert ByteIs(f, lo + (n + k), a[n + k]);
    }
  }

  lemma SegmentBytes(q: Piece, origin: int, f: Supply)
    requires forall p :: q.Covers(p) ==> f(p - origin) == Some(Cell(q.At(p), q.src))
    ensures BytesFrom(q.data, f, q.start - origin)
    ensures SpanFrom(Span(q.start - origin, q.End() - origin, IdsOf(q.src), true), f)
  {
    forall k | 0 <= k < |q.data|
      ensures f(q.start - origin + k).Some? && f(q.start - origin + k).value == Cell(q.data[k], q.src)
    {
      assert q.Covers(q.start + k);
      assert q.start + k - origin == q.start - origin + k;
    }
    forall p | q.start - origin <= p < q.End() - origin
      ensures f(p).Some? && f(p).value.src == q.src
    {
      assert q.Covers(p + origin);
      assert p + origin - origin == p;
    }
  }

  lemma PushFrom(spans: seq<Span>, s: Span, f: Supply, lo: int)
    requires Tiles(spans, lo, s.start) && SpansFrom(spans, f) && lo <= s.start < s.end
    requires SpanFrom(s, f)
    ensures Tiles(Push(spans, s), lo, s.end) && SpansFrom(Push(spans, s), f)
  {
    var r := Push(spans, s);
    PushOrdered(spans, s);
    assert Within(spans, lo, s.start);
    forall p | lo <= p < s.end ensures Spoken(r, p) {
      if p < s.start {
        assert Spoken(spans, p);
        var i :| 0 <= i < |spans| && spans[i].Holds(p);
        assert r[i].Holds(p);
      } else {
        assert r[|r| - 1].Holds(p);
      }
    }
    assert Within(r, lo, s.end);
    forall i | 0 <= i < |r| ensures SpanFrom(r[i], f) {
      if i < |spans| {
        assert SpanFrom(spans[i], f);
      }
      assert forall p :: r[i].Holds(p) ==> s.Holds(p) || (i < |spans| && spans[i].Holds(p));
    }
  }

  lemma PushIds(ids: seq<nat>, spans: seq<Span>, s: Span)
    requires IdsFrom(ids, spans)
    ensures IdsFrom(AppendNew(ids, s.ids), Push(spans, s))
  {
    var r := Push(spans, s);
    forall x ensures x in AppendNew(ids, s.ids) <==> exists i :: 0 <= i < |r| && x in r[i].ids {
      if x in ids {
        var i :| 0 <= i < |spans| && x in spans[i].ids;
        assert r[i].ids == spans[i].ids;
      }
      if x in s.ids {
        assert r[|r| - 1].ids == s.ids;
      }
      if i :| 0 <= i < |r| && x in r[i].ids {
        if i < |spans| {
          assert r[i].ids == spans[i].ids;
        }
      }
    }
  }

  // ---------------------------------------------------------------- the draining loop

  /** Everything but the emitted chunks that a direction keeps about its arrivals. */
  ghost predicate Core(d: Direction, f: Supply, cap: nat) {
    && d.next.Some? && 0 <= d.offset
    && PendingShape(d.pending, d.next.value)
    && d.pendingBytes == Total(d.pending)
    && PendingMatches(d.pending, d.next.value, d.Origin(), f)
    && HistoryOk(d.historyStart, d.history, d.next.value, d.Origin(), f, cap)
  }

  /** No pending segment starts at `next`: the state between two calls. */
  ghost predicate Settled(d: Direction) {
    d.next.Some? && forall q :: q in d.pending ==> d.next.value < q.start
  }

  /** The fields that draining leaves alone. */
  ghost predicate SameFrame(d: Direction, e: Direction) {
    && d.epoch == e.epoch && d.midstream == e.midstream && d.syn == e.syn
    && d.peerAcked == e.peerAcked && d.lastSeen == e.lastSeen && d.closed == e.closed
    && (d.next.Some? <==> e.next.Some?)
    && (d.next.Some? && e.next.Some? ==> d.Origin() == e.Origin())
  }

  lemma FirstSupplied(d: Direction, f: Supply, cap: nat)
    requires Core(d, f, cap) && d.pending != [] && d.pending[0].start == d.next.value
    ensures var q := d.pending[0];
            && q.data != [] && q.data[0..] == q.data
            && BytesFrom(q.data, f, d.offset)
            && SpanFrom(Span(d.offset, d.offset + |q.data|, IdsOf(q.src), true), f)
  {
    var q := d.pending[0];
    assert q in d.pending;
    SegmentBytes(q, d.Origin(), f);
    assert q.start - d.Origin() == d.offset;
    assert q.End() - d.Origin() == d.offset + |q.data|;
  }

  lemma ConsumeCore(d: Direction, f: Supply, cap: nat)
    requires Core(d, f, cap) && d.pending != [] && d.pending[0].start == d.next.value < d.pending[0].End()
    ensures var e := ConsumeDirection(d, cap);
            && Core(e, f, cap) && SameFrame(d, e) && e.hadGap == d.hadGap
            && e.offset == d.offset + |d.pending[0].data|
            && d.pendingBytes - e.pendingBytes == |d.pending[0].data|
  {
    FirstSupplied(d, f, cap);
    ConsumeShape(d.pending, d.next.value);
    ConsumeMatches(d.pending, d.next.value, d.Origin(), f);
    WindowOk(d.historyStart, d.history, d.pending[0].data, d.next.value, d.Origin(), f, cap);
  }

  lemma ExtendOk(acc: Acc, data: Bytes, src: Source, f: Supply, lo: int, hi: int)
    requires AccOk(acc, f, lo, hi) && data != []
    requires BytesFrom(data, f, hi) && SpanFrom(Span(hi, hi + |data|, IdsOf(src), true), f)
    ensures AccOk(Extend(acc, hi, data, src), f, lo, hi + |data|)
  {
    var s := Span(hi, hi + |data|, IdsOf(src), true);
    PushFrom(acc.spans, s, f, lo);
    PushIds(acc.ids, acc.spans, s);
    BytesJoin(acc.data, data, f, lo);
  }

  lemma ConsumeAccOk(d: Direction, acc: Acc, f: Supply, cap: nat, lo: int)
    requires Core(d, f, cap) && d.pending != [] && d.pending[0].start == d.next.value < d.pending[0].End()
    requires AccOk(acc, f, lo, d.offset)
    ensures AccOk(ConsumeAcc(d, acc), f, lo, d.offset + |d.pending[0].data|)
  {
    FirstSupplied(d, f, cap);
    ExtendOk(acc, d.pending[0].data, d.pending[0].src, f, lo, d.offset);
  }

  lemma FirstBlocks(d: Direction)
    requires d.next.Some? && d.pending != [] && SortedDisjoint(d.pending) && d.next.value < d.pending[0].start
    ensures Settled(d)
  {
    assert d.pending[0] in d.pending;
    forall q | q in d.pending ensures d.next.value < q.start {
      var i :| 0 <= i < |d.pending| && d.pending[i] == q;
    }
  }

  /**
   * In a sound direction the loop consumes exactly the contiguous prefix. The two branches that
   * count retransmitted bytes are never taken, and the consumed length is what left the buffer.
   */
  lemma {:induction false} DrainLoopOk(d: Direction, acc: Acc, retransmitted: nat, cap: nat, f: Supply, lo: int)
    requires Core(d, f, cap) && lo <= d.offset && AccOk(acc, f, lo, d.offset)
    ensures var r := DrainLoop(d, acc, retransmitted, cap);
            && Core(r.d, f, cap) && Settled(r.d) && SameFrame(d, r.d) && r.d.hadGap == d.hadGap
            && AccOk(r.acc, f, lo, r.d.offset)
            && r.retransmitted == retransmitted
            && 0 <= r.d.offset - d.offset == d.pendingBytes - r.d.pendingBytes
            && (d.pending != [] && d.pending[0].start == d.next.value ==> d.offset < r.d.offset)
    decreases |d.pending|
  {
    if d.pending != [] {
      assert d.pending[0] in d.pending;
      if d.pending[0].start > d.next.value {
        FirstBlocks(d);
      } else {
        ConsumeCore(d, f, cap);
        ConsumeAccOk(d, acc, f, cap, lo);
        DrainLoopOk(ConsumeDirection(d, cap), ConsumeAcc(d, acc), retransmitted, cap, f, lo);
      }
    }
  }
}
