/** Chunked bodies: decoded ranges map to the right wire bytes, and printed chunks decode to their content. */
module HttpChunks {
  import opened Common
  import opened Wire
  import opened Http
  import opened HttpLaws

  // ---------------------------------------------------------------- decoded ranges on the wire

  /** The span's decoded bytes are its wire bytes. */
  predicate SpanTrue(d: Bytes, s: nat, body: Bytes, x: BodySpan) {
    && x.left < x.right <= |body| && s + x.wire + (x.right - x.left) <= |d|
    && body[x.left..x.right] == d[s + x.wire..s + x.wire + (x.right - x.left)]
  }

  ghost predicate Held(spans: seq<BodySpan>, p: int) {
    exists i :: 0 <= i < |spans| && spans[i].left <= p < spans[i].right
  }

  /** The spans follow each other on both sides, cover the body, and are true. */
  ghost predicate Mapped(d: Bytes, s: nat, body: Bytes, spans: seq<BodySpan>) {
    && (forall i :: 0 <= i < |spans| ==> SpanTrue(d, s, body, spans[i]))
    && (forall i, j :: 0 <= i < j < |spans| ==>
        spans[i].right <= spans[j].left && spans[i].wire + (spans[i].right - spans[i].left) < spans[j].wire)
    && (forall p :: 0 <= p < |body| ==> Held(spans, p))
  }

  /** The wire positions of the spans lie before `at`. */
  predicate Before(spans: seq<BodySpan>, at: nat) {
    spans == [] || spans[|spans| - 1].wire + (spans[|spans| - 1].right - spans[|spans| - 1].left) < at
  }

  lemma SpanKept(d: Bytes, s: nat, body: Bytes, more: Bytes, x: BodySpan)
    requires SpanTrue(d, s, body, x)
    ensures SpanTrue(d, s, body + more, x)
  {
    assert (body + more)[x.left..x.right] == body[x.left..x.right];
  }

  lemma SpanNew(d: Bytes, s: nat, body: Bytes, from: nat, size: nat)
    requires size > 0 && s + from + size <= |d|
    ensures SpanTrue(d, s, body + d[s + from..s + from + size], BodySpan(|body|, |body| + size, from))
  {
  }

  lemma SpanEnds(d: Bytes, s: nat, body: Bytes, spans: seq<BodySpan>, i: nat)
    requires Mapped(d, s, body, spans) && i < |spans|
    ensures spans[i].right <= |body|
  {
    assert SpanTrue(d, s, body, spans[i]);
  }

  lemma Covered(d: Bytes, s: nat, body: Bytes, spans: seq<BodySpan>, more: Bytes, x: BodySpan, p: nat)
    requires Mapped(d, s, body, spans) && x.left == |body| && x.right == |body| + |more| && p < |body| + |more|
    ensures Held(spans + [x], p)
  {
    if p < |body| {
      assert Held(spans, p);
      var i :| 0 <= i < |spans| && spans[i].left <= p < spans[i].right;
      assert (spans + [x])[i] == spans[i];
    } else {
      assert (spans + [x])[|spans|] == x;
    }
  }

  lemma MappedGrows(d: Bytes, s: nat, body: Bytes, spans: seq<BodySpan>, from: nat, size: nat, at: nat)
    requires Mapped(d, s, body, spans) && Before(spans, at) && at <= from && size > 0 && s + from + size <= |d|
    ensures Mapped(d, s, body + d[s + from..s + from + size], spans + [BodySpan(|body|, |body| + size, from)])
  {
    var more, x := d[s + from..s + from + size], BodySpan(|body|, |body| + size, from);
    var r := spans + [x];
    forall i | 0 <= i < |r| ensures SpanTrue(d, s, body + more, r[i]) {
      if i < |spans| {
        SpanKept(d, s, body, more, spans[i]);
      } else {
        SpanNew(d, s, body, from, size);
      }
    }
    forall i, j | 0 <= i < j < |r| ensures r[i].right <= r[j].left && r[i].wire + (r[i].right - r[i].left) < r[j].wire {
      SpanEnds(d, s, body, spans, i);
      LastIsLatest(d, s, body, spans, i);
    }
    forall p | 0 <= p < |body + more| ensures Held(r, p) {
      Covered(d, s, body, spans, more, x, p);
    }
  }

  lemma LastIsLatest(d: Bytes, s: nat, body: Bytes, spans: seq<BodySpan>, i: nat)
    requires Mapped(d, s, body, spans) && i < |spans|
    ensures var last := spans[|spans| - 1];
            spans[i].wire + (spans[i].right - spans[i].left) <= last.wire + (last.right - last.left)
  {
    assert SpanTrue(d, s, body, spans[|spans| - 1]);
  }

  ghost predicate DoneMapped(d: Bytes, s: nat, r: Decoded) { r.Done? ==> Mapped(d, s, r.body, r.spans) }

  lemma TrailerMapped(d: Bytes, s: nat, at: nat, limit: nat, body: Bytes, spans: seq<BodySpan>)
    requires Mapped(d, s, body, spans)
    ensures DoneMapped(d, s, ReadTrailer(d, s, at, limit, body, spans))
  {
  }

  /** Decoding keeps the map true. */
  lemma {:induction false} ChunksMapped(d: Bytes, s: nat, at: nat, limit: nat, body: Bytes, spans: seq<BodySpan>)
    requires Mapped(d, s, body, spans) && Before(spans, at)
    ensures DoneMapped(d, s, ReadChunks(d, s, at, limit, body, spans))
    decreases |d| - at, 1
  {
    var c := NextChunk(d, s, at, limit, |spans|);
    if c.Data? {
      ChunksData(d, s, at, limit, body, spans, c.from, c.size);
      BehindMapped(d, s, at, limit, body, spans, c.from, c.size);
    } else {
      ChunksLast(d, s, at, limit, body, spans, c);
      if c.Last? {
        TrailerMapped(d, s, c.next, limit, body, spans);
      }
    }
  }

  lemma {:induction false} BehindMapped(d: Bytes, s: nat, at: nat, limit: nat, body: Bytes, spans: seq<BodySpan>,
                                        from: nat, size: nat)
    requires Mapped(d, s, body, spans) && Before(spans, at) && at < from && size > 0 && s + from + size + 2 <= |d|
    ensures DoneMapped(d, s, Behind(d, s, limit, body, spans, from, size))
    decreases |d| - at, 0
  {
    MappedGrows(d, s, body, spans, from, size, at);
    ChunksMapped(d, s, from + size + 2, limit, body + d[s + from..s + from + size],
                 spans + [BodySpan(|body|, |body| + size, from)]);
  }

  // ---------------------------------------------------------------- wire spans of decoded ranges

  function FirstHolding(spans: seq<BodySpan>, p: nat): Option<BodySpan> {
    if spans == [] then None
    else if spans[0].left <= p < spans[0].right then Some(spans[0]) else FirstHolding(spans[1..], p)
  }

  function FirstEnding(spans: seq<BodySpan>, p: nat): Option<BodySpan> {
    if spans == [] then None
    else if spans[0].left < p <= spans[0].right then Some(spans[0]) else FirstEnding(spans[1..], p)
  }

  /** The wire range of a decoded range: where its first byte stands, and where its last one ends. */
  function WireSpan(headerEnd: nat, spans: seq<BodySpan>, start: nat, end: nat): (int, int) {
    var first := FirstHolding(spans, start);
    var last := FirstEnding(spans, end);
    var from := if first.Some? then first.value.wire + start - first.value.left else headerEnd;
    (from, if last.Some? then last.value.wire + end - last.value.left else from)
  }

  lemma {:induction false} HoldingFinds(spans: seq<BodySpan>, p: nat)
    ensures var r := FirstHolding(spans, p);
            if r.Some? then r.value in spans && r.value.left <= p < r.value.right
            else forall x :: x in spans ==> !(x.left <= p < x.right)
    decreases |spans|
  {
    if spans != [] {
      HoldingFinds(spans[1..], p);
      assert forall x :: x in spans <==> x == spans[0] || x in spans[1..];
    }
  }

  lemma {:induction false} EndingIsHolding(spans: seq<BodySpan>, p: nat)
    requires p > 0
    ensures FirstEnding(spans, p) == FirstHolding(spans, p - 1)
    decreases |spans|
  {
    if spans != [] {
      EndingIsHolding(spans[1..], p);
    }
  }

  lemma HolderExists(d: Bytes, s: nat, body: Bytes, spans: seq<BodySpan>, p: nat)
    requires Mapped(d, s, body, spans) && p < |body|
    ensures FirstHolding(spans, p).Some?
    ensures var x := FirstHolding(spans, p).value; x in spans && x.left <= p < x.right && SpanTrue(d, s, body, x)
  {
    HoldingFinds(spans, p);
    assert Held(spans, p);
    var i :| 0 <= i < |spans| && spans[i].left <= p < spans[i].right;
    assert spans[i] in spans;
    var x := FirstHolding(spans, p).value;
    var j :| 0 <= j < |spans| && spans[j] == x;
    assert SpanTrue(d, s, body, spans[j]);
  }

  lemma ByteOnWire(d: Bytes, s: nat, body: Bytes, x: BodySpan, p: nat)
    requires SpanTrue(d, s, body, x) && x.left <= p < x.right
    ensures s + x.wire + (p - x.left) < |d| && d[s + x.wire + (p - x.left)] == body[p]
  {
    assert body[x.left..x.right][p - x.left] == body[p];
    assert d[s + x.wire..s + x.wire + (x.right - x.left)][p - x.left] == d[s + x.wire + (p - x.left)];
  }

  /**
   * The wire range of a non-empty decoded range begins at the wire byte of its first decoded byte and
   * ends behind that of its last; inside one chunk the two ranges are the same bytes.
   */
  lemma WireSpanExact(d: Bytes, s: nat, headerEnd: nat, body: Bytes, spans: seq<BodySpan>, start: nat, end: nat)
    requires Mapped(d, s, body, spans) && start < end <= |body|
    ensures var (from, to) := WireSpan(headerEnd, spans, start, end);
            && 0 <= from < to && s + to <= |d|
            && d[s + from] == body[start] && d[s + to - 1] == body[end - 1]
            && (FirstHolding(spans, start) == FirstHolding(spans, end - 1) ==> d[s + from..s + to] == body[start..end])
  {
    HolderExists(d, s, body, spans, start);
    HolderExists(d, s, body, spans, end - 1);
    EndingIsHolding(spans, end);
    var x, y := FirstHolding(spans, start).value, FirstHolding(spans, end - 1).value;
    ByteOnWire(d, s, body, x, start);
    ByteOnWire(d, s, body, y, end - 1);
    WireOrder(d, s, body, spans, x, y, start, end);
    if x == y {
      SameChunk(d, s, body, x, start, end);
    }
  }

  lemma WireOrder(d: Bytes, s: nat, body: Bytes, spans: seq<BodySpan>, x: BodySpan, y: BodySpan, start: nat, end: nat)
    requires Mapped(d, s, body, spans) && x in spans && y in spans && x.left <= start < x.right
             && y.left <= end - 1 < y.right && start < end
    ensures x.wire + start - x.left < y.wire + end - y.left
  {
    var i :| 0 <= i < |spans| && spans[i] == x;
    var j :| 0 <= j < |spans| && spans[j] == y;
    if i < j {
      assert spans[i].wire + (spans[i].right - spans[i].left) < spans[j].wire;
    }
  }

  lemma SameChunk(d: Bytes, s: nat, body: Bytes, x: BodySpan, start: nat, end: nat)
    requires SpanTrue(d, s, body, x) && x.left <= start < end <= x.right
    ensures d[s + x.wire + start - x.left..s + x.wire + end - x.left] == body[start..end]
  {
    var a, b := d[s + x.wire + start - x.left..s + x.wire + end - x.left], body[start..end];
    forall k | 0 <= k < |b| ensures a[k] == b[k] {
      ByteOnWire(d, s, body, x, start + k);
    }
  }

  /** Every framed chunked body comes with a true map of its bytes. */
  lemma ChunkedBodiesMapped(d: Bytes, s: nat, limit: nat, r: Request, h: Header, headerEnd: nat)
    requires s <= |d| && JudgeChunked(d, s, limit, r, h, headerEnd).Take?
    ensures var m := JudgeChunked(d, s, limit, r, h, headerEnd).message;
            m.Some? && Mapped(d, s, m.value.body, m.value.spans)
  {
    ChunksMapped(d, s, headerEnd, limit, [], []);
  }
}
