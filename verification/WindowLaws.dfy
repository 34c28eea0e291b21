/** What merging a chunk keeps of the retained window, for every position. */
module WindowLaws {
  import opened Common
  import opened Spans
  import opened Provenance
  import opened ProvenanceLaws
  import opened RetainedWindow

  /** Spans are ordered, free of repeated packets, and inside the window. */
  ghost predicate RetainedOk(w: Retained) { Ordered(w.spans) && AllNormal(w.spans) && Within(w.spans, w.base, w.End()) }

  /** What the chunk says of its own positions, and the window of all others. */
  ghost predicate Said(w: Retained, c: Retained, p: int, ids: seq<nat>, complete: bool) {
    if Between(p, c.base, c.End()) then Says(c.spans, p, ids, complete) else Says(w.spans, p, ids, complete)
  }

  predicate HasByte(w: Retained, p: int, b: Byte) { Between(p, w.base, w.End()) && w.data[p - w.base] == b }

  /** The window keeps the chunk: it was not a replay, and does not end inside the window. */
  predicate Absorbed(w: Retained, c: Retained) {
    w.data == [] || (!Replays(w, c) && (Separate(w, c) || c.End() >= w.End()))
  }

  lemma WithinFromSays(spans: seq<Span>, lo: int, hi: int)
    requires Ordered(spans) && forall p, x, k :: Says(spans, p, x, k) ==> Between(p, lo, hi)
    ensures Within(spans, lo, hi)
  {
    forall i | 0 <= i < |spans| ensures lo <= spans[i].start && spans[i].end <= hi {
      assert Says(spans, spans[i].start, spans[i].ids, spans[i].complete);
      assert Says(spans, spans[i].end - 1, spans[i].ids, spans[i].complete);
    }
  }

  lemma SaysInside(w: Retained, p: int, x: seq<nat>, k: bool)
    requires RetainedOk(w) && Says(w.spans, p, x, k)
    ensures Between(p, w.base, w.End())
  {
  }

  // ---------------------------------------------------------------- cutting

  lemma RetainOk(spans: seq<Span>, lo: int, hi: int)
    requires Ordered(spans) && lo <= hi
    ensures Ordered(Retain(spans, lo, hi)) && AllNormal(Retain(spans, lo, hi)) && Within(Retain(spans, lo, hi), lo, hi)
  {
    ClipOk(spans, lo, hi);
    CoalesceWithin(Clip(spans, lo, hi), lo, hi);
  }

  lemma RetainSays(spans: seq<Span>, lo: int, hi: int, p: int, x: seq<nat>, k: bool)
    requires Ordered(spans) && AllNormal(spans) && lo <= hi
    ensures Says(Retain(spans, lo, hi), p, x, k) <==> Between(p, lo, hi) && Says(spans, p, x, k)
  {
    ClipOk(spans, lo, hi);
    CoalesceSays(Clip(spans, lo, hi), p, x, k);
    SaysTells(Clip(spans, lo, hi), p, x, k);
    SaysTells(spans, p, x, k);
  }

  lemma LastBytesOk(data: Bytes, n: nat)
    ensures |LastBytes(data, n)| == Min(n, |data|) && LastBytes(data, n) == data[|data| - |LastBytes(data, n)|..]
  {
  }

  lemma CutShape(w: Retained, n: nat)
    requires Ordered(w.spans)
    ensures RetainedOk(CutTo(w, n)) && CutTo(w, n).End() == w.End()
  {
    EndingOk(w.spans, LastBytes(w.data, n), w.End());
  }

  lemma EndingOk(spans: seq<Span>, kept: Bytes, end: int)
    requires Ordered(spans)
    ensures RetainedOk(Ending(spans, kept, end)) && Ending(spans, kept, end).End() == end
  {
    RetainOk(spans, end - |kept|, end);
  }

  /** A cut window is the tail of its source, bytes and spans alike. */
  lemma CutOk(w: Retained, n: nat)
    requires Ordered(w.spans)
    ensures RetainedOk(CutTo(w, n)) && CutTo(w, n).End() == w.End() && |CutTo(w, n).data| == Min(n, |w.data|)
    ensures CutTo(w, n).data == w.data[CutTo(w, n).base - w.base..]
  {
    CutShape(w, n);
    LastBytesOk(w.data, n);
  }

  lemma CutSays(w: Retained, n: nat, p: int, x: seq<nat>, k: bool)
    requires Ordered(w.spans) && AllNormal(w.spans)
    ensures Says(CutTo(w, n).spans, p, x, k) <==> Between(p, CutTo(w, n).base, w.End()) && Says(w.spans, p, x, k)
  {
    var kept := LastBytes(w.data, n);
    RetainSays(w.spans, w.End() - |kept|, w.End(), p, x, k);
  }

  // ---------------------------------------------------------------- appending

  lemma WindowsApart(w: Retained, c: Retained)
    requires RetainedOk(w) && RetainedOk(c) && c.base == w.End()
    ensures Before(w.spans, c.spans)
  {
    WithinMembers(w.spans, w.base, w.End());
    WithinMembers(c.spans, c.base, c.End());
  }

  lemma AppendedSays(w: Retained, c: Retained, p: int, x: seq<nat>, k: bool)
    requires RetainedOk(w) && RetainedOk(c) && c.base == w.End()
    ensures Says(Appended(w, c).spans, p, x, k) <==> Between(p, w.base, c.End()) && Said(w, c, p, x, k)
  {
    WindowsApart(w, c);
    PushAllSays(w.spans, c.spans, p, x, k);
    SaysTells(c.spans, p, x, k);
    if Says(w.spans, p, x, k) {
      SaysInside(w, p, x, k);
    }
    if Says(c.spans, p, x, k) {
      SaysInside(c, p, x, k);
    }
  }

  lemma AppendedOk(w: Retained, c: Retained)
    requires RetainedOk(w) && RetainedOk(c) && c.base == w.End()
    ensures RetainedOk(Appended(w, c))
  {
    WindowsApart(w, c);
    PushAllShape(w.spans, c.spans);
    var r := PushAll(w.spans, c.spans);
    forall p, x, k | Says(r, p, x, k) ensures Between(p, w.base, c.End()) {
      AppendedSays(w, c, p, x, k);
    }
    WithinFromSays(r, w.base, c.End());
  }

  // ---------------------------------------------------------------- overlaying

  lemma LaidShape(w: Retained, c: Retained)
    requires RetainedOk(w) && RetainedOk(c) && !Separate(w, c)
    ensures Ordered(Laid(w, c).spans) && AllNormal(Laid(w, c).spans)
  {
    OverlayOk(w.spans, c.spans, c.base, c.End());
  }

  lemma LaidSays(w: Retained, c: Retained, p: int, x: seq<nat>, k: bool)
    requires RetainedOk(w) && RetainedOk(c) && !Separate(w, c)
    ensures Says(Laid(w, c).spans, p, x, k) <==> Said(w, c, p, x, k)
    ensures Says(Laid(w, c).spans, p, x, k) ==> Between(p, Laid(w, c).base, Laid(w, c).End())
  {
    OverlayOk(w.spans, c.spans, c.base, c.End());
    SaysTells(w.spans, p, x, k);
    SaysTells(c.spans, p, x, k);
    if Says(w.spans, p, x, k) {
      SaysInside(w, p, x, k);
    }
  }

  lemma LaidBytes(w: Retained, c: Retained, p: int, b: Byte)
    requires !Separate(w, c)
    ensures HasByte(Laid(w, c), p, b) <==> if Between(p, c.base, c.End()) then HasByte(c, p, b) else HasByte(w, p, b)
  {
    if Between(p, Laid(w, c).base, Laid(w, c).End()) {
      OverlaidAt(w, c, p);
    }
  }

  lemma OverlaidAt(w: Retained, c: Retained, p: int)
    requires !Separate(w, c) && Between(p, Min(w.base, c.base), Max(w.End(), c.End()))
    ensures !Between(p, c.base, c.End()) ==> Between(p, w.base, w.End())
    ensures OverlaidData(w, c)[p - Min(w.base, c.base)]
            == if Between(p, c.base, c.End()) then c.data[p - c.base] else w.data[p - w.base]
  {
    var left := if w.base < c.base then w.data[..c.base - w.base] else [];
    var right := if c.End() < w.End() then w.data[c.End() - w.base..] else [];
    ThreeAt(left, c.data, right, p - Min(w.base, c.base));
  }

  lemma ThreeAt(a: Bytes, b: Bytes, c: Bytes, i: nat)
    requires i < |a| + |b| + |c|
    ensures (a + b + c)[i]
            == if i < |a| then a[i] else if i < |a| + |b| then b[i - |a|] else c[i - |a| - |b|]
  {
  }

  lemma ScanClip(laid: Retained, p: int, x: seq<nat>, k: bool)
    requires Ordered(laid.spans) && AllNormal(laid.spans)
    ensures var r := Clip(laid.spans, laid.base, laid.End());
            && Ordered(r) && AllNormal(r) && Within(r, laid.base, laid.End())
            && (Says(r, p, x, k) <==> Between(p, laid.base, laid.End()) && Says(laid.spans, p, x, k))
  {
    ClipOk(laid.spans, laid.base, laid.End());
    SaysTells(laid.spans, p, x, k);
  }

  // ---------------------------------------------------------------- the merge

  /** Both the window and the scanned view keep their spans ordered and inside their bytes. */
  lemma MergeShape(w: Retained, c: Retained, overlap: nat)
    requires RetainedOk(w) && RetainedOk(c)
    ensures RetainedOk(Merge(w, c, overlap).window) && RetainedOk(Merge(w, c, overlap).scan)
  {
    if w.data == [] || (!Replays(w, c) && Separate(w, c)) {
      CutOk(c, overlap);
    } else if !Replays(w, c) {
      if c.base == w.End() {
        AppendedOk(w, c);
        CutOk(Appended(w, c), overlap);
      } else {
        LaidShape(w, c);
        CutOk(Laid(w, c), overlap);
        ScanClip(Laid(w, c), 0, [], false);
      }
    }
  }

  /**
   * The scanned view attributes each of its positions as the chunk does where the chunk has bytes
   * and as the window did elsewhere; so does the window, unless the chunk was not absorbed, when the
   * window does not change.
   */
  lemma MergeSays(w: Retained, c: Retained, overlap: nat, p: int, x: seq<nat>, k: bool)
    requires RetainedOk(w) && RetainedOk(c)
    ensures var m := Merge(w, c, overlap);
            && (Says(m.scan.spans, p, x, k) <==> Between(p, m.scan.base, m.scan.End()) && Said(w, c, p, x, k))
            && (if Absorbed(w, c)
                then Says(m.window.spans, p, x, k) <==> Between(p, m.window.base, m.window.End()) && Said(w, c, p, x, k)
                else m.window == w)
  {
    if w.data == [] || (!Replays(w, c) && Separate(w, c)) {
      IslandSays(w, c, overlap, p, x, k);
    } else if !Replays(w, c) {
      if c.base == w.End() {
        AppendMergeSays(w, c, overlap, p, x, k);
      } else {
        OverlapMergeSays(w, c, overlap, p, x, k);
      }
    }
  }

  lemma IslandSays(w: Retained, c: Retained, overlap: nat, p: int, x: seq<nat>, k: bool)
    requires RetainedOk(w) && RetainedOk(c)
    ensures Says(c.spans, p, x, k) <==> Between(p, c.base, c.End()) && Said(w, c, p, x, k)
    ensures var r := CutTo(c, overlap); Says(r.spans, p, x, k) <==> Between(p, r.base, r.End()) && Said(w, c, p, x, k)
  {
    if Says(c.spans, p, x, k) {
      SaysInside(c, p, x, k);
    }
    CutOk(c, overlap);
    CutSays(c, overlap, p, x, k);
  }

  lemma AppendMergeSays(w: Retained, c: Retained, overlap: nat, p: int, x: seq<nat>, k: bool)
    requires RetainedOk(w) && RetainedOk(c) && c.base == w.End()
    ensures var m := Extend(Appended(w, c), |c.data|, overlap);
            && (Says(m.scan.spans, p, x, k) <==> Between(p, m.scan.base, m.scan.End()) && Said(w, c, p, x, k))
            && (Says(m.window.spans, p, x, k) <==> Between(p, m.window.base, m.window.End()) && Said(w, c, p, x, k))
  {
    var all := Appended(w, c);
    AppendedOk(w, c);
    AppendedSays(w, c, p, x, k);
    CutOk(all, overlap);
    CutSays(all, overlap, p, x, k);
  }

  lemma OverlapMergeSays(w: Retained, c: Retained, overlap: nat, p: int, x: seq<nat>, k: bool)
    requires RetainedOk(w) && RetainedOk(c) && !Separate(w, c)
    ensures var m := Overlap(Laid(w, c), w, c.End(), overlap);
            && (Says(m.scan.spans, p, x, k) <==> Between(p, m.scan.base, m.scan.End()) && Said(w, c, p, x, k))
            && (c.End() >= w.End() ==>
                  (Says(m.window.spans, p, x, k) <==> Between(p, m.window.base, m.window.End()) && Said(w, c, p, x, k)))
  {
    var laid := Laid(w, c);
    LaidShape(w, c);
    LaidSays(w, c, p, x, k);
    CutOk(laid, overlap);
    CutSays(laid, overlap, p, x, k);
    ScanClip(laid, p, x, k);
  }

  /** At `p` the view holds the chunk's byte where the chunk has one, and the window's elsewhere. */
  predicate ShowsByte(scan: Retained, w: Retained, c: Retained, p: int, b: Byte) {
    Between(p, scan.base, scan.End()) ==>
      (HasByte(scan, p, b) <==> if Between(p, c.base, c.End()) then HasByte(c, p, b) else HasByte(w, p, b))
  }

  predicate IsTail(window: Retained, scan: Retained) {
    window.End() == scan.End() && scan.base <= window.base && window.data == scan.data[window.base - scan.base..]
  }

  lemma CutIsTail(w: Retained, view: Retained, n: nat)
    requires Ordered(w.spans) && view.base == w.base && view.data == w.data
    ensures IsTail(CutTo(w, n), view) && IsTail(CutTo(w, n), CutTo(w, n)) && IsTail(view, view)
  {
    CutOk(w, n);
  }

  lemma JoinByte(base: int, data: Bytes, more: Bytes, p: int, b: Byte)
    requires Between(p, base, base + |data| + |more|)
    ensures (data + more)[p - base] == b <==> if p < base + |data| then data[p - base] == b
            else more[p - base - |data|] == b
  {
  }

  lemma TailByte(tail: Retained, view: Retained, w: Retained, c: Retained, p: int, b: Byte)
    requires IsTail(tail, view) && ShowsByte(view, w, c, p, b)
    ensures ShowsByte(tail, w, c, p, b)
  {
    if Between(p, tail.base, tail.End()) {
      assert tail.data[p - tail.base] == view.data[p - view.base];
    }
  }

  lemma AppendedByte(all: Retained, n: nat, w: Retained, c: Retained, p: int, b: Byte)
    requires Ordered(all.spans) && all.base == w.base && all.data == w.data + c.data && c.base == w.End()
    ensures ShowsByte(all, w, c, p, b) && ShowsByte(CutTo(all, n), w, c, p, b)
  {
    if Between(p, all.base, all.End()) {
      JoinByte(w.base, w.data, c.data, p, b);
    }
    CutIsTail(all, all, n);
    TailByte(CutTo(all, n), all, w, c, p, b);
  }

  /** The scanned view holds the chunk's bytes over the window's, and a window that changed is its tail. */
  lemma MergeBytes(w: Retained, c: Retained, overlap: nat, p: int, b: Byte)
    requires RetainedOk(w) && RetainedOk(c)
    ensures ShowsByte(Merge(w, c, overlap).scan, w, c, p, b)
    ensures Absorbed(w, c) ==> IsTail(Merge(w, c, overlap).window, Merge(w, c, overlap).scan)
    ensures Absorbed(w, c) ==> Merge(w, c, overlap).scan.End() == c.End()
  {
    if w.data == [] || (!Replays(w, c) && Separate(w, c)) {
      CutIsTail(c, c, overlap);
    } else if !Replays(w, c) {
      if c.base == w.End() {
        ExtendBytes(w, c, overlap, p, b);
      } else {
        OverlapBytes(w, c, overlap, p, b);
      }
    }
  }

  /** What `MergeBytes` says of a pair of results. */
  ghost predicate BytesOk(m: Merged, w: Retained, c: Retained, p: int, b: Byte) {
    && ShowsByte(m.scan, w, c, p, b)
    && (Absorbed(w, c) ==> IsTail(m.window, m.scan) && m.scan.End() == c.End())
  }

  lemma ExtendBytes(w: Retained, c: Retained, overlap: nat, p: int, b: Byte)
    requires RetainedOk(w) && RetainedOk(c) && c.base == w.End()
    ensures BytesOk(Extend(Appended(w, c), |c.data|, overlap), w, c, p, b)
  {
    AppendedOk(w, c);
    CutIsTail(Appended(w, c), Appended(w, c), overlap);
    CutOk(Appended(w, c), overlap);
    AppendedByte(Appended(w, c), overlap, w, c, p, b);
  }

  lemma OverlapBytes(w: Retained, c: Retained, overlap: nat, p: int, b: Byte)
    requires RetainedOk(w) && RetainedOk(c) && w.data != [] && !Replays(w, c) && !Separate(w, c)
    ensures BytesOk(Overlap(Laid(w, c), w, c.End(), overlap), w, c, p, b)
  {
    LaidShape(w, c);
    CutIsTail(Laid(w, c), Overlap(Laid(w, c), w, c.End(), overlap).scan, overlap);
    LaidBytes(w, c, p, b);
  }

  /** The window never outgrows its overlap and slack, and cuts no more of the view than that requires. */
  lemma MergeBounds(w: Retained, c: Retained, overlap: nat)
    requires RetainedOk(w) && RetainedOk(c) && |w.data| <= overlap + TrimSlack(overlap)
    ensures var m := Merge(w, c, overlap);
            && |m.window.data| <= overlap + TrimSlack(overlap)
            && (Absorbed(w, c) ==> |m.window.data| >= Min(overlap, |m.scan.data|))
  {
    if w.data == [] || (!Replays(w, c) && Separate(w, c)) {
      CutOk(c, overlap);
    } else if !Replays(w, c) {
      if c.base == w.End() {
        AppendedOk(w, c);
        CutOk(Appended(w, c), overlap);
      } else {
        LaidShape(w, c);
        CutOk(Laid(w, c), overlap);
      }
    }
  }

  lemma SuffixSays(spans: seq<Span>, n: nat, p: int, x: seq<nat>, k: bool)
    requires Ordered(spans) && n <= |spans|
    ensures Says(spans[n..], p, x, k) <==> Says(spans, p, x, k) && (n > 0 ==> spans[n - 1].end <= p)
  {
    var r := spans[n..];
    if Says(r, p, x, k) {
      var i :| 0 <= i < |r| && r[i].Holds(p) && r[i].ids == x && r[i].complete == k;
      assert r[i] == spans[n + i];
    }
    if Says(spans, p, x, k) && (n > 0 ==> spans[n - 1].end <= p) {
      var i :| 0 <= i < |spans| && spans[i].Holds(p) && spans[i].ids == x && spans[i].complete == k;
      assert i >= n;
      assert r[i - n] == spans[i];
    }
  }

  /** Dropping the oldest spans to meet a cap forgets exactly the attributions up to the last one dropped. */
  lemma ForgetOk(w: Retained, n: nat, p: int, x: seq<nat>, k: bool)
    requires RetainedOk(w) && n <= |w.spans|
    ensures RetainedOk(Forget(w, n))
    ensures Says(Forget(w, n).spans, p, x, k) <==> Says(w.spans, p, x, k) && (n > 0 ==> w.spans[n - 1].end <= p)
  {
    SuffixSays(w.spans, n, p, x, k);
    assert forall i :: 0 <= i < |w.spans| - n ==> w.spans[n..][i] == w.spans[n + i];
  }
}
