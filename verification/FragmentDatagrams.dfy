/** What one datagram under reassembly keeps about the fragments merged into it. */
module FragmentDatagrams {
  import opened Common
  import opened Ranges
  import opened Fragments

  // ---------------------------------------------------------------- bytes at positions

  /** Some range has byte `b` at position `p`. */
  ghost predicate Holds(s: seq<Piece>, p: int, b: Byte) { exists q :: q in s && q.Covers(p) && q.At(p) == b }

  /** Ordered, non-empty, and with a hole between any two ranges. */
  ghost predicate Separated(s: seq<Piece>) {
    && (forall q :: q in s ==> q.data != [])
    && (forall i, j :: 0 <= i < j < |s| ==> s[i].End() < s[j].start)
  }

  lemma HoldsAppend(a: seq<Piece>, b: seq<Piece>, p: int, v: Byte)
    ensures Holds(a + b, p, v) <==> Holds(a, p, v) || Holds(b, p, v)
  {
    forall q ensures q in a + b <==> q in a || q in b {}
  }

  lemma HoldsOne(x: Piece, p: int, v: Byte)
    ensures Holds([x], p, v) <==> x.Covers(p) && x.At(p) == v
  {
    assert x in [x];
  }

  lemma AttachHolds(merged: seq<Piece>, x: Piece, p: int, v: Byte)
    ensures Holds(Attach(merged, x), p, v) <==> Holds(merged, p, v) || (x.Covers(p) && x.At(p) == v)
  {
    HoldsAppend(merged, [x], p, v);
    HoldsOne(x, p, v);
    if merged != [] && merged[|merged| - 1].End() == x.start {
      var init, last := merged[..|merged| - 1], merged[|merged| - 1];
      var joined := last.(data := last.data + x.data);
      assert merged == init + [last];
      HoldsAppend(init, [last], p, v);
      HoldsAppend(init, [joined], p, v);
      HoldsOne(last, p, v);
      HoldsOne(joined, p, v);
    }
  }

  lemma AttachSeparated(merged: seq<Piece>, x: Piece)
    requires Separated(merged) && x.data != []
    requires merged != [] ==> merged[|merged| - 1].End() <= x.start
    ensures var r := Attach(merged, x); Separated(r) && r[|r| - 1].End() == x.End()
  {
    var r := Attach(merged, x);
    forall i, j | 0 <= i < j < |r| ensures r[i].End() < r[j].start {
      assert r[i] == merged[i];
      assert merged[i].End() <= merged[|merged| - 1].End();
    }
  }

  lemma AttachTotal(merged: seq<Piece>, x: Piece)
    ensures Total(Attach(merged, x)) == Total(merged) + |x.data|
  {
    TotalAppend(merged, [x]);
    if merged != [] && merged[|merged| - 1].End() == x.start {
      var init, last := merged[..|merged| - 1], merged[|merged| - 1];
      assert merged == init + [last];
      TotalAppend(init, [last]);
      TotalAppend(init, [last.(data := last.data + x.data)]);
    }
  }

  /** Coalescing a sorted disjoint list leaves a hole between any two ranges. */
  lemma {:induction false} CoalesceSeparated(s: seq<Piece>)
    requires SortedDisjoint(s)
    ensures var r := Coalesce(s); Separated(r) && (s != [] ==> r != [] && r[|r| - 1].End() == s[|s| - 1].End())
    decreases |s|
  {
    if s != [] {
      var init := s[..|s| - 1];
      SortedPrefix(s);
      CoalesceSeparated(init);
      AttachSeparated(Coalesce(init), s[|s| - 1]);
    }
  }

  lemma SortedPrefix(s: seq<Piece>)
    requires SortedDisjoint(s) && s != []
    ensures SortedDisjoint(s[..|s| - 1]) && s[|s| - 1].data != []
    ensures |s| > 1 ==> s[..|s| - 1][|s| - 2].End() <= s[|s| - 1].start
  {
    assert s[|s| - 1] in s;
    assert forall q :: q in s[..|s| - 1] ==> q in s;
  }

  lemma {:induction false} CoalesceTotal(s: seq<Piece>)
    ensures Total(Coalesce(s)) == Total(s)
    decreases |s|
  {
    if s != [] {
      var init, last := s[..|s| - 1], s[|s| - 1];
      assert s == init + [last];
      CoalesceTotal(init);
      TotalAppend(init, [last]);
      AttachTotal(Coalesce(init), last);
    }
  }

  lemma {:induction false} CoalesceHolds(s: seq<Piece>, p: int, v: Byte)
    ensures Holds(Coalesce(s), p, v) <==> Holds(s, p, v)
    decreases |s|
  {
    if s != [] {
      var init, last := s[..|s| - 1], s[|s| - 1];
      assert s == init + [last];
      CoalesceHolds(init, p, v);
      AttachHolds(Coalesce(init), last, p, v);
      HoldsAppend(init, [last], p, v);
      HoldsOne(last, p, v);
    }
  }

  lemma SeparatedIsDisjoint(s: seq<Piece>)
    requires Separated(s)
    ensures SortedDisjoint(s)
  {
  }

  // ---------------------------------------------------------------- conflicts

  ghost predicate DiffersAt(x: Piece, q: Piece, p: int) { x.Covers(p) && q.Covers(p) && x.At(p) != q.At(p) }

  lemma SlicesDiffer(a: Bytes, b: Bytes) returns (k: nat)
    requires |a| == |b| && a != b
    ensures k < |a| && a[k] != b[k]
  {
    k :| 0 <= k < |a| && a[k] != b[k];
  }

  lemma CutAt(x: Piece, lo: int, hi: int, k: nat)
    requires x.start <= lo <= hi <= x.End() && k < hi - lo
    ensures Cut(x, lo, hi)[k] == x.At(lo + k)
  {
  }

  lemma CutsDiffer(x: Piece, q: Piece, lo: int, hi: int)
    requires x.start <= lo <= hi <= x.End() && q.start <= lo <= hi <= q.End() && Cut(x, lo, hi) != Cut(q, lo, hi)
    ensures exists p :: DiffersAt(x, q, p)
  {
    var k := SlicesDiffer(Cut(x, lo, hi), Cut(q, lo, hi));
    CutAt(x, lo, hi, k);
    CutAt(q, lo, hi, k);
    assert DiffersAt(x, q, lo + k);
  }

  lemma CutsAgree(x: Piece, q: Piece, lo: int, hi: int, p: int)
    requires x.start <= lo <= hi <= x.End() && q.start <= lo <= hi <= q.End() && Cut(x, lo, hi) == Cut(q, lo, hi)
    requires lo <= p < hi
    ensures x.At(p) == q.At(p)
  {
    CutAt(x, lo, hi, p - lo);
    CutAt(q, lo, hi, p - lo);
  }

  /** The slice comparison finds exactly the positions where two ranges differ. */
  lemma DisagreeFinds(x: Piece, q: Piece)
    requires Disagree(x, q)
    ensures exists p :: DiffersAt(x, q, p)
  {
    CutsDiffer(x, q, Max(x.start, q.start), Min(x.End(), q.End()));
  }

  lemma AgreeingMeans(x: Piece, q: Piece, p: int)
    requires !Disagree(x, q)
    ensures !DiffersAt(x, q, p)
  {
    if x.Covers(p) && q.Covers(p) {
      CutsAgree(x, q, Max(x.start, q.start), Min(x.End(), q.End()), p);
    }
  }

  lemma {:induction false} NoneDisagrees(x: Piece, existing: seq<Piece>, q: Piece)
    requires !Conflicting(x, existing) && q in existing
    ensures !Disagree(x, q)
    decreases |existing|
  {
    if q != existing[0] {
      NoneDisagrees(x, existing[1..], q);
    }
  }

  lemma {:induction false} NoConflictIf(x: Piece, existing: seq<Piece>)
    requires forall q :: q in existing ==> !Disagree(x, q)
    ensures !Conflicting(x, existing)
    decreases |existing|
  {
    if existing != [] {
      assert existing[0] in existing;
      assert forall q :: q in existing[1..] ==> q in existing;
      NoConflictIf(x, existing[1..]);
    }
  }

  /** Without a conflict, a fragment repeats what the ranges hold wherever they overlap. */
  lemma NoConflict(x: Piece, existing: seq<Piece>, p: int)
    requires !Conflicting(x, existing) && x.Covers(p) && Covered(existing, p)
    ensures Holds(existing, p, x.At(p))
  {
    var q :| q in existing && q.Covers(p);
    NoneDisagrees(x, existing, q);
    AgreeingMeans(x, q, p);
  }

  // ---------------------------------------------------------------- merging

  /** Everything a merge does to the bytes held at one position. */
  lemma MergedHolds(ranges: seq<Piece>, x: Piece, p: int, v: Byte)
    requires !Conflicting(x, ranges)
    ensures var r := Coalesce(SortByStart(ranges + Uncovered(x, ranges)));
            Holds(r, p, v) <==> Holds(ranges, p, v) || (x.Covers(p) && x.At(p) == v && !Covered(ranges, p))
  {
    var additions := Uncovered(x, ranges);
    CoalesceHolds(SortByStart(ranges + additions), p, v);
    SortMembers(ranges + additions);
    HoldsAppend(ranges, additions, p, v);
    AdditionHolds(ranges, x, p, v);
  }

  lemma AdditionHolds(ranges: seq<Piece>, x: Piece, p: int, v: Byte)
    ensures Holds(Uncovered(x, ranges), p, v) <==> x.Covers(p) && x.At(p) == v && !Covered(ranges, p)
  {
    var additions := Uncovered(x, ranges);
    UncoveredExact(x, ranges);
    forall q | q in additions && q.Covers(p) ensures x.Covers(p) && q.At(p) == x.At(p) {
      assert PartOf(q, x);
    }
    if x.Covers(p) && !Covered(ranges, p) {
      assert Covered(additions, p);
      var q :| q in additions && q.Covers(p);
    }
    if Holds(additions, p, v) {
      assert Covered(additions, p);
    }
  }

  lemma MergedShape(ranges: seq<Piece>, x: Piece)
    requires Separated(ranges)
    ensures var r := Coalesce(SortByStart(ranges + Uncovered(x, ranges)));
            && Separated(r) && Total(r) == Total(ranges) + Total(Uncovered(x, ranges))
  {
    var additions := Uncovered(x, ranges);
    SeparatedIsDisjoint(ranges);
    UncoveredExact(x, ranges);
    SortExtended(ranges, additions);
    SortMembers(ranges + additions);
    TotalAppend(ranges, additions);
    CoalesceSeparated(SortByStart(ranges + additions));
    CoalesceTotal(SortByStart(ranges + additions));
  }

  // ---------------------------------------------------------------- the datagram invariant

  ghost predicate Agrees(ranges: seq<Piece>, x: Piece) {
    forall p :: x.Covers(p) ==> Holds(ranges, p, x.At(p))
  }

  ghost predicate AllAgree(ranges: seq<Piece>, seen: seq<Fragment>) {
    forall i :: 0 <= i < |seen| ==> Agrees(ranges, seen[i].AsPiece())
  }

  ghost predicate SeenAt(seen: seq<Fragment>, p: int) { exists i :: 0 <= i < |seen| && seen[i].AsPiece().Covers(p) }

  ghost predicate Sourced(ranges: seq<Piece>, seen: seq<Fragment>) {
    forall p, b :: Holds(ranges, p, b) ==> SeenAt(seen, p)
  }

  /** The flags say exactly what the merged fragments said. */
  ghost predicate FlagsOk(s: Datagram) {
    && (forall i :: 0 <= i < |s.seen| ==> s.seen[i].key == s.key && 0 <= s.seen[i].offset)
    && (s.finalEnd.None? ==> forall i :: 0 <= i < |s.seen| ==> s.seen[i].more)
    && (s.finalEnd.Some? ==> exists i :: 0 <= i < |s.seen| && !s.seen[i].more)
    && (forall i :: 0 <= i < |s.seen| && !s.seen[i].more ==> s.finalEnd == Some(s.seen[i].End()))
    && (s.truncated <==> exists i :: 0 <= i < |s.seen| && s.seen[i].truncated)
    && (s.first.Some? <==> exists i :: 0 <= i < |s.seen| && s.seen[i].offset == 0)
  }

  ghost predicate DatagramOk(s: Datagram) {
    && Separated(s.ranges) && s.bytes == Total(s.ranges)
    && AllAgree(s.ranges, s.seen) && Sourced(s.ranges, s.seen)
    && FlagsOk(s)
    && Distinct(s.ids)
  }

  lemma NewDatagramOk(p: Fragment, now: int)
    ensures DatagramOk(NewDatagram(p, now))
  {
  }

  lemma AbsorbFlags(s: Datagram, p: Fragment, now: int)
    requires FlagsOk(s) && p.key == s.key && 0 <= p.offset && !Clashes(Refresh(s, p, now), p)
    ensures FlagsOk(Absorb(Refresh(s, p, now), p))
  {
    FlagsSnoc(s, p, Absorb(Refresh(s, p, now), p));
  }

  lemma FlagsSnoc(s: Datagram, p: Fragment, r: Datagram)
    requires FlagsOk(s) && p.key == s.key && 0 <= p.offset
    requires p.more || s.finalEnd.None? || s.finalEnd.value == p.End()
    requires r.key == s.key && r.seen == s.seen + [p] && r.truncated == (s.truncated || p.truncated)
    requires r.finalEnd == if p.more then s.finalEnd else Some(p.End())
    requires r.first.Some? <==> s.first.Some? || p.offset == 0
    ensures FlagsOk(r)
  {
    assert forall i :: 0 <= i < |s.seen| ==> r.seen[i] == s.seen[i];
    assert r.seen[|s.seen|] == p;
  }

  lemma AbsorbRanges(s: Datagram, p: Fragment)
    requires AllAgree(s.ranges, s.seen) && Sourced(s.ranges, s.seen) && !Conflicting(p.AsPiece(), s.ranges)
    ensures AllAgree(NewRanges(s, p), s.seen + [p]) && Sourced(NewRanges(s, p), s.seen + [p])
  {
    var r, x, seen := NewRanges(s, p), p.AsPiece(), s.seen + [p];
    forall i | 0 <= i < |seen| ensures Agrees(r, seen[i].AsPiece()) {
      if i < |s.seen| {
        assert seen[i] == s.seen[i];
        StillAgrees(s.ranges, x, s.seen[i].AsPiece());
      } else {
        NowAgrees(s.ranges, x);
      }
    }
    forall q, b | Holds(r, q, b) ensures SeenAt(seen, q) {
      MergedHolds(s.ranges, x, q, b);
      if Holds(s.ranges, q, b) {
        var i :| 0 <= i < |s.seen| && s.seen[i].AsPiece().Covers(q);
        assert seen[i].AsPiece().Covers(q);
      } else {
        assert seen[|s.seen|].AsPiece().Covers(q);
      }
    }
  }

  lemma StillAgrees(ranges: seq<Piece>, x: Piece, y: Piece)
    requires Agrees(ranges, y) && !Conflicting(x, ranges)
    ensures Agrees(Coalesce(SortByStart(ranges + Uncovered(x, ranges))), y)
  {
    forall p | y.Covers(p) ensures Holds(Coalesce(SortByStart(ranges + Uncovered(x, ranges))), p, y.At(p)) {
      MergedHolds(ranges, x, p, y.At(p));
    }
  }

  lemma NowAgrees(ranges: seq<Piece>, x: Piece)
    requires !Conflicting(x, ranges)
    ensures Agrees(Coalesce(SortByStart(ranges + Uncovered(x, ranges))), x)
  {
    forall p | x.Covers(p) ensures Holds(Coalesce(SortByStart(ranges + Uncovered(x, ranges))), p, x.At(p)) {
      MergedHolds(ranges, x, p, x.At(p));
      if Covered(ranges, p) {
        NoConflict(x, ranges, p);
      }
    }
  }

  /** Absorbing a fragment that clashes with nothing keeps the datagram sound. */
  lemma AbsorbOk(s: Datagram, p: Fragment, now: int)
    requires DatagramOk(s) && p.key == s.key && 0 <= p.offset && !Clashes(Refresh(s, p, now), p)
    ensures DatagramOk(Absorb(Refresh(s, p, now), p))
  {
    AbsorbFlags(s, p, now);
    AbsorbRanges(Refresh(s, p, now), p);
    AbsorbShape(Refresh(s, p, now), p);
  }

  lemma AbsorbShape(s: Datagram, p: Fragment)
    requires Separated(s.ranges) && s.bytes == Total(s.ranges) && Distinct(s.ids)
    ensures var r := Absorb(s, p); Separated(r.ranges) && r.bytes == Total(r.ranges) && Distinct(r.ids)
  {
    MergedShape(s.ranges, p.AsPiece());
    AppendNewDistinct(s.ids, p.Ids());
  }

  // ---------------------------------------------------------------- completion

  /** With holes between the ranges, only the first one can be the datagram. */
  lemma AssembleMeans(ranges: seq<Piece>, final: int)
    requires Separated(ranges)
    ensures var v := Assemble(ranges, 0, final, []);
            && (v.Complete? <==> if ranges == [] then final == 0 else ranges[0].start == 0 && ranges[0].End() == final)
            && (v.Complete? && ranges != [] ==> v.payload == ranges[0].data)
            && (v.Complete? && ranges == [] ==> v.payload == [])
            && (v.Overrun? <==> ranges != [] && ranges[0].start == 0 && ranges[0].End() > final)
  {
    if ranges != [] && ranges[0].start == 0 && ranges[0].End() < final {
      if |ranges| > 1 {
        assert ranges[1..][0] == ranges[1] && ranges[0].End() < ranges[1].start;
      }
    }
    if ranges != [] {
      assert [] + ranges[0].data == ranges[0].data;
    }
  }

  /** A position is held exactly when some merged fragment carried it. */
  lemma HeldIsSeen(s: Datagram, p: int)
    requires DatagramOk(s)
    ensures Covered(s.ranges, p) <==> SeenAt(s.seen, p)
  {
    if Covered(s.ranges, p) {
      var q :| q in s.ranges && q.Covers(p);
      assert Holds(s.ranges, p, q.At(p));
    }
    if SeenAt(s.seen, p) {
      var i :| 0 <= i < |s.seen| && s.seen[i].AsPiece().Covers(p);
      assert Agrees(s.ranges, s.seen[i].AsPiece());
      assert Holds(s.ranges, p, s.seen[i].AsPiece().At(p));
    }
  }

  lemma FirstRangeAt(s: Datagram, p: int, v: Byte)
    requires DatagramOk(s) && s.ranges != [] && s.ranges[0].Covers(p) && Holds(s.ranges, p, v)
    ensures s.ranges[0].At(p) == v
  {
    var q :| q in s.ranges && q.Covers(p) && q.At(p) == v;
    var i :| 0 <= i < |s.ranges| && s.ranges[i] == q;
  }

  /**
   * Agreement: a payload handed over has the length the final fragment announced, every byte of it
   * was carried by a merged fragment, and it agrees with every merged fragment wherever they meet.
   */
  lemma CompleteAgrees(s: Datagram, payload: Bytes)
    requires DatagramOk(s) && Judge(s) == Complete(payload)
    ensures s.finalEnd == Some(|payload|) && !s.truncated && s.first.Some?
    ensures forall i, p :: 0 <= i < |s.seen| && s.seen[i].AsPiece().Covers(p) && p < |payload| ==>
              0 <= p && payload[p] == s.seen[i].AsPiece().At(p)
    ensures forall p :: 0 <= p < |payload| ==> SeenAt(s.seen, p)
  {
    AssembleMeans(s.ranges, s.finalEnd.value);
    forall i, p | 0 <= i < |s.seen| && s.seen[i].AsPiece().Covers(p) && p < |payload|
      ensures 0 <= p && payload[p] == s.seen[i].AsPiece().At(p)
    {
      PayloadAt(s, payload, i, p);
    }
    forall p | 0 <= p < |payload| ensures SeenAt(s.seen, p) {
      assert s.ranges[0] in s.ranges && s.ranges[0].Covers(p);
      HeldIsSeen(s, p);
    }
  }

  lemma PayloadAt(s: Datagram, payload: Bytes, i: nat, p: int)
    requires DatagramOk(s) && s.ranges != [] && s.ranges[0].start == 0 && payload == s.ranges[0].data
    requires i < |s.seen| && s.seen[i].AsPiece().Covers(p) && p < |payload|
    ensures 0 <= p && payload[p] == s.seen[i].AsPiece().At(p)
  {
    assert 0 <= s.seen[i].offset;
    assert Agrees(s.ranges, s.seen[i].AsPiece());
    FirstRangeAt(s, p, s.seen[i].AsPiece().At(p));
  }

  // ---------------------------------------------------------------- slices of one datagram

  /** A genuine, untruncated fragment of datagram `whole`. */
  ghost predicate SliceOf(whole: Bytes, x: Fragment) {
    && 0 <= x.offset && x.End() <= |whole| && !x.truncated
    && x.payload == whole[x.offset..x.End()]
    && (x.more <==> x.End() < |whole|)
  }

  ghost predicate AllSlices(whole: Bytes, seen: seq<Fragment>) {
    forall i :: 0 <= i < |seen| ==> SliceOf(whole, seen[i])
  }

  lemma HoldsUnique(s: seq<Piece>, p: int, a: Byte, b: Byte)
    requires Separated(s) && Holds(s, p, a) && Holds(s, p, b)
    ensures a == b
  {
  }

  lemma SliceByte(whole: Bytes, x: Fragment, p: int)
    requires SliceOf(whole, x) && x.AsPiece().Covers(p)
    ensures 0 <= p < |whole| && x.AsPiece().At(p) == whole[p]
  {
  }

  /** What the ranges hold is the datagram, as far as they reach. */
  lemma HeldIsWhole(s: Datagram, whole: Bytes, p: int, v: Byte)
    requires DatagramOk(s) && AllSlices(whole, s.seen) && Holds(s.ranges, p, v)
    ensures 0 <= p < |whole| && v == whole[p]
  {
    var i :| 0 <= i < |s.seen| && s.seen[i].AsPiece().Covers(p);
    SliceByte(whole, s.seen[i], p);
    assert Agrees(s.ranges, s.seen[i].AsPiece());
    HoldsUnique(s.ranges, p, v, whole[p]);
  }

  /** Genuine fragments of one datagram never clash, in any order and with any overlap. */
  lemma SlicesNeverClash(s: Datagram, p: Fragment, now: int, whole: Bytes)
    requires DatagramOk(s) && AllSlices(whole, s.seen) && SliceOf(whole, p)
    ensures !Clashes(Refresh(s, p, now), p)
  {
    var x := p.AsPiece();
    forall q | q in s.ranges ensures !Disagree(x, q) {
      forall k | x.Covers(k) && q.Covers(k) ensures !DiffersAt(x, q, k) {
        assert q in s.ranges && Holds(s.ranges, k, q.At(k));
        HeldIsWhole(s, whole, k, q.At(k));
        SliceByte(whole, p, k);
      }
      if Disagree(x, q) {
        DisagreeFinds(x, q);
      }
    }
    NoConflictIf(x, s.ranges);
    if s.finalEnd.Some? && !p.more {
      var i :| 0 <= i < |s.seen| && !s.seen[i].more;
      assert SliceOf(whole, s.seen[i]);
    }
  }

  ghost predicate FullySeen(seen: seq<Fragment>, n: nat) { forall p :: 0 <= p < n ==> SeenAt(seen, p) }

  lemma EdgesSeen(s: Datagram, whole: Bytes)
    requires DatagramOk(s) && AllSlices(whole, s.seen) && whole != [] && FullySeen(s.seen, |whole|)
    ensures s.first.Some? && s.finalEnd == Some(|whole|) && !s.truncated
  {
    assert SeenAt(s.seen, 0);
    var i :| 0 <= i < |s.seen| && s.seen[i].AsPiece().Covers(0);
    assert SliceOf(whole, s.seen[i]) && s.seen[i].offset == 0;
    FinalSeen(s.seen, whole);
    forall k | 0 <= k < |s.seen| ensures !s.seen[k].truncated {
      assert SliceOf(whole, s.seen[k]);
    }
  }

  lemma FinalSeen(seen: seq<Fragment>, whole: Bytes)
    requires AllSlices(whole, seen) && whole != [] && FullySeen(seen, |whole|)
    ensures exists j :: 0 <= j < |seen| && !seen[j].more && seen[j].End() == |whole|
  {
    assert SeenAt(seen, |whole| - 1);
    var j :| 0 <= j < |seen| && seen[j].AsPiece().Covers(|whole| - 1);
    assert SliceOf(whole, seen[j]);
  }

  /** Complete coverage leaves one range, which is the datagram. */
  lemma OneRange(s: Datagram, whole: Bytes)
    requires DatagramOk(s) && AllSlices(whole, s.seen) && whole != [] && FullySeen(s.seen, |whole|)
    ensures s.ranges != [] && s.ranges[0].start == 0 && s.ranges[0].data == whole
  {
    FirstRangeStarts(s, whole);
    var first := s.ranges[0];
    var e := first.End();
    assert first in s.ranges;
    EndNotHeld(s.ranges);
    HeldIsSeen(s, e);
    assert e >= |whole|;
    assert first.Covers(e - 1) && Holds(s.ranges, e - 1, first.At(e - 1));
    HeldIsWhole(s, whole, e - 1, first.At(e - 1));
    forall k | 0 <= k < |whole| ensures first.data[k] == whole[k] {
      assert first.Covers(k) && Holds(s.ranges, k, first.At(k));
      HeldIsWhole(s, whole, k, first.At(k));
    }
  }

  lemma EndNotHeld(ranges: seq<Piece>)
    requires Separated(ranges) && ranges != []
    ensures !Covered(ranges, ranges[0].End())
  {
    forall q | q in ranges ensures !q.Covers(ranges[0].End()) {
      var j :| 0 <= j < |ranges| && ranges[j] == q;
    }
  }

  lemma FirstRangeStarts(s: Datagram, whole: Bytes)
    requires DatagramOk(s) && AllSlices(whole, s.seen) && whole != [] && FullySeen(s.seen, |whole|)
    ensures s.ranges != [] && s.ranges[0].start == 0
  {
    assert SeenAt(s.seen, 0);
    HeldIsSeen(s, 0);
    var q :| q in s.ranges && q.Covers(0);
    var i :| 0 <= i < |s.ranges| && s.ranges[i] == q;
    var first := s.ranges[0];
    assert first in s.ranges && first.Covers(first.start) && Holds(s.ranges, first.start, first.At(first.start));
    HeldIsWhole(s, whole, first.start, first.At(first.start));
  }

  /** Genuine fragments complete their datagram exactly when they cover it, and yield exactly it. */
  lemma SlicesComplete(s: Datagram, whole: Bytes)
    requires DatagramOk(s) && AllSlices(whole, s.seen) && whole != []
    ensures Judge(s) == if FullySeen(s.seen, |whole|) then Complete(whole) else Incomplete
  {
    if FullySeen(s.seen, |whole|) {
      EdgesSeen(s, whole);
      OneRange(s, whole);
      AssembleMeans(s.ranges, |whole|);
    } else if s.first.Some? && s.finalEnd.Some? && !s.truncated {
      var i :| 0 <= i < |s.seen| && !s.seen[i].more;
      assert SliceOf(whole, s.seen[i]);
      AssembleMeans(s.ranges, |whole|);
      NotOneRange(s, whole);
    }
  }

  lemma NotOneRange(s: Datagram, whole: Bytes)
    requires DatagramOk(s) && AllSlices(whole, s.seen) && whole != [] && !FullySeen(s.seen, |whole|)
    ensures s.ranges != [] && s.ranges[0].start == 0 ==> s.ranges[0].End() < |whole|
  {
    var p :| 0 <= p < |whole| && !SeenAt(s.seen, p);
    HeldIsSeen(s, p);
    if s.ranges != [] && s.ranges[0].start == 0 {
      assert s.ranges[0] in s.ranges;
      assert !s.ranges[0].Covers(p);
    }
  }
}
