/**
 * Byte ranges on an integer line: the subtraction, ordering and coalescing helpers that both
 * reassemblers share. A TCP piece carries the packets that supplied it; a fragment range does not.
 */
module Ranges {
  import opened Common

  datatype Source = Anonymous | Captured(ids: seq<nat>, ts: int)

  datatype Piece = Piece(start: int, data: Bytes, src: Source) {
    function End(): int { start + |data| }
    predicate Covers(p: int) { start <= p < End() }
    function At(p: int): Byte requires Covers(p) { data[p - start] }
  }

  ghost predicate Covered(s: seq<Piece>, p: int) { exists q :: q in s && q.Covers(p) }

  /** Ordered, non-overlapping and non-empty: the shape of every buffered range list. */
  ghost predicate SortedDisjoint(s: seq<Piece>) {
    && (forall q :: q in s ==> q.data != [])
    && (forall i, j :: 0 <= i < j < |s| ==> s[i].End() <= s[j].start)
  }

  function Total(s: seq<Piece>): nat { if s == [] then 0 else |s[0].data| + Total(s[1..]) }

  lemma TotalAppend(a: seq<Piece>, b: seq<Piece>)
    ensures Total(a + b) == Total(a) + Total(b)
    decreases a
  {
    if a == [] {
      assert a + b == b;
    } else {
      assert (a + b)[1..] == a[1..] + b;
      TotalAppend(a[1..], b);
    }
  }

  // ---------------------------------------------------------------- subtraction

  /** What remains of one piece outside one older range: nothing, one side or both sides. */
  function CutOne(piece: Piece, prior: Piece): seq<Piece> {
    if piece.End() <= prior.start || piece.start >= prior.End() then [piece]
    else
      (if piece.start < prior.start then [piece.(data := piece.data[..prior.start - piece.start])] else [])
      + (if piece.End() > prior.End()
         then [Piece(prior.End(), piece.data[prior.End() - piece.start..], piece.src)] else [])
  }

  function CutAll(pieces: seq<Piece>, prior: Piece): seq<Piece> {
    if pieces == [] then []
    else CutAll(pieces[..|pieces| - 1], prior) + CutOne(pieces[|pieces| - 1], prior)
  }

  function CutEach(pieces: seq<Piece>, existing: seq<Piece>): seq<Piece>
    decreases |existing|
  {
    if existing == [] then pieces else CutEach(CutAll(pieces, existing[0]), existing[1..])
  }

  function Uncovered(piece: Piece, existing: seq<Piece>): seq<Piece> {
    CutEach(if piece.data == [] then [] else [piece], existing)
  }

  /** `q` is a non-empty part of `whole`: same bytes at the same positions, same source. */
  ghost predicate PartOf(q: Piece, whole: Piece) {
    && q.data != []
    && q.src == whole.src
    && whole.start <= q.start && q.End() <= whole.End()
    && q.data == whole.data[q.start - whole.start..q.End() - whole.start]
  }

  ghost predicate Parts(s: seq<Piece>, whole: Piece) {
    SortedDisjoint(s) && forall q :: q in s ==> PartOf(q, whole)
  }

  lemma PartOfPart(q: Piece, piece: Piece, whole: Piece)
    requires PartOf(q, piece) && PartOf(piece, whole)
    ensures PartOf(q, whole)
  {
    var a, b := q.start - piece.start, q.End() - piece.start;
    var k := piece.start - whole.start;
    assert whole.data[k..k + |piece.data|][a..b] == whole.data[k + a..k + b];
  }

  lemma CutOneParts(piece: Piece, prior: Piece)
    requires piece.data != []
    ensures Parts(CutOne(piece, prior), piece)
  {
    assert piece.data == piece.data[0..|piece.data|];
  }

  lemma CutOneCovers(piece: Piece, prior: Piece, p: int)
    requires piece.data != []
    ensures Covered(CutOne(piece, prior), p) <==> piece.Covers(p) && !prior.Covers(p)
  {
    var r := CutOne(piece, prior);
    if piece.Covers(p) && !prior.Covers(p) {
      if piece.End() <= prior.start || piece.start >= prior.End() || p < prior.start {
        assert r[0].Covers(p);
      } else {
        assert r[|r| - 1].Covers(p);
      }
    }
  }

  lemma {:induction false} CutAllParts(pieces: seq<Piece>, prior: Piece, whole: Piece)
    requires Parts(pieces, whole)
    ensures Parts(CutAll(pieces, prior), whole)
    ensures pieces != [] ==> forall q :: q in CutAll(pieces, prior) ==> q.End() <= pieces[|pieces| - 1].End()
    ensures forall p :: Covered(CutAll(pieces, prior), p) <==> Covered(pieces, p) && !prior.Covers(p)
    decreases |pieces|
  {
    if pieces != [] {
      var init, last := pieces[..|pieces| - 1], pieces[|pieces| - 1];
      CutAllParts(init, prior, whole);
      CutOneParts(last, prior);
      var a, b := CutAll(init, prior), CutOne(last, prior);
      forall q | q in b ensures PartOf(q, whole) {
        PartOfPart(q, last, whole);
      }
      assert CutAll(pieces, prior) == a + b;
      forall q | q in a ensures q.End() <= last.start {
        assert init != [];
        assert init[|init| - 1] == pieces[|pieces| - 2];
      }
      assert SortedDisjoint(a + b);
      forall p ensures Covered(a + b, p) <==> Covered(pieces, p) && !prior.Covers(p) {
        assert Covered(a, p) <==> Covered(init, p) && !prior.Covers(p);
        CutCoversSnoc(pieces, prior, a, p);
      }
    }
  }

  lemma CutCoversSnoc(pieces: seq<Piece>, prior: Piece, a: seq<Piece>, p: int)
    requires pieces != [] && pieces[|pieces| - 1].data != []
    requires Covered(a, p) <==> Covered(pieces[..|pieces| - 1], p) && !prior.Covers(p)
    ensures Covered(a + CutOne(pieces[|pieces| - 1], prior), p) <==> Covered(pieces, p) && !prior.Covers(p)
  {
    var init, last := pieces[..|pieces| - 1], pieces[|pieces| - 1];
    assert pieces == init + [last];
    CoveredAppend(a, CutOne(last, prior), p);
    CoveredAppend(init, [last], p);
    CutOneCovers(last, prior, p);
    assert Covered([last], p) <==> last.Covers(p) by { assert last in [last]; }
  }

  lemma CoveredAppend(a: seq<Piece>, b: seq<Piece>, p: int)
    ensures Covered(a + b, p) <==> Covered(a, p) || Covered(b, p)
  {
    forall q ensures q in a + b <==> q in a || q in b {}
  }

  lemma {:induction false} CutEachParts(pieces: seq<Piece>, existing: seq<Piece>, whole: Piece)
    requires Parts(pieces, whole)
    ensures Parts(CutEach(pieces, existing), whole)
    ensures forall p :: Covered(CutEach(pieces, existing), p) <==> Covered(pieces, p) && !Covered(existing, p)
    decreases |existing|
  {
    if existing != [] {
      var cut := CutAll(pieces, existing[0]);
      CutAllParts(pieces, existing[0], whole);
      CutEachParts(cut, existing[1..], whole);
      forall p ensures Covered(existing, p) <==> existing[0].Covers(p) || Covered(existing[1..], p) {
        assert existing == [existing[0]] + existing[1..];
        CoveredAppend([existing[0]], existing[1..], p);
        assert existing[0] in [existing[0]];
      }
    }
  }

  /** Range subtraction is exact: the parts keep their bytes, and cover what was not covered before. */
  lemma UncoveredExact(piece: Piece, existing: seq<Piece>)
    ensures Parts(Uncovered(piece, existing), piece)
    ensures forall p :: Covered(Uncovered(piece, existing), p) <==> piece.Covers(p) && !Covered(existing, p)
  {
    if piece.data == [] {
      CutEachParts([], existing, piece);
    } else {
      CutEachParts([piece], existing, piece);
      assert piece in [piece];
    }
  }

  lemma {:induction false} PartsTotal(s: seq<Piece>, whole: Piece)
    requires Parts(s, whole)
    ensures s != [] ==> Total(s) <= s[|s| - 1].End() - whole.start
    ensures Total(s) <= |whole.data|
    decreases |s|
  {
    if s != [] {
      var init, last := s[..|s| - 1], s[|s| - 1];
      assert s == init + [last];
      TotalAppend(init, [last]);
      assert Total([last]) == |last.data|;
      PartsTotal(init, whole);
      assert PartOf(last, whole);
      if init != [] {
        assert init[|init| - 1] == s[|s| - 2];
        assert s[|s| - 2].End() <= s[|s| - 1].start;
      }
    }
  }

  /** The inner splitting loop: what every piece leaves outside one older range. */
  method Split(pieces: seq<Piece>, prior: Piece) returns (remaining: seq<Piece>)
    ensures remaining == CutAll(pieces, prior)
  {
    remaining := [];
    for j := 0 to |pieces|
      invariant remaining == CutAll(pieces[..j], prior)
    {
      remaining := SplitOne(remaining, pieces[j], prior);
      CutAllSnoc(pieces, j, prior);
    }
    assert pieces[..|pieces|] == pieces;
  }

  /** Appends what one piece leaves outside an older range: up to two parts. */
  method SplitOne(before: seq<Piece>, piece: Piece, prior: Piece) returns (remaining: seq<Piece>)
    ensures remaining == before + CutOne(piece, prior)
  {
    remaining := before;
    if piece.End() <= prior.start || piece.start >= prior.End() {
      remaining := remaining + [piece];
    } else {
      if piece.start < prior.start {
        remaining := remaining + [piece.(data := piece.data[..prior.start - piece.start])];
      }
      if piece.End() > prior.End() {
        remaining := remaining + [Piece(prior.End(), piece.data[prior.End() - piece.start..], piece.src)];
      }
    }
  }

  lemma CutAllSnoc(pieces: seq<Piece>, j: nat, prior: Piece)
    requires j < |pieces|
    ensures CutAll(pieces[..j + 1], prior) == CutAll(pieces[..j], prior) + CutOne(pieces[j], prior)
  {
    assert pieces[..j + 1][..j] == pieces[..j];
  }

  /** The outer loop over the older ranges, with its early exit once nothing is left. */
  method UncoveredRanges(start: int, data: Bytes, src: Source, existing: seq<Piece>)
    returns (pieces: seq<Piece>)
    ensures pieces == Uncovered(Piece(start, data, src), existing)
  {
    pieces := if data != [] then [Piece(start, data, src)] else [];
    var i := 0;
    while i < |existing|
      invariant 0 <= i <= |existing|
      invariant CutEach(pieces, existing[i..]) == Uncovered(Piece(start, data, src), existing)
    {
      assert existing[i..][1..] == existing[i + 1..];
      pieces := Split(pieces, existing[i]);
      i := i + 1;
      if pieces == [] {
        NothingLeft(existing[i..]);
        return;
      }
    }
  }

  lemma NothingLeft(existing: seq<Piece>)
    ensures CutEach([], existing) == []
    decreases |existing|
  {
  }

  // ---------------------------------------------------------------- ordering

  /** Stable insertion by start. */
  function Insert(s: seq<Piece>, x: Piece): seq<Piece> {
    if s == [] || s[|s| - 1].start <= x.start then s + [x]
    else Insert(s[..|s| - 1], x) + [s[|s| - 1]]
  }

  /** The stable sort by start. */
  function SortByStart(s: seq<Piece>): seq<Piece> {
    if s == [] then [] else Insert(SortByStart(s[..|s| - 1]), s[|s| - 1])
  }

  lemma {:induction false} InsertMembers(s: seq<Piece>, x: Piece)
    ensures forall q :: q in Insert(s, x) <==> q in s || q == x
    ensures |Insert(s, x)| == |s| + 1
    ensures Total(Insert(s, x)) == Total(s) + |x.data|
  {
    if s == [] || s[|s| - 1].start <= x.start {
      TotalAppend(s, [x]);
    } else {
      var init, last := s[..|s| - 1], s[|s| - 1];
      assert s == init + [last];
      InsertMembers(init, x);
      TotalAppend(init, [last]);
      TotalAppend(Insert(init, x), [last]);
    }
  }

  lemma SortedSnoc(s: seq<Piece>, x: Piece)
    requires SortedDisjoint(s) && x.data != []
    requires forall q :: q in s ==> q.End() <= x.start
    ensures SortedDisjoint(s + [x])
  {
  }

  lemma {:induction false} InsertDisjoint(s: seq<Piece>, x: Piece)
    requires SortedDisjoint(s) && x.data != []
    requires forall p :: x.Covers(p) ==> !Covered(s, p)
    ensures SortedDisjoint(Insert(s, x))
  {
    if s != [] {
      var init, last := s[..|s| - 1], s[|s| - 1];
      assert last in s;
      assert x.Covers(x.start) && last.Covers(last.start);
      if last.start <= x.start {
        assert !Covered(s, x.start);
        assert !last.Covers(x.start);
      } else {
        assert Covered(s, last.start);
        assert !x.Covers(last.start);
        forall p | x.Covers(p) ensures !Covered(init, p) {
          assert forall q :: q in init ==> q in s;
        }
        InsertDisjoint(init, x);
        InsertMembers(init, x);
        assert forall k :: 0 <= k < |init| ==> init[k] == s[k] && s[k].End() <= s[|s| - 1].start;
        assert forall q :: q in init ==> q.End() <= last.start;
        SortedSnoc(Insert(init, x), last);
        assert Insert(s, x) == Insert(init, x) + [last];
      }
    }
  }

  lemma {:induction false} SortKeepsSorted(s: seq<Piece>)
    requires SortedDisjoint(s)
    ensures SortByStart(s) == s
    decreases |s|
  {
    if s != [] {
      LastInOrder(s);
      SortKeepsSorted(s[..|s| - 1]);
    }
  }

  lemma LastInOrder(s: seq<Piece>)
    requires SortedDisjoint(s) && s != []
    ensures SortedDisjoint(s[..|s| - 1]) && Insert(s[..|s| - 1], s[|s| - 1]) == s
  {
    InitSorted(s);
    InsertLast(s[..|s| - 1], s[|s| - 1]);
    assert s[..|s| - 1] + [s[|s| - 1]] == s;
  }

  lemma InitSorted(s: seq<Piece>)
    requires SortedDisjoint(s) && s != []
    ensures SortedDisjoint(s[..|s| - 1])
    ensures |s| > 1 ==> s[..|s| - 1][|s| - 2].start <= s[|s| - 1].start
  {
    assert forall q :: q in s[..|s| - 1] ==> q in s;
    if |s| > 1 {
      assert s[|s| - 2].End() <= s[|s| - 1].start;
    }
  }

  lemma InsertLast(s: seq<Piece>, x: Piece)
    requires s == [] || s[|s| - 1].start <= x.start
    ensures Insert(s, x) == s + [x]
  {
  }

  lemma {:induction false} SortMembers(s: seq<Piece>)
    ensures forall q :: q in SortByStart(s) <==> q in s
    ensures |SortByStart(s)| == |s|
    ensures Total(SortByStart(s)) == Total(s)
    decreases |s|
  {
    if s != [] {
      var init, last := s[..|s| - 1], s[|s| - 1];
      assert s == init + [last];
      SortMembers(init);
      InsertMembers(SortByStart(init), last);
      TotalAppend(init, [last]);
    }
  }

  /** Sorting a sorted list extended by parts it does not cover gives one sorted disjoint list. */
  lemma {:induction false} SortExtended(s: seq<Piece>, more: seq<Piece>)
    requires SortedDisjoint(s) && SortedDisjoint(more)
    requires forall p :: Covered(more, p) ==> !Covered(s, p)
    ensures SortedDisjoint(SortByStart(s + more))
    decreases |more|
  {
    if more == [] {
      assert s + more == s;
      SortKeepsSorted(s);
    } else {
      var init, last := more[..|more| - 1], more[|more| - 1];
      InitNew(s, more);
      InitSorted(more);
      SortExtended(s, init);
      SortMembers(s + init);
      LastIsNew(s, more, SortByStart(s + init));
      assert last in more;
      InsertDisjoint(SortByStart(s + init), last);
      SortSnoc(s, more);
    }
  }

  lemma InitNew(s: seq<Piece>, more: seq<Piece>)
    requires more != [] && forall p :: Covered(more, p) ==> !Covered(s, p)
    ensures forall p :: Covered(more[..|more| - 1], p) ==> !Covered(s, p)
  {
    var init, last := more[..|more| - 1], more[|more| - 1];
    assert more == init + [last];
    forall p | Covered(init, p) ensures !Covered(s, p) {
      CoveredAppend(init, [last], p);
    }
  }

  lemma SortSnoc(s: seq<Piece>, more: seq<Piece>)
    requires more != []
    ensures SortByStart(s + more) == Insert(SortByStart(s + more[..|more| - 1]), more[|more| - 1])
  {
    assert (s + more)[..|s + more| - 1] == s + more[..|more| - 1];
  }

  lemma LastIsNew(s: seq<Piece>, more: seq<Piece>, sorted: seq<Piece>)
    requires more != [] && SortedDisjoint(more)
    requires forall p :: Covered(more, p) ==> !Covered(s, p)
    requires forall q :: q in sorted ==> q in s || q in more[..|more| - 1]
    ensures forall p :: more[|more| - 1].Covers(p) ==> !Covered(sorted, p)
  {
    var last := more[|more| - 1];
    assert last in more;
    forall p, q | last.Covers(p) && q in sorted ensures !q.Covers(p) {
      assert Covered(more, p);
      if q !in s {
        assert q in more[..|more| - 1];
        var k :| 0 <= k < |more| - 1 && more[k] == q;
        assert more[k].End() <= more[|more| - 1].start;
      }
    }
  }
}
