/** Provenance spans: which captured packets supplied a half-open interval of stream offsets. */
module Spans {
  import opened Common

  datatype Span = Span(start: int, end: int, ids: seq<nat>, complete: bool) {
    predicate Holds(p: int) { start <= p < end }
  }

  /** Appends a span, widening the last one when it is adjacent and says the same thing. */
  function Push(spans: seq<Span>, s: Span): seq<Span> {
    if spans != []
       && spans[|spans| - 1].end == s.start
       && spans[|spans| - 1].ids == s.ids
       && spans[|spans| - 1].complete == s.complete
    then spans[..|spans| - 1] + [spans[|spans| - 1].(end := s.end)]
    else spans + [s]
  }

  /** Non-empty, ordered and non-overlapping. */
  ghost predicate Ordered(spans: seq<Span>) {
    && (forall i :: 0 <= i < |spans| ==> spans[i].start < spans[i].end)
    && (forall i, j :: 0 <= i < j < |spans| ==> spans[i].end <= spans[j].start)
  }

  ghost predicate Within(spans: seq<Span>, lo: int, hi: int) {
    forall i :: 0 <= i < |spans| ==> lo <= spans[i].start && spans[i].end <= hi
  }

  /** Some span of the list holds `p`, with these ids and this completeness. */
  ghost predicate Says(spans: seq<Span>, p: int, ids: seq<nat>, complete: bool) {
    exists i :: 0 <= i < |spans| && spans[i].Holds(p) && spans[i].ids == ids && spans[i].complete == complete
  }

  ghost predicate Spoken(spans: seq<Span>, p: int) {
    exists i :: 0 <= i < |spans| && spans[i].Holds(p)
  }

  /** An ordered list whose spans cover [lo, hi) without a hole. */
  ghost predicate Tiles(spans: seq<Span>, lo: int, hi: int) {
    Ordered(spans) && Within(spans, lo, hi) && forall p :: lo <= p < hi ==> Spoken(spans, p)
  }

  lemma PushOrdered(spans: seq<Span>, s: Span)
    requires Ordered(spans) && s.start < s.end
    requires forall i :: 0 <= i < |spans| ==> spans[i].end <= s.start
    ensures Ordered(Push(spans, s))
    ensures forall i :: 0 <= i < |Push(spans, s)| ==> Push(spans, s)[i].end <= s.end
    ensures forall lo :: Within(spans, lo, s.start) && lo <= s.start ==> Within(Push(spans, s), lo, s.end)
  {
  }

  /** Pushing adds exactly the new span's statement at exactly its positions. */
  lemma PushSays(spans: seq<Span>, s: Span, p: int, ids: seq<nat>, complete: bool)
    requires Ordered(spans) && s.start < s.end
    requires forall i :: 0 <= i < |spans| ==> spans[i].end <= s.start
    ensures Says(Push(spans, s), p, ids, complete)
            <==> Says(spans, p, ids, complete) || (s.Holds(p) && s.ids == ids && s.complete == complete)
  {
    var r := Push(spans, s);
    if Says(spans, p, ids, complete) {
      var i :| 0 <= i < |spans| && spans[i].Holds(p) && spans[i].ids == ids && spans[i].complete == complete;
      assert r[i].Holds(p) && r[i].ids == ids && r[i].complete == complete;
    }
    if s.Holds(p) && s.ids == ids && s.complete == complete {
      assert r[|r| - 1].Holds(p) && r[|r| - 1].ids == ids;
    }
    if Says(r, p, ids, complete) {
      var i :| 0 <= i < |r| && r[i].Holds(p) && r[i].ids == ids && r[i].complete == complete;
      if i < |spans| && spans[i].Holds(p) {
        assert spans[i].ids == ids && spans[i].complete == complete;
      }
    }
  }

  lemma SaysSpoken(spans: seq<Span>, p: int)
    ensures Spoken(spans, p) <==> exists ids, complete :: Says(spans, p, ids, complete)
  {
    if Spoken(spans, p) {
      var i :| 0 <= i < |spans| && spans[i].Holds(p);
      assert Says(spans, p, spans[i].ids, spans[i].complete);
    }
  }
}
