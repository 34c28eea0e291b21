/** The attribution query: complete exactly when it may be, naming exactly the packets of the range. */
module ProvenanceQuery {
  import opened Common
  import opened Spans
  import opened Provenance
  import opened ProvenanceLaws

  /** A complete span holds `p`. */
  ghost predicate Vouched(spans: seq<Span>, p: int) {
    exists i :: 0 <= i < |spans| && spans[i].Holds(p) && spans[i].complete
  }

  ghost predicate Covered(spans: seq<Span>, lo: int, hi: int) { forall p :: lo <= p < hi ==> Vouched(spans, p) }

  predicate Meets(s: Span, from: int, to: int) { s.start < to && from < s.end }

  function IdSet(ids: seq<nat>): set<nat> { set x | x in ids }

  /** The packets of every span that meets the range. */
  function Named(spans: seq<Span>, from: int, to: int): set<nat> {
    if spans == [] then {}
    else (if Meets(spans[0], from, to) then IdSet(spans[0].ids) else {}) + Named(spans[1..], from, to)
  }

  /** A packet is named exactly when some position of the range is attributed to it. */
  lemma {:induction false} NamedMeans(spans: seq<Span>, from: int, to: int, x: nat)
    requires Ordered(spans) && from < to
    ensures x in Named(spans, from, to)
            <==> exists i, p :: 0 <= i < |spans| && from <= p < to && spans[i].Holds(p) && x in spans[i].ids
    decreases |spans|
  {
    if spans != [] {
      HeadFirst(spans);
      NamedMeans(spans[1..], from, to, x);
      if Meets(spans[0], from, to) {
        assert spans[0].Holds(Max(from, spans[0].start));
      }
      if i, p :| 0 <= i < |spans| && from <= p < to && spans[i].Holds(p) && x in spans[i].ids {
        if i > 0 {
          assert spans[1..][i - 1] == spans[i];
        }
      }
      if i, p :| 0 <= i < |spans| - 1 && from <= p < to && spans[1..][i].Holds(p) && x in spans[1..][i].ids {
        assert spans[i + 1] == spans[1..][i];
      }
    }
  }

  lemma {:induction false} NamedNothing(spans: seq<Span>, from: int, to: int)
    requires Ordered(spans) && forall x :: x in spans ==> to <= x.start
    ensures Named(spans, from, to) == {}
    decreases |spans|
  {
    if spans != [] {
      HeadFirst(spans);
      assert spans[0] in spans;
      NamedNothing(spans[1..], from, to);
    }
  }

  // ---------------------------------------------------------------- the query's loop

  lemma VouchedHead(spans: seq<Span>, p: int)
    requires Ordered(spans) && spans != []
    ensures Vouched(spans, p) <==> (spans[0].Holds(p) && spans[0].complete) || Vouched(spans[1..], p)
    ensures p < spans[0].end ==> !Vouched(spans[1..], p)
  {
    if i :| 0 <= i < |spans| && spans[i].Holds(p) && spans[i].complete && i > 0 {
      assert spans[1..][i - 1] == spans[i];
    }
    if i :| 0 <= i < |spans| - 1 && spans[1..][i].Holds(p) && spans[1..][i].complete {
      assert spans[i + 1] == spans[1..][i];
    }
  }

  /** The first span vouches up to its end, the others from there on. */
  lemma CoveredHead(spans: seq<Span>, cursor: int, hi: int, to: int)
    requires Ordered(spans) && spans != [] && spans[0].start <= cursor < hi <= to && hi == Min(to, spans[0].end)
    ensures Covered(spans, cursor, to) <==> spans[0].complete && Covered(spans[1..], hi, to)
  {
    forall p | cursor <= p < to
      ensures p < hi ==> (Vouched(spans, p) <==> spans[0].complete)
      ensures hi <= p ==> (Vouched(spans, p) <==> Vouched(spans[1..], p))
    {
      VouchedHead(spans, p);
    }
    if Covered(spans, cursor, to) {
      assert Vouched(spans, cursor);
    }
  }

  lemma CoveredSkip(spans: seq<Span>, from: int, cursor: int, to: int)
    requires Ordered(spans) && spans != [] && spans[0].end <= from <= cursor
    ensures Covered(spans, cursor, to) <==> Covered(spans[1..], cursor, to)
  {
    forall p | cursor <= p < to ensures Vouched(spans, p) <==> Vouched(spans[1..], p) {
      VouchedHead(spans, p);
    }
  }

  lemma NotVouched(spans: seq<Span>, p: int)
    requires Ordered(spans) && spans != [] && p < spans[0].start
    ensures !Vouched(spans, p)
  {
    VouchedHead(spans, p);
  }

  lemma AppendIds(a: seq<nat>, b: seq<nat>)
    ensures IdSet(a + b) == IdSet(a) + IdSet(b)
  {
  }

  /** What remains of the list begins at the cursor, unless nothing was covered yet. */
  ghost predicate Ahead(spans: seq<Span>, from: int, cursor: int) {
    cursor == from || forall x :: x in spans ==> cursor <= x.start
  }

  lemma {:induction false} GatherIds(spans: seq<Span>, from: int, to: int, cursor: int, ids: seq<nat>, complete: bool)
    requires Ordered(spans) && from < to
    ensures IdSet(Gather(spans, from, to, cursor, ids, complete).0) == IdSet(ids) + Named(spans, from, to)
    decreases |spans|
  {
    if spans == [] {
    } else if spans[0].end > from && spans[0].start >= to {
      HeadFirst(spans);
      NamedNothing(spans, from, to);
    } else {
      HeadFirst(spans);
      var s := spans[0];
      if s.end <= from {
        GatherIds(spans[1..], from, to, cursor, ids, complete);
      } else {
        var whole := complete && s.start <= cursor;
        AppendIds(ids, s.ids);
        GatherIds(spans[1..], from, to, Max(cursor, Min(to, s.end)), ids + s.ids, whole && s.complete);
      }
    }
  }

  lemma {:induction false} GatherLost(spans: seq<Span>, from: int, to: int, cursor: int, ids: seq<nat>)
    ensures !Gather(spans, from, to, cursor, ids, false).1
    decreases |spans|
  {
    if spans != [] && !(spans[0].end > from && spans[0].start >= to) {
      var s := spans[0];
      GatherLost(spans[1..], from, to, cursor, ids);
      GatherLost(spans[1..], from, to, Max(cursor, Min(to, s.end)), ids + s.ids);
    }
  }

  lemma {:induction false} GatherCovers(spans: seq<Span>, from: int, to: int, cursor: int, ids: seq<nat>)
    requires Ordered(spans) && from <= cursor <= to && from < to && Ahead(spans, from, cursor)
    ensures var g := Gather(spans, from, to, cursor, ids, true); g.1 && g.2 >= to <==> Covered(spans, cursor, to)
    decreases |spans|
  {
    if spans == [] {
      assert cursor < to ==> !Vouched(spans, cursor);
    } else if spans[0].end > from && spans[0].start >= to {
      if cursor < to {
        NotVouched(spans, cursor);
      }
    } else {
      HeadFirst(spans);
      assert spans[0] in spans;
      var s := spans[0];
      if s.end <= from {
        GatherCovers(spans[1..], from, to, cursor, ids);
        CoveredSkip(spans, from, cursor, to);
      } else {
        var hi := Min(to, s.end);
        if s.start <= cursor {
          CoveredHead(spans, cursor, hi, to);
          if s.complete {
            AheadAfter(spans[1..], from, s.end, to);
            GatherCovers(spans[1..], from, to, hi, ids + s.ids);
          } else {
            GatherLost(spans[1..], from, to, hi, ids + s.ids);
          }
        } else {
          NotVouched(spans, cursor);
          GatherLost(spans[1..], from, to, Max(cursor, hi), ids + s.ids);
        }
      }
    }
  }

  lemma AheadAfter(spans: seq<Span>, from: int, end: int, to: int)
    requires forall x :: x in spans ==> end <= x.start
    ensures Ahead(spans, from, Min(to, end))
  {
  }

  // ---------------------------------------------------------------- the answer

  lemma {:induction false} DistinctSize(ids: seq<nat>)
    requires Distinct(ids)
    ensures |IdSet(ids)| == |ids|
    decreases |ids|
  {
    if ids != [] {
      var init, last := ids[..|ids| - 1], ids[|ids| - 1];
      assert ids == init + [last];
      DistinctSize(init);
      assert IdSet(ids) == IdSet(init) + {last};
      assert last !in init;
    }
  }

  lemma LimitedOk(ids: seq<nat>, complete: bool, limit: nat)
    ensures var a := Limited(ids, complete, limit);
            && Distinct(a.ids) && |a.ids| <= limit && IdSet(a.ids) <= IdSet(ids)
            && (a.complete <==> complete && IdSet(ids) != {} && |IdSet(ids)| <= limit)
            && (|IdSet(ids)| <= limit ==> IdSet(a.ids) == IdSet(ids))
  {
    var unique := Dedup(ids);
    DedupDistinct(ids);
    assert IdSet(unique) == IdSet(ids);
    DistinctSize(unique);
    if unique != [] {
      assert unique[0] in IdSet(unique);
    }
  }

  /**
   * The query answers complete exactly when the context is complete, a complete span holds every
   * position of the range, and the packets concerned are few enough to be listed; and then the listed
   * packets are exactly those of the spans that meet the range.
   */
  lemma AttributeOk(spans: seq<Span>, from: int, to: int, fallback: seq<nat>, complete: bool, limit: nat)
    requires Ordered(spans)
    ensures var a := Attribute(spans, from, to, fallback, complete, limit);
            && Distinct(a.ids) && |a.ids| <= limit
            && (a.complete <==> && from < to && complete && Covered(spans, from, to)
                                && Named(spans, from, to) != {} && |Named(spans, from, to)| <= limit)
            && (from < to && |Named(spans, from, to)| <= limit ==> IdSet(a.ids) == Named(spans, from, to))
            && (from < to ==> IdSet(a.ids) <= Named(spans, from, to))
  {
    if to <= from {
      LimitedOk(fallback, false, limit);
    } else {
      var g := Gather(spans, from, to, from, [], complete);
      GatherIds(spans, from, to, from, [], complete);
      assert IdSet(g.0) == Named(spans, from, to);
      if complete {
        GatherCovers(spans, from, to, from, []);
      } else {
        GatherLost(spans, from, to, from, []);
      }
      LimitedOk(g.0, g.1 && g.2 >= to, limit);
    }
  }
}
