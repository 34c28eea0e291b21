/** The provenance algebra is exact: what each operation says about a position, for every position. */
module ProvenanceLaws {
  import opened Common
  import opened Spans
  import opened Provenance

  /** Some span of the list holds `p`, and these are its packets without repetition. */
  ghost predicate Tells(spans: seq<Span>, p: int, ids: seq<nat>, complete: bool) {
    exists s :: s in spans && TellsOne(s, p, ids, complete)
  }

  predicate TellsOne(s: Span, p: int, ids: seq<nat>, complete: bool) {
    s.Holds(p) && Dedup(s.ids) == ids && s.complete == complete
  }

  ghost predicate AllNormal(spans: seq<Span>) { forall s :: s in spans ==> Dedup(s.ids) == s.ids }

  predicate Apart(s: Span, t: Span) { s.end <= t.start || t.end <= s.start }

  /** Non-empty spans do not overlap, in whatever order they come. */
  ghost predicate Scattered(spans: seq<Span>) {
    forall i, j :: 0 <= i < j < |spans| && spans[i].start < spans[i].end && spans[j].start < spans[j].end ==>
      Apart(spans[i], spans[j])
  }

  ghost predicate Inside(spans: seq<Span>, lo: int, hi: int) {
    forall s :: s in spans && s.start < s.end ==> lo <= s.start && s.end <= hi
  }

  // ---------------------------------------------------------------- sorting

  lemma {:induction false} InsertSpanMembers(sorted: seq<Span>, s: Span)
    ensures forall x :: x in InsertSpan(sorted, s) <==> x in sorted || x == s
    decreases |sorted|
  {
    if sorted != [] {
      var init, last := sorted[..|sorted| - 1], sorted[|sorted| - 1];
      assert sorted == init + [last];
      InsertSpanMembers(init, s);
    }
  }

  lemma OrderedPrefix(spans: seq<Span>)
    requires Ordered(spans) && spans != []
    ensures Ordered(spans[..|spans| - 1])
    ensures forall x :: x in spans[..|spans| - 1] ==> x in spans && x.end <= spans[|spans| - 1].start
  {
    var init := spans[..|spans| - 1];
    forall x | x in init ensures x in spans && x.end <= spans[|spans| - 1].start {
      var i :| 0 <= i < |init| && init[i] == x;
      assert spans[i] == x;
    }
  }

  lemma OrderedSnoc(spans: seq<Span>, s: Span)
    requires Ordered(spans) && s.start < s.end && forall x :: x in spans ==> x.end <= s.start
    ensures Ordered(spans + [s])
  {
  }

  lemma {:induction false} InsertSpanOrdered(sorted: seq<Span>, s: Span)
    requires Ordered(sorted) && s.start < s.end && forall x :: x in sorted ==> Apart(x, s)
    ensures Ordered(InsertSpan(sorted, s))
    decreases |sorted|
  {
    if sorted != [] {
      var init, last := sorted[..|sorted| - 1], sorted[|sorted| - 1];
      OrderedPrefix(sorted);
      assert last in sorted;
      if last.start < s.start || (last.start == s.start && last.end <= s.end) {
        assert forall x :: x in sorted ==> x == last || x in init;
        OrderedSnoc(sorted, s);
      } else {
        InsertSpanOrdered(init, s);
        InsertSpanMembers(init, s);
        OrderedSnoc(InsertSpan(init, s), last);
      }
    }
  }

  lemma {:induction false} SortSpansOk(spans: seq<Span>)
    requires Scattered(spans)
    ensures Ordered(SortSpans(spans))
    ensures forall x :: x in SortSpans(spans) <==> x in spans && x.start < x.end
    decreases |spans|
  {
    if spans != [] {
      var init, s := spans[..|spans| - 1], spans[|spans| - 1];
      assert spans == init + [s];
      SortSpansOk(init);
      if s.start < s.end {
        forall x | x in SortSpans(init) ensures Apart(x, s) {
          assert x in init;
          var i :| 0 <= i < |init| && init[i] == x;
          assert spans[i] == x;
        }
        InsertSpanOrdered(SortSpans(init), s);
        InsertSpanMembers(SortSpans(init), s);
      }
    }
  }

  // ---------------------------------------------------------------- coalescing

  /** Everything on the left ends before everything on the right begins. */
  ghost predicate Before(a: seq<Span>, b: seq<Span>) { forall x, y :: x in a && y in b ==> x.end <= y.start }

  lemma PushNormal(acc: seq<Span>, s: Span)
    requires AllNormal(acc) && Dedup(s.ids) == s.ids
    ensures AllNormal(Push(acc, s))
  {
  }

  lemma PushEnds(acc: seq<Span>, s: Span, x: Span)
    requires Ordered(acc) && s.start < s.end && (forall y :: y in acc ==> y.end <= s.start) && x in Push(acc, s)
    ensures x.end <= s.end
  {
    if x !in acc && x != s {
      assert acc != [] && acc[|acc| - 1] in acc;
      assert forall y :: y in acc[..|acc| - 1] ==> y in acc;
    }
  }

  lemma {:induction false} PushAllShape(acc: seq<Span>, spans: seq<Span>)
    requires Ordered(acc) && Ordered(spans) && AllNormal(acc) && Before(acc, spans)
    ensures Ordered(PushAll(acc, spans)) && AllNormal(PushAll(acc, spans))
    decreases |spans|
  {
    if spans != [] {
      var s := Normal(spans[0]);
      assert spans[0] in spans;
      HeadFirst(spans);
      DedupIdempotent(spans[0].ids);
      PushOrdered(acc, s);
      PushNormal(acc, s);
      forall x, y | x in Push(acc, s) && y in spans[1..] ensures x.end <= y.start {
        PushEnds(acc, s, x);
      }
      PushAllShape(Push(acc, s), spans[1..]);
    }
  }

  lemma HeadFirst(spans: seq<Span>)
    requires Ordered(spans) && spans != []
    ensures Ordered(spans[1..]) && forall y :: y in spans[1..] ==> y in spans && spans[0].end <= y.start
  {
    var rest := spans[1..];
    assert forall i :: 0 <= i < |rest| ==> rest[i] == spans[i + 1];
    forall y | y in rest ensures y in spans && spans[0].end <= y.start {
      var i :| 0 <= i < |rest| && rest[i] == y;
      assert spans[i + 1] == y;
    }
  }

  lemma {:induction false} PushAllSays(acc: seq<Span>, spans: seq<Span>, p: int, ids: seq<nat>, c: bool)
    requires Ordered(acc) && Ordered(spans) && AllNormal(acc) && Before(acc, spans)
    ensures Says(PushAll(acc, spans), p, ids, c) <==> Says(acc, p, ids, c) || Tells(spans, p, ids, c)
    decreases |spans|
  {
    if spans != [] {
      var s := Normal(spans[0]);
      assert spans[0] in spans;
      HeadFirst(spans);
      DedupIdempotent(spans[0].ids);
      PushOrdered(acc, s);
      PushNormal(acc, s);
      forall x, y | x in Push(acc, s) && y in spans[1..] ensures x.end <= y.start {
        PushEnds(acc, s, x);
      }
      PushAllSays(Push(acc, s), spans[1..], p, ids, c);
      PushSays(acc, s, p, ids, c);
      TellsHead(spans, p, ids, c);
    }
  }

  lemma TellsHead(spans: seq<Span>, p: int, ids: seq<nat>, c: bool)
    requires spans != []
    ensures Tells(spans, p, ids, c) <==> TellsOne(spans[0], p, ids, c) || Tells(spans[1..], p, ids, c)
  {
    assert spans == [spans[0]] + spans[1..];
    forall s ensures s in spans <==> s == spans[0] || s in spans[1..] {}
  }

  lemma TellsAppend(a: seq<Span>, b: seq<Span>, p: int, ids: seq<nat>, c: bool)
    ensures Tells(a + b, p, ids, c) <==> Tells(a, p, ids, c) || Tells(b, p, ids, c)
  {
    forall s ensures s in a + b <==> s in a || s in b {}
  }

  lemma SaysTells(spans: seq<Span>, p: int, ids: seq<nat>, c: bool)
    requires AllNormal(spans)
    ensures Says(spans, p, ids, c) <==> Tells(spans, p, ids, c)
  {
    if Says(spans, p, ids, c) {
      var i :| 0 <= i < |spans| && spans[i].Holds(p) && spans[i].ids == ids && spans[i].complete == c;
      assert spans[i] in spans && TellsOne(spans[i], p, ids, c);
    }
    if Tells(spans, p, ids, c) {
      var s :| s in spans && TellsOne(s, p, ids, c);
      var i :| 0 <= i < |spans| && spans[i] == s;
    }
  }

  /** Coalescing non-overlapping spans orders them and says the same thing at every position. */
  lemma CoalesceOk(spans: seq<Span>)
    requires Scattered(spans)
    ensures Ordered(Coalesce(spans)) && AllNormal(Coalesce(spans))
    ensures forall p, ids, c :: Says(Coalesce(spans), p, ids, c) <==> Tells(spans, p, ids, c)
  {
    var sorted := SortSpans(spans);
    SortSpansOk(spans);
    PushAllShape([], sorted);
    forall p, ids, c ensures Says(Coalesce(spans), p, ids, c) <==> Tells(spans, p, ids, c) {
      PushAllSays([], sorted, p, ids, c);
      assert Tells(sorted, p, ids, c) <==> Tells(spans, p, ids, c);
    }
  }

  /** Coalescing stays inside whatever interval its input was inside. */
  lemma CoalesceInside(spans: seq<Span>, lo: int, hi: int)
    requires Scattered(spans) && Inside(spans, lo, hi)
    ensures Within(Coalesce(spans), lo, hi)
  {
    var r := Coalesce(spans);
    CoalesceOk(spans);
    forall i | 0 <= i < |r| ensures lo <= r[i].start && r[i].end <= hi {
      assert Says(r, r[i].start, r[i].ids, r[i].complete) && Says(r, r[i].end - 1, r[i].ids, r[i].complete);
      assert Tells(spans, r[i].start, r[i].ids, r[i].complete) && Tells(spans, r[i].end - 1, r[i].ids, r[i].complete);
    }
  }

  // ---------------------------------------------------------------- clipping

  predicate Between(p: int, lo: int, hi: int) { lo <= p < hi }

  lemma {:induction false} ClipLoopOk(spans: seq<Span>, start: int, end: int)
    requires Ordered(spans) && start < end
    ensures var r := ClipLoop(spans, start, end);
            && Ordered(r) && Within(r, start, end)
            && (spans != [] ==> forall x :: x in r ==> spans[0].start <= x.start)
    decreases |spans|
  {
    if spans != [] && !(spans[0].end > start && spans[0].start >= end) {
      HeadFirst(spans);
      ClipLoopOk(spans[1..], start, end);
      var rest := ClipLoop(spans[1..], start, end);
      if spans[0].end > start {
        assert forall x :: x in rest ==> spans[0].end <= x.start by {
          if |spans| > 1 {
            assert spans[1..][0] == spans[1];
          }
        }
        var head := spans[0].(start := Max(start, spans[0].start), end := Min(end, spans[0].end));
        ConsOrdered(head, rest);
      }
    }
  }

  lemma ConsOrdered(s: Span, rest: seq<Span>)
    requires Ordered(rest) && s.start < s.end && forall x :: x in rest ==> s.end <= x.start
    ensures Ordered([s] + rest) && forall x :: x in [s] + rest ==> s.start <= x.start
  {
  }

  lemma {:induction false} ClipLoopTells(spans: seq<Span>, start: int, end: int, p: int, ids: seq<nat>, c: bool)
    requires Ordered(spans) && start <= end
    ensures Tells(ClipLoop(spans, start, end), p, ids, c) <==> Between(p, start, end) && Tells(spans, p, ids, c)
    decreases |spans|
  {
    if spans != [] {
      HeadFirst(spans);
      TellsHead(spans, p, ids, c);
      if spans[0].end > start && spans[0].start >= end {
        assert forall s :: s in spans ==> s == spans[0] || s in spans[1..];
        assert Between(p, start, end) ==> !Tells(spans, p, ids, c);
      } else {
        ClipLoopTells(spans[1..], start, end, p, ids, c);
        if spans[0].end > start {
          var head := spans[0].(start := Max(start, spans[0].start), end := Min(end, spans[0].end));
          TellsHead([head] + ClipLoop(spans[1..], start, end), p, ids, c);
          assert ([head] + ClipLoop(spans[1..], start, end))[1..] == ClipLoop(spans[1..], start, end);
        }
      }
    }
  }

  lemma {:induction false} ClipNothing(spans: seq<Span>, at: int)
    requires Ordered(spans)
    ensures forall x :: x in ClipLoop(spans, at, at) ==> x.start >= x.end
    decreases |spans|
  {
    if spans != [] {
      HeadFirst(spans);
      ClipNothing(spans[1..], at);
    }
  }

  lemma OrderedScattered(spans: seq<Span>)
    requires Ordered(spans)
    ensures Scattered(spans)
  {
  }

  /** Clipping keeps exactly what was said inside the interval. */
  lemma ClipOk(spans: seq<Span>, start: int, end: int)
    requires Ordered(spans) && start <= end
    ensures Ordered(Clip(spans, start, end)) && AllNormal(Clip(spans, start, end))
            && Within(Clip(spans, start, end), start, end)
    ensures forall p, ids, c ::
              Says(Clip(spans, start, end), p, ids, c) <==> Between(p, start, end) && Tells(spans, p, ids, c)
  {
    var clipped := ClipLoop(spans, start, end);
    if start < end {
      ClipLoopOk(spans, start, end);
      OrderedScattered(clipped);
    } else {
      ClipNothing(spans, start);
    }
    CoalesceOk(clipped);
    CoalesceInside(clipped, start, end);
    forall p, ids, c ensures Says(Clip(spans, start, end), p, ids, c)
      <==> Between(p, start, end) && Tells(spans, p, ids, c) {
      ClipLoopTells(spans, start, end, p, ids, c);
    }
  }

  // ---------------------------------------------------------------- overlaying

  lemma {:induction false} KeepOutsideOk(existing: seq<Span>, start: int, end: int)
    requires Ordered(existing) && start <= end
    ensures var r := KeepOutside(existing, start, end);
            && Ordered(r)
            && (forall x :: x in r ==> x.end <= start || end <= x.start)
            && (existing != [] ==> forall x :: x in r ==> existing[0].start <= x.start)
    decreases |existing|
  {
    if existing != [] {
      HeadFirst(existing);
      KeepOutsideOk(existing[1..], start, end);
      var s, rest := existing[0], KeepOutside(existing[1..], start, end);
      assert forall x :: x in rest ==> s.end <= x.start by {
        if |existing| > 1 {
          assert existing[1..][0] == existing[1];
        }
      }
      if s.end <= start || s.start >= end {
        ConsOrdered(s, rest);
      } else {
        SplitOrdered(s, rest, start, end);
      }
    }
  }

  lemma SplitOrdered(s: Span, rest: seq<Span>, start: int, end: int)
    requires Ordered(rest) && start <= end && s.start < s.end && !(s.end <= start || s.start >= end)
    requires forall x :: x in rest ==> s.end <= x.start
    ensures var r := (if s.start < start then [s.(end := start)] else [])
            + (if s.end > end then [s.(start := end)] else []) + rest;
            Ordered(r) && (forall x :: x in r ==> s.start <= x.start)
              && (forall x :: x in r ==> x in rest || x.end <= start || end <= x.start)
  {
    var right := (if s.end > end then [s.(start := end)] else []) + rest;
    if s.end > end {
      ConsOrdered(s.(start := end), rest);
    } else {
      AppendNil(rest);
    }
    var left := if s.start < start then [s.(end := start)] else [];
    AppendAssoc(left, if s.end > end then [s.(start := end)] else [], rest);
    if s.start < start {
      ConsOrdered(s.(end := start), right);
    } else {
      AppendNil(right);
    }
  }

  lemma {:induction false} KeepOutsideTells(existing: seq<Span>, start: int, end: int, p: int, ids: seq<nat>, c: bool)
    requires start <= end
    ensures Tells(KeepOutside(existing, start, end), p, ids, c)
            <==> !Between(p, start, end) && Tells(existing, p, ids, c)
    decreases |existing|
  {
    if existing != [] {
      var s := existing[0];
      KeepOutsideTells(existing[1..], start, end, p, ids, c);
      TellsHead(existing, p, ids, c);
      var own := if s.end <= start || s.start >= end then [s]
                 else
                   (if s.start < start then [s.(end := start)] else [])
                   + (if s.end > end then [s.(start := end)] else []);
      TellsAppend(own, KeepOutside(existing[1..], start, end), p, ids, c);
      OwnTells(s, own, start, end, p, ids, c);
    }
  }

  lemma OwnTells(s: Span, own: seq<Span>, start: int, end: int, p: int, ids: seq<nat>, c: bool)
    requires start <= end
    requires own == if s.end <= start || s.start >= end then [s]
                    else
                      (if s.start < start then [s.(end := start)] else [])
                      + (if s.end > end then [s.(start := end)] else [])
    ensures Tells(own, p, ids, c) <==> !Between(p, start, end) && TellsOne(s, p, ids, c)
  {
    if s.end <= start || s.start >= end {
      assert s in own;
    } else {
      if s.start < start {
        assert s.(end := start) in own;
      }
      if s.end > end {
        assert s.(start := end) in own;
      }
    }
  }

  /** Overlaying replaces what was said inside the interval and keeps the rest. */
  lemma OverlayOk(existing: seq<Span>, replacement: seq<Span>, start: int, end: int)
    requires Ordered(existing) && Ordered(replacement) && Within(replacement, start, end) && start <= end
    ensures Ordered(Overlay(existing, replacement, start, end)) && AllNormal(Overlay(existing, replacement, start, end))
    ensures forall p, ids, c :: Says(Overlay(existing, replacement, start, end), p, ids, c)
                                <==> if Between(p, start, end) then Tells(replacement, p, ids, c)
                                     else Tells(existing, p, ids, c)
    ensures forall lo, hi :: Inside(existing, lo, hi) && lo <= start && end <= hi ==>
              Within(Overlay(existing, replacement, start, end), lo, hi)
  {
    var kept := KeepOutside(existing, start, end);
    KeepOutsideOk(existing, start, end);
    var combined := kept + replacement;
    CombinedScattered(kept, replacement, start, end);
    CoalesceOk(combined);
    forall p, ids, c
      ensures Says(Overlay(existing, replacement, start, end), p, ids, c)
              <==> if Between(p, start, end) then Tells(replacement, p, ids, c) else Tells(existing, p, ids, c)
    {
      TellsAppend(kept, replacement, p, ids, c);
      KeepOutsideTells(existing, start, end, p, ids, c);
      if Tells(replacement, p, ids, c) {
        TellsWithin(replacement, start, end, p, ids, c);
      }
    }
    forall lo, hi | Inside(existing, lo, hi) && lo <= start && end <= hi
      ensures Within(Overlay(existing, replacement, start, end), lo, hi)
    {
      KeepOutsideInside(existing, start, end, lo, hi);
      CoalesceInside(combined, lo, hi);
    }
  }

  lemma TellsWithin(spans: seq<Span>, start: int, end: int, p: int, ids: seq<nat>, c: bool)
    requires Within(spans, start, end) && Tells(spans, p, ids, c)
    ensures Between(p, start, end)
  {
    var s :| s in spans && TellsOne(s, p, ids, c);
    var i :| 0 <= i < |spans| && spans[i] == s;
  }

  lemma CombinedScattered(kept: seq<Span>, replacement: seq<Span>, start: int, end: int)
    requires Ordered(kept) && Ordered(replacement) && Within(replacement, start, end)
    requires forall x :: x in kept ==> x.end <= start || end <= x.start
    ensures Scattered(kept + replacement)
  {
    var r := kept + replacement;
    forall i, j | 0 <= i < j < |r| ensures Apart(r[i], r[j]) {
      if i < |kept| <= j {
        assert r[i] in kept && r[j] == replacement[j - |kept|];
      } else if j < |kept| {
        assert r[i] == kept[i] && r[j] == kept[j];
      } else {
        assert r[i] == replacement[i - |kept|] && r[j] == replacement[j - |kept|];
      }
    }
  }

  lemma {:induction false} KeepOutsideInside(existing: seq<Span>, start: int, end: int, lo: int, hi: int)
    requires Inside(existing, lo, hi) && lo <= start <= end <= hi
    ensures Inside(KeepOutside(existing, start, end), lo, hi)
    decreases |existing|
  {
    if existing != [] {
      assert existing[0] in existing;
      assert forall s :: s in existing[1..] ==> s in existing;
      KeepOutsideInside(existing[1..], start, end, lo, hi);
    }
  }

  // ---------------------------------------------------------------- completing a chunk's spans

  /** What a chunk's spans say at `p`, with the incomplete fallback where nothing was supplied. */
  ghost predicate Filled(supplied: seq<Span>, p: int, fallback: seq<nat>, ids: seq<nat>, c: bool) {
    Tells(supplied, p, ids, c) || (!Spoken(supplied, p) && ids == Dedup(fallback) && !c)
  }

  lemma {:induction false} FillLoopOk(supplied: seq<Span>, cursor: int, end: int, fallback: seq<nat>)
    requires Ordered(supplied) && cursor <= end && Within(supplied, cursor, end)
    ensures var r := FillLoop(supplied, cursor, end, fallback); Ordered(r) && Within(r, cursor, end)
    decreases |supplied|
  {
    if supplied != [] {
      var s := supplied[0];
      HeadFirst(supplied);
      WithinRest(supplied, cursor, end);
      FillLoopOk(supplied[1..], s.end, end, fallback);
      ConsFill(s, FillLoop(supplied[1..], s.end, end, fallback), cursor, end, fallback);
    }
  }

  lemma ConsFill(s: Span, rest: seq<Span>, cursor: int, end: int, fallback: seq<nat>)
    requires Ordered(rest) && Within(rest, s.end, end) && cursor <= s.start < s.end <= end
    ensures Ordered([s] + rest) && Within([s] + rest, cursor, end)
    ensures s.start > cursor ==> var r := [Span(cursor, s.start, fallback, false)] + ([s] + rest);
            Ordered(r) && Within(r, cursor, end)
  {
    WithinMembers(rest, s.end, end);
    ConsOrdered(s, rest);
    if s.start > cursor {
      ConsOrdered(Span(cursor, s.start, fallback, false), [s] + rest);
    }
  }

  lemma WithinRest(spans: seq<Span>, lo: int, hi: int)
    requires Ordered(spans) && Within(spans, lo, hi) && spans != []
    ensures Within(spans[1..], spans[0].end, hi)
  {
    forall i | 0 <= i < |spans| - 1 ensures spans[0].end <= spans[1..][i].start && spans[1..][i].end <= hi {
      assert spans[1..][i] == spans[i + 1];
    }
  }

  lemma WithinMembers(spans: seq<Span>, lo: int, hi: int)
    requires Within(spans, lo, hi)
    ensures forall x :: x in spans ==> lo <= x.start && x.end <= hi
  {
  }

  lemma {:induction false} FillLoopTells(supplied: seq<Span>, cursor: int, end: int, fallback: seq<nat>, p: int,
                                         ids: seq<nat>, c: bool)
    requires Ordered(supplied) && cursor <= end && Within(supplied, cursor, end)
    ensures Tells(FillLoop(supplied, cursor, end, fallback), p, ids, c)
            <==> Between(p, cursor, end) && Filled(supplied, p, fallback, ids, c)
    decreases |supplied|
  {
    if supplied == [] {
      if cursor < end {
        assert Span(cursor, end, fallback, false) in FillLoop(supplied, cursor, end, fallback);
      }
    } else {
      var s := supplied[0];
      HeadFirst(supplied);
      WithinRest(supplied, cursor, end);
      FillLoopTells(supplied[1..], s.end, end, fallback, p, ids, c);
      var rest := FillLoop(supplied[1..], s.end, end, fallback);
      FilledHead(supplied, cursor, end, fallback, p, ids, c);
      TellsHead([s] + rest, p, ids, c);
      assert ([s] + rest)[1..] == rest;
      if s.start > cursor {
        var gap := Span(cursor, s.start, fallback, false);
        TellsHead([gap] + ([s] + rest), p, ids, c);
        assert ([gap] + ([s] + rest))[1..] == [s] + rest;
      } else {
        AppendNil([s] + rest);
      }
    }
  }

  /** Before, inside and after the first supplied span. */
  lemma FilledHead(supplied: seq<Span>, cursor: int, end: int, fallback: seq<nat>, p: int, ids: seq<nat>, c: bool)
    requires supplied != [] && Ordered(supplied) && Within(supplied, cursor, end)
    ensures p < supplied[0].start ==> (Filled(supplied, p, fallback, ids, c) <==> ids == Dedup(fallback) && !c)
    ensures supplied[0].Holds(p) ==> (Filled(supplied, p, fallback, ids, c) <==> TellsOne(supplied[0], p, ids, c))
    ensures supplied[0].end <= p ==>
            (Filled(supplied, p, fallback, ids, c) <==> Filled(supplied[1..], p, fallback, ids, c))
  {
    HeadFirst(supplied);
    TellsHead(supplied, p, ids, c);
    SpokenHead(supplied, p);
    if p < supplied[0].end {
      assert !Tells(supplied[1..], p, ids, c);
    }
  }

  lemma SpokenHead(spans: seq<Span>, p: int)
    requires Ordered(spans) && spans != []
    ensures Spoken(spans, p) <==> spans[0].Holds(p) || Spoken(spans[1..], p)
    ensures p < spans[0].end ==> !Spoken(spans[1..], p)
  {
    if i :| 0 <= i < |spans| && spans[i].Holds(p) && i > 0 {
      assert spans[1..][i - 1] == spans[i];
    }
    if i :| 0 <= i < |spans| - 1 && spans[1..][i].Holds(p) {
      assert spans[i + 1] == spans[1..][i];
    }
  }

  lemma SpokenIsTold(spans: seq<Span>, p: int)
    ensures Spoken(spans, p) <==> exists ids, c :: Tells(spans, p, ids, c)
  {
    if i :| 0 <= i < |spans| && spans[i].Holds(p) {
      assert spans[i] in spans && TellsOne(spans[i], p, Dedup(spans[i].ids), spans[i].complete);
      assert Tells(spans, p, Dedup(spans[i].ids), spans[i].complete);
    }
    if ids, c :| Tells(spans, p, ids, c) {
      var s :| s in spans && TellsOne(s, p, ids, c);
      var i :| 0 <= i < |spans| && spans[i] == s;
    }
  }

  lemma ClipFilled(spans: seq<Span>, offset: int, end: int, ids: seq<nat>, p: int, x: seq<nat>, c: bool)
    requires Ordered(spans) && offset <= end && Between(p, offset, end)
    ensures Filled(Clip(spans, offset, end), p, Dedup(ids), x, c) <==> Filled(spans, p, ids, x, c)
  {
    var supplied := Clip(spans, offset, end);
    ClipOk(spans, offset, end);
    DedupIdempotent(ids);
    SaysTells(supplied, p, x, c);
    SaysSpoken(supplied, p);
    SpokenIsTold(spans, p);
  }

  lemma ChunkFill(spans: seq<Span>, offset: int, end: int, fallback: seq<nat>)
    requires Ordered(spans) && offset <= end
    ensures var r := FillLoop(Clip(spans, offset, end), offset, end, fallback); Ordered(r) && Within(r, offset, end)
    ensures Ordered(Clip(spans, offset, end)) && Within(Clip(spans, offset, end), offset, end)
  {
    ClipOk(spans, offset, end);
    FillLoopOk(Clip(spans, offset, end), offset, end, fallback);
  }

  lemma CoalesceWithin(filled: seq<Span>, lo: int, hi: int)
    requires Ordered(filled) && Within(filled, lo, hi)
    ensures Ordered(Coalesce(filled)) && AllNormal(Coalesce(filled)) && Within(Coalesce(filled), lo, hi)
  {
    OrderedScattered(filled);
    CoalesceOk(filled);
    WithinMembers(filled, lo, hi);
    CoalesceInside(filled, lo, hi);
  }

  lemma CoalesceSays(filled: seq<Span>, p: int, x: seq<nat>, c: bool)
    requires Ordered(filled)
    ensures Says(Coalesce(filled), p, x, c) <==> Tells(filled, p, x, c)
  {
    OrderedScattered(filled);
    CoalesceOk(filled);
  }

  /** A chunk's spans are ordered and stay inside its interval. */
  lemma ChunkSpansShape(offset: int, length: nat, ids: seq<nat>, spans: seq<Span>)
    requires Ordered(spans)
    ensures var r := ChunkSpans(offset, length, ids, spans);
            Ordered(r) && AllNormal(r) && Within(r, offset, offset + length)
  {
    DedupIdempotent(ids);
    if spans != [] {
      ChunkFill(spans, offset, offset + length, Dedup(ids));
      CoalesceWithin(FillLoop(Clip(spans, offset, offset + length), offset, offset + length, Dedup(ids)), offset,
                     offset + length);
    }
  }

  /** A chunk's spans say what was supplied, and name the fallback packets as incomplete everywhere else. */
  lemma ChunkSpansSays(offset: int, length: nat, ids: seq<nat>, spans: seq<Span>, p: int, x: seq<nat>, c: bool)
    requires Ordered(spans)
    ensures Says(ChunkSpans(offset, length, ids, spans), p, x, c)
            <==> Between(p, offset, offset + length) && Filled(spans, p, ids, x, c)
  {
    var end := offset + length;
    if spans != [] {
      ChunkFill(spans, offset, end, Dedup(ids));
      CoalesceSays(FillLoop(Clip(spans, offset, end), offset, end, Dedup(ids)), p, x, c);
      FillLoopTells(Clip(spans, offset, end), offset, end, Dedup(ids), p, x, c);
      if Between(p, offset, end) {
        ClipFilled(spans, offset, end, ids, p, x, c);
      }
    } else if length > 0 {
      var r := [Span(offset, end, Dedup(ids), false)];
      assert r[0].Holds(p) <==> Between(p, offset, end);
    }
  }
}
