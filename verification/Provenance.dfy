/**
 * The detector's provenance algebra: coalescing, clipping, overlaying, completing a chunk's spans,
 * appending, and the query that attributes a byte range to captured packets.
 */
module Provenance {
  import opened Common
  import opened Spans

  function Dedup(ids: seq<nat>): (r: seq<nat>)
    ensures forall x :: x in r <==> x in ids
  {
    AppendNew([], ids)
  }

  lemma DedupDistinct(ids: seq<nat>)
    ensures Distinct(Dedup(ids))
  {
    AppendNewDistinct([], ids);
  }

  lemma {:induction false} AppendNewFresh(ids: seq<nat>, more: seq<nat>)
    requires Distinct(ids + more)
    ensures AppendNew(ids, more) == ids + more
    decreases |more|
  {
    if more != [] {
      assert (ids + more)[|ids|] == more[0];
      assert forall i :: 0 <= i < |ids| ==> (ids + more)[i] == ids[i];
      assert ids + more == (ids + [more[0]]) + more[1..];
      AppendNewFresh(ids + [more[0]], more[1..]);
    } else {
      AppendNil(ids);
    }
  }

  lemma DedupIdempotent(ids: seq<nat>)
    ensures Dedup(Dedup(ids)) == Dedup(ids)
  {
    DedupDistinct(ids);
    AppendNil(Dedup(ids));
    AppendNewFresh([], Dedup(ids));
  }

  // ---------------------------------------------------------------- functions

  function Normal(s: Span): Span { s.(ids := Dedup(s.ids)) }

  /** Stable insertion by start, then end. */
  function InsertSpan(sorted: seq<Span>, s: Span): seq<Span> {
    if sorted == [] then [s]
    else
      var last := sorted[|sorted| - 1];
      if last.start < s.start || (last.start == s.start && last.end <= s.end) then sorted + [s]
      else InsertSpan(sorted[..|sorted| - 1], s) + [last]
  }

  /** Non-empty spans in order. */
  function SortSpans(spans: seq<Span>): seq<Span> {
    if spans == [] then []
    else
      var s := spans[|spans| - 1];
      var rest := SortSpans(spans[..|spans| - 1]);
      if s.start < s.end then InsertSpan(rest, s) else rest
  }

  function PushAll(acc: seq<Span>, spans: seq<Span>): seq<Span>
    decreases |spans|
  {
    if spans == [] then acc
    else PushAll(if spans[0].start < spans[0].end then Push(acc, Normal(spans[0])) else acc, spans[1..])
  }

  function Coalesce(spans: seq<Span>): seq<Span> { PushAll([], SortSpans(spans)) }

  function ClipLoop(spans: seq<Span>, start: int, end: int): seq<Span>
    decreases |spans|
  {
    if spans == [] || (spans[0].end > start && spans[0].start >= end) then []
    else if spans[0].end <= start then ClipLoop(spans[1..], start, end)
    else
      [spans[0].(start := Max(start, spans[0].start), end := Min(end, spans[0].end))]
      + ClipLoop(spans[1..], start, end)
  }

  function Clip(spans: seq<Span>, start: int, end: int): seq<Span> { Coalesce(ClipLoop(spans, start, end)) }

  function KeepOutside(existing: seq<Span>, start: int, end: int): seq<Span>
    decreases |existing|
  {
    if existing == [] then []
    else
      var s := existing[0];
      (if s.end <= start || s.start >= end then [s]
       else (if s.start < start then [s.(end := start)] else []) + (if s.end > end then [s.(start := end)] else []))
      + KeepOutside(existing[1..], start, end)
  }

  function Overlay(existing: seq<Span>, replacement: seq<Span>, start: int, end: int): seq<Span> {
    Coalesce(KeepOutside(existing, start, end) + replacement)
  }

  /** Fills every hole between `cursor` and `end` with an incomplete fallback span. */
  function FillLoop(supplied: seq<Span>, cursor: int, end: int, fallback: seq<nat>): seq<Span>
    decreases |supplied|
  {
    if supplied == [] then if cursor < end then [Span(cursor, end, fallback, false)] else []
    else
      var s := supplied[0];
      (if s.start > cursor then [Span(cursor, s.start, fallback, false)] else [])
      + (if s.end <= cursor then FillLoop(supplied[1..], cursor, end, fallback)
         else [s.(start := Max(cursor, s.start))] + FillLoop(supplied[1..], s.end, end, fallback))
  }

  /** The spans of a chunk: what it supplies, completed to a tiling of its interval. */
  function ChunkSpans(offset: int, length: nat, ids: seq<nat>, spans: seq<Span>): seq<Span> {
    if spans == [] then if length > 0 then [Span(offset, offset + length, Dedup(ids), false)] else []
    else Coalesce(FillLoop(Clip(spans, offset, offset + length), offset, offset + length, Dedup(ids)))
  }

  datatype Attribution = Attribution(ids: seq<nat>, complete: bool)

  /** The query's loop: collected ids, running completeness, and how far the range is covered. */
  function Gather(spans: seq<Span>, from: int, to: int, cursor: int, ids: seq<nat>, complete: bool): (seq<nat>, bool,
                                                                                                      int)
    decreases |spans|
  {
    if spans == [] || (spans[0].end > from && spans[0].start >= to) then (ids, complete, cursor)
    else if spans[0].end <= from then Gather(spans[1..], from, to, cursor, ids, complete)
    else
      var s := spans[0];
      var lo, hi := Max(from, s.start), Min(to, s.end);
      var whole := complete && s.start <= cursor;
      if hi <= lo then Gather(spans[1..], from, to, cursor, ids, whole)
      else Gather(spans[1..], from, to, Max(cursor, hi), ids + s.ids, whole && s.complete)
  }

  function Limited(ids: seq<nat>, complete: bool, limit: nat): Attribution {
    var unique := Dedup(ids);
    if |unique| > limit then Attribution(unique[..limit], false)
    else Attribution(unique, complete && unique != [])
  }

  /** Attributes the absolute range [from, to) to packets; an empty range is never complete. */
  function Attribute(spans: seq<Span>, from: int, to: int, fallback: seq<nat>, complete: bool,
                     limit: nat): Attribution {
    if to <= from then Limited(fallback, false, limit)
    else
      var g := Gather(spans, from, to, from, [], complete);
      Limited(g.0, g.1 && g.2 >= to, limit)
  }

  // ---------------------------------------------------------------- the loops

  method CoalesceLoop(spans: seq<Span>) returns (result: seq<Span>)
    ensures result == Coalesce(spans)
  {
    var sorted := SortSpans(spans);
    result := [];
    var i := 0;
    while i < |sorted|
      invariant 0 <= i <= |sorted| && PushAll(result, sorted[i..]) == Coalesce(spans)
    {
      assert sorted[i..][1..] == sorted[i + 1..];
      if sorted[i].start < sorted[i].end {
        result := Push(result, Normal(sorted[i]));
      }
      i := i + 1;
    }
  }

  method ClipRange(spans: seq<Span>, start: int, end: int) returns (result: seq<Span>)
    ensures result == Clip(spans, start, end)
  {
    var clipped: seq<Span> := [];
    var i := 0;
    while i < |spans|
      invariant 0 <= i <= |spans|
      invariant clipped + ClipLoop(spans[i..], start, end) == ClipLoop(spans, start, end)
    {
      assert spans[i..][1..] == spans[i + 1..];
      var s := spans[i];
      if s.end > start {
        if s.start >= end {
          break;
        }
        clipped := clipped + [s.(start := Max(start, s.start), end := Min(end, s.end))];
      }
      i := i + 1;
    }
    AppendNil(clipped);
    result := CoalesceLoop(clipped);
  }

  method AttributeRange(spans: seq<Span>, from: int, to: int, fallback: seq<nat>, complete: bool, limit: nat)
    returns (r: Attribution)
    ensures r == Attribute(spans, from, to, fallback, complete, limit)
  {
    if to <= from {
      return Limited(fallback, false, limit);
    }
    var cursor, ids, whole, i := from, [], complete, 0;
    while i < |spans|
      invariant 0 <= i <= |spans|
      invariant Gather(spans[i..], from, to, cursor, ids, whole) == Gather(spans, from, to, from, [], complete)
    {
      assert spans[i..][1..] == spans[i + 1..];
      var s := spans[i];
      i := i + 1;
      if s.end <= from {
        continue;
      }
      if s.start >= to {
        i := i - 1;
        break;
      }
      if s.start > cursor {
        whole := false;
      }
      var lo, hi := Max(from, s.start), Min(to, s.end);
      if lo < hi {
        ids, whole, cursor := ids + s.ids, whole && s.complete, Max(cursor, hi);
      }
    }
    r := Limited(ids, whole && cursor >= to, limit);
  }
}
