/** The detector's retained stream window: merging a chunk and what is handed to the scanners. */
module RetainedWindow {
  import opened Common
  import opened Spans
  import opened Provenance
  import TcpDirection

  /** The bytes kept of one direction and the packets they came from. */
  datatype Retained = Retained(base: int, data: Bytes, spans: seq<Span>) {
    function End(): int { base + |data| }
  }

  /** The next window, and the bytes and spans the scanners see. */
  datatype Merged = Merged(window: Retained, scan: Retained)

  /** The last `n` bytes, or all of them. */
  function LastBytes(data: Bytes, n: nat): Bytes { if |data| <= n then data else data[|data| - n..] }

  /** Keeps the spans of [lo, hi): clipped, and coalesced once more when stored. */
  function Retain(spans: seq<Span>, lo: int, hi: int): seq<Span> { Coalesce(Clip(spans, lo, hi)) }

  function TrimSlack(overlap: nat): nat { Min(64 * 1024, Max(4096, overlap / 4)) }

  /** The window cut to the last `n` bytes. */
  function CutTo(w: Retained, n: nat): Retained {
    Ending(w.spans, LastBytes(w.data, n), w.End())
  }

  /** These bytes up to `end`, with what the spans say of them. */
  function Ending(spans: seq<Span>, kept: Bytes, end: int): Retained {
    Retained(end - |kept|, kept, Retain(spans, end - |kept|, end))
  }

  /** A chunk's own bytes and spans. */
  function Island(c: TcpDirection.Chunk): Retained {
    Retained(c.offset, c.data, ChunkSpans(c.offset, |c.data|, c.ids, c.spans))
  }

  /** A chunk that repeats retained bytes. */
  predicate Replays(w: Retained, c: Retained) {
    w.base <= c.base && c.End() <= w.End() && w.data[c.base - w.base..c.End() - w.base] == c.data
  }

  predicate Separate(w: Retained, c: Retained) { c.base > w.End() || c.End() < w.base }

  function Appended(w: Retained, c: Retained): Retained {
    Retained(w.base, w.data + c.data, PushAll(w.spans, c.spans))
  }

  /** An in-order chunk extends the window, which is cut when it outgrew its slack. */
  function Extend(all: Retained, added: nat, overlap: nat): Merged {
    if added > overlap then Merged(CutTo(all, overlap), all)
    else if |all.data| > overlap + TrimSlack(overlap) then Merged(CutTo(all, overlap), CutTo(all, overlap))
    else Merged(all, all)
  }

  /** The bytes of the union of the two intervals, the chunk's on top. */
  function OverlaidData(w: Retained, c: Retained): (r: Bytes)
    requires !Separate(w, c)
    ensures |r| == Max(w.End(), c.End()) - Min(w.base, c.base)
  {
    (if w.base < c.base then w.data[..c.base - w.base] else [])
    + c.data
    + (if c.End() < w.End() then w.data[c.End() - w.base..] else [])
  }

  /** Everything the two intervals hold, before clipping. */
  function Laid(w: Retained, c: Retained): Retained
    requires !Separate(w, c)
  {
    Retained(Min(w.base, c.base), OverlaidData(w, c), Overlay(w.spans, c.spans, c.base, c.End()))
  }

  function Overlap(laid: Retained, w: Retained, cEnd: int, overlap: nat): Merged {
    Merged(if cEnd >= w.End() then CutTo(laid, overlap) else w, laid.(spans := Clip(laid.spans, laid.base, laid.End())))
  }

  /** The whole operation, on the chunk's own bytes and spans. */
  function Merge(w: Retained, c: Retained, overlap: nat): Merged {
    if w.data == [] then Merged(CutTo(c, overlap), c)
    else if Replays(w, c) then Merged(w, Retained(c.base, [], []))
    else if Separate(w, c) then Merged(CutTo(c, overlap), c)
    else if c.base == w.End() then Extend(Appended(w, c), |c.data|, overlap)
    else Overlap(Laid(w, c), w, c.End(), overlap)
  }

  /** Cap enforcement drops the `n` oldest spans and no byte. */
  function Forget(w: Retained, n: nat): Retained
    requires n <= |w.spans|
  {
    w.(spans := w.spans[n..])
  }

  // ---------------------------------------------------------------- the update in place

  /** One direction's retained state, updated by every chunk. */
  class DirectionState {
    var baseOffset: int
    var data: Bytes
    var spans: seq<Span>

    constructor ()
      ensures Value() == Retained(0, [], [])
    {
      baseOffset, data, spans := 0, [], [];
    }

    function Value(): Retained reads this { Retained(baseOffset, data, spans) }

    /** Keeps the last `overlap` bytes of `source` and their spans. */
    method Replace(source: Retained, overlap: nat)
      modifies this
      ensures Value() == CutTo(source, overlap)
    {
      data := LastBytes(source.data, overlap);
      baseOffset := source.base + |source.data| - |data|;
      var clipped := ClipRange(source.spans, baseOffset, baseOffset + |data|);
      spans := CoalesceLoop(clipped);
    }

    method Append(more: seq<Span>)
      modifies this`spans
      ensures spans == PushAll(old(spans), more)
    {
      var i := 0;
      while i < |more|
        invariant 0 <= i <= |more| && PushAll(spans, more[i..]) == PushAll(old(spans), more)
      {
        assert more[i..][1..] == more[i + 1..];
        if more[i].start < more[i].end {
          spans := Push(spans, Normal(more[i]));
        }
        i := i + 1;
      }
    }

    method ExtendWindow(c: Retained, overlap: nat) returns (scan: Retained)
      modifies this
      ensures Merged(Value(), scan) == Extend(Appended(old(Value()), c), |c.data|, overlap)
    {
      data := data + c.data;
      Append(c.spans);
      scan := Value();
      if |c.data| > overlap {
        Replace(scan, overlap);
      } else if |data| > overlap + TrimSlack(overlap) {
        Replace(scan, overlap);
        scan := Value();
      }
    }

    method OverlayWindow(c: Retained, overlap: nat) returns (scan: Retained)
      requires !Separate(Value(), c)
      modifies this
      ensures Merged(Value(), scan) == Overlap(Laid(old(Value()), c), old(Value()), c.End(), overlap)
    {
      var laid := Laid(Value(), c);
      var clipped := ClipRange(laid.spans, laid.base, laid.End());
      scan := laid.(spans := clipped);
      if c.End() >= Value().End() {
        Replace(laid, overlap);
      }
    }

    method MergeStream(c: Retained, overlap: nat) returns (scan: Retained)
      modifies this
      ensures Merged(Value(), scan) == Merge(old(Value()), c, overlap)
    {
      if data == [] {
        scan := c;
        Replace(c, overlap);
      } else if Replays(Value(), c) {
        scan := Retained(c.base, [], []);
      } else if Separate(Value(), c) {
        scan := c;
        Replace(c, overlap);
      } else if c.base == Value().End() {
        scan := ExtendWindow(c, overlap);
      } else {
        scan := OverlayWindow(c, overlap);
      }
    }
  }
}
