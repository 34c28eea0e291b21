/** The framer as an object: its cursor and blocked flag, updated by every window it is shown. */
module HttpFramer {
  import opened Common
  import opened Http
  import opened HttpLaws

  class HTTPFramer {
    var cursor: nat
    var blocked: bool

    /** A framer whose search found the first request at `start`. */
    constructor (start: nat)
      ensures cursor == start && !blocked
    {
      cursor, blocked := start, false;
    }

    /**
     * Frames what a window of the stream beginning at `base` allows. A window that no longer holds the
     * cursor has lost a frame boundary, and blocks the framer.
     */
    method ScanWindow(data: Bytes, base: nat, limit: nat) returns (messages: seq<Framed>)
      modifies this
      ensures old(blocked) ==> messages == [] && blocked && cursor == old(cursor)
      ensures !old(blocked) && old(cursor) < base ==> messages == [] && blocked && cursor == old(cursor)
      ensures !old(blocked) && old(cursor) >= base ==>
                Scanned(messages, cursor, blocked) == Moved(Scan(data, old(cursor) - base, limit), base)
    {
      messages := [];
      if blocked {
        return;
      }
      if cursor < base {
        blocked := true;
        return;
      }
      var found, at, stuck := ScanLoop(data, cursor - base, limit);
      messages, cursor, blocked := Shifted(found, base), base + at, stuck;
    }
  }

  /** The framing loop over one window: messages until the bytes run out or a verdict stops it. */
  method ScanLoop(data: Bytes, start: nat, limit: nat) returns (found: seq<Framed>, at: nat, blocked: bool)
    ensures Scanned(found, at, blocked) == Scan(data, start, limit)
  {
    found, at, blocked := [], start, false;
    ghost var goal := Scan(data, start, limit);
    AppendNil(goal.messages);
    while at < |data|
      invariant Preceded(found, Scan(data, at, limit)) == goal
      decreases |data| - at
    {
      var v := Judge(data, at, limit);
      if !v.Take? || v.end == 0 {
        ScanStops(data, at, limit);
        AppendNil(found);
        blocked := v.Block?;
        return;
      }
      ScanStep(data, at, limit, v);
      PrecededTwice(found, Emitted(at, v), Scan(data, at + v.end, limit));
      found, at := found + Emitted(at, v), at + v.end;
    }
    ScanStops(data, at, limit);
    AppendNil(found);
  }

  lemma PrecededTwice(a: seq<Framed>, b: seq<Framed>, s: Scanned)
    ensures Preceded(a, Preceded(b, s)) == Preceded(a + b, s)
  {
    AppendAssoc(a, b, s.messages);
  }

  /** The decoding loop of a chunked body. */
  method DecodeChunks(d: Bytes, s: nat, headerEnd: nat, limit: nat) returns (r: Decoded)
    ensures r == ReadChunks(d, s, headerEnd, limit, [], [])
  {
    var at, body: Bytes, spans: seq<BodySpan> := headerEnd, [], [];
    ghost var goal := ReadChunks(d, s, headerEnd, limit, [], []);
    var c := NextChunk(d, s, at, limit, |spans|);
    while c.Data?
      invariant c == NextChunk(d, s, at, limit, |spans|) && ReadChunks(d, s, at, limit, body, spans) == goal
      decreases |d| - at
    {
      ChunksData(d, s, at, limit, body, spans, c.from, c.size);
      body, spans, at :=
        body + d[s + c.from..s + c.from + c.size], spans + [BodySpan(|body|, |body| + c.size, c.from)],
        c.from + c.size + 2;
      c := NextChunk(d, s, at, limit, |spans|);
    }
    ChunksLast(d, s, at, limit, body, spans, c);
    r := if c.Last? then ReadTrailer(d, s, c.next, limit, body, spans) else if c.Partial? then More else Bad;
  }
}
