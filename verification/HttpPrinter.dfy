/** Printing chunked bodies, and decoding them back. */
module HttpPrinter {
  import opened Common
  import opened Positions
  import opened Wire
  import opened Http
  import opened HttpLaws
  import opened HttpChunks

  const CRLF: Bytes := [13, 10]

  function HexByte(n: nat): Byte
    requires n < 16
  {
    if n < 10 then 48 + n else 87 + n
  }

  function HexText(n: nat): Bytes { if n < 16 then [HexByte(n)] else HexText(n / 16) + [HexByte(n % 16)] }

  function Pow16(k: nat): nat { if k == 0 then 1 else 16 * Pow16(k - 1) }

  lemma {:induction false} HexShort(n: nat, k: nat)
    requires k >= 1 && n < Pow16(k)
    ensures 1 <= |HexText(n)| <= k
    decreases k
  {
    if n >= 16 {
      HexShort(n / 16, k - 1);
    }
  }

  lemma {:induction false} HexReads(n: nat)
    ensures Hex(HexText(n)) == n && AllHex(HexText(n))
    decreases n
  {
    if n < 16 {
      assert HexText(n)[..0] == [];
    } else {
      HexReads(n / 16);
      AppendSnoc(HexText(n / 16), HexByte(n % 16));
    }
  }

  lemma {:induction false} HexAt(b: Bytes, i: nat)
    requires AllHex(b) && i < |b|
    ensures IsHex(b[i])
    decreases |b|
  {
    if i < |b| - 1 {
      HexAt(b[..|b| - 1], i);
    }
  }

  lemma {:induction false} SizeUnsealed(line: Bytes, depth: nat)
    ensures ChunkSizeSealed(line, depth) == ChunkSizeSealed(line, 0)
  {
    if depth > 0 {
      SizeUnsealed(line, depth - 1);
    }
  }

  lemma {:induction false} NoSemicolon(line: Bytes, at: nat)
    requires AllHex(line) && at <= |line|
    ensures FindByteFrom(line, 59, at).None?
    decreases |line| - at
  {
    if at < |line| {
      HexAt(line, at);
      NoSemicolon(line, at + 1);
    }
  }

  /** A chunk line reads as the size it was printed from. */
  lemma SizeReads(n: nat)
    requires n < Pow16(8)
    ensures ChunkSize(HexText(n)) == Some(n) && 1 <= |HexText(n)| <= 8
  {
    HexShort(n, 8);
    HexReads(n);
    NoSemicolon(HexText(n), 0);
    SizeUnsealed(HexText(n), |HexText(n)| + 3);
  }

  lemma LineEnd(d: Bytes, pos: nat, text: Bytes)
    requires AllHex(text) && At(d, pos, text + CRLF)
    ensures FindCrlf(d, pos, |d|) == Some(pos + |text|)
  {
    AtIndex(d, pos, text + CRLF, |text|);
    AtIndex(d, pos, text + CRLF, |text| + 1);
    FindCrlfMeans(d, pos, |d|);
    forall k | pos <= k < pos + |text| ensures !CrlfAt(d, k) {
      AtIndex(d, pos, text + CRLF, k - pos);
      HexAt(text, k - pos);
    }
    assert CrlfAt(d, pos + |text|);
  }

  lemma ChunkLineReads(d: Bytes, s: nat, at: nat, n: nat, chunks: nat)
    requires n < Pow16(8) && At(d, s + at, HexText(n) + CRLF) && chunks < MAX_CHUNKS
    ensures ReadChunkLine(d, s, at, chunks) == Line(n, at + |HexText(n)| + 2)
  {
    SizeReads(n);
    HexReads(n);
    LineEnd(d, s + at, HexText(n));
    AtSplit(d, s + at, HexText(n), CRLF);
    AtMeans(d, s + at, HexText(n));
  }

  // ---------------------------------------------------------------- chunks

  /** A size line, the bytes, and a line end; sealed so that a chunk is compared as a whole. */
  function PrintChunk(c: Bytes): Bytes { PrintChunkSealed(c, |c| + 3) }

  function PrintChunkSealed(c: Bytes, depth: nat): Bytes
    decreases depth
  {
    if depth > 0 then PrintChunkSealed(c, depth - 1) else HexText(|c|) + CRLF + (c + CRLF)
  }

  lemma {:induction false} PrintChunkUnsealed(c: Bytes, depth: nat)
    ensures PrintChunkSealed(c, depth) == HexText(|c|) + CRLF + (c + CRLF)
  {
    if depth > 0 {
      PrintChunkUnsealed(c, depth - 1);
    }
  }

  lemma PrintChunkIs(c: Bytes)
    ensures PrintChunk(c) == HexText(|c|) + CRLF + (c + CRLF)
  {
    PrintChunkUnsealed(c, |c| + 3);
  }

  function PrintChunks(cs: seq<Bytes>): Bytes { if cs == [] then [] else PrintChunk(cs[0]) + PrintChunks(cs[1..]) }

  const LAST_CHUNK: Bytes := [48, 13, 10, 13, 10]

  function Concat(cs: seq<Bytes>): Bytes { if cs == [] then [] else cs[0] + Concat(cs[1..]) }

  predicate ChunksOk(cs: seq<Bytes>) { cs == [] || (0 < |cs[0]| < Pow16(8) && ChunksOk(cs[1..])) }

  lemma FollowedByCrlf(d: Bytes, pos: nat, c: Bytes)
    requires At(d, pos, c + CRLF)
    ensures pos + |c| + 2 <= |d| && d[pos..pos + |c|] == c && CrlfAt(d, pos + |c|)
  {
    AtSplit(d, pos, c, CRLF);
    AtMeans(d, pos, c);
    AtIndex(d, pos + |c|, CRLF, 0);
    AtIndex(d, pos + |c|, CRLF, 1);
  }

  lemma DataChunk(d: Bytes, s: nat, at: nat, limit: nat, chunks: nat, from: nat, size: nat)
    requires ReadChunkLine(d, s, at, chunks) == Line(size, from) && size > 0
    requires from + size + 2 <= limit && s + from + size + 2 <= |d| && CrlfAt(d, s + from + size)
    ensures NextChunk(d, s, at, limit, chunks) == Data(from, size)
  {
    NextChunkIs(d, s, at, limit, chunks);
  }

  lemma PrintChunkLength(c: Bytes)
    ensures |PrintChunk(c)| == |HexText(|c|)| + 2 + |c| + 2
  {
    PrintChunkIs(c);
  }

  lemma ChunkReads(d: Bytes, s: nat, at: nat, limit: nat, chunks: nat, c: Bytes, from: nat)
    requires 0 < |c| < Pow16(8) && At(d, s + at, PrintChunk(c)) && at + |PrintChunk(c)| <= limit && chunks < MAX_CHUNKS
    requires from == at + |HexText(|c|)| + 2
    ensures NextChunk(d, s, at, limit, chunks) == Data(from, |c|) && from + |c| + 2 == at + |PrintChunk(c)|
    ensures s + from + |c| + 2 <= |d| && d[s + from..s + from + |c|] == c
  {
    PrintChunkLength(c);
    PrintChunkIs(c);
    AtSplit(d, s + at, HexText(|c|) + CRLF, c + CRLF);
    ChunkLineReads(d, s, at, |c|, chunks);
    FollowedByCrlf(d, s + from, c);
    DataChunk(d, s, at, limit, chunks, from, |c|);
  }

  /** One printed chunk is read and left behind. */
  lemma ChunkPasses(d: Bytes, s: nat, at: nat, limit: nat, body: Bytes, spans: seq<BodySpan>,
                    c: Bytes) returns (x: BodySpan)
    requires 0 < |c| < Pow16(8) && At(d, s + at, PrintChunk(c)) && at + |PrintChunk(c)| <= limit && |spans| < MAX_CHUNKS
    ensures ReadChunks(d, s, at, limit, body, spans)
            == ReadChunks(d, s, at + |PrintChunk(c)|, limit, body + c, spans + [x])
  {
    var from := at + |HexText(|c|)| + 2;
    x := BodySpan(|body|, |body| + |c|, from);
    ChunkReads(d, s, at, limit, |spans|, c, from);
    ChunksData(d, s, at, limit, body, spans, from, |c|);
  }

  lemma LastReads(d: Bytes, s: nat, at: nat, limit: nat, chunks: nat, body: Bytes, spans: seq<BodySpan>)
    requires At(d, s + at, LAST_CHUNK) && chunks == |spans| && chunks < MAX_CHUNKS
    ensures var r := ReadChunks(d, s, at, limit, body, spans); r.Done? && r.body == body && r.end == at + 5
  {
    assert HexText(0) == [48];
    assert LAST_CHUNK == (HexText(0) + CRLF) + CRLF;
    AtSplit(d, s + at, HexText(0) + CRLF, CRLF);
    ChunkLineReads(d, s, at, 0, chunks);
    AtIndex(d, s + at + 3, CRLF, 0);
    AtIndex(d, s + at + 3, CRLF, 1);
    assert CrlfAt(d, s + at + 3);
    NextChunkIs(d, s, at, limit, chunks);
    ChunksLast(d, s, at, limit, body, spans, Last(at + 3));
  }

  /** From `at` on, the body is completed to `whole` and the message ends at `end`. */
  predicate Yields(d: Bytes, s: nat, at: nat, limit: nat, body: Bytes, spans: seq<BodySpan>, whole: Bytes, end: nat) {
    var r := ReadChunks(d, s, at, limit, body, spans);
    r.Done? && r.body == whole && r.end == end
  }

  lemma OneMore(d: Bytes, s: nat, at: nat, limit: nat, body: Bytes, spans: seq<BodySpan>, c: Bytes,
                rest: Bytes) returns (x: BodySpan)
    requires 0 < |c| < Pow16(8) && At(d, s + at, PrintChunk(c) + rest) && at + |PrintChunk(c)| <= limit
             && |spans| < MAX_CHUNKS
    ensures At(d, s + (at + |PrintChunk(c)|), rest)
    ensures forall whole, end :: Yields(d, s, at + |PrintChunk(c)|, limit, body + c, spans + [x], whole, end) ==>
                                 Yields(d, s, at, limit, body, spans, whole, end)
  {
    AtSplit(d, s + at, PrintChunk(c), rest);
    x := ChunkPasses(d, s, at, limit, body, spans, c);
  }

  /** Decoding printed chunks, whatever follows them, gives back their content and the exact end. */
  lemma {:induction false} ChunksRoundTrip(d: Bytes, s: nat, at: nat, limit: nat, body: Bytes, spans: seq<BodySpan>,
                                           cs: seq<Bytes>)
    requires ChunksOk(cs) && At(d, s + at, PrintChunks(cs) + LAST_CHUNK) && at + |PrintChunks(cs)| <= limit
             && |spans| + |cs| < MAX_CHUNKS
    ensures Yields(d, s, at, limit, body, spans, body + Concat(cs), at + |PrintChunks(cs)| + 5)
    decreases |cs|
  {
    if cs == [] {
      AppendNil(LAST_CHUNK);
      AppendNil(body);
      LastReads(d, s, at, limit, |spans|, body, spans);
    } else {
      var c, rest := cs[0], PrintChunks(cs[1..]);
      AppendAssoc(PrintChunk(c), rest, LAST_CHUNK);
      var x := OneMore(d, s, at, limit, body, spans, c, rest + LAST_CHUNK);
      ChunksRoundTrip(d, s, at + |PrintChunk(c)|, limit, body + c, spans + [x], cs[1..]);
      AppendAssoc(body, c, Concat(cs[1..]));
    }
  }
}
