/** For every limit the detector accepts there is a request that some cuts block and others do not. */
module HttpOverlong {
  import opened Common
  import opened Positions
  import opened Wire
  import opened Http
  import opened HttpLaws
  import opened HttpChunks
  import opened HttpCuts
  import opened HttpPrinter

  // ---------------------------------------------------------------- a chunked request without its body

  const GET: Bytes := [71, 69, 84]

  /** GET / HTTP/1.1 */
  const REQUEST: Bytes := GET + [32, 47, 32] + (HTTP_1 + [49, 13, 10])

  /** transfer-encoding:chunked */
  const FIELD: Bytes := TRANSFER_ENCODING + [58] + CHUNKED

  const HEAD: Bytes := REQUEST + (FIELD + CRLF + CRLF)

  lemma {:induction false} FindSkips(d: Bytes, b: Byte, at: nat, n: nat)
    requires at <= n < |d| && d[n] == b && forall k :: at <= k < n ==> d[k] != b
    ensures FindByteFrom(d, b, at) == Some(n)
    decreases n - at
  {
    if at < n {
      FindSkips(d, b, at + 1, n);
    }
  }

  lemma {:induction false} LineUnsealed(line: Bytes, depth: nat)
    ensures RequestLineSealed(line, depth) == RequestLineSealed(line, 0)
  {
    if depth > 0 {
      LineUnsealed(line, depth - 1);
    }
  }

  lemma RequestReads()
    ensures RequestLine(REQUEST) == Some(Request(GET, [47], 4))
  {
    var line := REQUEST;
    LineUnsealed(line, |line| + 3);
    FindSkips(line, 32, 0, 3);
    FindSkips(line, 32, 4, 5);
    assert line[..3] == GET && GET in METHODS;
    assert line[4..5] == [47];
    assert line[6..] == HTTP_1 + [49, 13, 10];
  }

  lemma {:induction false} HeaderUnsealed(block: Bytes, depth: nat)
    ensures HeaderSealed(block, depth) == HeaderFrom(Fields(block))
  {
    if depth > 0 {
      HeaderUnsealed(block, depth - 1);
    }
  }

  /** Lower-case letters and hyphens. */
  predicate Plain(b: Bytes) { forall i :: 0 <= i < |b| ==> 97 <= b[i] <= 122 || b[i] == 45 }

  lemma {:induction false} LowerKeeps(b: Bytes)
    requires Plain(b)
    ensures Lower(b) == b
  {
    if b != [] {
      LowerKeeps(b[1..]);
      assert b == [b[0]] + b[1..];
    }
  }

  lemma {:induction false} TokenText(b: Bytes)
    requires Plain(b)
    ensures AllToken(b)
  {
    if b != [] {
      TokenText(b[1..]);
    }
  }

  lemma StripKeeps(b: Bytes)
    requires Plain(b)
    ensures Strip(b) == b
  {
  }

  /** A plain name, a colon, and a plain value. */
  lemma FieldReads(line: Bytes, name: Bytes, value: Bytes)
    requires line == name + [58] + value && name != [] && Plain(name) && Plain(value)
    ensures FieldOf(line) == Some(HeaderField(name, value))
  {
    FindSkips(line, 58, 0, |name|);
    assert line[..|name|] == name && line[|name| + 1..] == value;
    LowerKeeps(name);
    TokenText(name);
    StripKeeps(value);
  }

  lemma NoFields()
    ensures Fields([]) == Some([])
  {
  }

  lemma LineEnds(line: Bytes)
    requires forall k :: 0 <= k < |line| ==> line[k] != 13
    ensures FindCrlf(line + CRLF, 0, |line + CRLF|) == Some(|line|)
  {
    var block := line + CRLF;
    FindCrlfMeans(block, 0, |block|);
    assert CrlfAt(block, |line|);
    assert forall k :: 0 <= k < |line| ==> block[k] == line[k];
  }

  lemma FieldsRead(line: Bytes, f: HeaderField)
    requires line != [] && FieldOf(line) == Some(f) && forall k :: 0 <= k < |line| ==> line[k] != 13
    ensures Fields(line + CRLF) == Some([f])
  {
    LineEnds(line);
    assert (line + CRLF)[..|line|] == line && (line + CRLF)[|line| + 2..] == [];
    NoFields();
    AppendNil([f]);
  }

  lemma OneValue(f: HeaderField, name: Bytes)
    ensures Values([f], name) == if f.name == name then [f.value] else []
  {
    var none: seq<HeaderField> := [];
    assert [f][1..] == none && Values(none, name) == [];
  }

  lemma OneFieldChunked(f: HeaderField)
    requires f.name == TRANSFER_ENCODING && Lower(f.value) == CHUNKED
    ensures HeaderFrom(Some([f])).delimiter.Chunked?
  {
    OneValue(f, TRANSFER_ENCODING);
    OneValue(f, CONTENT_LENGTH);
    assert |TRANSFER_ENCODING| == 17 && |CONTENT_LENGTH| == 14;
  }

  lemma OneLine(line: Bytes, name: Bytes, value: Bytes)
    requires line == name + [58] + value && Plain(name) && Plain(value)
    ensures forall k :: 0 <= k < |line| ==> line[k] != 13
  {
  }

  lemma BlockReads(line: Bytes, f: HeaderField)
    requires Fields(line + CRLF) == Some([f])
    ensures HeaderOf(line + CRLF) == HeaderFrom(Some([f]))
  {
    HeaderUnsealed(line + CRLF, |line + CRLF| + 3);
  }

  lemma FieldBlock(line: Bytes, name: Bytes, value: Bytes)
    requires line == name + [58] + value && name != [] && Plain(name) && Plain(value)
    ensures Fields(line + CRLF) == Some([HeaderField(name, value)])
  {
    FieldReads(line, name, value);
    OneLine(line, name, value);
    FieldsRead(line, HeaderField(name, value));
  }

  lemma ValueReads()
    ensures Lower(CHUNKED) == CHUNKED
  {
    LowerKeeps(CHUNKED);
  }

  lemma HeaderReads()
    ensures HeaderOf(FIELD + CRLF).delimiter.Chunked?
  {
    FieldBlock(FIELD, TRANSFER_ENCODING, CHUNKED);
    BlockReads(FIELD, HeaderField(TRANSFER_ENCODING, CHUNKED));
    ValueReads();
    OneFieldChunked(HeaderField(TRANSFER_ENCODING, CHUNKED));
  }

  lemma {:induction false} BlankSkips(d: Bytes, at: nat, n: nat)
    requires at <= n && BlankAt(d, n) && forall k :: at <= k < n ==> !BlankAt(d, k)
    ensures FindBlank(d, at) == Some(n)
    decreases n - at
  {
    if at < n {
      BlankSkips(d, at + 1, n);
    }
  }

  /** Whatever follows, the head reads as a request with a chunked body. */
  lemma HeadReads(d: Bytes)
    requires HEAD <= d
    ensures HasHeader(d, 0, 15, Request(GET, [47], 4), 41)
    ensures HeaderOf(d[16..43]).delimiter.Chunked?
  {
    assert forall k :: 0 <= k < |HEAD| ==> d[k] == HEAD[k];
    FindSkips(d, 10, 0, 15);
    assert d[0..16] == REQUEST;
    RequestReads();
    BlankSkips(d, 14, 41);
    assert d[16..43] == FIELD + CRLF;
    HeaderReads();
  }

  // ---------------------------------------------------------------- a body that fills the limit

  lemma {:induction false} HexGrows(n: nat)
    ensures |HexText(n)| <= |HexText(n + 1)| <= |HexText(n)| + 1
  {
    if n >= 16 {
      if (n + 1) % 16 == 0 {
        HexGrows(n / 16);
        assert (n + 1) / 16 == n / 16 + 1;
      } else {
        assert (n + 1) / 16 == n / 16;
      }
    }
  }

  /** Some chunk fills the given room up to at most one byte. */
  lemma {:induction false} FittingChunk(room: nat) returns (n: nat)
    requires room >= 6
    ensures 0 < n < room && room - 1 <= n + |HexText(n)| + 4 <= room
  {
    if room == 6 {
      n := 1;
    } else {
      n := FittingChunk(room - 1);
      HexGrows(n);
      if n + |HexText(n)| + 4 < room - 1 {
        n := n + 1;
      }
    }
  }

  function Filler(n: nat): (r: Bytes)
    ensures |r| == n
  {
    seq(n, i => 65)
  }

  /** A request whose only chunk ends at the limit, so that the last chunk ends behind it. */
  function Oversized(n: nat): Bytes { HEAD + (PrintChunk(Filler(n)) + LAST_CHUNK) }

  lemma OversizedJudged(d: Bytes, n: nat, limit: nat)
    requires 0 < n < Pow16(8) && d == Oversized(n) && 45 + n + |HexText(n)| + 4 <= limit
    ensures Judge(d, 0, limit).Take? && Judge(d, 0, limit).chunked
            && Judge(d, 0, limit).end == 45 + n + |HexText(n)| + 9 == |d|
  {
    var c := Filler(n);
    PrintChunkLength(c);
    HeadReads(d);
    ToBody(d, 0, limit, 15, Request(GET, [47], 4), 41);
    var none: seq<Bytes> := [];
    assert [c][1..] == none;
    assert PrintChunks([c]) == PrintChunk(c) by { AppendNil(PrintChunk(c)); }
    AtMeans(d, 45, PrintChunk(c) + LAST_CHUNK);
    assert d[45..] == PrintChunk(c) + LAST_CHUNK;
    ChunksRoundTrip(d, 0, 45, limit, [], [], [c]);
  }

  /**
   * Segmentation independence fails at every limit the detector can be given: there is a stream of
   * one request, with nothing missing, that is taken when it arrives whole and blocked when its last
   * byte arrives alone.
   */
  lemma CutMatters(limit: nat) returns (d: Bytes)
    requires 4096 <= limit < Pow16(8)
    ensures d != [] && Judge(d, 0, limit).Take? && Judge(d, 0, limit).end == |d|
    ensures Judge(d[..|d| - 1], 0, limit).Block?
    ensures Delimited(d, 0, limit) && !AnyCut(d, 0, limit)
  {
    var n := FittingChunk(limit - 45);
    d := Oversized(n);
    OversizedJudged(d, n, limit);
    CutContinues(d, |d| - 1, 0);
    OverlongIsBlocked(d[..|d| - 1], 0, d, limit);
    SegmentationExact(d, 0, limit);
  }
}
