/** The HTTP/1 request framer: one message at a time from a cursor, bounded and never guessing. */
module Http {
  import opened Common
  import opened Wire

  const MAX_HEADER := 32768
  const MAX_TARGET := 8192
  const MAX_CHUNK_LINE := 1024
  const MAX_CHUNKS := 4096

  // ---------------------------------------------------------------- searching

  predicate BlankAt(d: Bytes, i: nat) { CrlfAt(d, i) && CrlfAt(d, i + 2) }

  /** The first empty line from `at` on: two line ends in a row. */
  function FindBlank(d: Bytes, at: nat): (r: Option<nat>)
    ensures r.Some? ==> at <= r.value && r.value + 4 <= |d|
    decreases |d| - at
  {
    if at >= |d| then None else if BlankAt(d, at) then Some(at) else FindBlank(d, at + 1)
  }

  // ---------------------------------------------------------------- the request line

  const METHODS: set<Bytes> := {
    [71, 69, 84], [80, 79, 83, 84], [80, 85, 84], [80, 65, 84, 67, 72], [68, 69, 76, 69, 84, 69],
    [72, 69, 65, 68], [79, 80, 84, 73, 79, 78, 83], [67, 79, 78, 78, 69, 67, 84], [84, 82, 65, 67, 69]}

  const BODY_METHODS: set<Bytes> := {[80, 79, 83, 84], [80, 85, 84], [80, 65, 84, 67, 72]}

  const HTTP_1: Bytes := [72, 84, 84, 80, 47, 49, 46]

  datatype Request = Request(verb: Bytes, target: Bytes, targetStart: nat)

  predicate TargetOk(target: Bytes) { 1 <= |target| <= MAX_TARGET && 13 !in target && 10 !in target }

  predicate VersionOk(rest: Bytes) { rest == HTTP_1 + [48, 13, 10] || rest == HTTP_1 + [49, 13, 10] }

  /** A line that ends with its first newline, read as a request line. */
  function RequestLine(line: Bytes): (r: Option<Request>)
    ensures r.Some? ==> 2 <= |line| <= MAX_TARGET + 32
  {
    RequestLineSealed(line, |line| + 3)
  }

  /** The reading itself, behind a recursion that the solver does not unfold by itself. */
  function RequestLineSealed(line: Bytes, depth: nat): (r: Option<Request>)
    ensures r.Some? ==> 2 <= |line| <= MAX_TARGET + 32
    decreases depth
  {
    if depth > 0 then RequestLineSealed(line, depth - 1)
    else
      var first := FindByteFrom(line, 32, 0);
      if first.None? || first.value > 7 || line[..first.value] !in METHODS then None
      else
        var second := FindByteFrom(line, 32, first.value + 1);
        if second.None? then None
        else
          var target, rest := line[first.value + 1..second.value], line[second.value + 1..];
          if TargetOk(target) && VersionOk(rest) then Some(Request(line[..first.value], target, first.value + 1))
            else None
  }

  // ---------------------------------------------------------------- header fields

  function LowerByte(b: Byte): Byte { if 65 <= b <= 90 then b + 32 else b }

  function Lower(b: Bytes): Bytes { if b == [] then [] else [LowerByte(b[0])] + Lower(b[1..]) }

  predicate IsSpace(b: Byte) { b == 32 || 9 <= b <= 13 }

  function Strip(b: Bytes): Bytes {
    if b != [] && IsSpace(b[0]) then Strip(b[1..])
    else if b != [] && IsSpace(b[|b| - 1]) then Strip(b[..|b| - 1])
    else b
  }

  predicate IsTokenByte(b: Byte) {
    48 <= b <= 57 || 65 <= b <= 90 || 97 <= b <= 122
    || b in {33, 35, 36, 37, 38, 39, 42, 43, 46, 94, 95, 96, 124, 126, 45}
  }

  predicate AllToken(b: Bytes) { b == [] || (IsTokenByte(b[0]) && AllToken(b[1..])) }

  datatype HeaderField = HeaderField(name: Bytes, value: Bytes)

  function FieldOf(line: Bytes): Option<HeaderField> {
    var colon := FindByteFrom(line, 58, 0);
    if line == [] || line[0] == 32 || line[0] == 9 || colon.None? then None
    else if colon.value == 0 || !AllToken(line[..colon.value]) then None
    else Some(HeaderField(Lower(line[..colon.value]), Strip(line[colon.value + 1..])))
  }

  /** The fields of a header block; empty lines are passed over, any other oddity refuses the block. */
  function Fields(block: Bytes): Option<seq<HeaderField>>
    decreases |block|
  {
    var end := FindCrlf(block, 0, |block|);
    var line := if end.None? then block else block[..end.value];
    var rest := if end.None? then Some([]) else Fields(block[end.value + 2..]);
    if line == [] then rest
    else if FieldOf(line).None? || rest.None? then None
    else Some([FieldOf(line).value] + rest.value)
  }

  function Values(fields: seq<HeaderField>, name: Bytes): seq<Bytes> {
    if fields == [] then [] else (if fields[0].name == name then [fields[0].value] else []) + Values(fields[1..], name)
  }

  const CONTENT_LENGTH: Bytes := [99, 111, 110, 116, 101, 110, 116, 45, 108, 101, 110, 103, 116, 104]
  const TRANSFER_ENCODING: Bytes := [116, 114, 97, 110, 115, 102, 101, 114, 45, 101, 110, 99, 111, 100, 105, 110, 103]
  const CONTENT_TYPE: Bytes := [99, 111, 110, 116, 101, 110, 116, 45, 116, 121, 112, 101]
  const CONTENT_ENCODING: Bytes := [99, 111, 110, 116, 101, 110, 116, 45, 101, 110, 99, 111, 100, 105, 110, 103]
  const IDENTITY: Bytes := [105, 100, 101, 110, 116, 105, 116, 121]
  const CHUNKED: Bytes := [99, 104, 117, 110, 107, 101, 100]

  /** How a request says where it ends, and what its body is said to be. */
  datatype Delimiter = Ambiguous | Chunked | UnknownTransfer | Length(raw: Bytes) | Nothing

  datatype Header = Header(delimiter: Delimiter, contentType: Bytes, encoded: bool)

  function UpToSemicolon(b: Bytes): Bytes {
    var semi := FindByteFrom(b, 59, 0);
    if semi.None? then b else b[..semi.value]
  }

  function DelimiterOf(fields: seq<HeaderField>): Delimiter {
    var lengths, transfer := Values(fields, CONTENT_LENGTH), Values(fields, TRANSFER_ENCODING);
    if (lengths != [] && transfer != []) || |lengths| > 1 || |transfer| > 1 then Ambiguous
    else if transfer != [] then if Lower(transfer[0]) == CHUNKED then Chunked else UnknownTransfer
    else if lengths != [] then Length(lengths[0])
    else Nothing
  }

  function HeaderOf(block: Bytes): Header { HeaderSealed(block, |block| + 3) }

  function HeaderSealed(block: Bytes, depth: nat): Header
    decreases depth
  {
    if depth > 0 then HeaderSealed(block, depth - 1) else HeaderFrom(Fields(block))
  }

  function HeaderFrom(fields: Option<seq<HeaderField>>): Header {
    if fields.None? then Header(Ambiguous, [], false)
    else
      var types, encodings := Values(fields.value, CONTENT_TYPE), Values(fields.value, CONTENT_ENCODING);
      Header(DelimiterOf(fields.value),
             if types == [] then [] else Lower(Strip(UpToSemicolon(types[0]))),
             encodings != [] && Lower(encodings[0]) != [] && Lower(encodings[0]) != IDENTITY)
  }

  // ---------------------------------------------------------------- chunked bodies

  /** Decoded bytes [left, right) stand on the wire from `wire` on, counted from the message start. */
  datatype BodySpan = BodySpan(left: nat, right: nat, wire: nat)

  function HexDigit(b: Byte): nat {
    if 48 <= b <= 57 then b - 48 else if 65 <= b <= 70 then b - 55 else if 97 <= b <= 102 then b - 87 else 0
  }

  predicate AllHex(b: Bytes) { b == [] || (IsHex(b[|b| - 1]) && AllHex(b[..|b| - 1])) }

  function Hex(b: Bytes): nat { if b == [] then 0 else 16 * Hex(b[..|b| - 1]) + HexDigit(b[|b| - 1]) }

  /** The size a chunk line announces, if it is one. Sealed: only its own line matters to the framing. */
  function ChunkSize(line: Bytes): Option<nat> { ChunkSizeSealed(line, |line| + 3) }

  function ChunkSizeSealed(line: Bytes, depth: nat): Option<nat>
    decreases depth
  {
    if depth > 0 then ChunkSizeSealed(line, depth - 1)
    else
      var text := UpToSemicolon(line);
      if 1 <= |text| <= 8 && AllHex(text) then Some(Hex(text)) else None
  }

  datatype Decoded = More | Bad | Done(body: Bytes, spans: seq<BodySpan>, end: nat)

  /** A chunk line: its announced size and the position behind it; positions count from `s`. */
  datatype ChunkLine = NoLine | BadLine | Line(size: nat, next: nat)

  function ReadChunkLine(d: Bytes, s: nat, at: nat, chunks: nat): (r: ChunkLine)
    ensures r.Line? ==> at < r.next && s + r.next <= |d|
  {
    var end := FindCrlf(d, s + at, |d|);
    if end.None? then NoLine
    else if end.value - (s + at) > MAX_CHUNK_LINE || chunks >= MAX_CHUNKS then BadLine
    else
      var size := ChunkSize(d[s + at..end.value]);
      if size.None? then BadLine else Line(size.value, end.value + 2 - s)
  }

  /** Behind the last chunk: an empty line, or trailers up to one. */
  function ReadTrailer(d: Bytes, s: nat, at: nat, limit: nat, body: Bytes, spans: seq<BodySpan>): (r: Decoded)
    ensures r.Done? ==> at < r.end && s + r.end <= |d|
  {
    if CrlfAt(d, s + at) then Done(body, spans, at + 2)
    else
      var blank := FindBlank(d, s + at);
      if blank.None? then More
      else if blank.value + 4 - s > limit then Bad
      else Done(body, spans, blank.value + 4 - s)
  }

  /** The next chunk: incomplete, refused, the last one, or data; positions count from `s`. */
  datatype Chunk = Partial | Refused | Last(next: nat) | Data(from: nat, size: nat)

  function NextChunk(d: Bytes, s: nat, at: nat, limit: nat, chunks: nat): (r: Chunk)
    ensures r.Last? ==> at < r.next && s + r.next <= |d|
    ensures r.Data? ==> at < r.from && r.size > 0 && s + r.from + r.size + 2 <= |d|
  {
    ChunkSealed(d, s, at, limit, chunks, |d| + 3)
  }

  function ChunkAfter(d: Bytes, s: nat, limit: nat, line: ChunkLine): Chunk {
    match line
    case NoLine => Partial
    case BadLine => Refused
    case Line(size, next) =>
      if size == 0 then Last(next)
      else if next + size + 2 > limit then Refused
      else if s + next + size + 2 > |d| then Partial
      else if !CrlfAt(d, s + next + size) then Refused
      else Data(next, size)
  }

  function ChunkSealed(d: Bytes, s: nat, at: nat, limit: nat, chunks: nat, depth: nat): (r: Chunk)
    ensures r.Last? ==> at < r.next && s + r.next <= |d|
    ensures r.Data? ==> at < r.from && r.size > 0 && s + r.from + r.size + 2 <= |d|
    decreases depth
  {
    if depth > 0 then ChunkSealed(d, s, at, limit, chunks, depth - 1)
    else ChunkAfter(d, s, limit, ReadChunkLine(d, s, at, chunks))
  }

  lemma {:induction false} ChunkUnsealed(d: Bytes, s: nat, at: nat, limit: nat, chunks: nat, depth: nat)
    ensures ChunkSealed(d, s, at, limit, chunks, depth) == ChunkAfter(d, s, limit, ReadChunkLine(d, s, at, chunks))
  {
    if depth > 0 {
      ChunkUnsealed(d, s, at, limit, chunks, depth - 1);
    }
  }

  lemma NextChunkIs(d: Bytes, s: nat, at: nat, limit: nat, chunks: nat)
    ensures NextChunk(d, s, at, limit, chunks) == ChunkAfter(d, s, limit, ReadChunkLine(d, s, at, chunks))
  {
    ChunkUnsealed(d, s, at, limit, chunks, |d| + 3);
  }

  function ReadChunks(d: Bytes, s: nat, at: nat, limit: nat, body: Bytes, spans: seq<BodySpan>): (r: Decoded)
    ensures r.Done? ==> at < r.end && s + r.end <= |d|
    decreases |d| - at
  {
    var c := NextChunk(d, s, at, limit, |spans|);
    match c
    case Partial => More
    case Refused => Bad
    case Last(next) => ReadTrailer(d, s, next, limit, body, spans)
    case Data(from, size) =>
      ReadChunks(d, s, from + size + 2, limit, body + d[s + from..s + from + size],
                 spans + [BodySpan(|body|, |body| + size, from)])
  }

  // ---------------------------------------------------------------- one message

  /** A framed request; positions count from its first byte. */
  datatype Message = Message(
    headerEnd: nat, end: nat, target: Bytes, targetStart: nat, contentType: Bytes, body: Bytes, spans: seq<BodySpan>,
    encoded: bool)

  /** What can be said at a cursor: wait for bytes, block the stream, or go on behind a message. */
  datatype Verdict = Wait | Block | Undelimited | Take(end: nat, message: Option<Message>, chunked: bool)

  function MessageOf(r: Request, h: Header, headerEnd: nat, end: nat, body: Bytes, spans: seq<BodySpan>): Message {
    Message(headerEnd, end, r.target, r.targetStart, h.contentType, body, spans, h.encoded)
  }

  function JudgeChunked(d: Bytes, s: nat, limit: nat, r: Request, h: Header, headerEnd: nat): Verdict
    requires s <= |d|
  {
    var decoded := ReadChunks(d, s, headerEnd, limit, [], []);
    match decoded
    case More => if |d| - s > limit then Block else Wait
    case Bad => Block
    case Done(body, spans, end) => Take(end, Some(MessageOf(r, h, headerEnd, end, body, spans)), true)
  }

  /** A body of announced length; one over the limit is passed over without being read. */
  function JudgeLength(d: Bytes, s: nat, limit: nat, r: Request, h: Header, headerEnd: nat, raw: Bytes): Verdict
    requires s + headerEnd <= |d|
  {
    if raw == [] || |raw| > 10 || !AllDigits(raw) then Block
    else
      var end := headerEnd + Decimal(raw);
      if end > limit then Take(end, None, false)
      else if s + end > |d| then Wait
      else Take(end, Some(MessageOf(r, h, headerEnd, end, d[s + headerEnd..s + end],
                                    [BodySpan(0, Decimal(raw), headerEnd)])), false)
  }

  function JudgeBody(d: Bytes, s: nat, limit: nat, r: Request, h: Header, headerEnd: nat): Verdict
    requires s + headerEnd <= |d|
  {
    match h.delimiter
    case Ambiguous => Block
    case UnknownTransfer => Block
    case Chunked => JudgeChunked(d, s, limit, r, h, headerEnd)
    case Length(raw) => JudgeLength(d, s, limit, r, h, headerEnd, raw)
    case Nothing =>
      if r.verb in BODY_METHODS && h.contentType != [] then Undelimited
      else Take(headerEnd, Some(MessageOf(r, h, headerEnd, headerEnd, [], [])), false)
  }

  /** A header block from `from` to the empty line at `blank`. */
  function JudgeBlock(d: Bytes, s: nat, limit: nat, r: Request, from: nat, blank: nat): Verdict
    requires s <= from <= blank + 2 && blank + 4 <= |d|
  {
    if blank + 4 - s > MAX_HEADER then Block
    else JudgeBody(d, s, limit, r, HeaderOf(d[from..blank + 2]), blank + 4 - s)
  }

  /** The header behind a request line whose newline is at `nl`. */
  function JudgeHeader(d: Bytes, s: nat, limit: nat, r: Request, nl: nat): Verdict
    requires s < nl < |d|
  {
    var blank := FindBlank(d, nl - 1);
    if blank.None? then if |d| - s > MAX_HEADER then Block else Wait
    else JudgeBlock(d, s, limit, r, nl + 1, blank.value)
  }

  /** The verdict on the request that begins at `s`. */
  function JudgeRequest(d: Bytes, s: nat, limit: nat): Verdict
    requires s <= |d|
  {
    var nl := FindByteFrom(d, 10, s);
    if nl.None? then if |d| - s > MAX_HEADER then Block else Wait
    else
      var r := RequestLine(d[s..nl.value + 1]);
      if r.None? then Block else JudgeHeader(d, s, limit, r.value, nl.value)
  }

  /** `JudgeRequest`, behind a recursion that the solver does not unfold by itself. */
  function JudgeSealed(d: Bytes, s: nat, limit: nat, depth: nat): Verdict
    requires s <= |d|
    decreases depth
  {
    if depth > 0 then JudgeSealed(d, s, limit, depth - 1) else JudgeRequest(d, s, limit)
  }

  function Judge(d: Bytes, s: nat, limit: nat): Verdict
    requires s <= |d|
  {
    JudgeSealed(d, s, limit, |d| + 3)
  }

  lemma {:induction false} JudgeUnsealed(d: Bytes, s: nat, limit: nat, depth: nat)
    requires s <= |d|
    ensures JudgeSealed(d, s, limit, depth) == JudgeRequest(d, s, limit)
  {
    if depth > 0 {
      JudgeUnsealed(d, s, limit, depth - 1);
    }
  }

  lemma JudgeIs(d: Bytes, s: nat, limit: nat)
    requires s <= |d|
    ensures Judge(d, s, limit) == JudgeRequest(d, s, limit)
  {
    JudgeUnsealed(d, s, limit, |d| + 3);
  }

  // ---------------------------------------------------------------- scanning

  /** A message with the stream offset of its first byte. */
  datatype Framed = Framed(start: nat, message: Message)

  datatype Scanned = Scanned(messages: seq<Framed>, cursor: nat, blocked: bool)

  function Emitted(at: nat, v: Verdict): seq<Framed>
    requires v.Take?
  {
    if v.message.Some? then [Framed(at, v.message.value)] else []
  }

  /** From a cursor on, message after message. A request without a delimiter ends the walk here. */
  function Scan(d: Bytes, at: nat, limit: nat): Scanned
    decreases |d| - at
  {
    if at >= |d| then Scanned([], at, false)
    else
      var v := Judge(d, at, limit);
      match v
      case Wait => Scanned([], at, false)
      case Undelimited => Scanned([], at, false)
      case Block => Scanned([], at, true)
      case Take(end, _, _) =>
        if end == 0 then Scanned([], at, false)
        else
          var rest := Scan(d, at + end, limit);
          Scanned(Emitted(at, v) + rest.messages, rest.cursor, rest.blocked)
  }
}
