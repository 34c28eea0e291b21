/** HTTP framing does not depend on segmentation. */
module HttpLaws {
  import opened Common
  import opened Wire
  import opened Http

  // ---------------------------------------------------------------- searches

  lemma {:induction false} FindByteStable(a: Bytes, i: nat, b: Bytes, j: nat, x: Byte, n: nat)
    requires Continues(a, i, b, j) && i + n <= |a|
    ensures FindByteFrom(a, x, i + n).Some? ==>
            FindByteFrom(b, x, j + n) == Some(FindByteFrom(a, x, i + n).value - i + j)
    ensures FindByteFrom(a, x, i + n).None? ==>
              FindByteFrom(b, x, j + n).None? || FindByteFrom(b, x, j + n).value - j >= |a| - i
    decreases |a| - i - n
  {
    if i + n < |a| {
      ContinuesAt(a, i, b, j, n);
      FindByteStable(a, i, b, j, x, n + 1);
    }
  }

  lemma BlankContinues(a: Bytes, i: nat, b: Bytes, j: nat, n: nat)
    requires Continues(a, i, b, j) && i + n + 4 <= |a|
    ensures BlankAt(a, i + n) <==> BlankAt(b, j + n)
  {
    CrlfContinues(a, i, b, j, n);
    CrlfContinues(a, i, b, j, n + 2);
  }

  lemma {:induction false} FindBlankStable(a: Bytes, i: nat, b: Bytes, j: nat, n: nat)
    requires Continues(a, i, b, j) && i + n <= |a|
    ensures FindBlank(a, i + n).Some? ==> FindBlank(b, j + n) == Some(FindBlank(a, i + n).value - i + j)
    ensures FindBlank(a, i + n).None? ==> FindBlank(b, j + n).None? || FindBlank(b, j + n).value + 4 - j > |a| - i
    decreases |a| - i - n
  {
    if i + n < |a| {
      if i + n + 4 <= |a| {
        BlankContinues(a, i, b, j, n);
      }
      FindBlankStable(a, i, b, j, n + 1);
    }
  }

  lemma {:induction false} FindCrlfLater(a: Bytes, i: nat, b: Bytes, j: nat, n: nat)
    requires Continues(a, i, b, j) && i + n <= |a|
    ensures FindCrlf(a, i + n, |a|).Some? ==> FindCrlf(b, j + n, |b|) == Some(FindCrlf(a, i + n, |a|).value - i + j)
    ensures FindCrlf(a, i + n, |a|).None? ==>
              FindCrlf(b, j + n, |b|).None? || FindCrlf(b, j + n, |b|).value + 2 - j > |a| - i
    decreases |a| - i - n
  {
    if i + n + 2 <= |a| {
      CrlfContinues(a, i, b, j, n);
      FindCrlfLater(a, i, b, j, n + 1);
    }
  }

  // ---------------------------------------------------------------- chunked bodies

  /** How a decoding over a prefix relates to one over the whole. */
  predicate Agrees(x: Decoded, y: Decoded, have: nat) {
    if x.More? then y.Done? ==> y.end > have else x == y
  }

  lemma ChunkLineStable(a: Bytes, i: nat, b: Bytes, j: nat, at: nat, chunks: nat)
    requires Continues(a, i, b, j) && i + at <= |a|
    ensures var x, y := ReadChunkLine(a, i, at, chunks), ReadChunkLine(b, j, at, chunks);
            if x.NoLine? then y.Line? ==> y.next > |a| - i else x == y
  {
    FindCrlfLater(a, i, b, j, at);
    var e := FindCrlf(a, i + at, |a|);
    if e.Some? {
      ContinuesSlice(a, i, b, j, at, e.value - i);
    }
  }

  lemma TrailerStable(a: Bytes, i: nat, b: Bytes, j: nat, at: nat, limit: nat, body: Bytes, spans: seq<BodySpan>)
    requires Continues(a, i, b, j) && i + at <= |a|
    ensures Agrees(ReadTrailer(a, i, at, limit, body, spans), ReadTrailer(b, j, at, limit, body, spans), |a| - i)
  {
    FindBlankStable(a, i, b, j, at);
    if i + at + 2 <= |a| {
      CrlfContinues(a, i, b, j, at);
    }
  }

  /** A chunk that is complete stays as it is; one that is not ends behind what was there. */
  lemma NextChunkStable(a: Bytes, i: nat, b: Bytes, j: nat, at: nat, limit: nat, chunks: nat)
    requires Continues(a, i, b, j) && i + at <= |a|
    ensures var x, y := NextChunk(a, i, at, limit, chunks), NextChunk(b, j, at, limit, chunks);
            if x.Partial? then (y.Last? ==> y.next > |a| - i) && (y.Data? ==> y.from + y.size + 2 > |a| - i) else x == y
  {
    NextChunkIs(a, i, at, limit, chunks);
    NextChunkIs(b, j, at, limit, chunks);
    ChunkLineStable(a, i, b, j, at, chunks);
    var line := ReadChunkLine(a, i, at, chunks);
    if line.Line? && i + line.next + line.size + 2 <= |a| {
      CrlfContinues(a, i, b, j, line.next + line.size);
    }
  }

  /** What is left to read behind a chunk of data. */
  function Behind(d: Bytes, s: nat, limit: nat, body: Bytes, spans: seq<BodySpan>, from: nat, size: nat): Decoded
    requires s + from + size <= |d|
  {
    ReadChunks(d, s, from + size + 2, limit, body + d[s + from..s + from + size],
               spans + [BodySpan(|body|, |body| + size, from)])
  }

  lemma ChunksData(d: Bytes, s: nat, at: nat, limit: nat, body: Bytes, spans: seq<BodySpan>, from: nat, size: nat)
    requires NextChunk(d, s, at, limit, |spans|) == Data(from, size)
    ensures ReadChunks(d, s, at, limit, body, spans) == Behind(d, s, limit, body, spans, from, size)
  {
  }

  lemma ChunksLast(d: Bytes, s: nat, at: nat, limit: nat, body: Bytes, spans: seq<BodySpan>, c: Chunk)
    requires c == NextChunk(d, s, at, limit, |spans|) && !c.Data?
    ensures ReadChunks(d, s, at, limit, body, spans)
            == if c.Last? then ReadTrailer(d, s, c.next, limit, body, spans) else if c.Partial? then More else Bad
  {
  }

  lemma ChunksPartial(d: Bytes, s: nat, at: nat, limit: nat, body: Bytes, spans: seq<BodySpan>, have: nat)
    requires var y := NextChunk(d, s, at, limit, |spans|);
             (y.Last? ==> y.next > have) && (y.Data? ==> y.from + y.size + 2 > have)
    ensures ReadChunks(d, s, at, limit, body, spans).Done? ==> ReadChunks(d, s, at, limit, body, spans).end > have
  {
  }

  lemma {:induction false} ChunksStable(a: Bytes, i: nat, b: Bytes, j: nat, at: nat, limit: nat, body: Bytes,
                                        spans: seq<BodySpan>)
    requires Continues(a, i, b, j) && i + at <= |a|
    ensures Agrees(ReadChunks(a, i, at, limit, body, spans), ReadChunks(b, j, at, limit, body, spans), |a| - i)
    decreases |a| - at, 1
  {
    NextChunkStable(a, i, b, j, at, limit, |spans|);
    var c := NextChunk(a, i, at, limit, |spans|);
    if c.Partial? {
      ChunksPartial(b, j, at, limit, body, spans, |a| - i);
    } else if c.Last? {
      TrailerStable(a, i, b, j, c.next, limit, body, spans);
    } else if c.Data? {
      BehindStable(a, i, b, j, at, limit, body, spans, c.from, c.size);
      ChunksData(a, i, at, limit, body, spans, c.from, c.size);
      ChunksData(b, j, at, limit, body, spans, c.from, c.size);
    }
  }

  lemma {:induction false} BehindStable(a: Bytes, i: nat, b: Bytes, j: nat, at: nat, limit: nat, body: Bytes,
                                        spans: seq<BodySpan>, from: nat, size: nat)
    requires Continues(a, i, b, j) && at < from && i + from + size + 2 <= |a|
    ensures j + from + size <= |b|
    ensures Agrees(Behind(a, i, limit, body, spans, from, size), Behind(b, j, limit, body, spans, from, size), |a| - i)
    decreases |a| - at, 0
  {
    ContinuesSlice(a, i, b, j, from, from + size);
    ChunksStable(a, i, b, j, from + size + 2, limit, body + a[i + from..i + from + size],
                 spans + [BodySpan(|body|, |body| + size, from)]);
  }

  // ---------------------------------------------------------------- verdicts

  /** A chunked message that ends more than one byte past the limit: some cuts block it, others do not. */
  predicate Overlong(v: Verdict, limit: nat) { v.Take? && v.chunked && v.end > limit + 1 }

  /** How a verdict over a prefix relates to the one over the whole. */
  predicate Foretells(x: Verdict, y: Verdict, limit: nat) {
    match x
    case Wait => true
    case Block => y.Block? || Overlong(y, limit)
    case Undelimited => y.Undelimited?
    case Take(_, _, _) => y == x
  }

  lemma ChunkedForetells(a: Bytes, i: nat, b: Bytes, j: nat, limit: nat, r: Request, h: Header, headerEnd: nat)
    requires Continues(a, i, b, j) && i + headerEnd <= |a| && j <= |b|
    ensures Foretells(JudgeChunked(a, i, limit, r, h, headerEnd), JudgeChunked(b, j, limit, r, h, headerEnd), limit)
  {
    ChunksStable(a, i, b, j, headerEnd, limit, [], []);
  }

  lemma LengthForetells(a: Bytes, i: nat, b: Bytes, j: nat, limit: nat, r: Request, h: Header, headerEnd: nat,
                        raw: Bytes)
    requires Continues(a, i, b, j) && i + headerEnd <= |a| && j + headerEnd <= |b|
    ensures Foretells(JudgeLength(a, i, limit, r, h, headerEnd, raw), JudgeLength(b, j, limit, r, h, headerEnd, raw),
                      limit)
  {
    var end := headerEnd + Decimal(raw);
    if i + end <= |a| {
      ContinuesSlice(a, i, b, j, headerEnd, end);
    }
  }

  lemma BodyForetells(a: Bytes, i: nat, b: Bytes, j: nat, limit: nat, r: Request, h: Header, headerEnd: nat)
    requires Continues(a, i, b, j) && i + headerEnd <= |a| && j + headerEnd <= |b|
    ensures Foretells(JudgeBody(a, i, limit, r, h, headerEnd), JudgeBody(b, j, limit, r, h, headerEnd), limit)
  {
    match h.delimiter
    case Ambiguous =>
    case UnknownTransfer =>
    case Chunked => ChunkedForetells(a, i, b, j, limit, r, h, headerEnd);
    case Length(raw) => LengthForetells(a, i, b, j, limit, r, h, headerEnd, raw);
    case Nothing =>
  }

  lemma BlockForetells(a: Bytes, i: nat, b: Bytes, j: nat, limit: nat, r: Request, n: nat, e: nat)
    requires Continues(a, i, b, j) && n <= e + 2 && i + e + 4 <= |a| && j + e + 4 <= |b|
    ensures Foretells(JudgeBlock(a, i, limit, r, i + n, i + e), JudgeBlock(b, j, limit, r, j + n, j + e), limit)
  {
    if e + 4 <= MAX_HEADER {
      ContinuesSlice(a, i, b, j, n, e + 2);
      BodyForetells(a, i, b, j, limit, r, HeaderOf(a[i + n..i + e + 2]), e + 4);
    }
  }

  lemma LateBlock(b: Bytes, j: nat, limit: nat, r: Request, n: nat, have: nat)
    requires 0 < n && j + n < |b| && have > MAX_HEADER && |b| - j >= have
    requires FindBlank(b, j + n - 1).None? || FindBlank(b, j + n - 1).value + 4 - j > have
    ensures JudgeHeader(b, j, limit, r, j + n).Block?
  {
  }

  lemma HeaderForetells(a: Bytes, i: nat, b: Bytes, j: nat, limit: nat, r: Request, n: nat)
    requires Continues(a, i, b, j) && 0 < n && i + n < |a| && j + n < |b|
    ensures Foretells(JudgeHeader(a, i, limit, r, i + n), JudgeHeader(b, j, limit, r, j + n), limit)
  {
    FindBlankStable(a, i, b, j, n - 1);
    var blank := FindBlank(a, i + n - 1);
    if blank.Some? {
      BlockForetells(a, i, b, j, limit, r, n + 1, blank.value - i);
    } else if |a| - i > MAX_HEADER {
      LateBlock(b, j, limit, r, n, |a| - i);
    }
  }

  lemma NoRequest(d: Bytes, at: nat, limit: nat, nl: nat)
    requires at <= nl < |d| && FindByteFrom(d, 10, at) == Some(nl) && RequestLine(d[at..nl + 1]).None?
    ensures Judge(d, at, limit).Block?
  {
    JudgeIs(d, at, limit);
  }

  lemma NoLine(d: Bytes, at: nat, limit: nat)
    requires at <= |d| && FindByteFrom(d, 10, at).None?
    ensures Judge(d, at, limit) == if |d| - at > MAX_HEADER then Block else Wait
  {
    JudgeIs(d, at, limit);
  }

  lemma ToHeader(d: Bytes, at: nat, limit: nat, nl: nat, r: Request)
    requires at <= |d| && at < nl < |d| && FindByteFrom(d, 10, at) == Some(nl) && RequestLine(d[at..nl + 1]) == Some(r)
    ensures Judge(d, at, limit) == JudgeHeader(d, at, limit, r, nl)
  {
    JudgeIs(d, at, limit);
  }

  /** A request line that is not complete after the header bound never becomes one. */
  lemma LateLine(b: Bytes, j: nat, limit: nat, have: nat)
    requires j <= |b| && have > MAX_HEADER && |b| - j >= have
    requires FindByteFrom(b, 10, j).None? || FindByteFrom(b, 10, j).value - j >= have
    ensures Judge(b, j, limit).Block?
  {
    var nl := FindByteFrom(b, 10, j);
    if nl.None? {
      NoLine(b, j, limit);
    } else {
      NoRequest(b, j, limit, nl.value);
    }
  }

  lemma LineForetells(a: Bytes, i: nat, b: Bytes, j: nat, limit: nat, n: nat, line: Bytes)
    requires Continues(a, i, b, j) && i + n < |a| && j + n < |b|
    requires FindByteFrom(a, 10, i) == Some(i + n) && FindByteFrom(b, 10, j) == Some(j + n)
    requires line == a[i..i + n + 1] && line == b[j..j + n + 1]
    ensures Foretells(Judge(a, i, limit), Judge(b, j, limit), limit)
  {
    var r := RequestLine(line);
    if r.None? {
      NoRequest(a, i, limit, i + n);
      NoRequest(b, j, limit, j + n);
    } else {
      ToHeader(a, i, limit, i + n, r.value);
      ToHeader(b, j, limit, j + n, r.value);
      HeaderForetells(a, i, b, j, limit, r.value, n);
    }
  }

  lemma SameLine(a: Bytes, i: nat, b: Bytes, j: nat, n: nat)
    requires Continues(a, i, b, j) && i + n < |a|
    ensures j + n < |b| && a[i..i + n + 1] == b[j..j + n + 1]
  {
    ContinuesSlice(a, i, b, j, 0, n + 1);
  }

  /**
   * A verdict over a prefix foretells the verdict over the whole: what is taken stays taken, what is
   * blocked stays blocked unless the whole completes an overlong chunked message.
   */
  lemma JudgeForetells(a: Bytes, i: nat, b: Bytes, j: nat, limit: nat)
    requires Continues(a, i, b, j) && i <= |a| && j <= |b|
    ensures Foretells(Judge(a, i, limit), Judge(b, j, limit), limit)
  {
    FindByteStable(a, i, b, j, 10, 0);
    var nl := FindByteFrom(a, 10, i);
    if nl.Some? {
      SameLine(a, i, b, j, nl.value - i);
      LineForetells(a, i, b, j, limit, nl.value - i, a[i..nl.value + 1]);
    } else {
      NoLine(a, i, limit);
      if |a| - i > MAX_HEADER {
        LateLine(b, j, limit, |a| - i);
      }
    }
  }

  /** The same bytes from the cursor on give the same verdict, wherever the window begins. */
  lemma JudgeShifts(d: Bytes, base: nat, at: nat, limit: nat)
    requires base <= at <= |d|
    ensures Judge(d[base..], at - base, limit) == Judge(d, at, limit)
  {
    ContinuesSuffix(d, base, at);
    JudgeForetells(d, at, d[base..], at - base, limit);
    JudgeForetells(d[base..], at - base, d, at, limit);
  }

  // ---------------------------------------------------------------- scanning

  function Preceded(messages: seq<Framed>, s: Scanned): Scanned { Scanned(messages + s.messages, s.cursor, s.blocked) }

  /** No request on the way lacks a delimiter or is an overlong chunked one. */
  predicate Regular(d: Bytes, at: nat, limit: nat)
    decreases |d| - at
  {
    at >= |d|
    || var v := Judge(d, at, limit);
       !v.Undelimited? && !Overlong(v, limit) && (v.Take? && v.end > 0 ==> Regular(d, at + v.end, limit))
  }

  lemma ScanStep(d: Bytes, at: nat, limit: nat, v: Verdict)
    requires at < |d| && v == Judge(d, at, limit) && v.Take? && v.end > 0
    ensures Scan(d, at, limit) == Preceded(Emitted(at, v), Scan(d, at + v.end, limit))
  {
  }

  lemma ScanStops(d: Bytes, at: nat, limit: nat)
    requires at >= |d| || !Judge(d, at, limit).Take? || Judge(d, at, limit).end == 0
    ensures Scan(d, at, limit) == Scanned([], at, at < |d| && Judge(d, at, limit).Block?)
  {
  }

  lemma PrefixJudged(a: Bytes, b: Bytes, at: nat, limit: nat)
    requires at <= |a|
    ensures Foretells(Judge(a, at, limit), Judge(a + b, at, limit), limit)
  {
    ContinuesAppend(a, b, at);
    JudgeForetells(a, at, a + b, at, limit);
  }

  /** What follows when a scan of a prefix is resumed at its cursor. */
  function Resumed(first: Scanned, d: Bytes, limit: nat): Scanned {
    if first.blocked then first else Preceded(first.messages, Scan(d, first.cursor, limit))
  }

  lemma ResumeEmpty(d: Bytes, at: nat, limit: nat)
    ensures Resumed(Scanned([], at, false), d, limit) == Scan(d, at, limit)
  {
    AppendNil(Scan(d, at, limit).messages);
  }

  lemma ResumePreceded(messages: seq<Framed>, s: Scanned, d: Bytes, limit: nat)
    ensures Resumed(Preceded(messages, s), d, limit) == Preceded(messages, Resumed(s, d, limit))
  {
    AppendAssoc(messages, s.messages, Scan(d, s.cursor, limit).messages);
  }

  /** Scanning a prefix and resuming at its cursor is scanning the whole. */
  lemma {:induction false} ScanResumes(a: Bytes, b: Bytes, at: nat, limit: nat)
    requires Regular(a + b, at, limit)
    ensures Scan(a + b, at, limit) == Resumed(Scan(a, at, limit), a + b, limit)
    decreases |a| - at
  {
    if at >= |a| {
      ScanStops(a, at, limit);
      ResumeEmpty(a + b, at, limit);
    } else {
      var v := Judge(a, at, limit);
      PrefixJudged(a, b, at, limit);
      if v.Take? && v.end > 0 {
        ScanStep(a, at, limit, v);
        ScanStep(a + b, at, limit, v);
        ScanResumes(a, b, at + v.end, limit);
        ResumePreceded(Emitted(at, v), Scan(a, at + v.end, limit), a + b, limit);
      } else {
        ScanStops(a, at, limit);
        if v.Block? {
          ScanStops(a + b, at, limit);
        } else {
          ResumeEmpty(a + b, at, limit);
        }
      }
    }
  }

  lemma {:induction false} RegularPrefix(a: Bytes, b: Bytes, at: nat, limit: nat)
    requires Regular(a + b, at, limit)
    ensures Regular(a, at, limit)
    decreases |a| - at
  {
    if at < |a| {
      PrefixJudged(a, b, at, limit);
      var v := Judge(a, at, limit);
      if v.Take? && v.end > 0 {
        RegularPrefix(a, b, at + v.end, limit);
      }
    }
  }

  // ---------------------------------------------------------------- windows

  function Shift(f: Framed, offset: nat): Framed { Framed(f.start + offset, f.message) }

  function Shifted(messages: seq<Framed>, offset: nat): seq<Framed> {
    if messages == [] then [] else [Shift(messages[0], offset)] + Shifted(messages[1..], offset)
  }

  function Moved(s: Scanned, offset: nat): Scanned {
    Scanned(Shifted(s.messages, offset), s.cursor + offset, s.blocked)
  }

  lemma MovedPreceded(at: nat, base: nat, v: Verdict, s: Scanned)
    requires base <= at && v.Take?
    ensures Moved(Preceded(Emitted(at - base, v), s), base) == Preceded(Emitted(at, v), Moved(s, base))
  {
    if v.message.None? {
      AppendNil(s.messages);
      AppendNil(Shifted(s.messages, base));
    } else {
      assert (Emitted(at - base, v) + s.messages)[1..] == s.messages;
    }
  }

  /** The framer sees a window of the stream; where it begins does not matter while the cursor is inside. */
  lemma {:induction false} ScanShifts(d: Bytes, base: nat, at: nat, limit: nat)
    requires base <= at && base <= |d|
    ensures Scan(d, at, limit) == Moved(Scan(d[base..], at - base, limit), base)
    decreases |d| - at
  {
    if at >= |d| {
      ScanStops(d, at, limit);
      ScanStops(d[base..], at - base, limit);
    } else {
      JudgeShifts(d, base, at, limit);
      var v := Judge(d, at, limit);
      if v.Take? && v.end > 0 {
        ScanStep(d, at, limit, v);
        ScanStep(d[base..], at - base, limit, v);
        ScanShifts(d, base, at + v.end, limit);
        MovedPreceded(at, base, v, Scan(d[base..], at + v.end - base, limit));
      } else {
        ScanStops(d, at, limit);
        ScanStops(d[base..], at - base, limit);
      }
    }
  }

  // ---------------------------------------------------------------- any segmentation

  /** One call of the framer: the bytes seen so far, and where the retained window begins. */
  datatype Call = Call(seen: Bytes, base: nat)

  /** One more call: nothing once blocked, else a scan of the window from the cursor on. */
  function FeedOne(before: Scanned, c: Call, limit: nat): Scanned
    requires c.base <= |c.seen| && c.base <= before.cursor
  {
    if before.blocked then before
    else Preceded(before.messages, Moved(Scan(c.seen[c.base..], before.cursor - c.base, limit), c.base))
  }

  /**
   * The framer over some calls, from the moment its cursor is set: each call sees more of the same
   * stream, and its window still holds the cursor.
   */
  ghost predicate IsFeed(start: nat, calls: seq<Call>, states: seq<Scanned>, limit: nat) {
    && |states| == |calls| + 1 && states[0] == Scanned([], start, false)
    && forall i: nat {:trigger Fed(calls, states, limit, i)} :: i < |calls| ==> Fed(calls, states, limit, i)
  }

  predicate Fed(calls: seq<Call>, states: seq<Scanned>, limit: nat, i: nat)
    requires i < |calls| && |states| == |calls| + 1
  {
    && calls[i].base <= |calls[i].seen| && calls[i].base <= states[i].cursor
    && states[i + 1] == FeedOne(states[i], calls[i], limit)
    && (i > 0 ==> calls[i - 1].seen <= calls[i].seen)
  }

  lemma FeedOneResumes(before: Scanned, c: Call, limit: nat)
    requires c.base <= |c.seen| && c.base <= before.cursor
    ensures FeedOne(before, c, limit) == Resumed(before, c.seen, limit)
  {
    ScanShifts(c.seen, c.base, before.cursor, limit);
  }

  lemma PrefixRest(a: Bytes, b: Bytes)
    requires a <= b
    ensures b == a + b[|a|..]
  {
  }

  lemma FeedOneScans(start: nat, earlier: Bytes, c: Call, limit: nat)
    requires earlier <= c.seen && Regular(c.seen, start, limit)
    requires c.base <= |c.seen| && c.base <= Scan(earlier, start, limit).cursor
    ensures FeedOne(Scan(earlier, start, limit), c, limit) == Scan(c.seen, start, limit)
  {
    PrefixRest(earlier, c.seen);
    FeedOneResumes(Scan(earlier, start, limit), c, limit);
    ScanResumes(earlier, c.seen[|earlier|..], start, limit);
  }

  lemma RegularBefore(earlier: Bytes, d: Bytes, start: nat, limit: nat)
    requires earlier <= d && Regular(d, start, limit)
    ensures Regular(earlier, start, limit)
  {
    PrefixRest(earlier, d);
    RegularPrefix(earlier, d[|earlier|..], start, limit);
  }

  /**
   * Once the cursor is set, every way of cutting the stream and sliding the window gives the messages,
   * the offsets, the cursor and the blocked flag of one scan of the whole, as long as no request on the
   * way lacks a delimiter or is an overlong chunked one.
   */
  lemma {:induction false} AnySegmentation(start: nat, calls: seq<Call>, states: seq<Scanned>, limit: nat, n: nat)
    requires IsFeed(start, calls, states, limit) && 0 < n <= |calls| && Regular(calls[n - 1].seen, start, limit)
    ensures states[n] == Scan(calls[n - 1].seen, start, limit)
    decreases n
  {
    assert Fed(calls, states, limit, n - 1);
    var c := calls[n - 1];
    if n == 1 {
      FeedOneResumes(states[0], c, limit);
      ResumeEmpty(c.seen, start, limit);
    } else {
      RegularBefore(calls[n - 2].seen, c.seen, start, limit);
      AnySegmentation(start, calls, states, limit, n - 1);
      FeedOneScans(start, calls[n - 2].seen, c, limit);
    }
  }
}
