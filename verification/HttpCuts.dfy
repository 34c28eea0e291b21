/**
 * Exactly when HTTP framing does not depend on where the stream is cut: when no chunked request on
 * the way ends more than one byte past the limit.
 */
module HttpCuts {
  import opened Common
  import opened Wire
  import opened Http
  import opened HttpLaws

  // ---------------------------------------------------------------- where a request has its header

  /** The request line ends at `nl` and the header at the empty line `blank`. */
  predicate HasHeader(d: Bytes, at: nat, nl: nat, r: Request, blank: nat) {
    && at < nl < |d| && nl - 1 <= blank && blank + 4 <= |d| && blank + 4 - at <= MAX_HEADER
    && FindByteFrom(d, 10, at) == Some(nl) && RequestLine(d[at..nl + 1]) == Some(r)
    && FindBlank(d, nl - 1) == Some(blank)
  }

  lemma ToBody(d: Bytes, at: nat, limit: nat, nl: nat, r: Request, blank: nat)
    requires at <= |d| && HasHeader(d, at, nl, r, blank)
    ensures Judge(d, at, limit) == JudgeBody(d, at, limit, r, HeaderOf(d[nl + 1..blank + 2]), blank + 4 - at)
  {
    ToHeader(d, at, limit, nl, r);
  }

  lemma TakenHeader(d: Bytes, at: nat, limit: nat) returns (nl: nat, r: Request, blank: nat)
    requires at <= |d| && Judge(d, at, limit).Take?
    ensures HasHeader(d, at, nl, r, blank)
  {
    JudgeIs(d, at, limit);
    nl := FindByteFrom(d, 10, at).value;
    r := RequestLine(d[at..nl + 1]).value;
    blank := FindBlank(d, nl - 1).value;
  }

  /** A cut behind the header sees the same header. */
  lemma CutHasHeader(cut: Bytes, at: nat, d: Bytes, nl: nat, r: Request, blank: nat)
    requires Continues(cut, at, d, at) && HasHeader(d, at, nl, r, blank) && blank + 4 <= |cut| && at <= |cut|
    ensures HasHeader(cut, at, nl, r, blank) && cut[nl + 1..blank + 2] == d[nl + 1..blank + 2]
  {
    FindByteStable(cut, at, d, at, 10, 0);
    FindBlankStable(cut, at, d, at, nl - 1 - at);
    SameLine(cut, at, d, at, nl - at);
    ContinuesSlice(cut, at, d, at, nl + 1 - at, blank + 2 - at);
  }

  // ---------------------------------------------------------------- cuts before and behind the end

  lemma ChunkedEnd(d: Bytes, at: nat, limit: nat, r: Request, h: Header, headerEnd: nat)
    requires at + headerEnd <= |d| && JudgeChunked(d, at, limit, r, h, headerEnd).Take?
    ensures var v := JudgeChunked(d, at, limit, r, h, headerEnd);
            v.chunked && v.message.Some? && headerEnd < v.end && at + v.end <= |d|
            && v.end == ReadChunks(d, at, headerEnd, limit, [], []).end
  {
  }

  /** A cut inside a chunked request leaves it undecided, and blocks it once more than `limit` bytes are there. */
  lemma CutInside(cut: Bytes, at: nat, d: Bytes, limit: nat, r: Request, h: Header, headerEnd: nat)
    requires Continues(cut, at, d, at) && at + headerEnd <= |cut| && at <= |d|
    requires JudgeChunked(d, at, limit, r, h, headerEnd).Take?
             && |cut| - at < JudgeChunked(d, at, limit, r, h, headerEnd).end
    ensures JudgeChunked(cut, at, limit, r, h, headerEnd) == if |cut| - at > limit then Block else Wait
  {
    ChunkedEnd(d, at, limit, r, h, headerEnd);
    ChunksStable(cut, at, d, at, headerEnd, limit, [], []);
  }

  lemma CutBehindChunks(cut: Bytes, at: nat, d: Bytes, limit: nat, r: Request, h: Header, headerEnd: nat)
    requires Continues(cut, at, d, at) && at + headerEnd <= |cut| && at + headerEnd <= |d|
    requires JudgeChunked(d, at, limit, r, h, headerEnd).Take?
             && |cut| - at >= JudgeChunked(d, at, limit, r, h, headerEnd).end
    ensures JudgeChunked(cut, at, limit, r, h, headerEnd) == JudgeChunked(d, at, limit, r, h, headerEnd)
  {
    ChunkedEnd(d, at, limit, r, h, headerEnd);
    ChunksStable(cut, at, d, at, headerEnd, limit, [], []);
  }

  lemma CutBehindLength(cut: Bytes, at: nat, d: Bytes, limit: nat, r: Request, h: Header, headerEnd: nat, raw: Bytes)
    requires Continues(cut, at, d, at) && at + headerEnd <= |cut| && at + headerEnd <= |d|
    requires JudgeLength(d, at, limit, r, h, headerEnd, raw).Take?
    requires |cut| - at >= JudgeLength(d, at, limit, r, h, headerEnd, raw).end
    ensures JudgeLength(cut, at, limit, r, h, headerEnd, raw) == JudgeLength(d, at, limit, r, h, headerEnd, raw)
  {
    LengthForetells(cut, at, d, at, limit, r, h, headerEnd, raw);
  }

  lemma CutBehindBody(cut: Bytes, at: nat, d: Bytes, limit: nat, r: Request, h: Header, headerEnd: nat)
    requires Continues(cut, at, d, at) && at + headerEnd <= |cut| && at + headerEnd <= |d|
    requires JudgeBody(d, at, limit, r, h, headerEnd).Take?
             && |cut| - at >= JudgeBody(d, at, limit, r, h, headerEnd).end
    ensures JudgeBody(cut, at, limit, r, h, headerEnd) == JudgeBody(d, at, limit, r, h, headerEnd)
  {
    if h.delimiter.Chunked? {
      CutBehindChunks(cut, at, d, limit, r, h, headerEnd);
    } else if h.delimiter.Length? {
      CutBehindLength(cut, at, d, limit, r, h, headerEnd, h.delimiter.raw);
    }
  }

  lemma BodyEnd(d: Bytes, at: nat, limit: nat, r: Request, h: Header, headerEnd: nat)
    requires at + headerEnd <= |d| && JudgeBody(d, at, limit, r, h, headerEnd).Take?
    ensures headerEnd <= JudgeBody(d, at, limit, r, h, headerEnd).end
    ensures JudgeBody(d, at, limit, r, h, headerEnd).chunked <==> h.delimiter.Chunked?
  {
  }

  /** A request that is taken from the whole is taken from every cut behind its end. */
  lemma TakenOnceComplete(cut: Bytes, at: nat, d: Bytes, limit: nat)
    requires Continues(cut, at, d, at) && at <= |cut| && at <= |d| && Judge(d, at, limit).Take?
    requires |cut| - at >= Judge(d, at, limit).end
    ensures Judge(cut, at, limit) == Judge(d, at, limit)
  {
    var nl, r, blank := TakenHeader(d, at, limit);
    var h, headerEnd := HeaderOf(d[nl + 1..blank + 2]), blank + 4 - at;
    ToBody(d, at, limit, nl, r, blank);
    BodyEnd(d, at, limit, r, h, headerEnd);
    CutHasHeader(cut, at, d, nl, r, blank);
    ToBody(cut, at, limit, nl, r, blank);
    CutBehindBody(cut, at, d, limit, r, h, headerEnd);
  }

  lemma TakenChunked(d: Bytes, at: nat, limit: nat)
    requires at <= |d| && Judge(d, at, limit).Take? && Judge(d, at, limit).chunked
    ensures Judge(d, at, limit).message.Some? && 0 < Judge(d, at, limit).end && at + Judge(d, at, limit).end <= |d|
  {
    var nl, r, blank := TakenHeader(d, at, limit);
    var h, headerEnd := HeaderOf(d[nl + 1..blank + 2]), blank + 4 - at;
    ToBody(d, at, limit, nl, r, blank);
    BodyEnd(d, at, limit, r, h, headerEnd);
    ChunkedEnd(d, at, limit, r, h, headerEnd);
  }

  /** An overlong verdict comes from the chunked branch. */
  lemma HeaderFits(d: Bytes, at: nat, limit: nat, nl: nat, r: Request, blank: nat)
    requires at <= |d| && HasHeader(d, at, nl, r, blank) && Overlong(Judge(d, at, limit), limit)
    ensures HeaderOf(d[nl + 1..blank + 2]).delimiter.Chunked?
    ensures JudgeChunked(d, at, limit, r, HeaderOf(d[nl + 1..blank + 2]), blank + 4 - at) == Judge(d, at, limit)
  {
    ToBody(d, at, limit, nl, r, blank);
    BodyEnd(d, at, limit, r, HeaderOf(d[nl + 1..blank + 2]), blank + 4 - at);
  }

  /** Cut one byte before its end, an overlong chunked request is blocked. */
  lemma OverlongIsBlocked(cut: Bytes, at: nat, d: Bytes, limit: nat)
    requires Continues(cut, at, d, at) && at <= |cut| && at <= |d| && Overlong(Judge(d, at, limit), limit)
    requires |cut| - at == Judge(d, at, limit).end - 1
    ensures Judge(cut, at, limit).Block?
  {
    var nl, r, blank := TakenHeader(d, at, limit);
    HeaderFits(d, at, limit, nl, r, blank);
    ChunkedEnd(d, at, limit, r, HeaderOf(d[nl + 1..blank + 2]), blank + 4 - at);
    CutHasHeader(cut, at, d, nl, r, blank);
    ToBody(cut, at, limit, nl, r, blank);
    CutInside(cut, at, d, limit, r, HeaderOf(d[nl + 1..blank + 2]), blank + 4 - at);
  }

  // ---------------------------------------------------------------- one request

  lemma CutContinues(d: Bytes, n: nat, at: nat)
    requires at <= n <= |d|
    ensures Continues(d[..n], at, d, at)
  {
    ContinuesAppend(d[..n], d[n..], at);
    assert d[..n] + d[n..] == d;
  }

  /** No cut of the stream blocks the request at this cursor. */
  ghost predicate NeverBlocked(d: Bytes, at: nat, limit: nat)
    requires at <= |d|
  {
    forall n :: at <= n <= |d| ==> !Judge(d[..n], at, limit).Block?
  }

  /**
   * For a chunked request that the whole stream completes: no cut of the stream blocks it if and
   * only if it ends at most one byte past the limit.
   */
  lemma CutsAgree(d: Bytes, at: nat, limit: nat)
    requires at <= |d| && Judge(d, at, limit).Take? && Judge(d, at, limit).chunked
    ensures NeverBlocked(d, at, limit) <==> Judge(d, at, limit).end <= limit + 1
  {
    var end := Judge(d, at, limit).end;
    TakenChunked(d, at, limit);
    if end > limit + 1 {
      CutContinues(d, at + end - 1, at);
      OverlongIsBlocked(d[..at + end - 1], at, d, limit);
    } else {
      forall n | at <= n <= |d| ensures !Judge(d[..n], at, limit).Block? {
        CutContinues(d, n, at);
        JudgeForetells(d[..n], at, d, at, limit);
      }
    }
  }

  // ---------------------------------------------------------------- whole scans

  /** Every request on the way says where it ends. */
  predicate Delimited(d: Bytes, at: nat, limit: nat)
    decreases |d| - at
  {
    at >= |d|
    || var v := Judge(d, at, limit);
       !v.Undelimited? && (v.Take? && v.end > 0 ==> Delimited(d, at + v.end, limit))
  }

  /** Scanning the first `n` bytes and resuming on the rest is scanning the whole. */
  predicate CutKeeps(d: Bytes, at: nat, limit: nat, n: nat)
    requires n <= |d|
  {
    Resumed(Scan(d[..n], at, limit), d, limit) == Scan(d, at, limit)
  }

  ghost predicate AnyCut(d: Bytes, at: nat, limit: nat) {
    forall n: nat {:trigger CutKeeps(d, at, limit, n)} :: n <= |d| ==> CutKeeps(d, at, limit, n)
  }

  lemma RegularKeeps(d: Bytes, at: nat, limit: nat, n: nat)
    requires Regular(d, at, limit) && n <= |d|
    ensures CutKeeps(d, at, limit, n)
  {
    assert d[..n] + d[n..] == d;
    ScanResumes(d[..n], d[n..], at, limit);
  }

  lemma OverlongBreaks(d: Bytes, at: nat, limit: nat)
    requires at < |d| && Overlong(Judge(d, at, limit), limit)
    ensures at + Judge(d, at, limit).end - 1 <= |d| && !CutKeeps(d, at, limit, at + Judge(d, at, limit).end - 1)
  {
    var v := Judge(d, at, limit);
    TakenChunked(d, at, limit);
    CutContinues(d, at + v.end - 1, at);
    OverlongIsBlocked(d[..at + v.end - 1], at, d, limit);
    ScanStops(d[..at + v.end - 1], at, limit);
    ScanStep(d, at, limit, v);
  }

  lemma CutBeforeKeeps(d: Bytes, at: nat, limit: nat, n: nat)
    requires n <= |d| && n <= at
    ensures CutKeeps(d, at, limit, n)
  {
    ScanStops(d[..n], at, limit);
    ResumeEmpty(d, at, limit);
  }

  /** A cut that spoils what follows a request spoils the scan that begins at the request. */
  lemma BreaksEarlier(d: Bytes, at: nat, limit: nat, v: Verdict, n: nat)
    requires at < |d| && v == Judge(d, at, limit) && v.Take? && v.end > 0
    requires n <= |d| && !CutKeeps(d, at + v.end, limit, n)
    ensures !CutKeeps(d, at, limit, n)
  {
    if n <= at + v.end {
      CutBeforeKeeps(d, at + v.end, limit, n);
    } else {
      CutContinues(d, n, at);
      TakenOnceComplete(d[..n], at, d, limit);
      ScanStep(d[..n], at, limit, v);
      ScanStep(d, at, limit, v);
      ResumePreceded(Emitted(at, v), Scan(d[..n], at + v.end, limit), d, limit);
      PrecededInjective(Emitted(at, v), Resumed(Scan(d[..n], at + v.end, limit), d, limit), Scan(d, at + v.end, limit));
    }
  }

  lemma PrecededInjective(messages: seq<Framed>, a: Scanned, b: Scanned)
    ensures Preceded(messages, a) == Preceded(messages, b) ==> a == b
  {
    var x, y := messages + a.messages, messages + b.messages;
    assert x[|messages|..] == a.messages && y[|messages|..] == b.messages;
  }

  /** An overlong request on the way is spoiled by some cut. */
  lemma {:induction false} IrregularBreaks(d: Bytes, at: nat, limit: nat) returns (n: nat)
    requires Delimited(d, at, limit) && !Regular(d, at, limit)
    ensures n <= |d| && !CutKeeps(d, at, limit, n)
    decreases |d| - at
  {
    var v := Judge(d, at, limit);
    if Overlong(v, limit) {
      n := at + v.end - 1;
      OverlongBreaks(d, at, limit);
    } else {
      n := IrregularBreaks(d, at + v.end, limit);
      BreaksEarlier(d, at, limit, v, n);
    }
  }

  /**
   * Segmentation independence, exactly: on a stream whose requests all say where they end, every
   * cut gives the messages, cursor and blocked flag of one scan of the whole if and only if every
   * chunked request on the way ends at most one byte past the limit.
   */
  lemma SegmentationExact(d: Bytes, at: nat, limit: nat)
    requires Delimited(d, at, limit)
    ensures AnyCut(d, at, limit) <==> Regular(d, at, limit)
  {
    if Regular(d, at, limit) {
      forall n: nat | n <= |d| ensures CutKeeps(d, at, limit, n) {
        RegularKeeps(d, at, limit, n);
      }
    } else {
      var n := IrregularBreaks(d, at, limit);
    }
  }
}
