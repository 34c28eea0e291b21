/**
 * The evidence pager: bounded reads of an append-only file of lines, resumed at a cursor. A line that
 * does not fit the read window is skipped across reads, counted once.
 */
module Pager {
  import opened Common

  const NEWLINE: Byte := 10

  /** Whether a line is a record that can be shown; stands for the JSON checks. */
  type Judge = Bytes -> bool

  /** Lines delivered, in order, and lines skipped. */
  datatype Tally = Tally(records: seq<Bytes>, skipped: nat)

  const NOTHING := Tally([], 0)

  function Add(a: Tally, b: Tally): Tally { Tally(a.records + b.records, a.skipped + b.skipped) }

  /** Where the next page begins, and whether it begins inside a line given up as too long. */
  datatype Cursor = Cursor(at: nat, discard: bool)

  function FindFrom(d: Bytes, at: nat): (r: Option<nat>)
    requires at <= |d|
    ensures r.Some? ==> at <= r.value < |d|
    decreases |d| - at
  {
    if at == |d| then None else if d[at] == NEWLINE then Some(at) else FindFrom(d, at + 1)
  }

  /** The first newline. */
  function FindNewline(d: Bytes): Option<nat> { FindFrom(d, 0) }

  /** Bytes without a newline. */
  predicate Plain(d: Bytes) { FindNewline(d).None? }

  lemma {:induction false} FindsLineFrom(line: Bytes, rest: Bytes, at: nat)
    requires at <= |line| && FindFrom(line, at).None?
    ensures FindFrom(line + ([NEWLINE] + rest), at) == Some(|line|)
    decreases |line| - at
  {
    if at < |line| {
      FindsLineFrom(line, rest, at + 1);
    }
  }

  lemma FindsLine(line: Bytes, rest: Bytes)
    requires Plain(line)
    ensures FindNewline(line + ([NEWLINE] + rest)) == Some(|line|)
  {
    FindsLineFrom(line, rest, 0);
  }

  lemma {:induction false} FindShift(a: Bytes, b: Bytes, at: nat)
    requires at <= |b|
    ensures FindFrom(a + b, |a| + at) == if FindFrom(b, at).None? then None else Some(|a| + FindFrom(b, at).value)
    decreases |b| - at
  {
    if at < |b| {
      FindShift(a, b, at + 1);
    }
  }

  lemma {:induction false} FindJoin(a: Bytes, b: Bytes, at: nat)
    requires at <= |a|
    ensures FindFrom(a + b, at).None? <==> FindFrom(a, at).None? && FindFrom(b, 0).None?
    decreases |a| - at
  {
    if at == |a| {
      FindShift(a, b, 0);
    } else {
      FindJoin(a, b, at + 1);
    }
  }

  lemma PlainJoin(a: Bytes, b: Bytes)
    ensures Plain(a + b) <==> Plain(a) && Plain(b)
  {
    FindJoin(a, b, 0);
  }

  lemma {:induction false} PlainBefore(d: Bytes, at: nat, e: nat)
    requires at <= e < |d| && FindFrom(d, at) == Some(e)
    ensures FindFrom(d[..e], at).None? && d[e] == NEWLINE
    decreases e - at
  {
    if at < e {
      PlainBefore(d, at + 1, e);
    }
  }

  /** What was found: a plain line, its newline, and the rest. */
  lemma FoundLine(d: Bytes)
    requires FindNewline(d).Some?
    ensures var e := FindNewline(d).value; Plain(d[..e]) && d[e] == NEWLINE && d == d[..e] + ([NEWLINE] + d[e + 1..])
  {
    PlainBefore(d, 0, FindNewline(d).value);
  }

  // ---------------------------------------------------------------- one page

  function Shown(good: Judge, line: Bytes): Tally { if good(line) then Tally([line], 0) else Tally([], 1) }

  function Room(good: Judge, line: Bytes, room: nat): nat { if good(line) then Max(0, room - 1) else room }

  /** The walk over a window's lines, stopping when `room` records were delivered: bytes passed and tally. */
  function Walk(good: Judge, d: Bytes, room: nat): (r: (nat, Tally))
    ensures r.0 <= |d|
    decreases |d|, 2, 0
  {
    WalkSealed(good, d, room, |d| + 3)
  }

  /** One line and the walk from there, behind a recursion that the solver does not unfold by itself. */
  function WalkSealed(good: Judge, d: Bytes, room: nat, depth: nat): (r: (nat, Tally))
    ensures r.0 <= |d|
    decreases |d|, 1, depth
  {
    if depth > 0 then WalkSealed(good, d, room, depth - 1)
    else if room == 0 || FindNewline(d).None? then (0, NOTHING)
    else WalkLine(good, d, FindNewline(d).value, room)
  }

  function WalkLine(good: Judge, d: Bytes, e: nat, room: nat): (r: (nat, Tally))
    requires e < |d|
    ensures r.0 <= |d|
    decreases |d|, 0, 0
  {
    var rest := Walk(good, d[e + 1..], Room(good, d[..e], room));
    (e + 1 + rest.0, Add(Shown(good, d[..e]), rest.1))
  }

  lemma {:induction false} WalkUnsealed(good: Judge, d: Bytes, room: nat, depth: nat)
    ensures WalkSealed(good, d, room, depth)
            == if room == 0 || FindNewline(d).None? then (0, NOTHING) else WalkLine(good, d, FindNewline(d).value, room)
    decreases depth
  {
    if depth > 0 {
      WalkUnsealed(good, d, room, depth - 1);
    }
  }

  lemma WalkIs(good: Judge, d: Bytes, room: nat)
    ensures Walk(good, d, room)
            == if room == 0 || FindNewline(d).None? then (0, NOTHING) else WalkLine(good, d, FindNewline(d).value, room)
  {
    WalkUnsealed(good, d, room, |d| + 3);
  }

  datatype Page = Page(tally: Tally, cursor: Cursor)

  /** What a window, read at `start`, comes to. */
  function ReadWindow(good: Judge, d: Bytes, start: nat, discard: bool, limit: nat, window: nat): Page {
    var first := FindNewline(d);
    if first.None? then
      if |d| == window then Page(Tally([], if discard then 0 else 1), Cursor(start + |d|, true))
      else Page(NOTHING, Cursor(start, discard))
    else PageFrom(good, d, start, if discard then first.value + 1 else 0, limit)
  }

  /** The lines of a window from `begin` on. */
  function PageFrom(good: Judge, d: Bytes, start: nat, begin: nat, limit: nat): Page
    requires begin <= |d|
  {
    var walk := Walk(good, d[begin..], limit);
    Page(walk.1, Cursor(start + begin + walk.0, false))
  }

  /** A page that follows another: at most `window` bytes from its cursor on. */
  function ReadPage(good: Judge, file: Bytes, c: Cursor, limit: nat, window: nat): Page
    requires c.at <= |file|
  {
    ReadWindow(good, file[c.at..Min(|file|, c.at + window)], c.at, c.discard, limit, window)
  }

  // ---------------------------------------------------------------- the loop

  lemma AddNothing(t: Tally)
    ensures Add(t, NOTHING) == t && Add(NOTHING, t) == t
  {
    AppendNil(t.records);
  }

  lemma AddAssoc(a: Tally, b: Tally, c: Tally)
    ensures Add(Add(a, b), c) == Add(a, Add(b, c))
  {
    AppendAssoc(a.records, b.records, c.records);
  }

  lemma WalkAdvance(good: Judge, data: Bytes, offset: nat, e: nat, room: nat, tally: Tally)
    requires offset <= |data| && room > 0 && FindNewline(data[offset..]) == Some(e) && offset + e < |data|
    ensures var line := data[offset..][..e];
            var v := Walk(good, data[offset..], room);
            var w := Walk(good, data[offset + e + 1..], Room(good, line, room));
            v.0 == e + 1 + w.0 && Add(tally, v.1) == Add(Add(tally, Shown(good, line)), w.1)
  {
    var line := data[offset..][..e];
    WalkIs(good, data[offset..], room);
    assert data[offset..][e + 1..] == data[offset + e + 1..];
    AddAssoc(tally, Shown(good, line), Walk(good, data[offset + e + 1..], Room(good, line, room)).1);
  }

  method WalkLines(good: Judge, data: Bytes, limit: nat) returns (offset: nat, tally: Tally)
    ensures (offset, tally) == Walk(good, data, limit)
  {
    ghost var goal := Walk(good, data, limit);
    offset, tally := 0, NOTHING;
    var room := limit;
    AddNothing(goal.1);
    assert data[0..] == data;
    while room > 0
      invariant offset <= |data|
      invariant offset + Walk(good, data[offset..], room).0 == goal.0
      invariant Add(tally, Walk(good, data[offset..], room).1) == goal.1
      decreases |data| - offset
    {
      WalkIs(good, data[offset..], room);
      var end := FindNewline(data[offset..]);
      if end.None? {
        break;
      }
      var line := data[offset..][..end.value];
      WalkAdvance(good, data, offset, end.value, room, tally);
      tally, room, offset := Add(tally, Shown(good, line)), Room(good, line, room), offset + end.value + 1;
    }
    WalkIs(good, data[offset..], room);
    AddNothing(tally);
  }

  /** One request: skip to the end of a discarded line, walk the lines, or step over a full window. */
  method ServePage(good: Judge, file: Bytes, c: Cursor, limit: nat, window: nat) returns (page: Page)
    requires c.at <= |file|
    ensures page == ReadPage(good, file, c, limit, window)
  {
    var data := file[c.at..Min(|file|, c.at + window)];
    var first := FindNewline(data);
    if first.Some? {
      var begin := if c.discard then first.value + 1 else 0;
      var passed, tally := WalkLines(good, data[begin..], limit);
      page := Page(tally, Cursor(c.at + begin + passed, false));
    } else if |data| == window {
      page := Page(Tally([], if c.discard then 0 else 1), Cursor(c.at + |data|, true));
    } else {
      page := Page(NOTHING, c);
    }
  }

  // ---------------------------------------------------------------- the reference account

  /** What becomes of one complete line: shown, or skipped as malformed or as too long for a window. */
  function Outcome(good: Judge, line: Bytes, window: nat): Tally {
    if |line| < window then Shown(good, line) else Tally([], 1)
  }

  /** Every complete line, in order; an unfinished last line does not count. */
  function Account(good: Judge, d: Bytes, window: nat): Tally
    decreases |d|, |d| + 4
  {
    AccountSealed(good, d, window, |d| + 3)
  }

  function AccountSealed(good: Judge, d: Bytes, window: nat, depth: nat): Tally
    decreases |d|, depth
  {
    if depth > 0 then AccountSealed(good, d, window, depth - 1)
    else if FindNewline(d).None? then NOTHING
    else
      var e := FindNewline(d).value;
      Add(Outcome(good, d[..e], window), Account(good, d[e + 1..], window))
  }

  lemma {:induction false} AccountUnsealed(good: Judge, d: Bytes, window: nat, depth: nat)
    ensures FindNewline(d).None? ==> AccountSealed(good, d, window, depth) == NOTHING
    ensures FindNewline(d).Some? ==>
              AccountSealed(good, d, window, depth)
              == Add(Outcome(good, d[..FindNewline(d).value], window),
                     Account(good, d[FindNewline(d).value + 1..], window))
    decreases depth
  {
    if depth > 0 {
      AccountUnsealed(good, d, window, depth - 1);
    }
  }

  predicate EndsLine(d: Bytes) { d == [] || d[|d| - 1] == NEWLINE }

  lemma AccountLine(good: Judge, line: Bytes, rest: Bytes, window: nat)
    requires Plain(line)
    ensures Account(good, line + ([NEWLINE] + rest), window)
            == Add(Outcome(good, line, window), Account(good, rest, window))
  {
    var d := line + ([NEWLINE] + rest);
    FindsLine(line, rest);
    AccountUnsealed(good, d, window, |d| + 3);
    assert d[..|line|] == line && d[|line| + 1..] == rest;
  }

  lemma AccountPlain(good: Judge, d: Bytes, window: nat)
    requires Plain(d)
    ensures Account(good, d, window) == NOTHING
  {
    AccountUnsealed(good, d, window, |d| + 3);
  }

  lemma {:induction false} PlainHasNoEnd(d: Bytes, at: nat)
    requires at < |d| && FindFrom(d, at).None?
    ensures !EndsLine(d)
    decreases |d| - at
  {
    if at + 1 < |d| {
      PlainHasNoEnd(d, at + 1);
    }
  }

  /** Takes the first line off data that ends with a line. */
  lemma TakeLine(a: Bytes) returns (line: Bytes, rest: Bytes)
    requires a != [] && EndsLine(a)
    ensures Plain(line) && a == line + ([NEWLINE] + rest) && EndsLine(rest) && |rest| < |a|
  {
    if Plain(a) {
      PlainHasNoEnd(a, 0);
    }
    var e := FindNewline(a).value;
    FoundLine(a);
    line, rest := a[..e], a[e + 1..];
  }

  /** Complete lines followed by more data: the accounts add up. */
  lemma {:induction false} AccountJoin(good: Judge, a: Bytes, b: Bytes, window: nat)
    requires EndsLine(a)
    ensures Account(good, a + b, window) == Add(Account(good, a, window), Account(good, b, window))
    decreases |a|
  {
    if a == [] {
      AppendNil(b);
      AccountPlain(good, a, window);
      AddNothing(Account(good, b, window));
    } else {
      var line, rest := TakeLine(a);
      AccountJoin(good, rest, b, window);
      JoinLine(line, rest, b);
      AccountLine(good, line, rest, window);
      AccountLine(good, line, rest + b, window);
      AddAssoc(Outcome(good, line, window), Account(good, rest, window), Account(good, b, window));
    }
  }

  lemma JoinLine(line: Bytes, rest: Bytes, b: Bytes)
    ensures (line + ([NEWLINE] + rest)) + b == line + ([NEWLINE] + (rest + b))
  {
  }

  lemma EndsJoin(a: Bytes, b: Bytes)
    requires EndsLine(a) && EndsLine(b)
    ensures EndsLine(a + b)
  {
    if b == [] {
      AppendNil(a);
    }
  }

  // ---------------------------------------------------------------- a page accounts for what it passes

  /** Inside a window every complete line is short, so the walk accounts for exactly the lines it passes. */
  lemma {:induction false} WalkAccounts(good: Judge, d: Bytes, room: nat, window: nat)
    requires |d| <= window
    ensures var (n, t) := Walk(good, d, room); t == Account(good, d[..n], window) && EndsLine(d[..n])
    decreases |d|
  {
    WalkIs(good, d, room);
    if room == 0 || FindNewline(d).None? {
      AccountPlain(good, [], window);
      assert d[..0] == [];
    } else {
      FoundLine(d);
      var e := FindNewline(d).value;
      var next := Room(good, d[..e], room);
      WalkAccounts(good, d[e + 1..], next, window);
      LineAccounts(good, d, e, d[e + 1..], Walk(good, d[e + 1..], next).0, window);
    }
  }

  lemma LineAccounts(good: Judge, d: Bytes, e: nat, rest: Bytes, n: nat, window: nat)
    requires e < |d| <= window && Plain(d[..e]) && d[e] == NEWLINE && rest == d[e + 1..] && n <= |rest|
             && EndsLine(rest[..n])
    ensures Account(good, d[..e + 1 + n], window) == Add(Shown(good, d[..e]), Account(good, rest[..n], window))
    ensures EndsLine(d[..e + 1 + n])
  {
    assert d[..e + 1 + n] == d[..e] + ([NEWLINE] + rest[..n]);
    AccountLine(good, d[..e], rest[..n], window);
  }

  /** What lies before a cursor: complete lines, then, inside a line given up, at least a window of it. */
  ghost predicate Legal(past: Bytes, discard: bool, window: nat) {
    if !discard then EndsLine(past) else exists lines, part :: GivenUp(past, lines, part, window)
  }

  predicate GivenUp(past: Bytes, lines: Bytes, part: Bytes, window: nat) {
    past == lines + part && EndsLine(lines) && Plain(part) && |part| >= window
  }

  /** What is owed for the bytes before a cursor; a line given up is counted at once. */
  function Owed(good: Judge, past: Bytes, discard: bool, window: nat): Tally {
    Add(Account(good, past, window), if discard then Tally([], 1) else NOTHING)
  }

  /** Passing unfinished bytes changes no account. */
  lemma AccountUnfinished(good: Judge, lines: Bytes, part: Bytes, window: nat)
    requires EndsLine(lines) && Plain(part)
    ensures Account(good, lines + part, window) == Account(good, lines, window)
  {
    AccountJoin(good, lines, part, window);
    AccountPlain(good, part, window);
    AddNothing(Account(good, lines, window));
  }

  lemma EndOfLine(lines: Bytes, part: Bytes, more: Bytes)
    ensures (lines + part) + (more + [NEWLINE]) == lines + ((part + more) + ([NEWLINE] + []))
  {
  }

  /** A given-up line that ends counts as exactly the one skip already taken for it. */
  lemma GivenUpEnds(good: Judge, past: Bytes, lines: Bytes, part: Bytes, more: Bytes, window: nat)
    requires GivenUp(past, lines, part, window) && Plain(more)
    ensures Account(good, past + (more + [NEWLINE]), window) == Owed(good, past, true, window)
    ensures EndsLine(past + (more + [NEWLINE]))
  {
    var line := part + more;
    PlainJoin(part, more);
    EndOfLine(lines, part, more);
    AccountJoin(good, lines, line + ([NEWLINE] + []), window);
    AccountLine(good, line, [], window);
    AccountPlain(good, [], window);
    AddNothing(Tally([], 1));
    AccountUnfinished(good, lines, part, window);
  }

  // ---------------------------------------------------------------- one page keeps the account

  /** The page's effect: what it reports is exactly what becomes owed between the two cursors. */
  ghost predicate Accounts(good: Judge, past: Bytes, discard: bool, passed: Bytes, p: Page, window: nat) {
    && Legal(past + passed, p.cursor.discard, window)
    && Owed(good, past + passed, p.cursor.discard, window) == Add(Owed(good, past, discard, window), p.tally)
  }

  lemma StepOver(good: Judge, past: Bytes, discard: bool, d: Bytes, start: nat, limit: nat, window: nat)
    requires Legal(past, discard, window) && Plain(d) && |d| == window
    ensures Accounts(good, past, discard, d, ReadWindow(good, d, start, discard, limit, window), window)
  {
    if discard {
      var lines, part :| GivenUp(past, lines, part, window);
      PlainJoin(part, d);
      AppendAssoc(lines, part, d);
      assert GivenUp(past + d, lines, part + d, window);
      AccountUnfinished(good, lines, part, window);
      AccountUnfinished(good, lines, part + d, window);
      AddNothing(Owed(good, past, true, window));
    } else {
      assert GivenUp(past + d, past, d, window);
      AccountUnfinished(good, past, d, window);
      AddNothing(Account(good, past, window));
    }
  }

  lemma Stay(good: Judge, past: Bytes, discard: bool, window: nat, p: Page)
    requires Legal(past, discard, window) && p.tally == NOTHING && p.cursor.discard == discard
    ensures Accounts(good, past, discard, [], p, window)
  {
    AppendNil(past);
    AddNothing(Owed(good, past, discard, window));
  }

  lemma WalkOn(good: Judge, past: Bytes, owed: Tally, d: Bytes, n: nat, t: Tally, window: nat)
    requires EndsLine(past) && Account(good, past, window) == owed && n <= |d| && t == Account(good, d[..n], window)
             && EndsLine(d[..n])
    ensures EndsLine(past + d[..n]) && Account(good, past + d[..n], window) == Add(owed, t)
  {
    AccountJoin(good, past, d[..n], window);
    EndsJoin(past, d[..n]);
  }

  lemma SplitWindow(past: Bytes, d: Bytes, begin: nat, n: nat)
    requires begin <= |d| && n <= |d| - begin
    ensures (past + d[..begin]) + d[begin..][..n] == past + d[..begin + n]
  {
  }

  lemma PageFromOk(good: Judge, past: Bytes, discard: bool, d: Bytes, start: nat, begin: nat, limit: nat, window: nat)
    requires begin <= |d| <= window && EndsLine(past + d[..begin])
    requires Account(good, past + d[..begin], window) == Owed(good, past, discard, window)
    ensures var p := PageFrom(good, d, start, begin, limit);
            start <= p.cursor.at <= start + |d| && Accounts(good, past, discard, d[..p.cursor.at - start], p, window)
  {
    var walk := Walk(good, d[begin..], limit);
    WalkAccounts(good, d[begin..], limit, window);
    WalkOn(good, past + d[..begin], Owed(good, past, discard, window), d[begin..], walk.0, walk.1, window);
    SplitWindow(past, d, begin, walk.0);
    AddNothing(Account(good, past + d[..begin + walk.0], window));
  }

  lemma ResumeLines(good: Judge, past: Bytes, d: Bytes, start: nat, limit: nat, window: nat)
    requires EndsLine(past) && |d| <= window
    ensures var p := PageFrom(good, d, start, 0, limit);
            start <= p.cursor.at <= start + |d| && Accounts(good, past, false, d[..p.cursor.at - start], p, window)
  {
    AppendNil(past);
    assert d[..0] == [];
    AddNothing(Account(good, past, window));
    PageFromOk(good, past, false, d, start, 0, limit, window);
  }

  lemma InsideOk(good: Judge, past: Bytes, d: Bytes, e: nat, window: nat)
    requires Legal(past, true, window) && e < |d| && Plain(d[..e]) && d[e] == NEWLINE
    ensures EndsLine(past + d[..e + 1]) && Account(good, past + d[..e + 1], window) == Owed(good, past, true, window)
  {
    var lines, part :| GivenUp(past, lines, part, window);
    GivenUpEnds(good, past, lines, part, d[..e], window);
    assert d[..e + 1] == d[..e] + [NEWLINE];
  }

  lemma ResumeInside(good: Judge, past: Bytes, d: Bytes, start: nat, limit: nat, window: nat)
    requires Legal(past, true, window) && FindNewline(d).Some? && |d| <= window
    ensures var p := PageFrom(good, d, start, FindNewline(d).value + 1, limit);
            start <= p.cursor.at <= start + |d| && Accounts(good, past, true, d[..p.cursor.at - start], p, window)
  {
    FoundLine(d);
    InsideOk(good, past, d, FindNewline(d).value, window);
    PageFromOk(good, past, true, d, start, FindNewline(d).value + 1, limit, window);
  }

  /** Every page accounts for exactly the bytes it passes, from every legal cursor. */
  lemma PageAccounts(good: Judge, past: Bytes, discard: bool, d: Bytes, start: nat, limit: nat, window: nat)
    requires Legal(past, discard, window) && |d| <= window
    ensures var p := ReadWindow(good, d, start, discard, limit, window);
            start <= p.cursor.at <= start + |d| && Accounts(good, past, discard, d[..p.cursor.at - start], p, window)
  {
    if FindNewline(d).None? {
      if |d| == window {
        StepOver(good, past, discard, d, start, limit, window);
        assert d[..|d|] == d;
      } else {
        assert d[..0] == [];
        Stay(good, past, discard, window, ReadWindow(good, d, start, discard, limit, window));
      }
    } else if discard {
      ResumeInside(good, past, d, start, limit, window);
    } else {
      ResumeLines(good, past, d, start, limit, window);
    }
  }

  // ---------------------------------------------------------------- runs over a growing file

  /** One request of a run: the file as it was then, and the page it returned. */
  datatype Request = Request(file: Bytes, limit: nat, page: Page)

  predicate Served(good: Judge, r: Request, c: Cursor, window: nat) {
    c.at <= |r.file| && r.page == ReadPage(good, r.file, c, r.limit, window)
  }

  /** Request `i` continues where the one before it stopped, on a file that has only grown. */
  predicate Follows(good: Judge, start: Cursor, run: seq<Request>, window: nat, i: nat)
    requires i < |run|
  {
    Served(good, run[i], if i == 0 then start else run[i - 1].page.cursor, window)
    && (i > 0 ==> run[i - 1].file <= run[i].file)
  }

  ghost predicate IsRun(good: Judge, start: Cursor, run: seq<Request>, window: nat) {
    forall i: nat {:trigger Follows(good, start, run, window, i)} :: i < |run| ==> Follows(good, start, run, window, i)
  }

  function Total(run: seq<Request>): Tally {
    if run == [] then NOTHING else Add(Total(run[..|run| - 1]), run[|run| - 1].page.tally)
  }

  /** What the file holds between the first cursor and a later one. */
  function Past(file: Bytes, origin: nat, at: nat): Bytes
    requires origin <= at <= |file|
  {
    file[origin..at]
  }

  lemma PastGrows(file: Bytes, larger: Bytes, origin: nat, at: nat)
    requires origin <= at <= |file| && file <= larger
    ensures Past(larger, origin, at) == Past(file, origin, at)
  {
  }

  lemma PastMoves(file: Bytes, origin: nat, at: nat, window: nat, next: nat)
    requires origin <= at <= next <= Min(|file|, at + window) && at <= |file|
    ensures Past(file, origin, next) == Past(file, origin, at) + file[at..Min(|file|, at + window)][..next - at]
  {
  }

  /** Everything between the first cursor and `c` is accounted for by `total`. */
  ghost predicate Squared(good: Judge, file: Bytes, origin: nat, c: Cursor, total: Tally, window: nat) {
    && origin <= c.at <= |file|
    && Legal(Past(file, origin, c.at), c.discard, window)
    && total == Owed(good, Past(file, origin, c.at), c.discard, window)
  }

  lemma SquaredGrows(good: Judge, file: Bytes, larger: Bytes, origin: nat, c: Cursor, total: Tally, window: nat)
    requires Squared(good, file, origin, c, total, window) && file <= larger
    ensures Squared(good, larger, origin, c, total, window)
  {
    PastGrows(file, larger, origin, c.at);
  }

  lemma PageSquares(good: Judge, file: Bytes, origin: nat, c: Cursor, total: Tally, limit: nat, window: nat)
    requires Squared(good, file, origin, c, total, window)
    ensures var p := ReadPage(good, file, c, limit, window);
            Squared(good, file, origin, p.cursor, Add(total, p.tally), window)
  {
    var d := file[c.at..Min(|file|, c.at + window)];
    PageAccounts(good, Past(file, origin, c.at), c.discard, d, c.at, limit, window);
    PastMoves(file, origin, c.at, window, ReadPage(good, file, c, limit, window).cursor.at);
  }

  lemma {:induction false} RunSquares(good: Judge, start: Cursor, origin: nat, before: Tally, run: seq<Request>,
                                      window: nat, n: nat)
    requires IsRun(good, start, run, window) && 0 < n <= |run|
             && Squared(good, run[0].file, origin, start, before, window)
    ensures Squared(good, run[n - 1].file, origin, run[n - 1].page.cursor, Add(before, Total(run[..n])), window)
    decreases n
  {
    assert Follows(good, start, run, window, n - 1);
    var r := run[n - 1];
    TotalStep(run, n);
    AddAssoc(before, Total(run[..n - 1]), r.page.tally);
    if n == 1 {
      assert run[..0] == [];
      AddNothing(before);
      PageSquares(good, r.file, origin, start, before, r.limit, window);
    } else {
      RunSquares(good, start, origin, before, run, window, n - 1);
      var c, total := run[n - 2].page.cursor, Add(before, Total(run[..n - 1]));
      SquaredGrows(good, run[n - 2].file, r.file, origin, c, total, window);
      PageSquares(good, r.file, origin, c, total, r.limit, window);
    }
  }

  lemma TotalStep(run: seq<Request>, n: nat)
    requires 0 < n <= |run|
    ensures Total(run[..n]) == Add(Total(run[..n - 1]), run[n - 1].page.tally)
  {
    assert run[..n][..n - 1] == run[..n - 1];
  }

  /**
   * Over any append-only growth of the file, and from any cursor that pages can leave behind: what was
   * accounted for up to that cursor and what the pages of the run return are, together, every complete
   * line from `origin` to the last cursor, once and in order: delivered, or skipped as malformed or
   * oversized. A line given up but not yet ended has been counted, once, ahead of its end.
   */
  lemma ExactlyOnce(good: Judge, start: Cursor, origin: nat, run: seq<Request>, window: nat)
    requires IsRun(good, start, run, window) && run != [] && origin <= start.at <= |run[0].file|
    requires Legal(Past(run[0].file, origin, start.at), start.discard, window)
    ensures var last := run[|run| - 1];
            var before := Owed(good, Past(run[0].file, origin, start.at), start.discard, window);
            && start.at <= last.page.cursor.at <= |last.file|
            && SameAccount(Add(before, Total(run)), Account(good, Past(last.file, origin, last.page.cursor.at), window),
                           last.page.cursor.discard)
  {
    var before := Owed(good, Past(run[0].file, origin, start.at), start.discard, window);
    RunSquares(good, start, origin, before, run, window, |run|);
    RunAdvances(good, start, run, window, |run|);
    assert run[..|run|] == run;
    var last := run[|run| - 1];
    OwedIs(Account(good, Past(last.file, origin, last.page.cursor.at), window), last.page.cursor.discard);
  }

  lemma {:induction false} RunAdvances(good: Judge, start: Cursor, run: seq<Request>, window: nat, n: nat)
    requires IsRun(good, start, run, window) && 0 < n <= |run|
    ensures start.at <= run[n - 1].page.cursor.at
    decreases n
  {
    assert Follows(good, start, run, window, n - 1);
    if n > 1 {
      RunAdvances(good, start, run, window, n - 1);
    }
    PageAdvances(good, run[n - 1].file, if n == 1 then start else run[n - 2].page.cursor, run[n - 1].limit, window);
  }

  lemma PageAdvances(good: Judge, file: Bytes, c: Cursor, limit: nat, window: nat)
    requires c.at <= |file|
    ensures c.at <= ReadPage(good, file, c, limit, window).cursor.at
  {
  }

  /** The same records, and as many skips, with one more for a line given up. */
  predicate SameAccount(total: Tally, account: Tally, pending: bool) {
    total.records == account.records && total.skipped == account.skipped + if pending then 1 else 0
  }

  lemma OwedIs(account: Tally, discard: bool)
    ensures SameAccount(Add(account, if discard then Tally([], 1) else NOTHING), account, discard)
  {
    AppendNil(account.records);
  }

  /** A page makes progress unless what is left is an unfinished line shorter than the window. */
  lemma PageProgresses(good: Judge, file: Bytes, c: Cursor, limit: nat, window: nat)
    requires c.at <= |file| && limit >= 1 && window >= 1
    ensures ReadPage(good, file, c, limit, window).cursor.at > c.at || (Plain(file[c.at..]) && |file| - c.at < window)
  {
    var d := file[c.at..Min(|file|, c.at + window)];
    if FindNewline(d).None? {
      if |d| < window {
        assert d == file[c.at..];
      }
    } else if !c.discard {
      assert d[0..] == d;
      WalkIs(good, d, limit);
    }
  }
}
