/** The Redis recogniser: RESP commands, bulk strings and inline commands. */
module Redis {
  import opened Common
  import opened Wire

  const MAX_RESP_ARGUMENTS := 128

  const STAR: Byte := 42
  const DOLLAR: Byte := 36
  const BANG: Byte := 33
  const EQUALS: Byte := 61

  // ---------------------------------------------------------------- decimal lines

  /** A number, and how many bytes its line takes. */
  datatype Line = Line(value: nat, length: nat)

  predicate IsNumber(raw: Bytes) { 1 <= |raw| <= 10 && AllDigits(raw) }

  function NumberLine(raw: Bytes): Option<Line> { if IsNumber(raw) then Some(Line(Decimal(raw), |raw| + 2)) else None }

  function DecimalLine(d: Bytes, at: nat): (r: Option<Line>)
    ensures r.Some? ==> 0 < r.value.length && at + r.value.length <= |d|
  {
    var end := FindCrlf(d, at, Min(|d|, at + 13));
    if end.None? then None else NumberLine(d[at..end.value])
  }

  // ---------------------------------------------------------------- RESP commands

  function Upper(b: Bytes): Bytes { if b == [] then [] else [UpperByte(b[0])] + Upper(b[1..]) }

  function UpperByte(b: Byte): Byte { if 97 <= b <= 122 then b - 32 else b }

  const AUTH: Bytes := [65, 85, 84, 72]
  const HELLO: Bytes := [72, 69, 76, 76, 79]
  const SETNAME: Bytes := [83, 69, 84, 78, 65, 77, 69]
  const DEFAULT: Bytes := [100, 101, 102, 97, 117, 108, 116]

  /** One length-prefixed field: its bytes and how many bytes it takes on the wire. */
  datatype Field = Field(value: Bytes, length: nat)

  /** A length line, that many bytes, and a line end. */
  function Bulk(d: Bytes, at: nat): (r: Option<Field>)
    ensures r.Some? ==> 0 < r.value.length && at + r.value.length <= |d|
  {
    var line := DecimalLine(d, at);
    if line.None? then None
    else
      var begin := at + line.value.length;
      if CrlfAt(d, begin + line.value.value)
      then Some(Field(d[begin..begin + line.value.value], line.value.length + line.value.value + 2)) else None
  }

  /** A command under construction; arguments are given up once a bound is exceeded. */
  datatype Command = Command(length: nat, arguments: Option<seq<Bytes>>, knownAuth: bool)

  function AddArgument(c: Command, f: Field, first: bool): Command {
    var length := c.length + 1 + f.length;
    Command(length,
            if |f.value| > MAX_FIELD_BYTES || length > MAX_AUTH_MESSAGE_BYTES || c.arguments.None? then None
            else Some(c.arguments.value + [f.value]),
            if first && |f.value| <= 5 then NamesAuth(Upper(f.value)) else c.knownAuth)
  }

  predicate NamesAuth(verb: Bytes) { verb == AUTH || verb == HELLO }

  /** One more argument behind the command so far. */
  function Argument(d: Bytes, start: nat, c: Command): (r: Option<Field>)
    ensures r.Some? ==> start + c.length + 1 + r.value.length <= |d|
  {
    if start + c.length >= |d| || d[start + c.length] != DOLLAR then None else Bulk(d, start + c.length + 1)
  }

  function Extended(d: Bytes, start: nat, c: Command, first: bool): (r: Option<Command>)
    ensures r.Some? ==> c.length <= r.value.length && start + r.value.length <= |d|
  {
    var field := Argument(d, start, c);
    if field.None? then None else Some(AddArgument(c, field.value, first))
  }

  function Arguments(d: Bytes, start: nat, left: nat, c: Command, first: bool): (r: Option<Command>)
    requires start + c.length <= |d|
    ensures r.Some? ==> c.length <= r.value.length && start + r.value.length <= |d|
    decreases left
  {
    if left == 0 then Some(c)
    else
      var next := Extended(d, start, c, first);
      if next.None? then None else Arguments(d, start, left - 1, next.value, false)
  }

  function RespCommand(d: Bytes, start: nat): (r: Option<Command>)
    ensures r.Some? ==> 0 < r.value.length && start + r.value.length <= |d|
  {
    var count := DecimalLine(d, start + 1);
    if count.None? || !(1 <= count.value.value <= MAX_RESP_ARGUMENTS) then None
    else Arguments(d, start, count.value.value, Command(1 + count.value.length, Some([]), false), true)
  }

  // ---------------------------------------------------------------- inline commands

  predicate IsBlank(b: Byte) { b == 32 || b == 9 }

  predicate IsQuote(b: Byte) { b == 34 || b == 39 }

  const BACKSLASH: Byte := 92

  function SkipBlanks(line: Bytes, at: nat): (r: nat)
    requires at <= |line|
    ensures at <= r <= |line| && (r < |line| ==> !IsBlank(line[r]))
    decreases |line| - at
  {
    if at < |line| && IsBlank(line[at]) then SkipBlanks(line, at + 1) else at
  }

  function TokenEnd(line: Bytes, at: nat): (r: nat)
    requires at <= |line|
    ensures at <= r <= |line|
    decreases |line| - at
  {
    if at < |line| && !IsBlank(line[at]) then TokenEnd(line, at + 1) else at
  }

  /** One token from `at`, quoted or plain, and where the next may begin. */
  function Token(line: Bytes, at: nat): (r: Option<(Bytes, nat)>)
    requires at < |line| && !IsBlank(line[at])
    ensures r.Some? ==> at < r.value.1 <= |line|
  {
    if IsQuote(line[at]) then
      var end := FindByteFrom(line, line[at], at + 1);
      if end.None? || BACKSLASH in line[at + 1..end.value] then None
      else if end.value + 1 < |line| && !IsBlank(line[end.value + 1]) then None
      else Some((line[at + 1..end.value], end.value + 1))
    else
      var token := line[at..TokenEnd(line, at)];
      if 39 in token || 34 in token || BACKSLASH in token then None
      else Some((token, TokenEnd(line, at)))
  }

  function Tokens(line: Bytes, at: nat, sofar: seq<Bytes>): Option<seq<Bytes>>
    requires at <= |line|
    decreases |line| - at
  {
    var begin := SkipBlanks(line, at);
    if begin == |line| then Some(sofar)
    else
      var token := Token(line, begin);
      if token.None? || |token.value.0| > MAX_FIELD_BYTES || |sofar| >= MAX_RESP_ARGUMENTS then None
      else Tokens(line, token.value.1, sofar + [token.value.0])
  }

  predicate HasControl(line: Bytes) { line != [] && ((line[0] < 32 && line[0] != 9) || HasControl(line[1..])) }

  function InlineArguments(line: Bytes): Option<seq<Bytes>> {
    if |line| > MAX_AUTH_MESSAGE_BYTES || HasControl(line) then None
    else Tokens(line, 0, [])
  }

  predicate IsSpace(b: Byte) { b == 32 || 9 <= b <= 13 }

  function StripLeft(line: Bytes): Bytes
  {
    if line != [] && IsSpace(line[0]) then StripLeft(line[1..]) else line
  }

  /** An inline command that names an authentication command without being understood. */
  predicate LooksLikeAuth(line: Bytes) {
    var text := Upper(StripLeft(line));
    AUTH + [32] <= text || AUTH + [9] <= text || HELLO + [32] <= text || HELLO + [9] <= text
  }

  // ---------------------------------------------------------------- credentials

  datatype Credentials = Credentials(username: Bytes, password: Bytes)

  /** The options of HELLO: at most one AUTH and one SETNAME, and nothing else. */
  function HelloOptions(arguments: seq<Bytes>, at: nat, found: Option<Credentials>, named: bool): Option<Credentials>
    requires at <= |arguments|
    decreases |arguments| - at
  {
    if at == |arguments| then found
    else
      var option := Upper(arguments[at]);
      if option == AUTH && at + 2 < |arguments| && found.None? then
        HelloOptions(arguments, at + 3, Some(Credentials(arguments[at + 1], arguments[at + 2])), named)
      else if option == SETNAME && at + 1 < |arguments| && !named then HelloOptions(arguments, at + 2, found, true)
      else None
  }

  function AuthMaterial(arguments: seq<Bytes>): Option<Material> {
    if arguments == [] then None
    else if Upper(arguments[0]) == AUTH && (|arguments| == 2 || |arguments| == 3) then
      Some(RedisAuth(false, if |arguments| == 3 then arguments[1] else DEFAULT, arguments[|arguments| - 1]))
    else if Upper(arguments[0]) == HELLO && |arguments| >= 5 && (arguments[1] == [50] || arguments[1] == [51]) then
      var found := HelloOptions(arguments, 2, None, false);
      if found.None? then None else Some(RedisAuth(true, found.value.username, found.value.password))
    else None
  }

  /** What complete arguments give rise to. */
  function Judge(arguments: Option<seq<Bytes>>): Option<Material> {
    if arguments.None? then None
    else if AuthMaterial(arguments.value).Some? then AuthMaterial(arguments.value)
    else if arguments.value != [] && Upper(arguments.value[0]) == AUTH
      then Some(Coverage("redis_auth_invalid_arguments"))
    else None
  }

  // ---------------------------------------------------------------- frames

  function InlineFrame(line: Bytes): Option<Frame> {
    var arguments := InlineArguments(line);
    if arguments.Some? then Some(Frame(|line| + 2, Judge(arguments)))
    else if LooksLikeAuth(line) then Some(Frame(|line| + 2, Some(Coverage("redis_auth_unsupported_inline"))))
    else None
  }

  function CommandFrame(c: Command): Frame {
    Frame(c.length,
          if c.knownAuth && c.arguments.None? then Some(Coverage("redis_auth_field_or_message_limit"))
            else Judge(c.arguments))
  }

  function StarFrame(d: Bytes, at: nat): (r: Option<Frame>)
    ensures r.Some? ==> 0 < r.value.length && at + r.value.length <= |d|
  {
    var c := RespCommand(d, at);
    if c.None? then None else Some(CommandFrame(c.value))
  }

  /** Bulk strings may hold anything, and are never looked into. */
  function BulkFrame(d: Bytes, at: nat): (r: Option<Frame>)
    ensures r.Some? ==> 0 < r.value.length && at + r.value.length <= |d|
  {
    var f := Bulk(d, at + 1);
    if f.None? then None else Some(Frame(1 + f.value.length, None))
  }

  function LineFrame(d: Bytes, at: nat): (r: Option<Frame>)
    requires at <= |d|
    ensures r.Some? ==> 0 < r.value.length && at + r.value.length <= |d|
  {
    var end := FindCrlf(d, at, |d|);
    if end.None? then None else InlineFrame(d[at..end.value])
  }

  /** The frame that begins at `at`, if it is complete and well formed. */
  function RedisFrame(d: Bytes, at: nat): (r: Option<Frame>)
    ensures r.Some? ==> 0 < r.value.length && at + r.value.length <= |d|
  {
    if at >= |d| then None
    else if d[at] == STAR then StarFrame(d, at)
    else if d[at] == DOLLAR || d[at] == BANG || d[at] == EQUALS then BulkFrame(d, at)
    else LineFrame(d, at)
  }

  // ---------------------------------------------------------------- the loops

  /** With `r` read and `left` arguments to come, the command read in the end is `goal`. */
  ghost predicate Leads(d: Bytes, start: nat, left: nat, r: Option<Command>, first: bool, goal: Option<Command>) {
    if r.None? then goal == None
    else start + r.value.length <= |d| && Arguments(d, start, left, r.value, first) == goal
  }

  /** `Leads`, behind a recursion that keeps the solver from unfolding it inside the loop. */
  ghost predicate LeadsSealed(depth: nat, d: Bytes, start: nat, left: nat, r: Option<Command>, first: bool,
                              goal: Option<Command>) {
    if depth > 0 then LeadsSealed(depth - 1, d, start, left, r, first, goal) else Leads(d, start, left, r, first, goal)
  }

  lemma {:induction false} LeadsMeans(depth: nat, d: Bytes, start: nat, left: nat, r: Option<Command>, first: bool,
                                      goal: Option<Command>)
    ensures LeadsSealed(depth, d, start, left, r, first, goal) <==> Leads(d, start, left, r, first, goal)
  {
    if depth > 0 {
      LeadsMeans(depth - 1, d, start, left, r, first, goal);
    }
  }

  method ReadArgument(d: Bytes, start: nat, left: nat, c: Command, first: bool,
                      ghost goal: Option<Command>, ghost depth: nat)
    returns (next: Option<Command>)
    requires left > 0 && LeadsSealed(depth, d, start, left, Some(c), first, goal)
    ensures LeadsSealed(depth, d, start, left - 1, next, false, goal)
  {
    LeadsMeans(depth, d, start, left, Some(c), first, goal);
    next := Extended(d, start, c, first);
    LeadsMeans(depth, d, start, left - 1, next, false, goal);
  }

  lemma ReadToEnd(d: Bytes, start: nat, left: nat, r: Option<Command>, first: bool, goal: Option<Command>, depth: nat)
    requires LeadsSealed(depth, d, start, left, r, first, goal) && (r.None? || left == 0)
    ensures r == goal
  {
    LeadsMeans(depth, d, start, left, r, first, goal);
  }

  method ReadArguments(d: Bytes, start: nat, count: nat, head: Command) returns (r: Option<Command>)
    requires start + head.length <= |d|
    ensures r == Arguments(d, start, count, head, true)
  {
    ghost var goal, depth: nat := Arguments(d, start, count, head, true), count + 3;
    var left: nat, first := count, true;
    r := Some(head);
    LeadsMeans(depth, d, start, left, r, first, goal);
    while r.Some? && left > 0
      invariant LeadsSealed(depth, d, start, left, r, first, goal)
      decreases left
    {
      var c := r.value;
      r := ReadArgument(d, start, left, c, first, goal, depth);
      left, first := left - 1, false;
    }
    ReadToEnd(d, start, left, r, first, goal, depth);
  }

  method SplitInline(line: Bytes) returns (r: Option<seq<Bytes>>)
    ensures r == Tokens(line, 0, [])
  {
    var at, sofar := 0, [];
    while true
      invariant at <= |line| && Tokens(line, at, sofar) == Tokens(line, 0, [])
      decreases |line| - at
    {
      var begin := SkipBlanks(line, at);
      if begin == |line| {
        return Some(sofar);
      }
      var token := Token(line, begin);
      if token.None? || |token.value.0| > MAX_FIELD_BYTES || |sofar| >= MAX_RESP_ARGUMENTS {
        return None;
      }
      at, sofar := token.value.1, sofar + [token.value.0];
    }
  }

  // ---------------------------------------------------------------- stability

  lemma DecimalLineStable(a: Bytes, i: nat, b: Bytes, j: nat, n: nat)
    requires Continues(a, i, b, j) && DecimalLine(a, i + n).Some?
    ensures DecimalLine(b, j + n) == DecimalLine(a, i + n)
  {
    var e := FindCrlf(a, i + n, Min(|a|, i + n + 13)).value;
    FindCrlfStable(a, i, b, j, n, Min(|a|, i + n + 13), Min(|b|, j + n + 13));
    ContinuesSlice(a, i, b, j, n, e - i);
  }

  lemma BulkStable(a: Bytes, i: nat, b: Bytes, j: nat, n: nat)
    requires Continues(a, i, b, j) && Bulk(a, i + n).Some?
    ensures Bulk(b, j + n) == Bulk(a, i + n)
  {
    DecimalLineStable(a, i, b, j, n);
    var line := DecimalLine(a, i + n).value;
    CrlfContinues(a, i, b, j, n + line.length + line.value);
    ContinuesSlice(a, i, b, j, n + line.length, n + line.length + line.value);
  }

  lemma ArgumentStable(a: Bytes, i: nat, b: Bytes, j: nat, c: Command)
    requires Continues(a, i, b, j) && Argument(a, i, c).Some?
    ensures Argument(b, j, c) == Argument(a, i, c)
  {
    ContinuesAt(a, i, b, j, c.length);
    BulkStable(a, i, b, j, c.length + 1);
  }

  lemma {:induction false} ArgumentsStable(a: Bytes, i: nat, b: Bytes, j: nat, left: nat, c: Command, first: bool)
    requires Continues(a, i, b, j) && i + c.length <= |a| && Arguments(a, i, left, c, first).Some?
    ensures j + c.length <= |b| && Arguments(b, j, left, c, first) == Arguments(a, i, left, c, first)
    decreases left
  {
    if left > 0 {
      ArgumentStable(a, i, b, j, c);
      ArgumentsStable(a, i, b, j, left - 1, Extended(a, i, c, first).value, false);
    }
  }

  lemma RespCommandStable(a: Bytes, i: nat, b: Bytes, j: nat)
    requires Continues(a, i, b, j) && RespCommand(a, i).Some?
    ensures RespCommand(b, j) == RespCommand(a, i)
  {
    DecimalLineStable(a, i, b, j, 1);
    var count := DecimalLine(a, i + 1).value;
    ArgumentsStable(a, i, b, j, count.value, Command(1 + count.length, Some([]), false), true);
  }

  lemma LineFrameStable(a: Bytes, i: nat, b: Bytes, j: nat)
    requires Continues(a, i, b, j) && i <= |a| && LineFrame(a, i).Some?
    ensures j <= |b| && LineFrame(b, j) == LineFrame(a, i)
  {
    var e := FindCrlf(a, i, |a|).value;
    FindCrlfStable(a, i, b, j, 0, |a|, |b|);
    ContinuesSlice(a, i, b, j, 0, e - i);
  }

  /** A complete frame depends only on the bytes from its own start on, and no later byte changes it. */
  lemma RedisStable(a: Bytes, i: nat, b: Bytes, j: nat)
    requires Continues(a, i, b, j) && RedisFrame(a, i).Some?
    ensures RedisFrame(b, j) == RedisFrame(a, i)
  {
    ContinuesAt(a, i, b, j, 0);
    if a[i] == STAR {
      RespCommandStable(a, i, b, j);
    } else if a[i] == DOLLAR || a[i] == BANG || a[i] == EQUALS {
      BulkStable(a, i, b, j, 1);
    } else {
      LineFrameStable(a, i, b, j);
    }
  }
}
