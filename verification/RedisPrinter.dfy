/** Printing RESP commands, and reading them back. */
module RedisPrinter {
  import opened Common
  import opened Wire
  import opened Redis

  const CRLF: Bytes := [13, 10]

  function Digits(n: nat): Bytes { if n < 10 then [48 + n] else Digits(n / 10) + [48 + n % 10] }

  function Pow10(k: nat): nat { if k == 0 then 1 else 10 * Pow10(k - 1) }

  lemma {:induction false} DigitsShort(n: nat, k: nat)
    requires k >= 1 && n < Pow10(k)
    ensures 1 <= |Digits(n)| <= k
    decreases k
  {
    if n >= 10 {
      DigitsShort(n / 10, k - 1);
    }
  }

  lemma {:induction false} AllDigitsAppend(a: Bytes, b: Bytes)
    requires AllDigits(a) && AllDigits(b)
    ensures AllDigits(a + b)
    decreases |a|
  {
    if a == [] {
      AppendNil(b);
    } else {
      assert (a + b)[1..] == a[1..] + b;
      AllDigitsAppend(a[1..], b);
    }
  }

  lemma {:induction false} DigitsRead(n: nat)
    ensures Decimal(Digits(n)) == n && AllDigits(Digits(n))
    decreases n
  {
    if n < 10 {
      assert Digits(n)[..0] == [];
    } else {
      DigitsRead(n / 10);
      AppendSnoc(Digits(n / 10), 48 + n % 10);
      AllDigitsAppend(Digits(n / 10), [48 + n % 10]);
    }
  }

  lemma {:induction false} DigitsAt(a: Bytes, i: nat)
    requires AllDigits(a) && i < |a|
    ensures IsDigit(a[i])
    decreases i
  {
    if i > 0 {
      DigitsAt(a[1..], i - 1);
    }
  }

  /** A number line reads back as its number. */
  lemma DecimalLinePrint(n: nat)
    requires n < Pow10(10)
    ensures |Digits(n)| <= 10 && DecimalLine(Digits(n) + CRLF, 0) == Some(Line(n, |Digits(n)| + 2))
  {
    DigitsShort(n, 10);
    DigitsRead(n);
    var d := Digits(n) + CRLF;
    FindCrlfMeans(d, 0, Min(|d|, 13));
    forall k | 0 <= k < |Digits(n)| ensures !CrlfAt(d, k) {
      DigitsAt(Digits(n), k);
    }
    assert CrlfAt(d, |Digits(n)|);
    assert d[0..|Digits(n)|] == Digits(n);
  }

  function Body(v: Bytes): Bytes { Digits(|v|) + CRLF + v + CRLF }

  lemma BulkPrint(v: Bytes)
    requires |v| < Pow10(10)
    ensures Bulk(Body(v), 0) == Some(Field(v, |Body(v)|))
  {
    DecimalLinePrint(|v|);
    var line := Digits(|v|) + CRLF;
    AppendAssoc(line, v, CRLF);
    ContinuesAppend(line, v + CRLF, 0);
    DecimalLineStable(line, 0, Body(v), 0, 0);
    assert CrlfAt(Body(v), |line| + |v|);
    assert Body(v)[|line|..|line| + |v|] == v;
  }

  function Fields(args: seq<Bytes>): Bytes {
    if args == [] then [] else [DOLLAR] + Body(args[0]) + Fields(args[1..])
  }

  /** The wire form of a command. */
  function Print(args: seq<Bytes>): Bytes { [STAR] + (Digits(|args|) + CRLF) + Fields(args) }

  predicate Small(args: seq<Bytes>) { forall v :: v in args ==> |v| <= MAX_FIELD_BYTES }

  lemma ArgumentPrint(d: Bytes, c: Command, v: Bytes, rest: Bytes)
    requires c.length <= |d| && d[c.length..] == [DOLLAR] + Body(v) + rest && |v| < Pow10(10)
    ensures Argument(d, 0, c) == Some(Field(v, |Body(v)|))
  {
    var tail := d[c.length..];
    assert tail[0] == DOLLAR && d[c.length] == tail[0];
    BulkPrint(v);
    assert Continues(Body(v), 0, d, c.length + 1) by {
      assert Body(v)[0..] == Body(v);
      assert d[c.length + 1..c.length + 1 + |Body(v)|] == tail[1..1 + |Body(v)|];
      assert tail[1..1 + |Body(v)|] == Body(v);
    }
    BulkStable(Body(v), 0, d, c.length + 1, 0);
  }

  lemma BelowPow(n: nat)
    requires n <= MAX_FIELD_BYTES
    ensures n < Pow10(10)
  {
    assert Pow10(4) == 10000;
    assert Pow10(7) == 1000 * Pow10(4);
    assert Pow10(10) == 1000 * Pow10(7);
  }

  lemma DropFirst(d: Bytes, at: nat, head: Bytes, rest: Bytes)
    requires at <= |d| && d[at..] == head + rest
    ensures at + |head| <= |d| && d[at + |head|..] == rest
  {
    assert d[at + |head|..] == d[at..][|head|..];
  }

  lemma ExtendedPrint(d: Bytes, c: Command, v: Bytes, rest: Bytes, first: bool)
    requires c.length <= |d| <= MAX_AUTH_MESSAGE_BYTES && d[c.length..] == [DOLLAR] + Body(v) + rest
    requires |v| <= MAX_FIELD_BYTES && c.arguments.Some?
    ensures var r := Extended(d, 0, c, first);
            && r.Some? && r.value.arguments == Some(c.arguments.value + [v])
            && r.value.length <= |d| && d[r.value.length..] == rest
  {
    BelowPow(|v|);
    ArgumentPrint(d, c, v, rest);
    DropFirst(d, c.length, [DOLLAR] + Body(v), rest);
  }

  /** The rest of the data reads as these arguments, to the last byte. */
  predicate Reads(d: Bytes, c: Command, left: nat, first: bool, args: seq<Bytes>)
    requires c.length <= |d|
  {
    var r := Arguments(d, 0, left, c, first);
    r.Some? && r.value.length == |d| && r.value.arguments == Some(args)
  }

  lemma ReadsStep(d: Bytes, c: Command, left: nat, first: bool, next: Command)
    requires c.length <= |d| && left > 0 && Extended(d, 0, c, first) == Some(next) && next.length <= |d|
    ensures forall args :: Reads(d, next, left - 1, false, args) ==> Reads(d, c, left, first, args)
  {
    assert Arguments(d, 0, left, c, first) == Arguments(d, 0, left - 1, next, false);
  }

  lemma OneMore(d: Bytes, c: Command, args: seq<Bytes>, first: bool) returns (next: Command)
    requires c.length <= |d| <= MAX_AUTH_MESSAGE_BYTES && d[c.length..] == Fields(args) && Small(args)
             && c.arguments.Some? && args != []
    ensures next.arguments == Some(c.arguments.value + [args[0]]) && next.length <= |d|
            && d[next.length..] == Fields(args[1..])
    ensures forall xs :: Reads(d, next, |args| - 1, false, xs) ==> Reads(d, c, |args|, first, xs)
  {
    assert args[0] in args;
    ExtendedPrint(d, c, args[0], Fields(args[1..]), first);
    next := Extended(d, 0, c, first).value;
    ReadsStep(d, c, |args|, first, next);
  }

  lemma {:induction false} ArgumentsPrint(d: Bytes, c: Command, args: seq<Bytes>, first: bool)
    requires c.length <= |d| <= MAX_AUTH_MESSAGE_BYTES && d[c.length..] == Fields(args) && Small(args)
             && c.arguments.Some?
    ensures Reads(d, c, |args|, first, c.arguments.value + args)
    decreases |args|
  {
    if args == [] {
      AppendNil(c.arguments.value);
    } else {
      var next := OneMore(d, c, args, first);
      ArgumentsPrint(d, next, args[1..], false);
      ConsArguments(c.arguments.value, args);
    }
  }

  lemma ConsArguments(sofar: seq<Bytes>, args: seq<Bytes>)
    requires args != []
    ensures (sofar + [args[0]]) + args[1..] == sofar + args
  {
  }

  lemma CountPrint(n: nat, rest: Bytes)
    requires n <= MAX_FIELD_BYTES
    ensures var line := Digits(n) + CRLF; DecimalLine([STAR] + line + rest, 1) == Some(Line(n, |line|))
  {
    BelowPow(n);
    DecimalLinePrint(n);
    var line := Digits(n) + CRLF;
    var d := [STAR] + line + rest;
    assert Continues(line, 0, d, 1) by {
      assert line[0..] == line && d[1..1 + |line|] == line;
    }
    DecimalLineStable(line, 0, d, 1, 0);
  }

  /** Reading a printed command within the bounds gives back exactly its arguments. */
  lemma CommandRoundTrip(args: seq<Bytes>)
    requires 1 <= |args| <= MAX_RESP_ARGUMENTS && Small(args) && |Print(args)| <= MAX_AUTH_MESSAGE_BYTES
    ensures var r := RespCommand(Print(args), 0);
            r.Some? && r.value.length == |Print(args)| && r.value.arguments == Some(args)
  {
    var line := Digits(|args|) + CRLF;
    CountPrint(|args|, Fields(args));
    assert Print(args)[1 + |line|..] == Fields(args);
    ArgumentsPrint(Print(args), Command(1 + |line|, Some([]), false), args, true);
    assert Reads(Print(args), Command(1 + |line|, Some([]), false), |args|, true, [] + args);
    AppendNil(args);
  }

  /** A printed AUTH or HELLO, followed by anything, is one frame carrying exactly its credentials. */
  lemma CredentialsRoundTrip(args: seq<Bytes>, rest: Bytes)
    requires 1 <= |args| <= MAX_RESP_ARGUMENTS && Small(args) && |Print(args)| <= MAX_AUTH_MESSAGE_BYTES
    ensures RedisFrame(Print(args) + rest, 0) == Some(Frame(|Print(args)|, Judge(Some(args))))
  {
    CommandRoundTrip(args);
    var d := Print(args);
    assert d[0] == STAR;
    assert RedisFrame(d, 0) == Some(Frame(|d|, Judge(Some(args))));
    ContinuesAppend(d, rest, 0);
    RedisStable(d, 0, d + rest, 0);
  }
}
