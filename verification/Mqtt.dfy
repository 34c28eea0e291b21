/** The MQTT 3.1.1 / 5.0 CONNECT parser, bounded and strict. */
module Mqtt {
  import opened Common

  const MAX_CONNECT_BYTES := 128 * 1024

  /** Whether bytes are a legal MQTT string: UTF-8 without a null. Decoding itself is not modelled. */
  type Text = Bytes -> bool

  // ---------------------------------------------------------------- variable byte integers

  datatype Varint = Short | Bad | Number(value: nat, next: nat)

  /** 128 to the power `width - 1`. */
  function Unit(width: nat): nat { if width <= 1 then 1 else 128 * Unit(width - 1) }

  /** The seven value bits of an octet, at their place. */
  function Scaled(octet: Byte, unit: nat): nat { (octet as int) % 128 * unit }

  function VarintLoop(d: Bytes, pos: nat, end: nat, width: nat, value: nat): (r: Varint)
    requires end <= |d|
    ensures r.Number? ==> pos < r.next <= end
    decreases 5 - width
  {
    if width > 4 then Bad
    else if pos >= end then Short
    else
      var total := value + Scaled(d[pos], Unit(width));
      if d[pos] >= 128 then VarintLoop(d, pos + 1, end, width + 1, total)
      else if width > 1 && total < Unit(width) then Bad
      else Number(total, pos + 1)
  }

  function ReadVarint(d: Bytes, pos: nat, end: nat): (r: Varint)
    requires end <= |d|
    ensures r.Number? ==> pos < r.next <= end
  {
    VarintLoop(d, pos, end, 1, 0)
  }

  method ScanVarint(d: Bytes, pos: nat, end: nat) returns (r: Varint)
    requires end <= |d|
    ensures r == ReadVarint(d, pos, end)
  {
    var at: nat, value: nat, multiplier: nat, width: nat := pos, 0, 1, 1;
    while width <= 4
      invariant 1 <= width <= 5 && multiplier == Unit(width)
      invariant VarintLoop(d, at, end, width, value) == ReadVarint(d, pos, end)
    {
      if at >= end {
        return Short;
      }
      var octet := d[at];
      at, value := at + 1, value + Scaled(octet, multiplier);
      if octet < 128 {
        if width > 1 && value < multiplier {
          return Bad;
        }
        return Number(value, at);
      }
      multiplier, width := 128 * multiplier, width + 1;
    }
    r := Bad;
  }

  // ---------------------------------------------------------------- length-prefixed fields

  datatype Field = Field(value: Bytes, next: nat)

  function Word(d: Bytes, at: nat): nat
    requires at + 2 <= |d|
  {
    (d[at] as int) * 256 + d[at + 1] as int
  }

  function ReadField(text: Text, d: Bytes, pos: nat, end: nat, utf8: bool): (r: Option<Field>)
    requires end <= |d|
    ensures r.Some? ==> pos + 2 <= r.value.next <= end
  {
    FieldSealed(text, d, pos, end, utf8, |d| + 3)
  }

  /** The field itself, behind a recursion that the solver does not unfold by itself. */
  function FieldSealed(text: Text, d: Bytes, pos: nat, end: nat, utf8: bool, depth: nat): (r: Option<Field>)
    requires end <= |d|
    ensures r.Some? ==> pos + 2 <= r.value.next <= end
    decreases depth
  {
    if depth > 0 then FieldSealed(text, d, pos, end, utf8, depth - 1)
    else if pos + 2 > end || pos + 2 + Word(d, pos) > end then None
    else
      var value := d[pos + 2..pos + 2 + Word(d, pos)];
      if utf8 && !text(value) then None else Some(Field(value, pos + 2 + Word(d, pos)))
  }

  lemma {:induction false} FieldIs(text: Text, d: Bytes, pos: nat, end: nat, utf8: bool, depth: nat)
    requires end <= |d|
    ensures FieldSealed(text, d, pos, end, utf8, depth) == FieldSealed(text, d, pos, end, utf8, 0)
  {
    if depth > 0 {
      FieldIs(text, d, pos, end, utf8, depth - 1);
    }
  }

  // ---------------------------------------------------------------- properties

  datatype Kind = Flag | Short16 | Long32 | String | Binary | Pairs | Unknown

  function KindOf(id: Byte, will: bool): Kind {
    if will then
      if id == 0x18 || id == 0x02 then Long32
      else if id == 0x01 then Flag
      else if id == 0x03 || id == 0x08 then String
      else if id == 0x09 then Binary
      else if id == 0x26 then Pairs
      else Unknown
    else
      if id == 0x11 || id == 0x27 then Long32
      else if id == 0x21 || id == 0x22 then Short16
      else if id == 0x19 || id == 0x17 then Flag
      else if id == 0x26 then Pairs
      else if id == 0x15 then String
      else if id == 0x16 then Binary
      else Unknown
  }

  function Width(k: Kind): nat { if k.Flag? then 1 else if k.Short16? then 2 else 4 }

  function Value(raw: Bytes): nat { if raw == [] then 0 else 256 * Value(raw[..|raw| - 1]) + raw[|raw| - 1] as int }

  /** The numeric property is in range: flags are 0 or 1, two CONNECT limits are not zero. */
  predicate NumberOk(id: Byte, will: bool, raw: Bytes) {
    (KindOf(id, will).Flag? ==> Value(raw) <= 1) && (!will && (id == 0x21 || id == 0x27) ==> Value(raw) != 0)
  }

  datatype Span = Span(start: nat, end: nat)

  /** What a property section says about extended authentication. */
  datatype Auth = Auth(authMethod: Option<Bytes>, authData: Option<Bytes>, methodSpan: Option<Span>,
                       dataSpan: Option<Span>)

  const NO_AUTH := Auth(None, None, None, None)

  function NoteField(a: Auth, id: Byte, will: bool, value: Bytes, span: Span): Auth {
    if will then a
    else if id == 0x15 then a.(authMethod := Some(value), methodSpan := Some(span))
    else if id == 0x16 then a.(authData := Some(value), dataSpan := Some(span))
    else a
  }

  datatype Read = Read(next: nat, auth: Auth)

  function ReadNumeric(d: Bytes, pos: nat, end: nat, will: bool, width: nat, a: Auth): (r: Option<Read>)
    requires pos < end <= |d|
    ensures r.Some? ==> pos < r.value.next <= end
  {
    if pos + 1 + width > end || !NumberOk(d[pos], will, d[pos + 1..pos + 1 + width]) then None
    else Some(Read(pos + 1 + width, a))
  }

  function ReadPair(text: Text, d: Bytes, pos: nat, end: nat, a: Auth): (r: Option<Read>)
    requires pos < end <= |d|
    ensures r.Some? ==> pos < r.value.next <= end
  {
    var name := ReadField(text, d, pos + 1, end, true);
    if name.None? then None
    else
      var value := ReadField(text, d, name.value.next, end, true);
      if value.None? then None else Some(Read(value.value.next, a))
  }

  function ReadValued(text: Text, d: Bytes, pos: nat, end: nat, will: bool, utf8: bool, a: Auth): (r: Option<Read>)
    requires pos < end <= |d|
    ensures r.Some? ==> pos < r.value.next <= end
  {
    var f := ReadField(text, d, pos + 1, end, utf8);
    if f.None? || (will && d[pos] == 0x08 && f.value.value == []) then None
    else Some(Read(f.value.next, NoteField(a, d[pos], will, f.value.value, Span(pos, f.value.next))))
  }

  predicate IsNumeric(k: Kind) { k.Flag? || k.Short16? || k.Long32? }

  /** The property that begins at `pos`, up to and excluding `end`. */
  function ReadProperty(text: Text, d: Bytes, pos: nat, end: nat, will: bool, seen: set<Byte>,
                        a: Auth): (r: Option<Read>)
    requires pos < end <= |d|
    ensures r.Some? ==> pos < r.value.next <= end
  {
    PropertySealed(text, d, pos, end, will, seen, a, |d| + 3)
  }

  function PropertySealed(text: Text, d: Bytes, pos: nat, end: nat, will: bool, seen: set<Byte>, a: Auth,
                          depth: nat): (r: Option<Read>)
    requires pos < end <= |d|
    ensures r.Some? ==> pos < r.value.next <= end
    decreases depth
  {
    if depth > 0 then PropertySealed(text, d, pos, end, will, seen, a, depth - 1)
    else
      var kind := KindOf(d[pos], will);
      if kind.Unknown? || (d[pos] in seen && d[pos] != 0x26) then None
      else if IsNumeric(kind) then ReadNumeric(d, pos, end, will, Width(kind), a)
      else if kind.Pairs? then ReadPair(text, d, pos, end, a)
      else ReadValued(text, d, pos, end, will, kind.String?, a)
  }

  lemma {:induction false} PropertyIs(text: Text, d: Bytes, pos: nat, end: nat, will: bool, seen: set<Byte>, a: Auth,
                                      depth: nat)
    requires pos < end <= |d|
    ensures PropertySealed(text, d, pos, end, will, seen, a, depth)
            == PropertySealed(text, d, pos, end, will, seen, a, 0)
  {
    if depth > 0 {
      PropertyIs(text, d, pos, end, will, seen, a, depth - 1);
    }
  }

  function PropertyLoop(text: Text, d: Bytes, pos: nat, end: nat, will: bool, seen: set<Byte>, a: Auth): Option<Auth>
    requires pos <= end <= |d|
    decreases end - pos
  {
    if pos == end then if !will && 0x16 in seen && 0x15 !in seen then None else Some(a)
    else
      var r := ReadProperty(text, d, pos, end, will, seen, a);
      if r.None? then None else PropertyLoop(text, d, r.value.next, end, will, seen + {d[pos]}, r.value.auth)
  }

  function ReadProperties(text: Text, d: Bytes, pos: nat, frameEnd: nat, will: bool): (r: Option<Read>)
    requires pos <= frameEnd <= |d|
    ensures r.Some? ==> pos < r.value.next <= frameEnd
  {
    var size := ReadVarint(d, pos, frameEnd);
    if !size.Number? || size.next + size.value > frameEnd then None
    else
      var a := PropertyLoop(text, d, size.next, size.next + size.value, will, {}, NO_AUTH);
      if a.None? then None else Some(Read(size.next + size.value, a.value))
  }

  method ScanProperties(text: Text, d: Bytes, begin: nat, end: nat, will: bool) returns (r: Option<Auth>)
    requires begin <= end <= |d|
    ensures r == PropertyLoop(text, d, begin, end, will, {}, NO_AUTH)
  {
    var cursor, seen, a := begin, {}, NO_AUTH;
    while cursor < end
      invariant begin <= cursor <= end
      invariant PropertyLoop(text, d, cursor, end, will, seen, a)
                == PropertyLoop(text, d, begin, end, will, {}, NO_AUTH)
      decreases end - cursor
    {
      var one := ReadProperty(text, d, cursor, end, will, seen, a);
      if one.None? {
        return None;
      }
      seen, cursor, a := seen + {d[cursor]}, one.value.next, one.value.auth;
    }
    r := if !will && 0x16 in seen && 0x15 !in seen then None else Some(a);
  }

  // ---------------------------------------------------------------- CONNECT

  datatype Connect = Connect(
    version: nat, frameEnd: nat, clientId: Bytes, username: Option<Bytes>, password: Option<Bytes>,
    credentials: Option<Span>, auth: Auth)

  /** Waiting for more bytes, refused, over the bound, or complete. */
  datatype Outcome = Waiting | Malformed | TooLarge | Complete(connect: Connect)

  const HEADER: Bytes := [0, 4, 77, 81, 84, 84]

  predicate Bit(flags: nat, bit: nat)
    requires bit > 0
  {
    flags / bit % 2 == 1
  }

  predicate FlagsOk(version: nat, flags: nat) {
    && !Bit(flags, 1)
    && (if Bit(flags, 4) then flags / 8 % 4 != 3 else flags / 8 % 8 == 0)
    && (version == 4 && Bit(flags, 64) ==> Bit(flags, 128))
  }

  /** The Will: its properties (version 5), topic and payload. */
  function SkipWill(text: Text, d: Bytes, pos: nat, frameEnd: nat, version: nat): (r: Option<nat>)
    requires pos <= frameEnd <= |d|
    ensures r.Some? ==> pos <= r.value <= frameEnd
  {
    var begin := if version == 5 then
                   var p := ReadProperties(text, d, pos, frameEnd, true); if p.None? then None else Some(p.value.next)
                 else Some(pos);
    if begin.None? then None
    else
      var topic := ReadField(text, d, begin.value, frameEnd, true);
      if topic.None? || topic.value.value == [] then None
      else
        var payload := ReadField(text, d, topic.value.next, frameEnd, false);
        if payload.None? then None else Some(payload.value.next)
  }

  /** User name and password: they must end the frame. */
  function ReadCredentials(text: Text, d: Bytes, pos: nat, frameEnd: nat, flags: nat, c: Connect): Outcome
    requires pos <= frameEnd <= |d|
  {
    if Bit(flags, 128) then
      var user := ReadField(text, d, pos, frameEnd, true);
      if user.None? then Malformed
      else ReadPassword(text, d, pos, user.value.next, frameEnd, flags,
                        c.(username := Some(user.value.value), credentials := Some(Span(pos, user.value.next))))
    else ReadPassword(text, d, pos, pos, frameEnd, flags, c)
  }

  function ReadPassword(text: Text, d: Bytes, first: nat, pos: nat, frameEnd: nat, flags: nat, c: Connect): Outcome
    requires pos <= frameEnd <= |d|
  {
    if Bit(flags, 64) then
      var pass := ReadField(text, d, pos, frameEnd, false);
      if pass.None? || pass.value.next != frameEnd then Malformed
      else Complete(c.(password := Some(pass.value.value), credentials := Some(Span(first, frameEnd))))
    else if pos != frameEnd then Malformed
    else Complete(c)
  }

  /** The payload behind the client identifier. */
  function AfterClient(text: Text, d: Bytes, pos: nat, frameEnd: nat, version: nat, flags: nat, c: Connect): Outcome
    requires pos <= frameEnd <= |d|
  {
    var after := if Bit(flags, 4) then SkipWill(text, d, pos, frameEnd, version) else Some(pos);
    if after.None? then Malformed else ReadCredentials(text, d, after.value, frameEnd, flags, c)
  }

  /** The payload from the client identifier on. */
  function ReadPayload(text: Text, d: Bytes, pos: nat, frameEnd: nat, version: nat, flags: nat, auth: Auth): Outcome
    requires pos <= frameEnd <= |d|
  {
    var client := ReadField(text, d, pos, frameEnd, true);
    if client.None? then Malformed
    else AfterClient(text, d, client.value.next, frameEnd, version, flags,
                     Connect(version, frameEnd, client.value.value, None, None, None, auth))
  }

  /** The frame behind its variable header: properties exist in version 5 only. */
  function AfterHeader(text: Text, d: Bytes, pos: nat, frameEnd: nat, version: nat, flags: nat): Outcome
    requires pos <= frameEnd <= |d|
  {
    if version == 4 then ReadPayload(text, d, pos, frameEnd, version, flags, NO_AUTH)
    else
      var p := ReadProperties(text, d, pos, frameEnd, false);
      if p.None? then Malformed else ReadPayload(text, d, p.value.next, frameEnd, version, flags, p.value.auth)
  }

  /** The frame between its fixed header and its end. */
  function ReadFrame(text: Text, d: Bytes, pos: nat, frameEnd: nat): Outcome
    requires pos <= frameEnd <= |d|
  {
    if pos + 10 > frameEnd || d[pos..pos + 6] != HEADER then Malformed
    else
      var version, flags := d[pos + 6] as nat, d[pos + 7] as nat;
      if (version != 4 && version != 5) || !FlagsOk(version, flags) then Malformed
      else AfterHeader(text, d, pos + 10, frameEnd, version, flags)
  }

  /** Where the packet behind its fixed header stands, or why nothing can be read yet. */
  datatype Extent = Undecided(outcome: Outcome) | Extent(start: nat, end: nat)

  function ExtentOf(d: Bytes, remaining: Varint): (r: Extent)
    ensures r.Extent? ==> r.start <= r.end <= |d|
  {
    match remaining
    case Short => Undecided(Waiting)
    case Bad => Undecided(Malformed)
    case Number(n, pos) =>
      if pos + n > MAX_CONNECT_BYTES then Undecided(TooLarge)
      else if |d| < pos + n then Undecided(Waiting)
      else Extent(pos, pos + n)
  }

  function Parse(text: Text, d: Bytes): Outcome {
    if d == [] then Waiting
    else if d[0] != 0x10 then Malformed
    else
      var e := ExtentOf(d, ReadVarint(d, 1, |d|));
      if e.Undecided? then e.outcome else ReadFrame(text, d, e.start, e.end)
  }
}
