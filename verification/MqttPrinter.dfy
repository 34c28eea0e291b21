/** Printing CONNECT packets, and reading them back. */
module MqttPrinter {
  import opened Common
  import opened Mqtt
  import opened Positions

  // ---------------------------------------------------------------- variable byte integers

  function PrintVarint(n: nat): Bytes { if n < 128 then [n] else [128 + n % 128] + PrintVarint(n / 128) }

  lemma Units()
    ensures Unit(1) == 1 && Unit(2) == 128 && Unit(3) == 16384 && Unit(4) == 2097152 && Unit(5) == 268435456
  {
    assert Unit(2) == 128 * Unit(1);
    assert Unit(3) == 128 * Unit(2);
    assert Unit(4) == 128 * Unit(3);
    assert Unit(5) == 128 * Unit(4);
  }

  lemma Carry(n: nat, unit: nat)
    ensures n % 128 * unit + n / 128 * (128 * unit) == n * unit
  {
    var q, r := n / 128, n % 128;
    assert n == 128 * q + r;
    assert (128 * q + r) * unit == q * (128 * unit) + r * unit;
  }

  lemma AtLeast(n: nat, unit: nat)
    requires n > 0
    ensures n * unit >= unit
  {
  }

  /** From its `width`-th octet on, a printed integer reads as itself, at its place. */
  lemma {:induction false} VarintReads(d: Bytes, pos: nat, end: nat, width: nat, value: nat, n: nat)
    requires 1 <= width <= 4 && At(d, pos, PrintVarint(n)) && pos + |PrintVarint(n)| <= end <= |d|
    requires n < Unit(6 - width) && (width > 1 ==> n > 0)
    ensures VarintLoop(d, pos, end, width, value) == Number(value + n * Unit(width), pos + |PrintVarint(n)|)
    decreases 5 - width
  {
    Units();
    AtIndex(d, pos, PrintVarint(n), 0);
    if n < 128 {
      if width > 1 {
        AtLeast(n, Unit(width));
      }
    } else {
      var q := n / 128;
      AtSplit(d, pos, [128 + n % 128], PrintVarint(q));
      Quotient(n, width);
      VarintReads(d, pos + 1, end, width + 1, value + Scaled(d[pos], Unit(width)), q);
      Carry(n, Unit(width));
      OctetValue(n);
    }
  }

  lemma OctetValue(n: nat)
    requires n >= 128
    ensures (128 + n % 128) % 128 == n % 128
  {
  }

  lemma Quotient(n: nat, width: nat)
    requires 1 <= width <= 4 && 128 <= n < Unit(6 - width)
    ensures width < 4 && n / 128 > 0 && n / 128 < Unit(6 - (width + 1))
  {
    Units();
  }

  /** Every integer below 2^28 reads back from its encoding. */
  lemma VarintRoundTrip(d: Bytes, pos: nat, end: nat, n: nat)
    requires n < Unit(5) && At(d, pos, PrintVarint(n)) && pos + |PrintVarint(n)| <= end <= |d|
    ensures ReadVarint(d, pos, end) == Number(n, pos + |PrintVarint(n)|)
  {
    VarintReads(d, pos, end, 1, 0, n);
  }

  // ---------------------------------------------------------------- only the minimal encoding is accepted

  lemma Digits(low: nat, q: nat)
    requires low < 128 && q > 0
    ensures PrintVarint(low + 128 * q) == [128 + low] + PrintVarint(q)
  {
    var n := low + 128 * q;
    assert n / 128 == q && n % 128 == low;
  }

  /** What the octets from the `width`-th on stand for, and that they are that number's own encoding. */
  lemma {:induction false} VarintMinimal(d: Bytes, pos: nat, end: nat, width: nat, value: nat) returns (n: nat)
    requires 1 <= width && end <= |d| && VarintLoop(d, pos, end, width, value).Number? && value < Unit(width)
    ensures var r := VarintLoop(d, pos, end, width, value);
            r.value == value + n * Unit(width) && At(d, pos, PrintVarint(n)) && r.next == pos + |PrintVarint(n)|
              && (width > 1 ==> n > 0)
    decreases 5 - width
  {
    var low := (d[pos] as int) % 128;
    if d[pos] < 128 {
      n := d[pos];
      if n == 0 {
        assert Scaled(d[pos], Unit(width)) == 0;
      }
      assert d[pos..pos + 1] == [d[pos]];
      AtMeans(d, pos, PrintVarint(n));
    } else {
      ScaledBound(d[pos], width, value);
      var q := VarintMinimal(d, pos + 1, end, width + 1, value + Scaled(d[pos], Unit(width)));
      n := low + 128 * q;
      Digits(low, q);
      AtMeans(d, pos + 1, PrintVarint(q));
      assert d[pos..pos + 1 + |PrintVarint(q)|] == [d[pos]] + d[pos + 1..pos + 1 + |PrintVarint(q)|];
      AtMeans(d, pos, PrintVarint(n));
      Regroup(low, q, Unit(width));
    }
  }

  lemma ScaledBound(octet: Byte, width: nat, value: nat)
    requires width >= 1 && value < Unit(width)
    ensures value + Scaled(octet, Unit(width)) < Unit(width + 1)
  {
    MulBound((octet as int) % 128, Unit(width));
  }

  lemma MulBound(low: nat, unit: nat)
    requires low <= 127
    ensures low * unit <= 127 * unit
  {
    assert (127 - low) * unit >= 0;
  }

  lemma Regroup(low: nat, q: nat, unit: nat)
    ensures low * unit + q * (128 * unit) == (low + 128 * q) * unit
  {
  }

  /** An accepted integer is the minimal encoding of its value: no two encodings read as one number. */
  lemma VarintIsMinimal(d: Bytes, pos: nat, end: nat)
    requires end <= |d| && ReadVarint(d, pos, end).Number?
    ensures var r := ReadVarint(d, pos, end); At(d, pos, PrintVarint(r.value)) && r.next == pos + |PrintVarint(r.value)|
  {
    var n := VarintMinimal(d, pos, end, 1, 0);
  }

  // ---------------------------------------------------------------- fields

  /** A two-byte length and the bytes; fields are shorter than 65536 bytes. */
  function PrintField(v: Bytes): Bytes { [|v| / 256 % 256, |v| % 256] + v }

  lemma FieldReads(text: Text, d: Bytes, pos: nat, end: nat, v: Bytes, utf8: bool)
    requires |v| < 65536 && At(d, pos, PrintField(v)) && pos + |PrintField(v)| <= end <= |d| && (utf8 ==> text(v))
    ensures ReadField(text, d, pos, end, utf8) == Some(Field(v, pos + |PrintField(v)|))
  {
    FieldIs(text, d, pos, end, utf8, |d| + 3);
    AtSplit(d, pos, [|v| / 256 % 256, |v| % 256], v);
    AtMeans(d, pos + 2, v);
    AtIndex(d, pos, PrintField(v), 0);
    AtIndex(d, pos, PrintField(v), 1);
  }

  // ---------------------------------------------------------------- properties

  /** One property of a section. */
  datatype Property = Numeric(id: Byte, raw: Bytes) | Valued(id: Byte, value: Bytes) | UserPair(name: Bytes,
                                                                                                content: Bytes)

  function IdOf(p: Property): Byte { if p.UserPair? then 0x26 else p.id }

  predicate NumericOk(id: Byte, raw: Bytes, will: bool) {
    IsNumeric(KindOf(id, will)) && |raw| == Width(KindOf(id, will)) && NumberOk(id, will, raw)
  }

  predicate ValuedOk(text: Text, id: Byte, value: Bytes, will: bool) {
    && |value| < 65536 && (KindOf(id, will).Binary? || (KindOf(id, will).String? && text(value)))
    && !(will && id == 0x08 && value == [])
  }

  predicate PairOk(text: Text, name: Bytes, value: Bytes) {
    |name| < 65536 && |value| < 65536 && text(name) && text(value)
  }

  predicate PropertyOk(text: Text, p: Property, will: bool) { OkSealed(text, p, will, IdOf(p) + 3) }

  predicate OkSealed(text: Text, p: Property, will: bool, depth: nat)
    decreases depth
  {
    if depth > 0 then OkSealed(text, p, will, depth - 1)
    else
      match p
      case Numeric(id, raw) => NumericOk(id, raw, will)
      case Valued(id, value) => ValuedOk(text, id, value, will)
      case UserPair(name, value) => PairOk(text, name, value)
  }

  lemma {:induction false} OkIs(text: Text, p: Property, will: bool, depth: nat)
    ensures OkSealed(text, p, will, depth) == OkSealed(text, p, will, 0)
  {
    if depth > 0 {
      OkIs(text, p, will, depth - 1);
    }
  }

  function PrintProperty(p: Property): (r: Bytes)
    ensures |r| > 0
  {
    PrintSealed(p, IdOf(p) + 3)
  }

  function PrintSealed(p: Property, depth: nat): (r: Bytes)
    ensures |r| > 0
    decreases depth
  {
    if depth > 0 then PrintSealed(p, depth - 1)
    else
      match p
      case Numeric(id, raw) => [id] + raw
      case Valued(id, value) => [id] + PrintField(value)
      case UserPair(name, value) => [0x26] + (PrintField(name) + PrintField(value))
  }

  lemma {:induction false} PrintIs(p: Property, depth: nat)
    ensures PrintSealed(p, depth) == PrintSealed(p, 0)
  {
    if depth > 0 {
      PrintIs(p, depth - 1);
    }
  }

  /** What a property adds to the authentication fields when it stands at `pos`. */
  function Noted(p: Property, will: bool, pos: nat, a: Auth): Auth {
    if p.Valued? then NoteField(a, p.id, will, p.value, Span(pos, pos + |PrintProperty(p)|)) else a
  }

  lemma NumericReads(d: Bytes, pos: nat, end: nat, will: bool, a: Auth, id: Byte, raw: Bytes)
    requires NumericOk(id, raw, will) && At(d, pos, [id] + raw) && pos + 1 + |raw| <= end <= |d|
    ensures d[pos] == id && ReadNumeric(d, pos, end, will, |raw|, a) == Some(Read(pos + 1 + |raw|, a))
  {
    AtIndex(d, pos, [id] + raw, 0);
    AtSplit(d, pos, [id], raw);
    AtMeans(d, pos + 1, raw);
  }

  lemma ValuedReads(text: Text, d: Bytes, pos: nat, end: nat, will: bool, a: Auth, id: Byte, value: Bytes)
    requires ValuedOk(text, id, value, will) && At(d, pos, [id] + PrintField(value))
             && pos + 1 + |PrintField(value)| <= end <= |d|
    ensures d[pos] == id
    ensures ReadValued(text, d, pos, end, will, KindOf(id, will).String?, a)
            == Some(Read(pos + 1 + |PrintField(value)|,
                         NoteField(a, id, will, value, Span(pos, pos + 1 + |PrintField(value)|))))
  {
    AtIndex(d, pos, [id] + PrintField(value), 0);
    AtSplit(d, pos, [id], PrintField(value));
    FieldReads(text, d, pos + 1, end, value, KindOf(id, will).String?);
  }

  lemma PairReads(text: Text, d: Bytes, pos: nat, end: nat, a: Auth, name: Bytes, value: Bytes)
    requires PairOk(text, name, value) && At(d, pos, [0x26] + (PrintField(name) + PrintField(value)))
    requires pos + 1 + |PrintField(name)| + |PrintField(value)| <= end <= |d|
    ensures d[pos] == 0x26
    ensures ReadPair(text, d, pos, end, a) == Some(Read(pos + 1 + |PrintField(name)| + |PrintField(value)|, a))
  {
    AtIndex(d, pos, [0x26] + (PrintField(name) + PrintField(value)), 0);
    AtSplit(d, pos, [0x26], PrintField(name) + PrintField(value));
    AtSplit(d, pos + 1, PrintField(name), PrintField(value));
    FieldReads(text, d, pos + 1, end, name, true);
    FieldReads(text, d, pos + 1 + |PrintField(name)|, end, value, true);
  }

  lemma PropertyReads(text: Text, d: Bytes, pos: nat, end: nat, will: bool, seen: set<Byte>, a: Auth, p: Property)
    requires PropertyOk(text, p, will) && At(d, pos, PrintProperty(p)) && pos + |PrintProperty(p)| <= end <= |d|
    requires IdOf(p) !in seen || IdOf(p) == 0x26
    ensures d[pos] == IdOf(p)
    ensures ReadProperty(text, d, pos, end, will, seen, a)
            == Some(Read(pos + |PrintProperty(p)|, Noted(p, will, pos, a)))
  {
    OkIs(text, p, will, IdOf(p) + 3);
    PrintIs(p, IdOf(p) + 3);
    PropertyIs(text, d, pos, end, will, seen, a, |d| + 3);
    match p
    case Numeric(id, raw) => NumericReads(d, pos, end, will, a, id, raw);
    case Valued(id, value) => ValuedReads(text, d, pos, end, will, a, id, value);
    case UserPair(name, value) => PairReads(text, d, pos, end, a, name, value);
  }

  predicate AllOk(text: Text, ps: seq<Property>, will: bool) {
    ps == [] || (PropertyOk(text, ps[0], will) && AllOk(text, ps[1..], will))
  }

  function PrintAll(ps: seq<Property>): Bytes {
    if ps == [] then [] else PrintProperty(ps[0]) + PrintAll(ps[1..])
  }

  /** Only user properties repeat, and authentication data comes with a method. */
  predicate SequenceOk(ps: seq<Property>, will: bool, seen: set<Byte>) {
    if ps == [] then will || 0x16 !in seen || 0x15 in seen
    else (IdOf(ps[0]) !in seen || IdOf(ps[0]) == 0x26) && SequenceOk(ps[1..], will, seen + {IdOf(ps[0])})
  }

  /** The authentication fields of a section whose properties begin at `pos`. */
  function AuthOf(ps: seq<Property>, will: bool, pos: nat, a: Auth): Auth {
    if ps == [] then a else AuthOf(ps[1..], will, pos + |PrintProperty(ps[0])|, Noted(ps[0], will, pos, a))
  }

  lemma LoopStep(text: Text, d: Bytes, pos: nat, end: nat, will: bool, seen: set<Byte>, a: Auth, r: Read)
    requires pos < end <= |d| && ReadProperty(text, d, pos, end, will, seen, a) == Some(r)
    ensures r.next <= end
            && PropertyLoop(text, d, pos, end, will, seen, a)
            == PropertyLoop(text, d, r.next, end, will, seen + {d[pos]}, r.auth)
  {
  }

  lemma PropertiesHead(text: Text, d: Bytes, pos: nat, end: nat, will: bool, seen: set<Byte>, a: Auth, p: Property,
                       rest: Bytes)
    requires PropertyOk(text, p, will) && At(d, pos, PrintProperty(p) + rest)
             && pos + |PrintProperty(p)| + |rest| == end
    requires IdOf(p) !in seen || IdOf(p) == 0x26
    ensures var next := pos + |PrintProperty(p)|;
            && pos < next <= end <= |d| && At(d, next, rest)
            && PropertyLoop(text, d, pos, end, will, seen, a)
            == PropertyLoop(text, d, next, end, will, seen + {IdOf(p)}, Noted(p, will, pos, a))
  {
    AtSplit(d, pos, PrintProperty(p), rest);
    PropertyReads(text, d, pos, end, will, seen, a, p);
    LoopStep(text, d, pos, end, will, seen, a, Read(pos + |PrintProperty(p)|, Noted(p, will, pos, a)));
  }

  lemma {:induction false} PropertiesRead(text: Text, d: Bytes, pos: nat, end: nat, will: bool, seen: set<Byte>,
                                          a: Auth, ps: seq<Property>)
    requires AllOk(text, ps, will) && At(d, pos, PrintAll(ps)) && pos + |PrintAll(ps)| == end
             && SequenceOk(ps, will, seen)
    ensures end <= |d| && PropertyLoop(text, d, pos, end, will, seen, a) == Some(AuthOf(ps, will, pos, a))
    decreases |ps|
  {
    if ps != [] {
      PropertiesHead(text, d, pos, end, will, seen, a, ps[0], PrintAll(ps[1..]));
      PropertiesRead(text, d, pos + |PrintProperty(ps[0])|, end, will, seen + {IdOf(ps[0])},
                     Noted(ps[0], will, pos, a), ps[1..]);
    }
  }

  /** A well-formed section. */
  predicate SectionOk(text: Text, ps: seq<Property>, will: bool) {
    AllOk(text, ps, will) && SequenceOk(ps, will, {}) && |PrintAll(ps)| < Unit(5)
  }

  function PrintSection(ps: seq<Property>): Bytes { PrintVarint(|PrintAll(ps)|) + PrintAll(ps) }

  /** Where the properties of a section at `pos` begin. */
  function SectionStart(ps: seq<Property>, pos: nat): nat { pos + |PrintVarint(|PrintAll(ps)|)| }

  lemma BodyReads(text: Text, d: Bytes, pos: nat, end: nat, will: bool, size: nat, begin: nat, auth: Auth)
    requires end <= |d| && pos <= end && ReadVarint(d, pos, end) == Number(size, begin)
    requires begin + size <= end && PropertyLoop(text, d, begin, begin + size, will, {}, NO_AUTH) == Some(auth)
    ensures ReadProperties(text, d, pos, end, will) == Some(Read(begin + size, auth))
  {
  }

  lemma SectionHead(d: Bytes, pos: nat, end: nat, body: Bytes)
    requires |body| < Unit(5) && At(d, pos, PrintVarint(|body|) + body)
             && pos + |PrintVarint(|body|)| + |body| <= end <= |d|
    ensures ReadVarint(d, pos, end) == Number(|body|, pos + |PrintVarint(|body|)|)
            && At(d, pos + |PrintVarint(|body|)|, body)
  {
    AtSplit(d, pos, PrintVarint(|body|), body);
    VarintRoundTrip(d, pos, end, |body|);
  }

  lemma SectionReads(text: Text, d: Bytes, pos: nat, end: nat, ps: seq<Property>, will: bool)
    requires SectionOk(text, ps, will) && At(d, pos, PrintSection(ps)) && pos + |PrintSection(ps)| <= end <= |d|
    ensures ReadProperties(text, d, pos, end, will)
            == Some(Read(pos + |PrintSection(ps)|, AuthOf(ps, will, SectionStart(ps, pos), NO_AUTH)))
  {
    SectionHead(d, pos, end, PrintAll(ps));
    SectionBody(text, d, pos, end, ps, will, SectionStart(ps, pos), |PrintAll(ps)|);
  }

  lemma SectionBody(text: Text, d: Bytes, pos: nat, end: nat, ps: seq<Property>, will: bool, begin: nat, size: nat)
    requires AllOk(text, ps, will) && SequenceOk(ps, will, {}) && At(d, begin, PrintAll(ps)) && size == |PrintAll(ps)|
    requires pos <= end <= |d| && begin + size <= end && ReadVarint(d, pos, end) == Number(size, begin)
    ensures ReadProperties(text, d, pos, end, will) == Some(Read(begin + size, AuthOf(ps, will, begin, NO_AUTH)))
  {
    PropertiesRead(text, d, begin, begin + size, will, {}, NO_AUTH, ps);
    BodyReads(text, d, pos, end, will, size, begin, AuthOf(ps, will, begin, NO_AUTH));
  }

  // ---------------------------------------------------------------- CONNECT

  /** The Will of a CONNECT; properties exist in version 5 only. */
  datatype Will = Will(properties: seq<Property>, topic: Bytes, payload: Bytes)

  datatype Packet = Packet(
    version: nat, flags: Byte, keepalive: Bytes, properties: seq<Property>, clientId: Bytes,
    will: Option<Will>, username: Option<Bytes>, password: Option<Bytes>)

  predicate FieldOk(v: Bytes) { |v| < 65536 }

  predicate WillOk(text: Text, w: Will, version: nat) {
    && FieldOk(w.topic) && FieldOk(w.payload) && text(w.topic) && w.topic != []
    && (version == 5 ==> SectionOk(text, w.properties, true))
  }

  /** A well-formed CONNECT of MQTT 3.1.1 (version 4) or 5.0 whose flags announce exactly what it carries. */
  predicate PacketOk(text: Text, p: Packet) {
    && (p.version == 4 || p.version == 5) && FlagsOk(p.version, p.flags) && |p.keepalive| == 2
    && (p.version == 5 ==> SectionOk(text, p.properties, false))
    && FieldOk(p.clientId) && text(p.clientId)
    && (Bit(p.flags, 4) <==> p.will.Some?) && (p.will.Some? ==> WillOk(text, p.will.value, p.version))
    && (Bit(p.flags, 128) <==> p.username.Some?)
    && (p.username.Some? ==> FieldOk(p.username.value) && text(p.username.value))
    && (Bit(p.flags, 64) <==> p.password.Some?) && (p.password.Some? ==> FieldOk(p.password.value))
  }

  function PrintOption(v: Option<Bytes>): Bytes { if v.Some? then PrintField(v.value) else [] }

  function PrintCredentials(p: Packet): Bytes { PrintOption(p.username) + PrintOption(p.password) }

  function PrintWill(w: Will, version: nat): Bytes {
    (if version == 5 then PrintSection(w.properties) else []) + (PrintField(w.topic) + PrintField(w.payload))
  }

  function PrintWillOption(p: Packet): Bytes { if p.will.Some? then PrintWill(p.will.value, p.version) else [] }

  function PrintPayload(p: Packet): Bytes { PrintField(p.clientId) + (PrintWillOption(p) + PrintCredentials(p)) }

  function PrintProperties(p: Packet): Bytes { if p.version == 5 then PrintSection(p.properties) else [] }

  function PrintFixed(p: Packet): Bytes { HEADER + [p.version % 256, p.flags] + p.keepalive }

  function PrintBody(p: Packet): Bytes { PrintFixed(p) + (PrintProperties(p) + PrintPayload(p)) }

  function Print(p: Packet): Bytes { [0x10] + (PrintVarint(|PrintBody(p)|) + PrintBody(p)) }

  // ---------------------------------------------------------------- what reading should give

  function BodyStart(p: Packet): nat { 1 + |PrintVarint(|PrintBody(p)|)| }

  function CredentialSpan(p: Packet, start: nat): Option<Span> {
    if p.username.None? && p.password.None? then None else Some(Span(start, start + |PrintCredentials(p)|))
  }

  // ---------------------------------------------------------------- reading back, from the end forward

  lemma PasswordReads(text: Text, d: Bytes, first: nat, pos: nat, end: nat, flags: nat, c: Connect,
                      password: Option<Bytes>)
    requires pos <= end <= |d| && At(d, pos, PrintOption(password)) && pos + |PrintOption(password)| == end
    requires (Bit(flags, 64) <==> password.Some?) && (password.Some? ==> FieldOk(password.value))
    ensures ReadPassword(text, d, first, pos, end, flags, c)
            == Complete(if password.Some? then c.(password := password, credentials := Some(Span(first, end))) else c)
  {
    if password.Some? {
      FieldReads(text, d, pos, end, password.value, false);
    }
  }

  lemma CredentialsRead(text: Text, d: Bytes, pos: nat, end: nat, c: Connect, p: Packet)
    requires PacketOk(text, p) && end <= |d| && At(d, pos, PrintCredentials(p)) && pos + |PrintCredentials(p)| == end
    requires c.username.None? && c.password.None? && c.credentials.None?
    ensures ReadCredentials(text, d, pos, end, p.flags, c)
            == Complete(c.(username := p.username, password := p.password, credentials := CredentialSpan(p, pos)))
  {
    AtSplit(d, pos, PrintOption(p.username), PrintOption(p.password));
    if p.username.Some? {
      FieldReads(text, d, pos, end, p.username.value, true);
      var next := pos + |PrintField(p.username.value)|;
      PasswordReads(text, d, pos, next, end, p.flags,
                    c.(username := p.username, credentials := Some(Span(pos, next))), p.password);
    } else {
      PasswordReads(text, d, pos, pos, end, p.flags, c, p.password);
    }
  }

  lemma WillReads(text: Text, d: Bytes, pos: nat, end: nat, w: Will, version: nat)
    requires WillOk(text, w, version) && (version == 4 || version == 5) && At(d, pos, PrintWill(w, version))
    requires pos + |PrintWill(w, version)| <= end <= |d|
    ensures SkipWill(text, d, pos, end, version) == Some(pos + |PrintWill(w, version)|)
  {
    var section := if version == 5 then PrintSection(w.properties) else [];
    AtSplit(d, pos, section, PrintField(w.topic) + PrintField(w.payload));
    if version == 5 {
      SectionReads(text, d, pos, end, w.properties, true);
    }
    AtSplit(d, pos + |section|, PrintField(w.topic), PrintField(w.payload));
    FieldReads(text, d, pos + |section|, end, w.topic, true);
    FieldReads(text, d, pos + |section| + |PrintField(w.topic)|, end, w.payload, false);
  }

  lemma AfterClientReads(text: Text, d: Bytes, pos: nat, end: nat, p: Packet, c: Connect)
    requires PacketOk(text, p) && end <= |d| && At(d, pos, PrintWillOption(p) + PrintCredentials(p))
    requires pos + |PrintWillOption(p)| + |PrintCredentials(p)| == end
    requires c.username.None? && c.password.None? && c.credentials.None?
    ensures AfterClient(text, d, pos, end, p.version, p.flags, c)
            == Complete(c.(username := p.username, password := p.password,
                           credentials := CredentialSpan(p, pos + |PrintWillOption(p)|)))
  {
    AtSplit(d, pos, PrintWillOption(p), PrintCredentials(p));
    if p.will.Some? {
      WillReads(text, d, pos, end, p.will.value, p.version);
    }
    CredentialsRead(text, d, pos + |PrintWillOption(p)|, end, c, p);
  }

  lemma PayloadReads(text: Text, d: Bytes, pos: nat, end: nat, p: Packet, auth: Auth)
    requires PacketOk(text, p) && end <= |d| && At(d, pos, PrintPayload(p)) && pos + |PrintPayload(p)| == end
    ensures ReadPayload(text, d, pos, end, p.version, p.flags, auth)
            == Complete(Connect(p.version, end, p.clientId, p.username, p.password,
                                CredentialSpan(p, pos + |PrintField(p.clientId)| + |PrintWillOption(p)|), auth))
  {
    AtSplit(d, pos, PrintField(p.clientId), PrintWillOption(p) + PrintCredentials(p));
    FieldReads(text, d, pos, end, p.clientId, true);
    AfterClientReads(text, d, pos + |PrintField(p.clientId)|, end, p,
                     Connect(p.version, end, p.clientId, None, None, None, auth));
  }
}
