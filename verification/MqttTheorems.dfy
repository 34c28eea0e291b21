/** The CONNECT parser inverts the printer; prefixes wait; later bytes change nothing; spans cut exactly. */
module MqttTheorems {
  import opened Common
  import opened Mqtt
  import opened MqttPrinter
  import opened Positions

  // ---------------------------------------------------------------- the whole frame

  lemma FixedReads(d: Bytes, pos: nat, p: Packet)
    requires At(d, pos, PrintFixed(p)) && |p.keepalive| == 2 && p.version < 256
    ensures |PrintFixed(p)| == 10 && pos + 10 <= |d| && d[pos..pos + 6] == HEADER && d[pos + 6] as nat == p.version
            && d[pos + 7] == p.flags
  {
    AtIndex(d, pos, PrintFixed(p), 6);
    AtIndex(d, pos, PrintFixed(p), 7);
    AppendAssoc(HEADER, [p.version % 256, p.flags], p.keepalive);
    AtSplit(d, pos, HEADER, [p.version % 256, p.flags] + p.keepalive);
    AtMeans(d, pos, HEADER);
  }

  /** The authentication fields of a packet whose body begins at `pos`. */
  function AuthAt(p: Packet, pos: nat): Auth {
    if p.version == 5 then AuthOf(p.properties, false, SectionStart(p.properties, pos + |PrintFixed(p)|), NO_AUTH)
      else NO_AUTH
  }

  function CredentialsAt(p: Packet, pos: nat): nat {
    pos + |PrintFixed(p)| + |PrintProperties(p)| + |PrintField(p.clientId)| + |PrintWillOption(p)|
  }

  function ConnectAt(p: Packet, pos: nat, end: nat): Connect {
    Connect(p.version, end, p.clientId, p.username, p.password, CredentialSpan(p, CredentialsAt(p, pos)),
            AuthAt(p, pos))
  }

  lemma AfterHeaderReads(text: Text, d: Bytes, pos: nat, end: nat, p: Packet, auth: Auth)
    requires PacketOk(text, p) && At(d, pos, PrintProperties(p) + PrintPayload(p))
             && end == pos + |PrintProperties(p)| + |PrintPayload(p)|
    requires auth == if p.version == 5 then AuthOf(p.properties, false, SectionStart(p.properties, pos), NO_AUTH)
             else NO_AUTH
    ensures AfterHeader(text, d, pos, end, p.version, p.flags)
            == ReadPayload(text, d, pos + |PrintProperties(p)|, end, p.version, p.flags, auth)
    ensures At(d, pos + |PrintProperties(p)|, PrintPayload(p))
  {
    AtSplit(d, pos, PrintProperties(p), PrintPayload(p));
    if p.version == 5 {
      SectionReads(text, d, pos, end, p.properties, false);
    }
  }

  lemma HeaderReads(text: Text, d: Bytes, pos: nat, end: nat, version: nat, flags: Byte)
    requires pos + 10 <= end <= |d| && d[pos..pos + 6] == HEADER && d[pos + 6] as nat == version && d[pos + 7] == flags
    requires (version == 4 || version == 5) && FlagsOk(version, flags)
    ensures ReadFrame(text, d, pos, end) == AfterHeader(text, d, pos + 10, end, version, flags)
  {
  }

  lemma FrameHead(text: Text, d: Bytes, pos: nat, end: nat, p: Packet, rest: Bytes)
    requires (p.version == 4 || p.version == 5) && FlagsOk(p.version, p.flags) && |p.keepalive| == 2
    requires At(d, pos, PrintFixed(p) + rest) && end == pos + |PrintFixed(p)| + |rest|
    ensures |PrintFixed(p)| == 10 && At(d, pos + 10, rest)
    ensures ReadFrame(text, d, pos, end) == AfterHeader(text, d, pos + 10, end, p.version, p.flags)
  {
    AtSplit(d, pos, PrintFixed(p), rest);
    FixedReads(d, pos, p);
    HeaderReads(text, d, pos, end, p.version, p.flags);
  }

  function TailConnect(p: Packet, pos: nat, end: nat, auth: Auth): Connect {
    Connect(p.version, end, p.clientId, p.username, p.password,
            CredentialSpan(p, pos + |PrintProperties(p)| + |PrintField(p.clientId)| + |PrintWillOption(p)|), auth)
  }

  lemma FrameTail(text: Text, d: Bytes, pos: nat, end: nat, p: Packet, auth: Auth)
    requires PacketOk(text, p) && At(d, pos, PrintProperties(p) + PrintPayload(p))
             && end == pos + |PrintProperties(p)| + |PrintPayload(p)|
    requires auth == if p.version == 5 then AuthOf(p.properties, false, SectionStart(p.properties, pos), NO_AUTH)
             else NO_AUTH
    ensures AfterHeader(text, d, pos, end, p.version, p.flags) == Complete(TailConnect(p, pos, end, auth))
  {
    AfterHeaderReads(text, d, pos, end, p, auth);
    PayloadReads(text, d, pos + |PrintProperties(p)|, end, p, auth);
  }

  lemma FrameReads(text: Text, d: Bytes, pos: nat, end: nat, p: Packet)
    requires PacketOk(text, p) && At(d, pos, PrintBody(p)) && end == pos + |PrintBody(p)|
    ensures ReadFrame(text, d, pos, end) == Complete(ConnectAt(p, pos, end))
  {
    FrameHead(text, d, pos, end, p, PrintProperties(p) + PrintPayload(p));
    FrameTail(text, d, pos + 10, end, p, AuthAt(p, pos));
    ConnectBehind(p, pos, end);
  }

  /** The fields of a body at `pos`, counted from behind its ten fixed bytes. */
  lemma ConnectBehind(p: Packet, pos: nat, end: nat)
    requires |PrintFixed(p)| == 10
    ensures ConnectAt(p, pos, end) == TailConnect(p, pos + 10, end, AuthAt(p, pos))
  {
  }

  lemma SmallBody(p: Packet)
    requires |Print(p)| <= MAX_CONNECT_BYTES
    ensures |PrintBody(p)| < Unit(5)
  {
    Units();
  }

  lemma HeadReads(d: Bytes, p: Packet)
    requires At(d, 0, Print(p)) && |Print(p)| <= MAX_CONNECT_BYTES
    ensures d != [] && d[0] == 0x10 && ReadVarint(d, 1, |d|) == Number(|PrintBody(p)|, BodyStart(p))
    ensures At(d, BodyStart(p), PrintBody(p)) && BodyStart(p) + |PrintBody(p)| == |Print(p)|
  {
    SmallBody(p);
    AtIndex(d, 0, Print(p), 0);
    AtSplit(d, 0, [0x10], PrintVarint(|PrintBody(p)|) + PrintBody(p));
    SectionHead(d, 1, |d|, PrintBody(p));
  }

  /**
   * Parsing a printed CONNECT, followed by anything, gives back exactly its fields, its authentication
   * fields and where they stand.
   */
  lemma RoundTrip(text: Text, p: Packet, rest: Bytes)
    requires PacketOk(text, p) && |Print(p)| <= MAX_CONNECT_BYTES
    ensures Parse(text, Print(p) + rest) == Complete(ConnectAt(p, BodyStart(p), |Print(p)|))
  {
    var d := Print(p) + rest;
    AtMeans(d, 0, Print(p));
    HeadReads(d, p);
    FrameReads(text, d, BodyStart(p), |Print(p)|, p);
  }

  // ---------------------------------------------------------------- prefixes

  /** A cut inside the length leaves it incomplete. */
  lemma {:induction false} VarintCut(d: Bytes, pos: nat, width: nat, value: nat, n: nat)
    requires 1 <= width <= 4 && pos <= |d| && n < Unit(6 - width) && d[pos..] < PrintVarint(n)
    ensures VarintLoop(d, pos, |d|, width, value) == Short
    decreases 5 - width
  {
    if pos < |d| {
      assert d[pos..][0] == PrintVarint(n)[0];
      assert n >= 128;
      Quotient(n, width);
      assert d[pos + 1..] == d[pos..][1..];
      assert PrintVarint(n)[1..] == PrintVarint(n / 128);
      VarintCut(d, pos + 1, width + 1, value + Scaled(d[pos], Unit(width)), n / 128);
    }
  }

  lemma PrefixOfHead(p: Packet, d: Bytes)
    requires d < Print(p) && 1 <= |d| < BodyStart(p)
    ensures d[0] == 0x10 && d[1..] < PrintVarint(|PrintBody(p)|)
  {
    var head := PrintVarint(|PrintBody(p)|);
    var all := [0x10] + (head + PrintBody(p));
    assert d[0] == all[0];
    assert d[1..] == all[1..|d|];
    assert all[1..|d|] == head[..|d| - 1];
  }

  lemma PrefixBeyondHead(p: Packet, d: Bytes)
    requires d < Print(p) && BodyStart(p) <= |d| && |Print(p)| <= MAX_CONNECT_BYTES
    ensures d != [] && d[0] == 0x10 && ReadVarint(d, 1, |d|) == Number(|PrintBody(p)|, BodyStart(p))
  {
    SmallBody(p);
    var head := PrintVarint(|PrintBody(p)|);
    var all := [0x10] + (head + PrintBody(p));
    assert d[0] == all[0];
    assert d[1..1 + |head|] == all[1..1 + |head|] == head;
    AtMeans(d, 1, head);
    VarintRoundTrip(d, 1, |d|, |PrintBody(p)|);
  }

  /** Every strict prefix of a printed CONNECT, the empty one included, asks for more bytes. */
  lemma PrefixesWait(text: Text, p: Packet, d: Bytes)
    requires d < Print(p) && |Print(p)| <= MAX_CONNECT_BYTES
    ensures Parse(text, d) == Waiting
  {
    if d == [] {
    } else if |d| < BodyStart(p) {
      SmallBody(p);
      PrefixOfHead(p, d);
      VarintCut(d, 1, 1, 0, |PrintBody(p)|);
    } else {
      PrefixBeyondHead(p, d);
      assert BodyStart(p) + |PrintBody(p)| == |Print(p)|;
    }
  }

  // ---------------------------------------------------------------- spans

  /** The span cuts out the property with this identifier and value. */
  predicate Cuts(d: Bytes, span: Option<Span>, id: Byte, value: Option<Bytes>) {
    if span.None? then value.None?
    else
      value.Some? && At(d, span.value.start, [id] + PrintField(value.value))
      && span.value.end == span.value.start + 1 + |PrintField(value.value)|
  }

  predicate AuthCuts(d: Bytes, a: Auth) {
    Cuts(d, a.methodSpan, 0x15, a.authMethod) && Cuts(d, a.dataSpan, 0x16, a.authData)
  }

  lemma NotedCuts(d: Bytes, pos: nat, p: Property, a: Auth)
    requires At(d, pos, PrintProperty(p)) && AuthCuts(d, a)
    ensures AuthCuts(d, Noted(p, false, pos, a))
  {
    PrintIs(p, IdOf(p) + 3);
  }

  lemma {:induction false} AuthSpansCut(d: Bytes, pos: nat, ps: seq<Property>, a: Auth)
    requires At(d, pos, PrintAll(ps)) && AuthCuts(d, a)
    ensures AuthCuts(d, AuthOf(ps, false, pos, a))
    decreases |ps|
  {
    if ps != [] {
      AtSplit(d, pos, PrintProperty(ps[0]), PrintAll(ps[1..]));
      NotedCuts(d, pos, ps[0], a);
      AuthSpansCut(d, pos + |PrintProperty(ps[0])|, ps[1..], Noted(ps[0], false, pos, a));
    }
  }

  lemma SectionSpansCut(d: Bytes, pos: nat, p: Packet)
    requires At(d, pos, PrintBody(p))
    ensures AuthCuts(d, AuthAt(p, pos))
  {
    AtSplit(d, pos, PrintFixed(p), PrintProperties(p) + PrintPayload(p));
    AtSplit(d, pos + |PrintFixed(p)|, PrintProperties(p), PrintPayload(p));
    if p.version == 5 {
      var at := pos + |PrintFixed(p)|;
      AtSplit(d, at, PrintVarint(|PrintAll(p.properties)|), PrintAll(p.properties));
      AuthSpansCut(d, SectionStart(p.properties, at), p.properties, NO_AUTH);
    }
  }

  lemma CredentialsStand(d: Bytes, pos: nat, p: Packet)
    requires At(d, pos, PrintBody(p))
    ensures At(d, CredentialsAt(p, pos), PrintCredentials(p))
  {
    AtSplit(d, pos, PrintFixed(p), PrintProperties(p) + PrintPayload(p));
    var a := pos + |PrintFixed(p)|;
    AtSplit(d, a, PrintProperties(p), PrintPayload(p));
    var b := a + |PrintProperties(p)|;
    AtSplit(d, b, PrintField(p.clientId), PrintWillOption(p) + PrintCredentials(p));
    AtSplit(d, b + |PrintField(p.clientId)|, PrintWillOption(p), PrintCredentials(p));
  }

  /** The reported spans cut out exactly the encoded credential and authentication fields. */
  lemma SpansAreExact(p: Packet, rest: Bytes)
    requires |Print(p)| <= MAX_CONNECT_BYTES
    ensures var d, c := Print(p) + rest, ConnectAt(p, BodyStart(p), |Print(p)|);
            && AuthCuts(d, c.auth)
            && (c.credentials.Some? <==> p.username.Some? || p.password.Some?)
            && (c.credentials.Some? ==>
                  && c.credentials.value.start <= c.credentials.value.end <= |d|
                  && d[c.credentials.value.start..c.credentials.value.end]
                  == PrintOption(p.username) + PrintOption(p.password))
  {
    var d := Print(p) + rest;
    AtMeans(d, 0, Print(p));
    HeadReads(d, p);
    SectionSpansCut(d, BodyStart(p), p);
    CredentialsStand(d, BodyStart(p), p);
    AtMeans(d, CredentialsAt(p, BodyStart(p)), PrintCredentials(p));
  }
}
