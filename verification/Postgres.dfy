/** The PostgreSQL frontend recogniser: startup packets and tagged messages. */
module Postgres {
  import opened Common
  import opened Wire

  const MAX_PG_FRAME_BYTES := 16 * 1024 * 1024

  const PASSWORD_TAG: Byte := 112

  predicate IsFrontendTag(b: Byte) { b in {66, 67, 68, 69, 70, 72, 80, 83, 88, 81, 100, 99, 102, 112} }

  function Number(raw: Bytes): nat {
    if raw == [] then 0 else 256 * Number(raw[..|raw| - 1]) + raw[|raw| - 1] as int
  }

  /** A complete message: its length on the wire, its tag (zero at startup), and its payload. */
  datatype Message = Message(length: nat, tag: nat, payload: Bytes)

  predicate IsStartup(length: nat, code: nat) { code / 65536 == 3 && length >= 9 }

  predicate IsNegotiation(length: nat, code: nat) {
    ((code == 80877103 || code == 80877104) && length == 8) || (code == 80877102 && length == 16)
  }

  /** Startup packets and negotiation requests have no tag. */
  function Untagged(d: Bytes, at: nat): (r: Option<Message>)
    requires at < |d|
    ensures r.Some? ==> 0 < r.value.length && at + r.value.length <= |d|
  {
    if |d| - at < 8 then None
    else
      var length, code := Number(d[at..at + 4]), Number(d[at + 4..at + 8]);
      if !(IsStartup(length, code) || IsNegotiation(length, code)) || length > MAX_PG_FRAME_BYTES || length > |d| - at
        then None
      else if IsStartup(length, code) && d[at + length - 1] != 0 then None
      else Some(Message(length, 0, []))
  }

  function Tagged(d: Bytes, at: nat): (r: Option<Message>)
    requires at + 5 <= |d|
    ensures r.Some? ==> 0 < r.value.length && at + r.value.length <= |d|
  {
    var length := Number(d[at + 1..at + 5]);
    if !IsFrontendTag(d[at]) || length < 4 || length > MAX_PG_FRAME_BYTES || at + 1 + length > |d| then None
    else
      Some(Message(1 + length, d[at],
                   if d[at] == PASSWORD_TAG && length <= MAX_AUTH_MESSAGE_BYTES then d[at + 5..at + 1 + length]
                     else []))
  }

  function ReadMessage(d: Bytes, at: nat): (r: Option<Message>)
    ensures r.Some? ==> 0 < r.value.length && at + r.value.length <= |d|
  {
    if at + 5 > |d| then None else if d[at] == 0 then Untagged(d, at) else Tagged(d, at)
  }

  /** The form of an MD5 response. */
  predicate IsMd5(value: Bytes) {
    |value| == 35 && value[..3] == [109, 100, 53] && forall i :: 3 <= i < 35 ==> IsHex(value[i])
  }

  /** What a message gives rise to; `auth` is the method the server asked for, when known. */
  function PasswordMaterial(m: Message, auth: Option<nat>): Option<Material> {
    if m.tag != PASSWORD_TAG || (auth.Some? && auth.value != 3) then None
    else if m.length - 1 > MAX_FIELD_BYTES + 5 then Some(Coverage("postgres_password_field_limit"))
    else if m.payload == [] || m.payload[|m.payload| - 1] != 0 || 0 in m.payload[..|m.payload| - 1] then
      if auth.Some? then Some(Coverage("postgres_cleartext_password_malformed")) else None
    else if auth.None? && IsMd5(m.payload[..|m.payload| - 1]) then None
    else Some(PostgresPassword(auth.Some?, m.payload[..|m.payload| - 1]))
  }

  function PostgresFrame(d: Bytes, at: nat, auth: Option<nat>): (r: Option<Frame>)
    ensures r.Some? ==> 0 < r.value.length && at + r.value.length <= |d|
  {
    var m := ReadMessage(d, at);
    if m.None? then None else Some(Frame(m.value.length, PasswordMaterial(m.value, auth)))
  }

  // ---------------------------------------------------------------- stability

  lemma UntaggedStable(a: Bytes, i: nat, b: Bytes, j: nat)
    requires Continues(a, i, b, j) && i < |a| && Untagged(a, i).Some?
    ensures j < |b| && Untagged(b, j) == Untagged(a, i)
  {
    ContinuesSlice(a, i, b, j, 0, 4);
    ContinuesSlice(a, i, b, j, 4, 8);
    ContinuesAt(a, i, b, j, Untagged(a, i).value.length - 1);
  }

  lemma TaggedStable(a: Bytes, i: nat, b: Bytes, j: nat)
    requires Continues(a, i, b, j) && i + 5 <= |a| && Tagged(a, i).Some?
    ensures j + 5 <= |b| && Tagged(b, j) == Tagged(a, i)
  {
    ContinuesAt(a, i, b, j, 0);
    ContinuesSlice(a, i, b, j, 1, 5);
    ContinuesSlice(a, i, b, j, 5, Tagged(a, i).value.length);
  }

  /** A complete frontend message depends only on the bytes from its own start on. */
  lemma PostgresStable(a: Bytes, i: nat, b: Bytes, j: nat, auth: Option<nat>)
    requires Continues(a, i, b, j) && PostgresFrame(a, i, auth).Some?
    ensures PostgresFrame(b, j, auth) == PostgresFrame(a, i, auth)
  {
    ContinuesAt(a, i, b, j, 0);
    if a[i] == 0 {
      UntaggedStable(a, i, b, j);
    } else {
      TaggedStable(a, i, b, j);
    }
  }
}
