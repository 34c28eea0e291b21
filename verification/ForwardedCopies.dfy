/** Describing a frame for suppression, and what equal descriptions prove about two frames. */
module ForwardedCopies {
  import opened Common
  import S = Suppression

  const IPV4 := 0x0800
  const IPV6 := 0x86DD

  predicate IsVlan(ethertype: int) { ethertype in {0x8100, 0x88A8, 0x9100, 0x9200} }

  function Word(b: Bytes, at: nat): nat
    requires at + 2 <= |b|
  {
    (b[at] as int) * 256 + b[at + 1] as int
  }

  /** Skips VLAN tags from the EtherType at `at`; gives the offset behind the last EtherType. */
  function Walk(b: Bytes, at: nat, tags: nat): (r: Option<nat>)
    requires at + 2 <= |b|
    ensures r.Some? ==> at + 2 <= r.value <= |b|
    decreases |b| - at
  {
    if !IsVlan(Word(b, at)) then Some(at + 2)
    else if tags >= 8 || |b| < at + 6 then None
    else Walk(b, at + 4, tags + 1)
  }

  /** The IP datagram without link padding. */
  function Datagram(v6: bool, network: Bytes): Option<Bytes> {
    if !v6 then
      if |network| < 20 || network[0] / 16 != 4 then None
      else if network[0] % 16 * 4 < 20 || Word(network, 2) < network[0] % 16 * 4 || Word(network, 2) > |network|
        then None
      else if network[8] < 1 then None
      else Some(network[..Word(network, 2)])
    else
      if |network| < 40 || network[0] / 16 != 6 then None
      else if Word(network, 4) == 0 || 40 + Word(network, 4) > |network| then None
      else if network[7] < 1 then None
      else Some(network[..40 + Word(network, 4)])
  }

  function HopIndex(v6: bool): nat { if v6 then 7 else 8 }

  /** The datagram with its hop count, and an IPv4 header checksum, erased. */
  function Erase(v6: bool, d: Bytes): (r: Bytes)
    requires |d| >= 20
    ensures |r| == |d|
    ensures forall i :: 0 <= i < |d| && Preserved(v6, i) ==> r[i] == d[i]
  {
    if v6 then d[7 := 0] else d[8 := 0][10 := 0][11 := 0]
  }

  predicate Preserved(v6: bool, i: int) { i != HopIndex(v6) && (v6 || (i != 10 && i != 11)) }

  datatype Role = Ingress | Egress

  function RoleOf(raw: Bytes, localMac: Bytes): Option<Role>
    requires |raw| >= 14
  {
    if raw[..6] == localMac && raw[6..12] != localMac then Some(Ingress)
    else if raw[6..12] == localMac && raw[..6] != localMac && raw[0] % 2 == 0 then Some(Egress)
    else None
  }

  datatype Description = Description(role: Role, key: Bytes, hop: nat, checksum: Option<nat>, network: nat, v6: bool,
                                     datagram: Bytes)

  /**
   * `eligible` stands for the tests on the capture record: Ethernet, not truncated, TCP or UDP parsed,
   * not a fragment. The last three fields of the result record where the datagram was found.
   */
  function Describe(raw: Bytes, localMac: Bytes, eligible: bool): Option<Description> {
    if !eligible || |localMac| != 6 || |raw| < 14 then None
    else
      var role := RoleOf(raw, localMac);
      var at := Walk(raw, 12, 0);
      if role.None? || at.None? then None
      else
        var type_ := Word(raw, at.value - 2);
        if type_ != IPV4 && type_ != IPV6 then None
        else DescribeNetwork(raw, role.value, at.value, type_ == IPV6)
  }

  function DescribeNetwork(raw: Bytes, role: Role, at: nat, v6: bool): Option<Description>
    requires 12 <= at <= |raw|
  {
    var d := Datagram(v6, raw[at..]);
    if d.None? then None
    else
      Some(Description(role, raw[12..at] + Erase(v6, d.value), d.value[HopIndex(v6)],
                       if v6 then None else Some(Word(d.value, 10)), at, v6, d.value))
  }

  function HeaderLength(d: Bytes): nat
    requires |d| > 0
  {
    d[0] % 16 * 4
  }

  /** The same walk as a loop. */
  method SkipVlanTags(raw: Bytes) returns (at: Option<nat>)
    requires |raw| >= 14
    ensures at == Walk(raw, 12, 0)
  {
    var offset, tags := 12, 0;
    while IsVlan(Word(raw, offset))
      invariant 12 <= offset && offset + 2 <= |raw| && Walk(raw, offset, tags) == Walk(raw, 12, 0)
      decreases |raw| - offset
    {
      if tags >= 8 || |raw| < offset + 6 {
        return None;
      }
      offset, tags := offset + 4, tags + 1;
    }
    at := Some(offset + 2);
  }

  // ---------------------------------------------------------------- equal keys

  /** The walk reads nothing behind its own end, so any continuation of what it read gives the same end. */
  lemma {:induction false} WalkPrefix(b: Bytes, c: Bytes, shift: nat, at: nat, tags: nat, end: nat)
    requires shift <= at && at + 2 <= |b| && Walk(b, at, tags) == Some(end)
    requires end <= |b| && end - shift <= |c|
             && (forall i :: at <= i < end ==> 0 <= i - shift < |c| && c[i - shift] == b[i])
    requires at - shift + 2 <= |c|
    ensures Walk(c, at - shift, tags) == Some(end - shift)
    decreases |b| - at
  {
    assert Word(c, at - shift) == Word(b, at) by {
      assert c[at - shift] == b[at] && c[at + 1 - shift] == b[at + 1];
    }
    if IsVlan(Word(b, at)) {
      WalkPrefix(b, c, shift, at + 4, tags + 1, end);
    }
  }

  lemma DescribeShape(raw: Bytes, localMac: Bytes, eligible: bool)
    requires Describe(raw, localMac, eligible).Some?
    ensures var r := Describe(raw, localMac, eligible).value;
            && |raw| >= 14 && Walk(raw, 12, 0) == Some(r.network) && 14 <= r.network <= |raw|
            && |r.datagram| >= 20 && (!r.v6 ==> 20 <= HeaderLength(r.datagram) <= |r.datagram|)
            && r.key == raw[12..r.network] + Erase(r.v6, r.datagram)
            && Word(raw, r.network - 2) == (if r.v6 then IPV6 else IPV4)
            && r.hop == r.datagram[HopIndex(r.v6)] && r.hop >= 1
            && r.checksum == (if r.v6 then None else Some(Word(r.datagram, 10)))
  {
  }

  /** The key says where its own link header ends. */
  lemma KeyHeader(raw: Bytes, localMac: Bytes, eligible: bool)
    requires Describe(raw, localMac, eligible).Some?
    ensures var r := Describe(raw, localMac, eligible).value; |r.key| >= 2 && Walk(r.key, 0, 0) == Some(r.network - 12)
  {
    var r := Describe(raw, localMac, eligible).value;
    DescribeShape(raw, localMac, eligible);
    forall i | 12 <= i < r.network ensures 0 <= i - 12 < |r.key| && r.key[i - 12] == raw[i] {
      assert raw[12..r.network][i - 12] == raw[i];
    }
    WalkPrefix(raw, r.key, 12, 12, 0, r.network);
  }

  lemma EraseEqual(v6: bool, a: Bytes, b: Bytes)
    requires |a| >= 20 && |b| >= 20 && Erase(v6, a) == Erase(v6, b)
    ensures |a| == |b| && forall i :: 0 <= i < |a| && Preserved(v6, i) ==> a[i] == b[i]
  {
    assert |a| == |Erase(v6, a)| && |b| == |Erase(v6, b)|;
    forall i | 0 <= i < |a| && Preserved(v6, i) ensures a[i] == b[i] {
      assert Erase(v6, a)[i] == a[i] && Erase(v6, b)[i] == b[i];
    }
  }

  lemma SplitEqual(h1: Bytes, t1: Bytes, h2: Bytes, t2: Bytes)
    requires h1 + t1 == h2 + t2 && |h1| == |h2|
    ensures h1 == h2 && t1 == t2
  {
    assert h1 == (h1 + t1)[..|h1|] && h2 == (h2 + t2)[..|h2|];
    assert t1 == (h1 + t1)[|h1|..] && t2 == (h2 + t2)[|h2|..];
  }

  /**
   * Equal keys prove the same VLAN encapsulation, the same IP version, and datagrams of the same
   * length that agree on every byte except the hop count and, for IPv4, the header checksum.
   */
  lemma EqualKeysSameDatagram(a: Bytes, b: Bytes, localMac: Bytes)
    requires Describe(a, localMac, true).Some? && Describe(b, localMac, true).Some?
    requires Describe(a, localMac, true).value.key == Describe(b, localMac, true).value.key
    ensures var x, y := Describe(a, localMac, true).value, Describe(b, localMac, true).value;
            && x.network == y.network && a[12..x.network] == b[12..y.network] && x.v6 == y.v6
            && |x.datagram| == |y.datagram|
            && forall i :: 0 <= i < |x.datagram| && Preserved(x.v6, i) ==> x.datagram[i] == y.datagram[i]
  {
    var x, y := Describe(a, localMac, true).value, Describe(b, localMac, true).value;
    DescribeShape(a, localMac, true);
    DescribeShape(b, localMac, true);
    KeyHeader(a, localMac, true);
    KeyHeader(b, localMac, true);
    SplitEqual(a[12..x.network], Erase(x.v6, x.datagram), b[12..y.network], Erase(y.v6, y.datagram));
    SameType(a, b, x.network);
    EraseEqual(x.v6, x.datagram, y.datagram);
  }

  lemma SameType(a: Bytes, b: Bytes, at: nat)
    requires 14 <= at <= |a| && at <= |b| && a[12..at] == b[12..at]
    ensures Word(a, at - 2) == Word(b, at - 2)
  {
    assert a[12..at][at - 14] == a[at - 2] && a[12..at][at - 13] == a[at - 1];
    assert b[12..at][at - 14] == b[at - 2] && b[12..at][at - 13] == b[at - 1];
  }

  // ---------------------------------------------------------------- the header checksum

  /** The sum of the 16-bit words of a header. */
  function WordSum(h: Bytes): nat { if |h| < 2 then 0 else Word(h, 0) + WordSum(h[2..]) }

  /** A header verifies when its one's-complement sum is zero, that is, a multiple of 65535. */
  predicate Verifies(h: Bytes) { WordSum(h) % 65535 == 0 }

  lemma {:induction false} WordSumSplit(h: Bytes, k: nat)
    requires k % 2 == 0 && k <= |h|
    ensures WordSum(h) == WordSum(h[..k]) + WordSum(h[k..])
    decreases k
  {
    if k == 0 {
      assert h[..0] == [] && h[0..] == h;
    } else {
      WordSumSplit(h[2..], k - 2);
      assert h[..k][2..] == h[2..][..k - 2] && h[2..][k - 2..] == h[k..];
      assert Word(h[..k], 0) == Word(h, 0);
    }
  }

  /** Only the words at 8 and 10 of an IPv4 header change. */
  lemma WordSumAt(h: Bytes)
    requires |h| >= 12
    ensures WordSum(h) == WordSum(h[..8]) + Word(h, 8) + Word(h, 10) + WordSum(h[12..])
  {
    WordSumSplit(h, 8);
    var t := h[8..];
    assert t[2..][2..] == h[12..];
    assert Word(t, 0) == Word(h, 8) && Word(t[2..], 0) == Word(h, 10);
  }

  /**
   * The checksum rule exactly: among 16-bit values the rule accepts those congruent to the ingress
   * checksum plus 0x0100 modulo 65535, except zero for 0xFEFF, where 0xFFFF is expected instead.
   */
  lemma ChecksumRule(ingress: nat, egress: nat)
    requires ingress < 0x1_0000 && egress < 0x1_0000
    ensures S.ChecksumMatches(Some(ingress), Some(egress), true)
            <==> egress % 65535 == (ingress + 0x100) % 65535 && !(ingress == 0xFEFF && egress == 0)
    ensures S.ChecksumMatches(Some(ingress), Some(egress), false) <==> egress == ingress
  {
  }

  /** The corner where the rule declines a checksum that would verify, and so keeps the packet. */
  lemma CornerFailsOpen()
    ensures !S.ChecksumMatches(Some(0xFEFF), Some(0), true) && 0 % 65535 == (0xFEFF + 0x100) % 65535
  {
  }

  lemma SumShift(rest: int, hop: int, hop': int, low: int, c: int, c': int)
    requires hop == hop' + 1 && c' % 65535 == (c + 0x100) % 65535
    requires (rest + (hop * 256 + low) + c) % 65535 == 0
    ensures (rest + (hop' * 256 + low) + c') % 65535 == 0
  {
    var k := (c' - (c + 0x100)) / 65535;
    assert c' == c + 0x100 + 65535 * k;
    var m := (rest + (hop * 256 + low) + c) / 65535;
    assert rest + (hop' * 256 + low) + c' == 65535 * (m + k);
  }

  /** Headers that agree outside the hop count and checksum, one hop apart, with a matching checksum. */
  lemma HeaderStillVerifies(h: Bytes, h': Bytes)
    requires |h| == |h'| >= 12 && (forall i :: 0 <= i < |h| && Preserved(false, i) ==> h[i] == h'[i])
    requires Verifies(h) && h[8] as int == h'[8] as int + 1
             && S.ChecksumMatches(Some(Word(h, 10)), Some(Word(h', 10)), true)
    ensures Verifies(h')
  {
    WordSumAt(h);
    WordSumAt(h');
    assert h[..8] == h'[..8] && h[12..] == h'[12..];
    ChecksumRule(Word(h, 10), Word(h', 10));
    SumShift(WordSum(h[..8]) + WordSum(h[12..]), h[8], h'[8], h[9], Word(h, 10), Word(h', 10));
  }

  lemma DatagramsVerify(d: Bytes, d': Bytes)
    requires |d| == |d'| >= 20 && (forall i :: 0 <= i < |d| && Preserved(false, i) ==> d[i] == d'[i])
    requires 20 <= HeaderLength(d) <= |d| && Verifies(d[..HeaderLength(d)])
    requires d[8] as int == d'[8] as int + 1 && S.ChecksumMatches(Some(Word(d, 10)), Some(Word(d', 10)), true)
    ensures HeaderLength(d') == HeaderLength(d) && Verifies(d'[..HeaderLength(d')])
  {
    var n := HeaderLength(d);
    assert Preserved(false, 0);
    assert Word(d[..n], 10) == Word(d, 10) && Word(d'[..n], 10) == Word(d', 10);
    HeaderStillVerifies(d[..n], d'[..n]);
  }

  /**
   * The forwarded-copy proof for IPv4: if an ingress header verifies, a copy that the suppressor
   * accepts as decremented verifies as well.
   */
  lemma AcceptedCopyVerifies(a: Bytes, b: Bytes, localMac: Bytes)
    requires Describe(a, localMac, true).Some? && Describe(b, localMac, true).Some?
    requires var x, y := Describe(a, localMac, true).value, Describe(b, localMac, true).value;
             x.key == y.key && !x.v6 && x.hop == y.hop + 1 && S.ChecksumMatches(x.checksum, y.checksum, true)
    ensures var x, y := Describe(a, localMac, true).value, Describe(b, localMac, true).value;
            && 20 <= HeaderLength(x.datagram) <= |x.datagram| == |y.datagram|
            && HeaderLength(y.datagram) == HeaderLength(x.datagram)
            && (Verifies(x.datagram[..HeaderLength(x.datagram)]) ==> Verifies(y.datagram[..HeaderLength(y.datagram)]))
  {
    var x, y := Describe(a, localMac, true).value, Describe(b, localMac, true).value;
    EqualKeysSameDatagram(a, b, localMac);
    DescribeShape(a, localMac, true);
    DescribeShape(b, localMac, true);
    assert Preserved(false, 0);
    if Verifies(x.datagram[..HeaderLength(x.datagram)]) {
      DatagramsVerify(x.datagram, y.datagram);
    }
  }
}
