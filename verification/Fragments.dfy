/**
 * IP fragment reassembly as a state machine: range insertion and coalescing, conflict discard,
 * completion, and the shared budgets with whole-datagram eviction in least-recently-used order.
 */
module Fragments {
  import opened Common
  import opened Ranges

  datatype DatagramKey = DatagramKey(
    session: string, interface: string, vlans: seq<nat>, version: nat, src: string, dst: string, protocol: nat, id: nat)

  datatype Fragment = Fragment(
    fragmented: bool, key: DatagramKey, offset: int, more: bool, payload: Bytes, truncated: bool,
    packetId: nat, sourceIds: seq<nat>, ts: int)
  {
    function End(): int { offset + |payload| }
    function AsPiece(): Piece { Piece(offset, payload, Anonymous) }
    function Ids(): seq<nat> { if sourceIds != [] then sourceIds else [packetId] }
  }

  datatype Limits = Limits(
    maxDatagrams: nat, maxDatagramBytes: nat, maxBytes: nat, maxRangesPerDatagram: nat, maxRanges: nat, maxIds: nat,
    idle: nat)

  /** A datagram under reassembly; `seen` records the fragments merged so far, for the statements. */
  datatype Datagram = Datagram(
    key: DatagramKey, first: Option<Fragment>, ranges: seq<Piece>, finalEnd: Option<int>, lastSeen: int, activity: int,
    latestId: nat, truncated: bool, bytes: int, ids: seq<nat>, seen: seq<Fragment>)

  datatype Table = Table(
    states: seq<Datagram>, bytes: int, ranges: int, ids: int, expired: nat, evicted: nat, conflicts: nat,
    malformed: nat)

  datatype Output =
    | PassThrough
    | Nothing
    | Whole(payload: Bytes, base: Fragment, packetId: nat, ts: int, ids: seq<nat>)

  datatype Result = Result(t: Table, output: Output)

  const EMPTY_TABLE := Table([], 0, 0, 0, 0, 0, 0, 0)

  // ---------------------------------------------------------------- ranges

  /** Joins a range that starts where the previous one ends. */
  function Attach(merged: seq<Piece>, x: Piece): seq<Piece> {
    if merged != [] && merged[|merged| - 1].End() == x.start
    then merged[..|merged| - 1] + [merged[|merged| - 1].(data := merged[|merged| - 1].data + x.data)]
    else merged + [x]
  }

  function Coalesce(s: seq<Piece>): seq<Piece> {
    if s == [] then [] else Attach(Coalesce(s[..|s| - 1]), s[|s| - 1])
  }

  /** The bytes of a range between two positions inside it. */
  function Cut(x: Piece, lo: int, hi: int): (r: Bytes)
    requires x.start <= lo <= hi <= x.End()
    ensures |r| == hi - lo
  {
    x.data[lo - x.start..hi - x.start]
  }

  predicate Disagree(x: Piece, prior: Piece) {
    var lo, hi := Max(x.start, prior.start), Min(x.End(), prior.End());
    lo < hi && Cut(x, lo, hi) != Cut(prior, lo, hi)
  }

  predicate Conflicting(x: Piece, existing: seq<Piece>) {
    existing != [] && (Disagree(x, existing[0]) || Conflicting(x, existing[1..]))
  }

  /** Sorts and coalesces in place, as the source does after extending the list. */
  method MergeAdjacent(ranges: seq<Piece>) returns (merged: seq<Piece>)
    ensures merged == Coalesce(SortByStart(ranges))
  {
    var sorted := SortByStart(ranges);
    merged := [];
    for i := 0 to |sorted|
      invariant merged == Coalesce(sorted[..i])
    {
      assert sorted[..i + 1][..i] == sorted[..i];
      if merged != [] && merged[|merged| - 1].End() == sorted[i].start {
        var previous := merged[|merged| - 1];
        merged := merged[..|merged| - 1] + [previous.(data := previous.data + sorted[i].data)];
      } else {
        merged := merged + [sorted[i]];
      }
    }
    assert sorted[..|sorted|] == sorted;
  }

  method FindConflict(x: Piece, existing: seq<Piece>) returns (found: bool)
    ensures found == Conflicting(x, existing)
  {
    var i := 0;
    while i < |existing|
      invariant 0 <= i <= |existing|
      invariant Conflicting(x, existing[i..]) == Conflicting(x, existing)
    {
      assert existing[i..][1..] == existing[i + 1..];
      if Disagree(x, existing[i]) {
        return true;
      }
      i := i + 1;
    }
    return false;
  }

  // ---------------------------------------------------------------- one datagram

  function NewDatagram(p: Fragment, now: int): Datagram {
    Datagram(p.key, None, [], None, p.ts, now, p.packetId, false, 0, [], [])
  }

  function Refresh(s: Datagram, p: Fragment, now: int): Datagram {
    s.(lastSeen := Max(s.lastSeen, p.ts), activity := now,
       latestId := if p.packetId > s.latestId then p.packetId else s.latestId,
       truncated := s.truncated || p.truncated,
       first := if p.offset == 0 && s.first.None? then Some(p) else s.first)
  }

  /** Two final fragments that end differently, or bytes that differ on a shared position. */
  predicate Clashes(s: Datagram, p: Fragment) {
    (!p.more && s.finalEnd.Some? && s.finalEnd.value != p.End()) || Conflicting(p.AsPiece(), s.ranges)
  }

  function NewRanges(s: Datagram, p: Fragment): seq<Piece> {
    Coalesce(SortByStart(s.ranges + Uncovered(p.AsPiece(), s.ranges)))
  }

  function Absorb(s: Datagram, p: Fragment): Datagram {
    var additions := Uncovered(p.AsPiece(), s.ranges);
    s.(finalEnd := if p.more then s.finalEnd else Some(p.End()),
       ranges := NewRanges(s, p),
       bytes := s.bytes + Total(additions),
       ids := if additions == [] then s.ids else AppendNew(s.ids, p.Ids()),
       seen := s.seen + [p])
  }

  datatype Verdict = Incomplete | Overrun | Complete(payload: Bytes)

  /** Walks the ranges from offset zero to the final end. */
  function Assemble(ranges: seq<Piece>, cursor: int, final: int, payload: Bytes): Verdict
    decreases |ranges|
  {
    if ranges == [] then if cursor == final then Complete(payload) else Incomplete
    else if ranges[0].start != cursor then Incomplete
    else if ranges[0].End() > final then Overrun
    else if ranges[0].End() == final then Complete(payload + ranges[0].data)
    else Assemble(ranges[1..], ranges[0].End(), final, payload + ranges[0].data)
  }

  function Judge(s: Datagram): Verdict {
    if s.first.None? || s.finalEnd.None? || s.truncated then Incomplete
    else Assemble(s.ranges, 0, s.finalEnd.value, [])
  }

  /** The assembly loop with its early exits. */
  method AssembleRanges(ranges: seq<Piece>, final: int) returns (v: Verdict)
    ensures v == Assemble(ranges, 0, final, [])
  {
    var cursor, payload, i := 0, [], 0;
    while i < |ranges|
      invariant 0 <= i <= |ranges|
      invariant Assemble(ranges[i..], cursor, final, payload) == Assemble(ranges, 0, final, [])
    {
      assert ranges[i..][1..] == ranges[i + 1..];
      if ranges[i].start != cursor {
        return Incomplete;
      }
      if ranges[i].End() > final {
        return Overrun;
      }
      payload, cursor := payload + ranges[i].data, ranges[i].End();
      if cursor == final {
        return Complete(payload);
      }
      i := i + 1;
    }
    return if cursor == final then Complete(payload) else Incomplete;
  }

  // ---------------------------------------------------------------- the table

  function Find(states: seq<Datagram>, key: DatagramKey): (i: nat)
    ensures i <= |states|
    ensures i < |states| ==> states[i].key == key
    ensures forall j :: 0 <= j < i ==> states[j].key != key
  {
    if states == [] then 0 else if states[0].key == key then 0 else 1 + Find(states[1..], key)
  }

  function Without(states: seq<Datagram>, i: nat): seq<Datagram>
    requires i < |states|
  {
    states[..i] + states[i + 1..]
  }

  function Discard(t: Table, i: nat): (r: Table)
    requires i < |t.states|
    ensures |r.states| == |t.states| - 1
  {
    var s := t.states[i];
    t.(states := Without(t.states, i), bytes := t.bytes - s.bytes, ranges := t.ranges - |s.ranges|,
       ids := t.ids - |s.ids|)
  }

  predicate OverLimits(L: Limits, t: Table) {
    |t.states| > L.maxDatagrams || t.bytes > L.maxBytes || t.ranges > L.maxRanges || t.ids > L.maxIds
  }

  /** Drops the least recently used datagrams until every shared limit holds. */
  function EvictToLimits(L: Limits, t: Table): Table
    decreases |t.states|
  {
    if !OverLimits(L, t) || t.states == [] then t
    else EvictToLimits(L, EvictOne(t))
  }

  function EvictOne(t: Table): (r: Table)
    requires t.states != []
    ensures |r.states| == |t.states| - 1
  {
    Discard(t, 0).(evicted := t.evicted + 1)
  }

  predicate Malformed(L: Limits, p: Fragment) {
    p.offset < 0 || p.End() > L.maxDatagramBytes || (p.more && (p.payload == [] || |p.payload| % 8 != 0))
  }

  function DiscardKey(t: Table, key: DatagramKey): Table {
    var i := Find(t.states, key);
    if i < |t.states| then Discard(t, i) else t
  }

  /** Makes the fragment's datagram the most recent entry. */
  function Locate(t: Table, p: Fragment, now: int): (r: Table)
    ensures r.states != []
  {
    var i := Find(t.states, p.key);
    if i < |t.states| then t.(states := Without(t.states, i) + [t.states[i]])
    else t.(states := t.states + [NewDatagram(p, now)])
  }

  function Last(t: Table): Datagram
    requires t.states != []
  {
    t.states[|t.states| - 1]
  }

  /** Replaces the most recent datagram and moves the totals by the difference. */
  function Write(t: Table, s: Datagram): (r: Table)
    requires t.states != []
    ensures |r.states| == |t.states|
  {
    t.(states := t.states[|t.states| - 1 := s],
       bytes := t.bytes - Last(t).bytes + s.bytes,
       ranges := t.ranges - |Last(t).ranges| + |s.ranges|,
       ids := t.ids - |Last(t).ids| + |s.ids|)
  }

  /** The datagram is in the table and all limits hold: hand it over if it is complete. */
  function Settle(t: Table): Result
    requires t.states != []
  {
    var s := Last(t);
    match Judge(s)
    case Incomplete => Result(t, Nothing)
    case Overrun => Result(Discard(t, |t.states| - 1).(conflicts := t.conflicts + 1), Nothing)
    case Complete(payload) =>
      Result(Discard(t, |t.states| - 1),
             if s.first.Some? then Whole(payload, s.first.value, s.latestId, s.lastSeen, s.ids) else Nothing)
  }

  /** The fragment has been merged into the last datagram: apply the limits, then settle. */
  function Admit(L: Limits, t: Table): Result
    requires t.states != []
  {
    if |Last(t).ranges| > L.maxRangesPerDatagram then
      Result(Discard(t, |t.states| - 1).(evicted := t.evicted + 1), Nothing)
    else
      var r := EvictToLimits(L, t);
      if r.states == [] then Result(r, Nothing) else Settle(r)
  }

  function Merge(L: Limits, t: Table, p: Fragment, now: int): Result
    requires t.states != []
  {
    var s := Refresh(Last(t), p, now);
    if Clashes(s, p) then Result(Discard(t, |t.states| - 1).(conflicts := t.conflicts + 1), Nothing)
    else Admit(L, Write(t, Absorb(s, p)))
  }

  function Process(L: Limits, t: Table, p: Fragment, now: int): Result {
    if !p.fragmented || (p.offset == 0 && !p.more) then Result(t, PassThrough)
    else if Malformed(L, p) then Result(DiscardKey(t, p.key).(malformed := t.malformed + 1), Nothing)
    else Merge(L, Locate(t, p, now), p, now)
  }

  /** Expiry by activity stops at the first fresh datagram. */
  function ExpirePrefix(L: Limits, t: Table, now: int): Table
    decreases |t.states|
  {
    if t.states == [] || now - t.states[0].activity < L.idle then t
    else ExpirePrefix(L, Lapse(t), now)
  }

  function Lapse(t: Table): (r: Table)
    requires t.states != []
    ensures |r.states| == |t.states| - 1
  {
    LapseAt(t, 0)
  }

  function LapseAt(t: Table, i: nat): (r: Table)
    requires i < |t.states|
    ensures |r.states| == |t.states| - 1
  {
    Discard(t, i).(expired := t.expired + 1)
  }

  /** Expiry by capture time checks every datagram, since capture times need not be in order. */
  function ExpireAll(L: Limits, t: Table, i: nat, clock: int): Table
    requires i <= |t.states|
    decreases |t.states| - i
  {
    if i == |t.states| then t
    else if clock - t.states[i].lastSeen < L.idle then ExpireAll(L, t, i + 1, clock)
    else ExpireAll(L, LapseAt(t, i), i, clock)
  }
}
