/** Budgets and the round trip of fragment reassembly, over every run. */
module FragmentTheorems {
  import opened Common
  import opened Ranges
  import opened Fragments
  import opened FragmentDatagrams

  // ---------------------------------------------------------------- totals

  datatype Budget = OfBytes | OfRanges | OfIds

  function Weight(s: Datagram, b: Budget): int {
    match b case OfBytes => s.bytes case OfRanges => |s.ranges| case OfIds => |s.ids|
  }

  function Sum(states: seq<Datagram>, b: Budget): int {
    if states == [] then 0 else Sum(states[..|states| - 1], b) + Weight(states[|states| - 1], b)
  }

  lemma {:induction false} SumAppend(x: seq<Datagram>, y: seq<Datagram>, b: Budget)
    ensures Sum(x + y, b) == Sum(x, b) + Sum(y, b)
    decreases |y|
  {
    if y == [] {
      AppendNil(x);
    } else {
      SumAppend(x, y[..|y| - 1], b);
      assert (x + y)[..|x + y| - 1] == x + y[..|y| - 1];
    }
  }

  lemma SumOne(s: Datagram, b: Budget)
    ensures Sum([s], b) == Weight(s, b)
  {
    assert [s][..0] == [];
  }

  lemma SumWithout(states: seq<Datagram>, i: nat, b: Budget)
    requires i < |states|
    ensures Sum(states, b) == Sum(Without(states, i), b) + Weight(states[i], b)
  {
    SplitAt(states, i);
    SumAppend(states[..i], [states[i]] + states[i + 1..], b);
    SumAppend([states[i]], states[i + 1..], b);
    SumAppend(states[..i], states[i + 1..], b);
    SumOne(states[i], b);
  }

  lemma SumLast(states: seq<Datagram>, s: Datagram, b: Budget)
    requires states != []
    ensures Sum(states[|states| - 1 := s], b) == Sum(states, b) - Weight(states[|states| - 1], b) + Weight(s, b)
  {
    var n := |states| - 1;
    assert states[n := s][..n] == states[..n];
  }

  // ---------------------------------------------------------------- the invariant

  ghost predicate KeysDistinct(states: seq<Datagram>) {
    forall i, j :: 0 <= i < j < |states| ==> states[i].key != states[j].key
  }

  /** `DatagramOk`, behind a recursion that keeps the solver from unfolding it where it is only passed on. */
  ghost predicate Sealed(depth: nat, s: Datagram) { if depth == 0 then DatagramOk(s) else Sealed(depth - 1, s) }

  ghost predicate StateOk(s: Datagram) { Sealed(|s.seen| + 4, s) }

  lemma {:induction false} Unseal(depth: nat, s: Datagram)
    ensures Sealed(depth, s) <==> DatagramOk(s)
  {
    if depth > 0 {
      Unseal(depth - 1, s);
    }
  }

  lemma StateMeans(s: Datagram)
    ensures StateOk(s) <==> DatagramOk(s)
  {
    Unseal(|s.seen| + 4, s);
  }

  ghost predicate StatesOk(states: seq<Datagram>) { forall i :: 0 <= i < |states| ==> StateOk(states[i]) }

  ghost predicate TotalsOk(t: Table) {
    t.bytes == Sum(t.states, OfBytes) && t.ranges == Sum(t.states, OfRanges) && t.ids == Sum(t.states, OfIds)
  }

  ghost predicate TableOk(t: Table) { KeysDistinct(t.states) && StatesOk(t.states) && TotalsOk(t) }

  // ---------------------------------------------------------------- table operations

  lemma WithoutOk(states: seq<Datagram>, i: nat)
    requires i < |states| && KeysDistinct(states) && StatesOk(states)
    ensures KeysDistinct(Without(states, i)) && StatesOk(Without(states, i))
    ensures forall j :: 0 <= j < |Without(states, i)| ==> Without(states, i)[j].key != states[i].key
  {
    var r := Without(states, i);
    assert forall j :: 0 <= j < i ==> r[j] == states[j];
    assert forall j :: i <= j < |r| ==> r[j] == states[j + 1];
  }

  lemma DiscardOk(t: Table, i: nat)
    requires TableOk(t) && i < |t.states|
    ensures TableOk(Discard(t, i))
  {
    WithoutOk(t.states, i);
    SumWithout(t.states, i, OfBytes);
    SumWithout(t.states, i, OfRanges);
    SumWithout(t.states, i, OfIds);
  }

  lemma JoinOk(states: seq<Datagram>, s: Datagram)
    requires KeysDistinct(states) && StatesOk(states) && StateOk(s)
    requires forall j :: 0 <= j < |states| ==> states[j].key != s.key
    ensures KeysDistinct(states + [s]) && StatesOk(states + [s])
  {
    var r := states + [s];
    forall j | 0 <= j < |r| ensures StateOk(r[j]) {
      if j < |states| {
        assert r[j] == states[j];
      }
    }
  }

  lemma LocateOk(t: Table, p: Fragment, now: int)
    requires TableOk(t)
    ensures TableOk(Locate(t, p, now)) && Last(Locate(t, p, now)).key == p.key
  {
    var i := Find(t.states, p.key);
    if i < |t.states| {
      WithoutOk(t.states, i);
      JoinOk(Without(t.states, i), t.states[i]);
      LocateSums(Without(t.states, i), t.states[i]);
      SumWithout(t.states, i, OfBytes);
      SumWithout(t.states, i, OfRanges);
      SumWithout(t.states, i, OfIds);
    } else {
      var s := NewDatagram(p, now);
      NewDatagramOk(p, now);
      StateMeans(s);
      JoinOk(t.states, s);
      LocateSums(t.states, s);
    }
  }

  lemma LocateSums(states: seq<Datagram>, s: Datagram)
    ensures forall b :: Sum(states + [s], b) == Sum(states, b) + Weight(s, b)
  {
    forall b ensures Sum(states + [s], b) == Sum(states, b) + Weight(s, b) {
      AppendSnoc(states, s);
    }
  }

  lemma WriteOk(t: Table, s: Datagram)
    requires TableOk(t) && t.states != [] && s.key == Last(t).key && StateOk(s)
    ensures TableOk(Write(t, s))
  {
    SumLast(t.states, s, OfBytes);
    SumLast(t.states, s, OfRanges);
    SumLast(t.states, s, OfIds);
    var r := t.states[|t.states| - 1 := s];
    forall j | 0 <= j < |r| ensures StateOk(r[j]) {
      if j < |t.states| - 1 {
        assert r[j] == t.states[j];
      }
    }
  }

  /** Eviction keeps the table sound and ends inside every limit. */
  lemma {:induction false} EvictOk(L: Limits, t: Table)
    requires TableOk(t)
    ensures TableOk(EvictToLimits(L, t)) && !OverLimits(L, EvictToLimits(L, t))
    decreases |t.states|
  {
    if OverLimits(L, t) {
      NotEmptyWhenOver(L, t);
      EvictOneOk(t);
      EvictOk(L, EvictOne(t));
    }
  }

  lemma EvictOneOk(t: Table)
    requires TableOk(t) && t.states != []
    ensures TableOk(EvictOne(t))
  {
    DiscardOk(t, 0);
  }

  /** Eviction takes entries from the old end only, and counts each of them. */
  lemma {:induction false} EvictSuffix(L: Limits, t: Table)
    ensures var r := EvictToLimits(L, t);
            && |r.states| <= |t.states| && r.states == t.states[|t.states| - |r.states|..]
            && r.evicted == t.evicted + |t.states| - |r.states|
    decreases |t.states|
  {
    if OverLimits(L, t) && t.states != [] {
      var d := EvictOne(t);
      assert d.states == t.states[1..];
      EvictSuffix(L, d);
      TailOfTail(t.states, |EvictToLimits(L, d).states|);
    }
  }

  lemma TailOfTail(s: seq<Datagram>, n: nat)
    requires n < |s|
    ensures s[1..][|s| - 1 - n..] == s[|s| - n..]
  {
  }

  /** The eviction loop never looks for an oldest entry in an empty table. */
  lemma NotEmptyWhenOver(L: Limits, t: Table)
    requires TableOk(t) && OverLimits(L, t)
    ensures t.states != []
  {
  }

  // ---------------------------------------------------------------- one fragment

  lemma SettleOk(t: Table)
    requires TableOk(t) && t.states != []
    ensures TableOk(Settle(t).t) && Settle(t).t.evicted == t.evicted
  {
    DiscardOk(t, |t.states| - 1);
  }

  lemma DiscardWithin(L: Limits, t: Table, i: nat)
    requires TableOk(t) && i < |t.states| && !OverLimits(L, t)
    ensures !OverLimits(L, Discard(t, i))
  {
    StateMeans(t.states[i]);
    assert StateOk(t.states[i]);
  }

  lemma SettleWithin(L: Limits, t: Table)
    requires TableOk(t) && t.states != [] && !OverLimits(L, t)
    ensures !OverLimits(L, Settle(t).t)
  {
    DiscardWithin(L, t, |t.states| - 1);
  }

  /** The table before the packet, with its flow's entry last, was inside the limits up to one new entry. */
  ghost predicate Roomy(L: Limits, t: Table) {
    |t.states| <= L.maxDatagrams + 1 && t.bytes <= L.maxBytes && t.ranges <= L.maxRanges && t.ids <= L.maxIds
  }

  lemma DropLastWithin(L: Limits, t: Table, before: Table)
    requires TableOk(t) && t.states != [] && Roomy(L, before)
    requires |t.states| == |before.states| && before.states != []
             && t.states[..|t.states| - 1] == before.states[..|t.states| - 1]
    requires TableOk(before)
    ensures !OverLimits(L, Discard(t, |t.states| - 1))
  {
    var n := |t.states| - 1;
    DiscardOk(t, n);
    DiscardOk(before, n);
    assert Without(t.states, n) == t.states[..n] && Without(before.states, n) == before.states[..n];
    StateMeans(before.states[n]);
    assert StateOk(before.states[n]);
  }

  lemma AdmitOk(L: Limits, t: Table, before: Table)
    requires TableOk(t) && t.states != [] && Roomy(L, before) && TableOk(before)
    requires |t.states| == |before.states| && before.states != []
             && t.states[..|t.states| - 1] == before.states[..|t.states| - 1]
    ensures TableOk(Admit(L, t).t) && !OverLimits(L, Admit(L, t).t)
  {
    if |Last(t).ranges| > L.maxRangesPerDatagram {
      DiscardOk(t, |t.states| - 1);
      DropLastWithin(L, t, before);
    } else {
      EvictOk(L, t);
      var r := EvictToLimits(L, t);
      if r.states != [] {
        SettleOk(r);
        SettleWithin(L, r);
      }
    }
  }

  lemma AbsorbedOk(t: Table, p: Fragment, now: int)
    requires TableOk(t) && t.states != [] && Last(t).key == p.key && 0 <= p.offset
    requires !Clashes(Refresh(Last(t), p, now), p)
    ensures TableOk(Write(t, Absorb(Refresh(Last(t), p, now), p)))
  {
    var s := Last(t);
    assert StateOk(s);
    StateMeans(s);
    AbsorbOk(s, p, now);
    StateMeans(Absorb(Refresh(s, p, now), p));
    WriteOk(t, Absorb(Refresh(s, p, now), p));
  }

  lemma MergeOk(L: Limits, t: Table, p: Fragment, now: int)
    requires TableOk(t) && t.states != [] && Last(t).key == p.key && 0 <= p.offset && Roomy(L, t)
    ensures TableOk(Merge(L, t, p, now).t) && !OverLimits(L, Merge(L, t, p, now).t)
  {
    var s := Refresh(Last(t), p, now);
    if Clashes(s, p) {
      DiscardOk(t, |t.states| - 1);
      DropLastWithin(L, t, t);
    } else {
      AbsorbedOk(t, p, now);
      AdmitOk(L, Write(t, Absorb(s, p)), t);
    }
  }

  lemma LocateRoomy(L: Limits, t: Table, p: Fragment, now: int)
    requires !OverLimits(L, t)
    ensures Roomy(L, Locate(t, p, now))
  {
  }

  /** One packet: the table stays sound and every limit holds afterwards. */
  lemma ProcessOk(L: Limits, t: Table, p: Fragment, now: int)
    requires TableOk(t) && !OverLimits(L, t)
    ensures TableOk(Process(L, t, p, now).t) && !OverLimits(L, Process(L, t, p, now).t)
  {
    if p.fragmented && !(p.offset == 0 && !p.more) {
      if Malformed(L, p) {
        var i := Find(t.states, p.key);
        if i < |t.states| {
          DiscardOk(t, i);
          DiscardWithin(L, t, i);
        }
      } else {
        LocateOk(t, p, now);
        LocateRoomy(L, t, p, now);
        MergeOk(L, Locate(t, p, now), p, now);
      }
    }
  }

  // ---------------------------------------------------------------- expiry

  lemma {:induction false} ExpireOk(L: Limits, t: Table, now: int)
    requires TableOk(t) && !OverLimits(L, t)
    ensures TableOk(ExpirePrefix(L, t, now)) && !OverLimits(L, ExpirePrefix(L, t, now))
    decreases |t.states|
  {
    if t.states != [] && now - t.states[0].activity >= L.idle {
      LapseOk(L, t, 0);
      ExpireOk(L, Lapse(t), now);
    }
  }

  lemma LapseOk(L: Limits, t: Table, i: nat)
    requires TableOk(t) && i < |t.states| && !OverLimits(L, t)
    ensures TableOk(LapseAt(t, i)) && !OverLimits(L, LapseAt(t, i))
  {
    DiscardOk(t, i);
    DiscardWithin(L, t, i);
  }

  lemma {:induction false} ExpireAllOk(L: Limits, t: Table, i: nat, clock: int)
    requires TableOk(t) && !OverLimits(L, t) && i <= |t.states|
    ensures TableOk(ExpireAll(L, t, i, clock)) && !OverLimits(L, ExpireAll(L, t, i, clock))
    decreases |t.states| - i
  {
    if i < |t.states| {
      if clock - t.states[i].lastSeen < L.idle {
        ExpireAllOk(L, t, i + 1, clock);
      } else {
        LapseOk(L, t, i);
        ExpireAllOk(L, LapseAt(t, i), i, clock);
      }
    }
  }

  // ---------------------------------------------------------------- runs

  datatype Call = Feed(packet: Fragment, now: int) | ExpireIdle(now: int) | ExpireCaptured(clock: int)

  function Apply(L: Limits, t: Table, call: Call): Table {
    match call
    case Feed(p, now) => Process(L, t, p, now).t
    case ExpireIdle(now) => ExpirePrefix(L, t, now)
    case ExpireCaptured(clock) => ExpireAll(L, t, 0, clock)
  }

  ghost predicate IsRun(L: Limits, calls: seq<Call>, tables: seq<Table>) {
    && |tables| == |calls| + 1 && tables[0] == EMPTY_TABLE
    && forall i: nat {:trigger Stepped(L, calls, tables, i)} :: i < |calls| ==> Stepped(L, calls, tables, i)
  }

  ghost predicate Stepped(L: Limits, calls: seq<Call>, tables: seq<Table>, i: nat)
    requires i < |calls| && |tables| == |calls| + 1
  {
    tables[i + 1] == Apply(L, tables[i], calls[i])
  }

  lemma {:induction false} RunOk(L: Limits, calls: seq<Call>, tables: seq<Table>, n: nat)
    requires IsRun(L, calls, tables) && n < |tables|
    ensures TableOk(tables[n]) && !OverLimits(L, tables[n])
  {
    if n > 0 {
      RunOk(L, calls, tables, n - 1);
      assert Stepped(L, calls, tables, n - 1);
      match calls[n - 1]
      case Feed(p, now) => ProcessOk(L, tables[n - 1], p, now);
      case ExpireIdle(now) => ExpireOk(L, tables[n - 1], now);
      case ExpireCaptured(clock) => ExpireAllOk(L, tables[n - 1], 0, clock);
    }
  }

  /**
   * Budgets in every reachable state: the three totals are sums over the table, all four shared
   * limits hold, and every datagram's ranges are ordered with a hole between any two.
   */
  lemma Budgets(L: Limits, calls: seq<Call>, tables: seq<Table>, n: nat)
    requires IsRun(L, calls, tables) && n < |tables|
    ensures var t := tables[n];
            && t.bytes == Sum(t.states, OfBytes) <= L.maxBytes
            && t.ranges == Sum(t.states, OfRanges) <= L.maxRanges
            && t.ids == Sum(t.states, OfIds) <= L.maxIds
            && |t.states| <= L.maxDatagrams && KeysDistinct(t.states)
            && forall i :: 0 <= i < |t.states| ==>
                 Separated(t.states[i].ranges) && t.states[i].bytes == Total(t.states[i].ranges)
                   && Distinct(t.states[i].ids)
  {
    var t := tables[n];
    RunOk(L, calls, tables, n);
    forall i | 0 <= i < |t.states|
      ensures Separated(t.states[i].ranges) && t.states[i].bytes == Total(t.states[i].ranges)
              && Distinct(t.states[i].ids)
    {
      assert StateOk(t.states[i]);
      StateMeans(t.states[i]);
    }
  }

  // ---------------------------------------------------------------- the round trip

  function Seek(states: seq<Datagram>, key: DatagramKey): Option<Datagram> {
    if states == [] then None
    else if states[|states| - 1].key == key then Some(states[|states| - 1])
    else Seek(states[..|states| - 1], key)
  }

  lemma SeekSnoc(states: seq<Datagram>, s: Datagram, key: DatagramKey)
    ensures Seek(states + [s], key) == if s.key == key then Some(s) else Seek(states, key)
  {
    AppendSnoc(states, s);
  }

  lemma {:induction false} SeekMissing(states: seq<Datagram>, key: DatagramKey)
    requires forall i :: 0 <= i < |states| ==> states[i].key != key
    ensures Seek(states, key) == None
    decreases |states|
  {
    if states != [] {
      SeekMissing(states[..|states| - 1], key);
    }
  }

  lemma {:induction false} SeekFinds(states: seq<Datagram>, i: nat)
    requires KeysDistinct(states) && i < |states|
    ensures Seek(states, states[i].key) == Some(states[i])
    decreases |states|
  {
    if i < |states| - 1 {
      SeekFinds(states[..|states| - 1], i);
    }
  }

  /** Removing another datagram does not disturb this one. */
  lemma {:induction false} SeekWithout(states: seq<Datagram>, i: nat, key: DatagramKey)
    requires i < |states| && states[i].key != key
    ensures Seek(Without(states, i), key) == Seek(states, key)
    decreases |states|
  {
    var n := |states| - 1;
    if i == n {
      assert Without(states, i) == states[..n];
    } else {
      assert Without(states, i) == Without(states[..n], i) + [states[n]];
      SeekSnoc(Without(states[..n], i), states[n], key);
      SeekWithout(states[..n], i, key);
    }
  }

  /** Locating makes the packet's datagram last and leaves the others as they were. */
  lemma LocateSeeks(t: Table, p: Fragment, now: int, key: DatagramKey)
    requires KeysDistinct(t.states)
    ensures key != p.key ==> Seek(Locate(t, p, now).states, key) == Seek(t.states, key)
    ensures Last(Locate(t, p, now))
            == if Seek(t.states, p.key).Some? then Seek(t.states, p.key).value else NewDatagram(p, now)
  {
    var i := Find(t.states, p.key);
    if i < |t.states| {
      SeekSnoc(Without(t.states, i), t.states[i], key);
      SeekFinds(t.states, i);
      if key != p.key {
        SeekWithout(t.states, i, key);
      }
    } else {
      SeekSnoc(t.states, NewDatagram(p, now), key);
      SeekMissing(t.states, p.key);
    }
  }

  lemma WriteSeeks(t: Table, s: Datagram, key: DatagramKey)
    requires t.states != [] && s.key == Last(t).key
    ensures Seek(Write(t, s).states, key) == if key == s.key then Some(s) else Seek(t.states, key)
  {
    var n := |t.states| - 1;
    assert Write(t, s).states[..n] == t.states[..n];
  }

  /** The fragments of `key` that are being held, all of them genuine slices of `whole`. */
  ghost predicate Collecting(t: Table, key: DatagramKey, whole: Bytes, held: seq<Fragment>) {
    match Seek(t.states, key)
    case None => held == []
    case Some(s) => s.seen == held && AllSlices(whole, held)
  }

  /** A packet that reassembly takes as a fragment of `whole`. */
  ghost predicate GenuineFragment(L: Limits, whole: Bytes, p: Fragment) {
    p.fragmented && !(p.offset == 0 && !p.more) && SliceOf(whole, p) && !Malformed(L, p)
  }

  /** Settling touches only the last datagram. */
  lemma SettleSeeks(t: Table, key: DatagramKey)
    requires t.states != [] && Last(t).key != key
    ensures Seek(Settle(t).t.states, key) == Seek(t.states, key)
  {
    SeekWithout(t.states, |t.states| - 1, key);
  }

  lemma AdmitSeeks(L: Limits, t: Table, key: DatagramKey)
    requires t.states != [] && Last(t).key != key && Admit(L, t).t.evicted == t.evicted
    ensures Seek(Admit(L, t).t.states, key) == Seek(t.states, key)
  {
    if |Last(t).ranges| <= L.maxRangesPerDatagram {
      EvictSuffix(L, t);
      var r := EvictToLimits(L, t);
      assert r.states == t.states;
      SettleSeeks(r, key);
    }
  }

  /** Traffic of other datagrams leaves this one alone as long as no cap evicts anything. */
  lemma OthersDoNotDisturb(L: Limits, t: Table, p: Fragment, now: int, key: DatagramKey)
    requires TableOk(t) && p.key != key && Process(L, t, p, now).t.evicted == t.evicted
    ensures Seek(Process(L, t, p, now).t.states, key) == Seek(t.states, key)
  {
    if p.fragmented && !(p.offset == 0 && !p.more) {
      if Malformed(L, p) {
        var i := Find(t.states, p.key);
        if i < |t.states| {
          SeekWithout(t.states, i, key);
        }
      } else {
        LocateSeeks(t, p, now, key);
        LocateOk(t, p, now);
        MergeSeeks(L, Locate(t, p, now), p, now, key);
      }
    }
  }

  lemma MergeSeeks(L: Limits, t: Table, p: Fragment, now: int, key: DatagramKey)
    requires t.states != [] && Last(t).key == p.key != key && Merge(L, t, p, now).t.evicted == t.evicted
    ensures Seek(Merge(L, t, p, now).t.states, key) == Seek(t.states, key)
  {
    var s := Refresh(Last(t), p, now);
    if Clashes(s, p) {
      SeekWithout(t.states, |t.states| - 1, key);
    } else {
      WriteSeeks(t, Absorb(s, p), key);
      AdmitSeeks(L, Write(t, Absorb(s, p)), key);
    }
  }

  /** One genuine fragment: the datagram is handed over exactly when it has become fully covered. */
  lemma GenuineStep(L: Limits, t: Table, p: Fragment, now: int, whole: Bytes, held: seq<Fragment>)
    requires TableOk(t) && whole != [] && GenuineFragment(L, whole, p) && Collecting(t, p.key, whole, held)
    requires Process(L, t, p, now).t.evicted == t.evicted
    ensures var r := Process(L, t, p, now);
            if FullySeen(held + [p], |whole|) then r.output.Whole? && r.output.payload == whole
            else r.output == Nothing && Collecting(r.t, p.key, whole, held + [p])
  {
    var t1 := Locate(t, p, now);
    LocateOk(t, p, now);
    LocateSeeks(t, p, now, p.key);
    var s := Last(t1);
    assert StateOk(s);
    StateMeans(s);
    SlicesNeverClash(s, p, now, whole);
    var a := Absorb(Refresh(s, p, now), p);
    AbsorbedOk(t1, p, now);
    HeldSlices(whole, held, p);
    WriteSeeks(t1, a, p.key);
    GenuineAdmit(L, Write(t1, a), whole, held + [p]);
  }

  lemma HeldSlices(whole: Bytes, held: seq<Fragment>, p: Fragment)
    requires AllSlices(whole, held) && SliceOf(whole, p)
    ensures AllSlices(whole, held + [p])
  {
  }

  lemma GenuineAdmit(L: Limits, t: Table, whole: Bytes, seen: seq<Fragment>)
    requires TableOk(t) && t.states != [] && whole != [] && Admit(L, t).t.evicted == t.evicted
    requires Last(t).seen == seen && AllSlices(whole, seen)
    ensures var r := Admit(L, t);
            if FullySeen(seen, |whole|) then r.output.Whole? && r.output.payload == whole
            else r.output == Nothing && Seek(r.t.states, Last(t).key) == Some(Last(t))
  {
    EvictSuffix(L, t);
    var r := EvictToLimits(L, t);
    assert r.states == t.states;
    assert StateOk(Last(t));
    StateMeans(Last(t));
    SlicesComplete(Last(t), whole);
  }

  function FragmentsOf(packets: seq<Fragment>, key: DatagramKey): seq<Fragment> {
    if packets == [] then []
    else
      var p := packets[|packets| - 1];
      FragmentsOf(packets[..|packets| - 1], key) + if p.key == key then [p] else []
  }

  /** A run of packets with their clock readings, in which no cap evicted anything. */
  ghost predicate QuietRun(L: Limits, packets: seq<Fragment>, clock: seq<int>, tables: seq<Table>) {
    && |clock| == |packets| && |tables| == |packets| + 1
    && (forall i :: 0 <= i < |packets| ==> tables[i + 1] == Process(L, tables[i], packets[i], clock[i]).t)
    && (forall i :: 0 <= i < |tables| ==> tables[i].evicted == tables[0].evicted)
  }

  lemma {:induction false} StillCollecting(L: Limits, packets: seq<Fragment>, clock: seq<int>, tables: seq<Table>,
                                           key: DatagramKey, whole: Bytes, n: nat)
    requires QuietRun(L, packets, clock, tables) && TableOk(tables[0]) && !OverLimits(L, tables[0])
    requires whole != [] && Seek(tables[0].states, key).None?
    requires forall i :: 0 <= i < |packets| && packets[i].key == key ==> GenuineFragment(L, whole, packets[i])
    requires n <= |packets| && !FullySeen(FragmentsOf(packets[..n], key), |whole|)
    ensures TableOk(tables[n]) && !OverLimits(L, tables[n])
            && Collecting(tables[n], key, whole, FragmentsOf(packets[..n], key))
  {
    if n > 0 {
      var p, now := packets[n - 1], clock[n - 1];
      var before := FragmentsOf(packets[..n - 1], key);
      assert packets[..n][..n - 1] == packets[..n - 1];
      SeenGrows(before, p, |whole|);
      AppendNil(before);
      StillCollecting(L, packets, clock, tables, key, whole, n - 1);
      assert tables[n - 1 + 1] == Process(L, tables[n - 1], p, now).t;
      ProcessOk(L, tables[n - 1], p, now);
      if p.key == key {
        GenuineStep(L, tables[n - 1], p, now, whole, before);
      } else {
        OthersDoNotDisturb(L, tables[n - 1], p, now, key);
      }
    }
  }

  lemma SeenGrows(held: seq<Fragment>, p: Fragment, n: nat)
    ensures FullySeen(held, n) ==> FullySeen(held + [p], n)
  {
    if FullySeen(held, n) {
      forall q | 0 <= q < n ensures SeenAt(held + [p], q) {
        assert SeenAt(held, q);
        var i :| 0 <= i < |held| && held[i].AsPiece().Covers(q);
        assert (held + [p])[i].AsPiece().Covers(q);
      }
    }
  }

  /**
   * Round trip: the genuine fragments of a datagram, in any order, repeated and overlapping at will,
   * interleaved with any other traffic, with no cap hit, yield nothing until they cover the
   * datagram, and the arrival that completes the cover yields exactly the datagram.
   */
  lemma RoundTrip(L: Limits, packets: seq<Fragment>, clock: seq<int>, tables: seq<Table>, whole: Bytes, n: nat)
    requires QuietRun(L, packets, clock, tables) && TableOk(tables[0]) && !OverLimits(L, tables[0])
    requires n < |packets| && whole != [] && Seek(tables[0].states, packets[n].key).None?
    requires forall i :: 0 <= i < |packets| && packets[i].key == packets[n].key ==>
             GenuineFragment(L, whole, packets[i])
    requires !FullySeen(FragmentsOf(packets[..n], packets[n].key), |whole|)
    ensures var output := Process(L, tables[n], packets[n], clock[n]).output;
            if FullySeen(FragmentsOf(packets[..n], packets[n].key) + [packets[n]], |whole|)
            then output.Whole? && output.payload == whole
            else output == Nothing
  {
    var key := packets[n].key;
    StillCollecting(L, packets, clock, tables, key, whole, n);
    assert tables[n + 1] == Process(L, tables[n], packets[n], clock[n]).t;
    GenuineStep(L, tables[n], packets[n], clock[n], whole, FragmentsOf(packets[..n], key));
  }
}
