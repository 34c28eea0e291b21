/**
 * What a returned datagram owes to the fragments that were fed: it agrees with every one of them,
 * and each of its bytes was carried by one.
 */
module FragmentAgreement {
  import opened Common
  import opened Ranges
  import opened Fragments
  import opened FragmentDatagrams
  import opened FragmentTheorems

  // ---------------------------------------------------------------- what one call does to one key

  /** The call feeds a fragment of this datagram, as opposed to a whole packet or another datagram's. */
  predicate FeedsTo(call: Call, key: DatagramKey) {
    call.Feed? && call.packet.key == key && call.packet.fragmented && !(call.packet.offset == 0 && !call.packet.more)
  }

  function Fed(call: Call, key: DatagramKey): seq<Fragment> {
    if FeedsTo(call, key) then [call.packet] else []
  }

  /** The fragments held for a key, none if the key is absent. */
  function Held(states: seq<Datagram>, key: DatagramKey): seq<Fragment> {
    if Seek(states, key).Some? then Seek(states, key).value.seen else []
  }

  predicate Present(states: seq<Datagram>, key: DatagramKey) { Seek(states, key).Some? }

  lemma {:induction false} SeekMember(states: seq<Datagram>, key: DatagramKey)
    ensures Present(states, key) ==> Seek(states, key).value in states && Seek(states, key).value.key == key
    decreases |states|
  {
    if states != [] && states[|states| - 1].key != key {
      SeekMember(states[..|states| - 1], key);
    }
  }

  ghost predicate Within(r: seq<Datagram>, s: seq<Datagram>) { forall x :: x in r ==> x in s }

  lemma WithoutWithin(s: seq<Datagram>, i: nat)
    requires i < |s|
    ensures Within(Without(s, i), s)
  {
  }

  lemma TailWithin(s: seq<Datagram>, i: nat)
    requires i <= |s|
    ensures Within(s[i..], s)
  {
  }

  /** Dropping entries can lose a key but never changes what is held for one that stays. */
  lemma SeekKept(r: seq<Datagram>, s: seq<Datagram>, key: DatagramKey)
    requires KeysDistinct(s) && Within(r, s) && Present(r, key)
    ensures Seek(r, key) == Seek(s, key)
  {
    SeekMember(r, key);
    var x := Seek(r, key).value;
    var i :| 0 <= i < |s| && s[i] == x;
    SeekFinds(s, i);
  }

  /** If the key is still there, exactly these fragments are held for it. */
  ghost predicate HoldsAfter(states: seq<Datagram>, key: DatagramKey, seen: seq<Fragment>) {
    Present(states, key) ==> Held(states, key) == seen
  }

  lemma KeptHolds(r: seq<Datagram>, s: seq<Datagram>, key: DatagramKey, seen: seq<Fragment>)
    requires KeysDistinct(s) && Within(r, s) && HoldsAfter(s, key, seen)
    ensures HoldsAfter(r, key, seen)
  {
    if Present(r, key) {
      SeekKept(r, s, key);
    }
  }

  lemma {:induction false} ExpireKept(L: Limits, t: Table, now: int)
    ensures Within(ExpirePrefix(L, t, now).states, t.states)
    decreases |t.states|
  {
    if t.states != [] && now - t.states[0].activity >= L.idle {
      WithoutWithin(t.states, 0);
      ExpireKept(L, Lapse(t), now);
    }
  }

  lemma {:induction false} ExpireAllKept(L: Limits, t: Table, i: nat, clock: int)
    requires i <= |t.states|
    ensures Within(ExpireAll(L, t, i, clock).states, t.states)
    decreases |t.states| - i
  {
    if i < |t.states| {
      if clock - t.states[i].lastSeen < L.idle {
        ExpireAllKept(L, t, i + 1, clock);
      } else {
        WithoutWithin(t.states, i);
        ExpireAllKept(L, LapseAt(t, i), i, clock);
      }
    }
  }

  lemma SettleKept(t: Table)
    requires t.states != []
    ensures Within(Settle(t).t.states, t.states)
  {
    WithoutWithin(t.states, |t.states| - 1);
  }

  lemma AdmitKept(L: Limits, t: Table)
    requires t.states != []
    ensures Within(Admit(L, t).t.states, t.states)
  {
    if |Last(t).ranges| > L.maxRangesPerDatagram {
      WithoutWithin(t.states, |t.states| - 1);
    } else {
      var r := EvictToLimits(L, t);
      EvictSuffix(L, t);
      TailWithin(t.states, |t.states| - |r.states|);
      if r.states != [] {
        SettleKept(r);
      }
    }
  }

  /** Locating a datagram changes nothing that is held. */
  lemma LocateHolds(t: Table, p: Fragment, now: int, key: DatagramKey)
    requires TableOk(t)
    ensures HoldsAfter(Locate(t, p, now).states, key, Held(t.states, key))
    ensures Last(Locate(t, p, now)).seen == Held(t.states, p.key)
  {
    LocateSeeks(t, p, now, key);
    LocateSeeks(t, p, now, p.key);
  }

  lemma MergeHolds(L: Limits, t: Table, p: Fragment, now: int, key: DatagramKey, before: seq<Fragment>)
    requires TableOk(t) && t.states != [] && Last(t).key == p.key && 0 <= p.offset
    requires HoldsAfter(t.states, key, before) && (key == p.key ==> Last(t).seen == before)
    ensures HoldsAfter(Merge(L, t, p, now).t.states, key, if key == p.key then before + [p] else before)
  {
    var s := Refresh(Last(t), p, now);
    if Clashes(s, p) {
      ClashHolds(t, key, before);
    } else {
      var w := Write(t, Absorb(s, p));
      AbsorbedOk(t, p, now);
      WriteSeeks(t, Absorb(s, p), key);
      AdmitKept(L, w);
      KeptHolds(Admit(L, w).t.states, w.states, key, if key == p.key then before + [p] else before);
    }
  }

  /** A clash drops the datagram, so its key is absent afterwards; the others are as they were. */
  lemma ClashHolds(t: Table, key: DatagramKey, before: seq<Fragment>)
    requires TableOk(t) && t.states != [] && HoldsAfter(t.states, key, before)
    ensures HoldsAfter(Discard(t, |t.states| - 1).states, key, before)
    ensures key == Last(t).key ==> !Present(Discard(t, |t.states| - 1).states, key)
  {
    var n := |t.states| - 1;
    WithoutOk(t.states, n);
    WithoutWithin(t.states, n);
    KeptHolds(Without(t.states, n), t.states, key, before);
    if key == Last(t).key {
      SeekMissing(Without(t.states, n), key);
    }
  }

  lemma MalformedHolds(t: Table, p: Fragment, key: DatagramKey)
    requires TableOk(t)
    ensures HoldsAfter(DiscardKey(t, p.key).states, key, Held(t.states, key))
    ensures key == p.key ==> !Present(DiscardKey(t, p.key).states, key)
  {
    var i := Find(t.states, p.key);
    if i < |t.states| {
      WithoutOk(t.states, i);
      WithoutWithin(t.states, i);
      KeptHolds(Without(t.states, i), t.states, key, Held(t.states, key));
      if key == p.key {
        SeekMissing(Without(t.states, i), key);
      }
    } else if key == p.key {
      SeekMissing(t.states, key);
    }
  }

  lemma FragmentHolds(L: Limits, t: Table, p: Fragment, now: int, key: DatagramKey)
    requires TableOk(t) && p.fragmented && !(p.offset == 0 && !p.more)
    ensures HoldsAfter(Process(L, t, p, now).t.states, key,
                       if key == p.key then Held(t.states, key) + [p] else Held(t.states, key))
  {
    if Malformed(L, p) {
      MalformedHolds(t, p, key);
    } else {
      LocateOk(t, p, now);
      LocateHolds(t, p, now, key);
      MergeHolds(L, Locate(t, p, now), p, now, key, Held(t.states, key));
    }
  }

  /** After any call, what is held for a key that is still there is what was held, and what the call fed. */
  lemma CallHolds(L: Limits, t: Table, call: Call, key: DatagramKey)
    requires TableOk(t)
    ensures HoldsAfter(Apply(L, t, call).states, key, Held(t.states, key) + Fed(call, key))
  {
    AppendNil(Held(t.states, key));
    match call
    case Feed(p, now) =>
      if p.fragmented && !(p.offset == 0 && !p.more) {
        FragmentHolds(L, t, p, now, key);
      }
    case ExpireIdle(now) =>
      ExpireKept(L, t, now);
      KeptHolds(ExpirePrefix(L, t, now).states, t.states, key, Held(t.states, key));
    case ExpireCaptured(clock) =>
      ExpireAllKept(L, t, 0, clock);
      KeptHolds(ExpireAll(L, t, 0, clock).states, t.states, key, Held(t.states, key));
  }

  // ---------------------------------------------------------------- runs

  /** The last moment, up to `n`, at which the key was absent from the table. */
  function LastAbsent(tables: seq<Table>, n: nat, key: DatagramKey): (m: nat)
    requires n < |tables| && tables[0].states == []
    ensures m <= n && !Present(tables[m].states, key)
    ensures forall i :: m < i <= n ==> Present(tables[i].states, key)
  {
    if !Present(tables[n].states, key) then n else LastAbsent(tables, n - 1, key)
  }

  /** The fragments of `key` among the calls from `lo` to `hi`, all of them and in order. */
  function FedBetween(calls: seq<Call>, lo: nat, hi: nat, key: DatagramKey): seq<Fragment>
    requires hi <= |calls|
  {
    if hi <= lo then [] else FedBetween(calls, lo, hi - 1, key) + Fed(calls[hi - 1], key)
  }

  /** What the table holds for a key is every fragment of it fed since the key was last absent. */
  lemma {:induction false} HeldIsFed(L: Limits, calls: seq<Call>, tables: seq<Table>, n: nat, key: DatagramKey)
    requires IsRun(L, calls, tables) && n < |tables|
    ensures Held(tables[n].states, key) == FedBetween(calls, LastAbsent(tables, n, key), n, key)
  {
    if n > 0 && Present(tables[n].states, key) {
      HeldIsFed(L, calls, tables, n - 1, key);
      RunOk(L, calls, tables, n - 1);
      assert Stepped(L, calls, tables, n - 1);
      CallHolds(L, tables[n - 1], calls[n - 1], key);
    }
  }

  /** A payload handed over is the verdict on a sound datagram that the packet has just completed. */
  lemma WholeComesFrom(L: Limits, t: Table, p: Fragment, now: int) returns (s: Datagram)
    requires TableOk(t) && Process(L, t, p, now).output.Whole?
    ensures DatagramOk(s) && s.seen == Held(t.states, p.key) + [p]
    ensures Judge(s) == Complete(Process(L, t, p, now).output.payload)
    ensures s.ids == Process(L, t, p, now).output.ids
  {
    var t1 := Locate(t, p, now);
    LocateOk(t, p, now);
    LocateHolds(t, p, now, p.key);
    s := Absorb(Refresh(Last(t1), p, now), p);
    AbsorbedOk(t1, p, now);
    var t2 := Write(t1, s);
    EvictSuffix(L, t2);
    var r := EvictToLimits(L, t2);
    assert Last(r) == Last(t2);
    assert StateOk(Last(t2));
    StateMeans(s);
  }

  /** The payload has the announced length, agrees with every fragment, and has no byte of its own. */
  ghost predicate PayloadAgrees(seen: seq<Fragment>, payload: Bytes) {
    && (exists i :: 0 <= i < |seen| && !seen[i].more && seen[i].End() == |payload|)
    && (forall i :: 0 <= i < |seen| ==> !seen[i].truncated)
    && (forall p :: 0 <= p < |payload| ==> SeenAt(seen, p))
    && (forall i, p :: 0 <= i < |seen| && seen[i].AsPiece().Covers(p) && p < |payload| ==>
          0 <= p && payload[p] == seen[i].AsPiece().At(p))
  }

  lemma JudgedAgrees(s: Datagram, payload: Bytes)
    requires DatagramOk(s) && Judge(s) == Complete(payload)
    ensures PayloadAgrees(s.seen, payload)
  {
    CompleteAgrees(s, payload);
  }

  /**
   * For arbitrary fragments, whatever the run: a returned payload has the announced length, agrees
   * with every fragment of its key fed since the key was last absent from the table, and has no
   * byte that none of them carried.
   */
  lemma Agreement(L: Limits, calls: seq<Call>, tables: seq<Table>, n: nat)
    requires IsRun(L, calls, tables) && n < |calls| && calls[n].Feed?
    requires Process(L, tables[n], calls[n].packet, calls[n].now).output.Whole?
    ensures var key := calls[n].packet.key;
            PayloadAgrees(FedBetween(calls, LastAbsent(tables, n, key), n + 1, key),
                          Process(L, tables[n], calls[n].packet, calls[n].now).output.payload)
  {
    var p, now := calls[n].packet, calls[n].now;
    RunOk(L, calls, tables, n);
    var s := WholeComesFrom(L, tables[n], p, now);
    HeldIsFed(L, calls, tables, n, p.key);
    JudgedAgrees(s, Process(L, tables[n], p, now).output.payload);
    assert FedBetween(calls, LastAbsent(tables, n, p.key), n + 1, p.key) == s.seen;
  }
}
