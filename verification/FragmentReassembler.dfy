/** Fragment reassembly as the mutable object it is, proved against the state machine. */
module FragmentReassembler {
  import opened Common
  import opened Ranges
  import opened Fragments

  class FragmentReassembler {
    const L: Limits
    var t: Table

    constructor (limits: Limits)
      ensures L == limits && t == EMPTY_TABLE
    {
      L := limits;
      t := EMPTY_TABLE;
    }

    method DiscardAt(i: nat)
      requires i < |t.states|
      modifies this
      ensures t == Discard(old(t), i)
    {
      var s := t.states[i];
      t := t.(states := t.states[..i] + t.states[i + 1..],
              bytes := t.bytes - s.bytes, ranges := t.ranges - |s.ranges|, ids := t.ids - |s.ids|);
    }

    method Evict()
      modifies this
      ensures t == EvictToLimits(L, old(t))
    {
      while OverLimits(L, t) && t.states != []
        invariant EvictToLimits(L, t) == EvictToLimits(L, old(t))
        decreases |t.states|
      {
        var count := t.evicted;
        DiscardAt(0);
        t := t.(evicted := count + 1);
      }
    }

    /** Refreshes the most recent datagram and merges the fragment's new bytes and ids into it. */
    method MergeIntoLast(p: Fragment, now: int)
      requires t.states != [] && !Clashes(Refresh(Last(t), p, now), p)
      modifies this
      ensures t == Write(old(t), Absorb(Refresh(Last(old(t)), p, now), p))
    {
      var s := Refresh(t.states[|t.states| - 1], p, now);
      if !p.more {
        s := s.(finalEnd := Some(p.End()));
      }
      var additions := UncoveredRanges(p.offset, p.payload, Anonymous, s.ranges);
      var ids := if additions == [] then s.ids else AppendNew(s.ids, p.Ids());
      var ranges := MergeAdjacent(s.ranges + additions);
      var added := Total(additions);
      t := t.(states := t.states[|t.states| - 1 := s.(ranges := ranges, ids := ids, bytes := s.bytes + added,
                                                      seen := s.seen + [p])],
              bytes := t.bytes + added, ranges := t.ranges + |ranges| - |s.ranges|, ids := t.ids + |ids| - |s.ids|);
    }

    method SettleLast() returns (output: Output)
      requires t.states != []
      modifies this
      ensures Result(t, output) == Settle(old(t))
    {
      output := Nothing;
      var s := t.states[|t.states| - 1];
      if s.first.None? || s.finalEnd.None? || s.truncated {
        return;
      }
      var v := AssembleRanges(s.ranges, s.finalEnd.value);
      if v.Overrun? {
        var count := t.conflicts;
        DiscardAt(|t.states| - 1);
        t := t.(conflicts := count + 1);
      } else if v.Complete? {
        output := Whole(v.payload, s.first.value, s.latestId, s.lastSeen, s.ids);
        DiscardAt(|t.states| - 1);
      }
    }

    method AdmitLast() returns (output: Output)
      requires t.states != []
      modifies this
      ensures Result(t, output) == Admit(L, old(t))
    {
      output := Nothing;
      if |t.states[|t.states| - 1].ranges| > L.maxRangesPerDatagram {
        var count := t.evicted;
        DiscardAt(|t.states| - 1);
        t := t.(evicted := count + 1);
        return;
      }
      Evict();
      if t.states != [] {
        output := SettleLast();
      }
    }

    method MergeFragment(p: Fragment, now: int) returns (output: Output)
      requires t.states != []
      modifies this
      ensures Result(t, output) == Merge(L, old(t), p, now)
    {
      output := Nothing;
      var s := Refresh(t.states[|t.states| - 1], p, now);
      var conflict := !p.more && s.finalEnd.Some? && s.finalEnd.value != p.End();
      if !conflict {
        conflict := FindConflict(p.AsPiece(), s.ranges);
      }
      if conflict {
        var count := t.conflicts;
        DiscardAt(|t.states| - 1);
        t := t.(conflicts := count + 1);
      } else {
        MergeIntoLast(p, now);
        output := AdmitLast();
      }
    }

    /** Returns a transport-ready datagram, or nothing while it is incomplete. */
    method ProcessFragment(p: Fragment, now: int) returns (output: Output)
      modifies this
      ensures Result(t, output) == Process(L, old(t), p, now)
    {
      if !p.fragmented || (p.offset == 0 && !p.more) {
        return PassThrough;
      }
      var i := Find(t.states, p.key);
      if Malformed(L, p) {
        var count := t.malformed;
        if i < |t.states| {
          DiscardAt(i);
        }
        t := t.(malformed := count + 1);
        return Nothing;
      }
      if i < |t.states| {
        t := t.(states := t.states[..i] + t.states[i + 1..] + [t.states[i]]);
      } else {
        t := t.(states := t.states + [NewDatagram(p, now)]);
      }
      output := MergeFragment(p, now);
    }

    /** Discards stale datagrams from the old end and stops at the first fresh one. */
    method ExpireIdle(now: int)
      modifies this
      ensures t == ExpirePrefix(L, old(t), now)
    {
      while t.states != [] && now - t.states[0].activity >= L.idle
        invariant ExpirePrefix(L, t, now) == ExpirePrefix(L, old(t), now)
        decreases |t.states|
      {
        var count := t.expired;
        DiscardAt(0);
        t := t.(expired := count + 1);
      }
    }

    /** Expiry by capture time checks every datagram. */
    method ExpireByCapture(clock: int)
      modifies this
      ensures t == ExpireAll(L, old(t), 0, clock)
    {
      var i := 0;
      while i < |t.states|
        invariant 0 <= i <= |t.states|
        invariant ExpireAll(L, t, i, clock) == ExpireAll(L, old(t), 0, clock)
        decreases |t.states| - i
      {
        if clock - t.states[i].lastSeen < L.idle {
          i := i + 1;
        } else {
          var count := t.expired;
          DiscardAt(i);
          t := t.(expired := count + 1);
        }
      }
    }
  }
}
