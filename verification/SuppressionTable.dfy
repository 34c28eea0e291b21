/** What expiring, spending, issuing and evicting do to the table of admitted ingress frames. */
module SuppressionTable {
  import opened Common
  import opened Suppression
  import opened SuppressionPlan

  function KeyBytes(order: seq<Slot>): nat { if order == [] then 0 else |order[0].key| + KeyBytes(order[1..]) }

  ghost predicate CacheOk(c: Cache) {
    && OrderOf(c.order, c.held.Keys) && c.keyBytes == KeyBytes(c.order)
    && forall s :: s in c.held ==> 0 < |c.held[s]| <= MAX_INGRESS_COPIES_PER_KEY
  }

  /** The tickets of a slot, none when it is not in the table. */
  function At(c: Cache, s: Slot): seq<Ticket> { if s in c.held then c.held[s] else [] }

  // ---------------------------------------------------------------- the order of use

  lemma {:induction false} WithoutOk(order: seq<Slot>, slot: Slot)
    requires Distinct(order)
    ensures Distinct(Without(order, slot)) && forall s :: s in Without(order, slot) <==> s in order && s != slot
    ensures slot in order ==> KeyBytes(Without(order, slot)) == KeyBytes(order) - |slot.key|
    ensures |Without(order, slot)| == |order| - if slot in order then 1 else 0
    decreases |order|
  {
    if order != [] {
      var rest := order[1..];
      assert forall i :: 0 <= i < |rest| ==> rest[i] == order[i + 1];
      assert order == [order[0]] + rest;
      WithoutOk(rest, slot);
      if order[0] != slot {
        var r := [order[0]] + Without(rest, slot);
        assert r[1..] == Without(rest, slot);
        ConsDistinct(order[0], Without(rest, slot));
      }
    }
  }

  lemma ConsDistinct(x: Slot, rest: seq<Slot>)
    requires Distinct(rest) && x !in rest
    ensures Distinct([x] + rest)
  {
  }

  lemma {:induction false} KeyBytesSnoc(order: seq<Slot>, s: Slot)
    ensures KeyBytes(order + [s]) == KeyBytes(order) + |s.key|
    decreases |order|
  {
    if order != [] {
      assert (order + [s])[1..] == order[1..] + [s];
      KeyBytesSnoc(order[1..], s);
    }
  }

  lemma RemoveOrder(c: Cache, slot: Slot)
    requires OrderOf(c.order, c.held.Keys) && c.keyBytes == KeyBytes(c.order) && slot in c.held
    ensures OrderOf(Remove(c, slot).order, Remove(c, slot).held.Keys)
            && Remove(c, slot).keyBytes == KeyBytes(Remove(c, slot).order)
    ensures |Remove(c, slot).order| == |c.order| - 1
    ensures forall s :: s in Remove(c, slot).held <==> s in c.held && s != slot
    ensures forall s :: s in Remove(c, slot).held ==> Remove(c, slot).held[s] == c.held[s]
  {
    WithoutOk(c.order, slot);
  }

  lemma MoveOrder(c: Cache, slot: Slot)
    requires OrderOf(c.order, c.held.Keys) && c.keyBytes == KeyBytes(c.order) && slot in c.held
    ensures OrderOf(MoveToEnd(c, slot).order, c.held.Keys) && c.keyBytes == KeyBytes(MoveToEnd(c, slot).order)
  {
    WithoutOk(c.order, slot);
    KeyBytesSnoc(Without(c.order, slot), slot);
    OrderSnoc(Without(c.order, slot), c.held.Keys - {slot}, slot);
    assert c.held.Keys - {slot} + {slot} == c.held.Keys;
  }

  // ---------------------------------------------------------------- replacing one slot

  /** `d` is `c` with one slot changed. */
  ghost predicate Changed(c: Cache, d: Cache, slot: Slot, tickets: seq<Ticket>) {
    CacheOk(d) && At(d, slot) == tickets && forall s :: s != slot ==> At(d, s) == At(c, s)
  }

  lemma PutOk(c: Cache, slot: Slot, tickets: seq<Ticket>, d: Cache)
    requires CacheOk(c) && slot in c.held && 0 < |tickets| <= MAX_INGRESS_COPIES_PER_KEY
    requires d.order == c.order && d.held == c.held[slot := tickets] && d.keyBytes == c.keyBytes
    ensures Changed(c, d, slot, tickets)
  {
    assert d.held.Keys == c.held.Keys;
  }

  lemma DropOk(c: Cache, slot: Slot, d: Cache)
    requires CacheOk(c) && slot in c.held
    requires d.order == c.order && d.held == c.held[slot := []] && d.keyBytes == c.keyBytes
    ensures Changed(c, Remove(d, slot), slot, [])
  {
    assert d.held.Keys == c.held.Keys;
    RemoveOrder(d, slot);
    forall s | s in Remove(d, slot).held ensures 0 < |Remove(d, slot).held[s]| <= MAX_INGRESS_COPIES_PER_KEY {
      assert d.held[s] == c.held[s];
    }
  }

  // ---------------------------------------------------------------- spending

  predicate NoLarger(c: Cache, d: Cache) { |d.order| <= |c.order| && d.keyBytes <= c.keyBytes }

  lemma SpendOk(c: Cache, slot: Slot, count: nat)
    requires CacheOk(c) && slot in c.held && count <= |c.held[slot]|
    ensures Spend(c, slot, count).Some? && Changed(c, Spend(c, slot, count).value, slot, c.held[slot][count..])
    ensures NoLarger(c, Spend(c, slot, count).value)
  {
    WithoutOk(c.order, slot);
    var left := c.held[slot][count..];
    var d := c.(held := c.held[slot := left]);
    if left == [] {
      DropOk(c, slot, d);
    } else {
      PutOk(c, slot, left, d);
      MoveOrder(d, slot);
    }
  }

  /** What is left of a slot after spending `uses`. */
  function Left(tickets: seq<Ticket>, uses: map<Slot, nat>, s: Slot): seq<Ticket> {
    if s in uses && uses[s] <= |tickets| then tickets[uses[s]..] else tickets
  }

  ghost predicate CanSpend(c: Cache, slots: seq<Slot>, uses: map<Slot, nat>) {
    Distinct(slots) && forall s :: s in slots ==> s in uses && s in c.held && uses[s] <= |c.held[s]|
  }

  /** Spending never fails when the uses were planned on this table, and takes exactly the oldest tickets. */
  lemma {:induction false} SpendAllOk(c: Cache, slots: seq<Slot>, uses: map<Slot, nat>)
    requires CacheOk(c) && CanSpend(c, slots, uses)
    ensures SpendAll(c, slots, uses).Some? && CacheOk(SpendAll(c, slots, uses).value)
            && NoLarger(c, SpendAll(c, slots, uses).value)
    ensures forall s :: At(SpendAll(c, slots, uses).value, s) == if s in slots then Left(At(c, s), uses, s)
            else At(c, s)
    decreases |slots|
  {
    if slots != [] {
      var slot, rest := slots[0], slots[1..];
      assert slot in slots;
      SpendOk(c, slot, uses[slot]);
      var d := Spend(c, slot, uses[slot]).value;
      RestCanSpend(c, d, slots, uses);
      SpendAllOk(d, rest, uses);
      forall s ensures s in slots <==> s == slot || s in rest {
        assert slots == [slot] + rest;
      }
    }
  }

  lemma RestCanSpend(c: Cache, d: Cache, slots: seq<Slot>, uses: map<Slot, nat>)
    requires CanSpend(c, slots, uses) && slots != [] && forall s :: s != slots[0] ==> At(d, s) == At(c, s)
    requires forall s :: s in c.held ==> 0 < |c.held[s]|
    ensures CanSpend(d, slots[1..], uses) && slots[0] !in slots[1..]
  {
    var rest := slots[1..];
    assert forall i :: 0 <= i < |rest| ==> rest[i] == slots[i + 1];
    forall s | s in rest ensures s != slots[0] && s in slots && s in d.held && d.held[s] == c.held[s] {
      var i :| 0 <= i < |rest| && rest[i] == s;
      assert slots[i + 1] == s;
      assert At(d, s) == At(c, s);
    }
  }

  // ---------------------------------------------------------------- issuing

  /** A slot's tickets after a batch's offers were admitted. */
  function WithOffers(L: Limits, tickets: seq<Ticket>, offers: map<Slot, seq<Ticket>>, s: Slot): seq<Ticket> {
    if s in offers && offers[s] != [] && |s.key| <= L.maxBytes then LastTickets(tickets + offers[s]) else tickets
  }

  lemma OpenedOk(c: Cache, slot: Slot, tickets: seq<Ticket>, d: Cache)
    requires CacheOk(c) && 0 < |tickets| <= MAX_INGRESS_COPIES_PER_KEY
    requires d.order == Opened(c, slot).order && d.keyBytes == Opened(c, slot).keyBytes
             && d.held == Opened(c, slot).held[slot := tickets]
    ensures Changed(c, d, slot, tickets)
  {
    if slot in c.held {
      MoveOrder(c, slot);
      assert d.held.Keys == c.held.Keys;
    } else {
      OrderSnoc(c.order, c.held.Keys, slot);
      KeyBytesSnoc(c.order, slot);
      assert d.held.Keys == c.held.Keys + {slot};
    }
  }

  lemma IssueOk(L: Limits, c: Cache, slot: Slot, offers: map<Slot, seq<Ticket>>)
    requires CacheOk(c) && slot in offers
    ensures Changed(c, Issue(L, c, slot, offers[slot]), slot, WithOffers(L, At(c, slot), offers, slot))
  {
    if offers[slot] != [] && |slot.key| <= L.maxBytes {
      OpenedOk(c, slot, LastTickets(At(c, slot) + offers[slot]), Issue(L, c, slot, offers[slot]));
    }
  }

  lemma {:induction false} IssueAllOk(L: Limits, c: Cache, slots: seq<Slot>, offers: map<Slot, seq<Ticket>>)
    requires CacheOk(c) && Distinct(slots) && forall s :: s in slots ==> s in offers
    ensures CacheOk(IssueAll(L, c, slots, offers))
    ensures forall s :: At(IssueAll(L, c, slots, offers), s) == if s in slots then WithOffers(L, At(c, s), offers, s)
            else At(c, s)
    decreases |slots|
  {
    if slots != [] {
      var slot, rest := slots[0], slots[1..];
      assert slot in slots;
      IssueOk(L, c, slot, offers);
      assert forall i :: 0 <= i < |rest| ==> rest[i] == slots[i + 1];
      assert slot !in rest;
      assert forall s :: s in rest ==> s in slots;
      IssueAllOk(L, Issue(L, c, slot, offers[slot]), rest, offers);
      forall s ensures s in slots <==> s == slot || s in rest {
        assert slots == [slot] + rest;
      }
    }
  }

  // ---------------------------------------------------------------- evicting and expiring

  lemma KeyBytesNone(c: Cache, L: Limits)
    requires CacheOk(c) && OverCap(L, c)
    ensures c.order != []
  {
  }

  /** Eviction ends under the caps, never runs on an empty table, and only removes whole slots. */
  lemma {:induction false} EvictLoopOk(L: Limits, c: Cache)
    requires CacheOk(c)
    ensures CacheOk(EvictLoop(L, c)) && !OverCap(L, EvictLoop(L, c))
    ensures forall s :: At(EvictLoop(L, c), s) == [] || At(EvictLoop(L, c), s) == At(c, s)
    decreases |c.order|
  {
    if OverCap(L, c) {
      KeyBytesNone(c, L);
      assert c.order[0] in c.order;
      RemoveOrder(c, c.order[0]);
      EvictLoopOk(L, EvictOldest(c));
    }
  }

  lemma {:induction false} DropStaleOk(tickets: seq<Ticket>, now: int, age: nat)
    ensures |DropStale(tickets, now, age)| <= |tickets|
    ensures DropStale(tickets, now, age) == tickets[|tickets| - |DropStale(tickets, now, age)|..]
    decreases |tickets|
  {
    if tickets != [] {
      DropStaleOk(tickets[1..], now, age);
    }
  }

  ghost predicate SuffixOf(a: seq<Ticket>, b: seq<Ticket>) { |a| <= |b| && a == b[|b| - |a|..] }

  lemma SuffixTrans(a: seq<Ticket>, b: seq<Ticket>, c: seq<Ticket>)
    requires SuffixOf(a, b) && SuffixOf(b, c)
    ensures SuffixOf(a, c)
  {
  }

  lemma ExpireSlotOk(c: Cache, slot: Slot, now: int, age: nat)
    requires CacheOk(c) && slot in c.held
    ensures Changed(c, ExpireSlot(c, slot, now, age), slot, DropStale(c.held[slot], now, age))
    ensures NoLarger(c, ExpireSlot(c, slot, now, age))
            && forall s :: SuffixOf(At(ExpireSlot(c, slot, now, age), s), At(c, s))
  {
    WithoutOk(c.order, slot);
    var left := DropStale(c.held[slot], now, age);
    DropStaleOk(c.held[slot], now, age);
    var d := c.(held := c.held[slot := left], expired := c.expired + Max(0, |c.held[slot]| - |left|));
    if left == [] {
      DropOk(c, slot, d);
    } else {
      PutOk(c, slot, left, d);
    }
  }

  lemma {:induction false} ExpireLoopOk(c: Cache, slots: seq<Slot>, now: int, age: nat)
    requires CacheOk(c)
    ensures CacheOk(ExpireLoop(c, slots, now, age))
    ensures forall s :: SuffixOf(At(ExpireLoop(c, slots, now, age), s), At(c, s))
    ensures NoLarger(c, ExpireLoop(c, slots, now, age))
    decreases |slots|
  {
    if slots != [] {
      var d := if slots[0] in c.held then ExpireSlot(c, slots[0], now, age) else c;
      if slots[0] in c.held {
        ExpireSlotOk(c, slots[0], now, age);
      }
      ExpireLoopOk(d, slots[1..], now, age);
      forall s ensures SuffixOf(At(ExpireLoop(c, slots, now, age), s), At(c, s)) {
        assert SuffixOf(At(d, s), At(c, s));
        SuffixTrans(At(ExpireLoop(c, slots, now, age), s), At(d, s), At(c, s));
      }
    }
  }

  lemma ExpireOk(L: Limits, c: Cache, now: int)
    requires CacheOk(c)
    ensures CacheOk(Expire(L, c, now)) && forall s :: SuffixOf(At(Expire(L, c, now), s), At(c, s))
    ensures !OverCap(L, c) ==> !OverCap(L, Expire(L, c, now))
  {
    if now >= c.nextExpire {
      ExpireLoopOk(c.(nextExpire := now + Min(MAX_EXPIRY_INTERVAL, L.maxAge / 4)), c.order, now, L.maxAge);
    }
  }

  // ---------------------------------------------------------------- committing

  /** The tickets of a slot that a plan leaves usable, oldest first. */
  function Usable(held: Held, st: Plan, s: Slot): seq<Ticket> {
    (if s in held && Used(st, s) <= |held[s]| then held[s][Used(st, s)..] else [])
    + if s in st.offers then st.offers[s] else []
  }

  /** Every slot of the new table is a contiguous part of what the plan left usable. */
  ghost predicate Inherits(held: Held, st: Plan, held': Held) {
    forall s :: s in held' ==> SliceOf(held'[s], Usable(held, st, s))
  }

  ghost predicate SliceOf(a: seq<Ticket>, b: seq<Ticket>) { exists k :: IsSlice(a, b, k) }

  predicate IsSlice(a: seq<Ticket>, b: seq<Ticket>, k: nat) { k + |a| <= |b| && a == b[k..k + |a|] }

  lemma SuffixIsSlice(a: seq<Ticket>, rest: seq<Ticket>, offers: seq<Ticket>)
    requires SuffixOf(a, rest + offers) || a == rest
    ensures SliceOf(a, rest + offers)
  {
    if a == rest {
      assert IsSlice(a, rest + offers, 0);
    } else {
      assert IsSlice(a, rest + offers, |rest + offers| - |a|);
    }
  }

  lemma LastIsSuffix(tickets: seq<Ticket>)
    ensures SuffixOf(LastTickets(tickets), tickets)
  {
  }

  lemma PlanCanSpend(c: Cache, st: Plan)
    requires CacheOk(c) && UsesOk(c.held, st)
    ensures CanSpend(c, st.useOrder, st.uses)
  {
  }

  lemma SpentSlice(L: Limits, c: Cache, st: Plan, s: Slot, tickets: seq<Ticket>)
    requires UsesOk(c.held, st) && s in c.held + st.offers && tickets != []
    requires tickets == Left(At(c, s), st.uses, s) || tickets == WithOffers(L, Left(At(c, s), st.uses, s), st.offers, s)
    ensures SliceOf(tickets, Usable(c.held, st, s))
  {
    var rest := if s in c.held && Used(st, s) <= |c.held[s]| then c.held[s][Used(st, s)..] else [];
    var offers := if s in st.offers then st.offers[s] else [];
    assert Left(At(c, s), st.uses, s) == rest;
    LastIsSuffix(rest + offers);
    SuffixIsSlice(tickets, rest, offers);
  }

  /** Commit never fails, respects the caps, and keeps only tickets the plan left usable. */
  lemma CommitOk(L: Limits, c: Cache, st: Plan)
    requires CacheOk(c) && UsesOk(c.held, st)
    ensures Commit(L, c, st).Some?
    ensures var d := Commit(L, c, st).value; CacheOk(d) && !OverCap(L, d) && Inherits(c.held, st, d.held)
  {
    PlanCanSpend(c, st);
    SpendAllOk(c, st.useOrder, st.uses);
    var b := SpendAll(c, st.useOrder, st.uses).value;
    IssueAllOk(L, b, st.freshOrder, st.offers);
    var a := IssueAll(L, b, st.freshOrder, st.offers);
    EvictLoopOk(L, a);
    var d := EvictLoop(L, a);
    forall s | s in d.held ensures SliceOf(d.held[s], Usable(c.held, st, s)) {
      assert At(d, s) == At(a, s);
      SpentSlice(L, c, st, s, d.held[s]);
    }
  }

  /** So is the failure path, which spends earlier tickets and issues none. */
  lemma CommitPriorOk(L: Limits, c: Cache, st: Plan)
    requires CacheOk(c) && UsesOk(c.held, st) && !OverCap(L, c)
    ensures CommitPriorSkips(c, st).Some?
    ensures var d := CommitPriorSkips(c, st).value; CacheOk(d) && !OverCap(L, d) && Inherits(c.held, st, d.held)
  {
    PlanCanSpend(c, st);
    SpendAllOk(c, st.useOrder, st.uses);
    var d := CommitPriorSkips(c, st).value;
    forall s | s in d.held ensures SliceOf(d.held[s], Usable(c.held, st, s)) {
      assert At(d, s) == d.held[s];
      SpentSlice(L, c, st, s, d.held[s]);
    }
  }

  // ---------------------------------------------------------------- what the new table inherits

  /** Where a ticket of the new table was before the commit. */
  function OldSpot(held: Held, st: Plan, s: Slot, j: nat): Spot {
    var rest := if s in held && Used(st, s) <= |held[s]| then |held[s]| - Used(st, s) else 0;
    if j < rest then Old(s, Used(st, s) + j) else New(s, j - rest)
  }

  lemma UsableLive(held: Held, st: Plan, s: Slot, j: nat)
    requires j < |Usable(held, st, s)|
    ensures Live(held, st, OldSpot(held, st, s, j))
            && TicketAt(held, st, OldSpot(held, st, s, j)) == Usable(held, st, s)[j]
  {
  }

  lemma InheritedSpot(held: Held, st: Plan, held': Held, x: Spot, k: nat)
    requires Live(held', EMPTY_PLAN, x) && IsSlice(held'[x.slot], Usable(held, st, x.slot), k)
    ensures var y := OldSpot(held, st, x.slot, k + x.i);
            Live(held, st, y) && TicketAt(held, st, y) == TicketAt(held', EMPTY_PLAN, x)
  {
    UsableLive(held, st, x.slot, k + x.i);
  }

  lemma InheritUsedUp(held: Held, st: Plan, held': Held, id: nat)
    requires Inherits(held, st, held') && UsedUp(held, st, id)
    ensures UsedUp(held', EMPTY_PLAN, id)
  {
    forall x | Live(held', EMPTY_PLAN, x) ensures TicketAt(held', EMPTY_PLAN, x).id != id {
      var k :| IsSlice(held'[x.slot], Usable(held, st, x.slot), k);
      InheritedSpot(held, st, held', x, k);
    }
  }

  lemma InheritSingle(held: Held, st: Plan, held': Held)
    requires Inherits(held, st, held') && Single(held, st)
    ensures Single(held', EMPTY_PLAN)
  {
    forall a, b | Live(held', EMPTY_PLAN, a) && Live(held', EMPTY_PLAN, b)
                  && TicketAt(held', EMPTY_PLAN, a).id == TicketAt(held', EMPTY_PLAN, b).id
      ensures a == b
    {
      var k :| IsSlice(held'[a.slot], Usable(held, st, a.slot), k);
      InheritedSpot(held, st, held', a, k);
      var m :| IsSlice(held'[b.slot], Usable(held, st, b.slot), m);
      InheritedSpot(held, st, held', b, m);
      SameSlice(held, st, a, b, k, m, held');
    }
  }

  lemma SameSlice(held: Held, st: Plan, a: Spot, b: Spot, k: nat, m: nat, held': Held)
    requires OldSpot(held, st, a.slot, k + a.i) == OldSpot(held, st, b.slot, m + b.i)
    requires Live(held', EMPTY_PLAN, a) && Live(held', EMPTY_PLAN, b)
    requires IsSlice(held'[a.slot], Usable(held, st, a.slot), k) && IsSlice(held'[b.slot], Usable(held, st, b.slot), m)
    requires Single(held, st)
    ensures a == b
  {
    assert a.slot == b.slot && k + a.i == m + b.i;
    if k < m {
      // Then the slice at m begins inside the slice at k, and position m would hold two tickets.
      InheritedSpot(held, st, held', Old(a.slot, 0), k);
      InheritedSpot(held, st, held', Old(a.slot, 0), m);
    } else if m < k {
      InheritedSpot(held, st, held', Old(a.slot, 0), k);
      InheritedSpot(held, st, held', Old(a.slot, 0), m);
    }
  }

  lemma InheritIssued(held: Held, st: Plan, held': Held, packets: seq<Packet>)
    requires Inherits(held, st, held') && AllIssued(packets, held) && AllIssued(packets, st.offers)
    ensures AllIssued(packets, held')
  {
    forall s, i | s in held' && 0 <= i < |held'[s]| ensures Issued(packets, s, held'[s][i]) {
      var k :| IsSlice(held'[s], Usable(held, st, s), k);
      InheritedSpot(held, st, held', Old(s, i), k);
    }
  }
}
