/** What holds of every batch and over every run of batches. */
module DispatchTheorems {
  import opened Common
  import opened Suppression
  import opened SuppressionPlan
  import opened SuppressionTable
  import opened Dispatch

  // ---------------------------------------------------------------- one batch splits exactly

  lemma {:induction false} FilterIsKept(packets: seq<Packet>, pairs: seq<Pair>)
    ensures Filter(packets, Copies(pairs), false) == Kept(packets, pairs)
    decreases |packets|
  {
    if packets != [] {
      FilterIsKept(packets[..|packets| - 1], pairs);
      var p := packets[|packets| - 1];
      assert p.id in Copies(pairs) <==> CopyOf(pairs, p.id);
    }
  }

  lemma {:induction false} SizeAppend(a: seq<Packet>, b: seq<Packet>)
    ensures Size(a + b) == Size(a) + Size(b)
    decreases |b|
  {
    if b == [] {
      AppendNil(a);
    } else {
      assert (a + b)[..|a + b| - 1] == a + b[..|b| - 1];
      SizeAppend(a, b[..|b| - 1]);
    }
  }

  lemma {:induction false} SizeSplit(packets: seq<Packet>, ids: set<nat>)
    ensures Size(packets) == Size(Filter(packets, ids, true)) + Size(Filter(packets, ids, false))
    decreases |packets|
  {
    if packets != [] {
      var init, p := packets[..|packets| - 1], packets[|packets| - 1];
      SizeSplit(init, ids);
      SizeAppend(Filter(init, ids, true), if (p.id in ids) == true then [p] else []);
      SizeAppend(Filter(init, ids, false), if (p.id in ids) == false then [p] else []);
      assert Size([p]) == p.size by {
        assert [p][..0] == [];
      }
    }
  }

  /** Every packet is enqueued, skipped or dropped, exactly once; an admission is all or nothing. */
  ghost predicate Splits(packets: seq<Packet>, d: Delivery) {
    && d.enqueued + d.dropped == Kept(packets, d.skips) && (d.enqueued == [] || d.dropped == [])
    && |packets| == |d.enqueued| + |d.skips| + |d.dropped| && CopiesIn(d.skips, packets)
    && Size(packets) == Size(d.enqueued) + d.skippedBytes + Size(d.dropped) && d.skippedBytes >= 0
  }

  // ---------------------------------------------------------------- the state between batches

  datatype World = World(cache: Cache, captured: seq<Packet>, enqueued: seq<Packet>, skips: seq<Pair>,
                         dropped: seq<Packet>)

  const START := World(EMPTY_CACHE, [], [], [], [])

  ghost predicate SkipsUsedUp(held: Held, skips: seq<Pair>) {
    forall q :: q in skips ==> UsedUp(held, EMPTY_PLAN, q.ingress)
  }

  ghost predicate CacheBound(L: Limits, c: Cache, enqueued: seq<Packet>, skips: seq<Pair>) {
    CacheOk(c) && !OverCap(L, c) && TableOk(c.held, enqueued) && SkipsUsedUp(c.held, skips)
  }

  ghost predicate WorldOk(L: Limits, w: World) {
    && CacheBound(L, w.cache, w.enqueued, w.skips)
    && OncePerIngress(w.skips) && IngressIn(w.skips, Ids(w.enqueued))
    && AllJustified(w.skips, w.captured, w.enqueued, L.maxAge)
    && (forall p :: p in w.enqueued ==> p in w.captured)
    && |w.captured| == |w.enqueued| + |w.skips| + |w.dropped|
  }

  // ---------------------------------------------------------------- expiry and commit keep the bounds

  lemma ExpireInherits(L: Limits, c: Cache, now: int)
    requires CacheOk(c)
    ensures Inherits(c.held, EMPTY_PLAN, Expire(L, c, now).held)
  {
    ExpireOk(L, c, now);
    var d := Expire(L, c, now);
    forall s | s in d.held ensures SliceOf(d.held[s], Usable(c.held, EMPTY_PLAN, s)) {
      assert SuffixOf(At(d, s), At(c, s));
      AppendNil(c.held[s][0..]);
      assert Usable(c.held, EMPTY_PLAN, s) == At(c, s);
      assert IsSlice(d.held[s], At(c, s), |At(c, s)| - |d.held[s]|);
    }
  }

  lemma ExpireBound(L: Limits, c: Cache, now: int, enqueued: seq<Packet>, skips: seq<Pair>)
    requires CacheBound(L, c, enqueued, skips)
    ensures CacheBound(L, Expire(L, c, now), enqueued, skips)
  {
    ExpireOk(L, c, now);
    ExpireInherits(L, c, now);
    var d := Expire(L, c, now);
    InheritSingle(c.held, EMPTY_PLAN, d.held);
    InheritIssued(c.held, EMPTY_PLAN, d.held, enqueued);
    forall q | q in skips ensures UsedUp(d.held, EMPTY_PLAN, q.ingress) {
      InheritUsedUp(c.held, EMPTY_PLAN, d.held, q.ingress);
    }
  }

  /** A ticket used up before the batch is used up after it, and no skip of the batch rests on it. */
  lemma {:induction false} StaysUsedUp(held: Held, st: Plan, packets: seq<Packet>, age: nat, pressure: bool, id: nat)
    requires UsedUp(held, st, id) && !HasId(packets, id) && Unpaired(st.pairs, id)
    ensures UsedUp(held, PlanLoop(held, st, packets, age, pressure), id)
    ensures Unpaired(PlanLoop(held, st, packets, age, pressure).pairs, id)
    decreases |packets|
  {
    if packets != [] {
      assert packets[0] in packets;
      StepUsedUp(held, st, packets[0], age, pressure, id);
      StepUnpaired(held, st, packets[0], age, pressure, id);
      assert forall p :: p in packets[1..] ==> p in packets;
      StaysUsedUp(held, Step(held, st, packets[0], age, pressure), packets[1..], age, pressure, id);
    }
  }

  lemma StepUnpaired(held: Held, st: Plan, p: Packet, age: nat, pressure: bool, id: nat)
    requires UsedUp(held, st, id) && Unpaired(st.pairs, id)
    ensures Unpaired(Step(held, st, p, age, pressure).pairs, id)
  {
    if p.frame.Some? && !p.frame.value.ingress && !Match(held, st, p.frame.value, age).Miss? {
      var h := Match(held, st, p.frame.value, age);
      var x := if h.Local? then New(h.slot, 0) else Old(h.slot, Used(st, h.slot));
      assert Live(held, st, x) && TicketAt(held, st, x) == Chosen(held, st, h);
    }
  }

  lemma StepUsedUp(held: Held, st: Plan, p: Packet, age: nat, pressure: bool, id: nat)
    requires UsedUp(held, st, id) && p.id != id
    ensures UsedUp(held, Step(held, st, p, age, pressure), id)
  {
    var r := Step(held, st, p, age, pressure);
    if p.frame.Some? && p.frame.value.ingress {
      var f := p.frame.value;
      var slot, t := Slot(f.key, f.hop), Ticket(p.id, f.ts, f.checksum);
      forall x | Live(held, r, x) ensures TicketAt(held, r, x).id != id {
        assert Live(held, Offer(st, slot, t), x);
        OfferSpot(held, st, slot, t, x);
      }
    } else {
      forall x | Live(held, r, x) ensures TicketAt(held, r, x).id != id {
        TakenSpot(held, st, p, age, pressure, x);
      }
    }
  }

  /** Without an offer, a usable ticket was usable before. */
  lemma TakenSpot(held: Held, st: Plan, p: Packet, age: nat, pressure: bool, x: Spot)
    requires !(p.frame.Some? && p.frame.value.ingress) && Live(held, Step(held, st, p, age, pressure), x)
    ensures exists y ::
              Live(held, st, y) && TicketAt(held, st, y) == TicketAt(held, Step(held, st, p, age, pressure), x)
  {
    if p.frame.None? || Match(held, st, p.frame.value, age).Miss? {
      assert Live(held, st, x);
    } else {
      var h := Match(held, st, p.frame.value, age);
      if h.Local? {
        assert Live(held, TakeLocal(st, h.slot), x);
        LocalSpot(held, st, h.slot, x);
      } else {
        assert Live(held, st, x);
      }
    }
  }

  /** The new table after either kind of commit. */
  lemma CommittedBound(L: Limits, d: Cache, st: Plan, e: Cache, enqueued: seq<Packet>, admitted: seq<Packet>,
                       skips: seq<Pair>, used: seq<Pair>)
    requires CacheOk(e) && !OverCap(L, e) && Inherits(d.held, st, e.held)
    requires Single(d.held, st) && AllIssued(enqueued, d.held) && AllIssued(admitted, st.offers)
    requires forall p :: p in enqueued ==> p in admitted
    requires forall q :: q in skips + used ==> UsedUp(d.held, st, q.ingress)
    ensures CacheBound(L, e, admitted, skips + used)
  {
    AllIssuedMore(enqueued, admitted, d.held);
    InheritSingle(d.held, st, e.held);
    InheritIssued(d.held, st, e.held, admitted);
    forall q | q in skips + used ensures UsedUp(e.held, EMPTY_PLAN, q.ingress) {
      InheritUsedUp(d.held, st, e.held, q.ingress);
    }
  }

  function Bare(st: Plan): Plan { st.(offers := map[]) }

  lemma BareInherits(d: Cache, st: Plan)
    requires CacheOk(d) && UsesOk(d.held, st)
    ensures CommitPriorSkips(d, st).Some? && Inherits(d.held, Bare(st), CommitPriorSkips(d, st).value.held)
  {
    PlanCanSpend(d, st);
    SpendAllOk(d, st.useOrder, st.uses);
    var e := CommitPriorSkips(d, st).value;
    forall s | s in e.held ensures SliceOf(e.held[s], Usable(d.held, Bare(st), s)) {
      assert At(e, s) == e.held[s];
      BareUsable(d, st, s, e.held[s]);
    }
  }

  lemma BareUsable(d: Cache, st: Plan, s: Slot, tickets: seq<Ticket>)
    requires UsesOk(d.held, st) && tickets != [] && tickets == if s in st.useOrder then Left(At(d, s), st.uses, s)
             else At(d, s)
    ensures SliceOf(tickets, Usable(d.held, Bare(st), s))
  {
    AppendNil(tickets);
    assert Usable(d.held, Bare(st), s) == tickets;
    assert IsSlice(tickets, tickets, 0);
  }

  lemma BareSingle(held: Held, st: Plan)
    requires Single(held, st)
    ensures Single(held, Bare(st))
  {
    assert forall x :: Live(held, Bare(st), x) ==>
           Live(held, st, x) && TicketAt(held, Bare(st), x) == TicketAt(held, st, x);
  }

  lemma BareUsedUp(held: Held, st: Plan, id: nat)
    requires UsedUp(held, st, id)
    ensures UsedUp(held, Bare(st), id)
  {
    assert forall x :: Live(held, Bare(st), x) ==>
           Live(held, st, x) && TicketAt(held, Bare(st), x) == TicketAt(held, st, x);
  }

  /** The failure path issues nothing, so its tickets are those of the earlier batches. */
  lemma RolledBackBound(L: Limits, d: Cache, st: Plan, e: Cache, enqueued: seq<Packet>, skips: seq<Pair>,
                        used: seq<Pair>)
    requires CacheOk(d) && !OverCap(L, d) && UsesOk(d.held, st) && CommitPriorSkips(d, st) == Some(e)
    requires Single(d.held, st) && AllIssued(enqueued, d.held)
    requires forall q :: q in skips + used ==> UsedUp(d.held, st, q.ingress)
    ensures CacheBound(L, e, enqueued, skips + used)
  {
    CommitPriorOk(L, d, st);
    BareInherits(d, st);
    BareSingle(d.held, st);
    forall q | q in skips + used ensures UsedUp(d.held, Bare(st), q.ingress) {
      BareUsedUp(d.held, st, q.ingress);
    }
    CommittedBound(L, d, Bare(st), e, enqueued, enqueued, skips, used);
  }

  // ---------------------------------------------------------------- one batch

  /** The plan of a batch on a sound table, and the skips it keeps used up. */
  lemma PlannedOk(L: Limits, c: Cache, packets: seq<Packet>, pressure: bool, enqueued: seq<Packet>, skips: seq<Pair>)
    requires packets != [] && CacheBound(L, c, enqueued, skips) && NewIds(packets, enqueued)
             && IngressIn(skips, Ids(enqueued))
    ensures var (d, st) := Planned(L, c, packets, pressure);
            && CacheBound(L, d, enqueued, skips) && PlanOk(d.held, enqueued, packets, st, L.maxAge, pressure)
            && (forall q :: q in skips + st.pairs ==> UsedUp(d.held, st, q.ingress))
            && (forall q :: q in st.pairs ==> Unpaired(skips, q.ingress))
  {
    var d := Expire(L, c, LatestTs(packets));
    ExpireBound(L, c, LatestTs(packets), enqueued, skips);
    BatchPlanOk(d.held, enqueued, packets, L.maxAge, pressure);
    var st := PlanLoop(d.held, EMPTY_PLAN, packets, L.maxAge, pressure);
    forall q | q in skips ensures UsedUp(d.held, st, q.ingress) && Unpaired(st.pairs, q.ingress) {
      OldIngress(packets, enqueued, q.ingress);
      StaysUsedUp(d.held, EMPTY_PLAN, packets, L.maxAge, pressure, q.ingress);
    }
  }

  lemma OldIngress(packets: seq<Packet>, enqueued: seq<Packet>, id: nat)
    requires NewIds(packets, enqueued) && id in Ids(enqueued)
    ensures !HasId(packets, id)
  {
    IdsHas(enqueued, id);
  }

  ghost predicate Delivered(L: Limits, enqueued: seq<Packet>, skips: seq<Pair>, packets: seq<Packet>, d: Delivery) {
    && Splits(packets, d)
    && CacheBound(L, d.cache, enqueued + d.enqueued, skips + d.skips)
    && OncePerIngress(d.skips) && IngressIn(d.skips, Ids(enqueued) + Ids(d.enqueued))
    && (forall q :: q in d.skips ==> Unpaired(skips, q.ingress))
    && AllJustified(d.skips, packets, enqueued + d.enqueued, L.maxAge)
  }

  /** A pair's ingress was admitted before, or is retained in this batch. */
  lemma IngressAdmitted(pairs: seq<Pair>, copies: seq<Packet>, a: seq<Packet>, b: seq<Packet>, age: nat)
    requires AllJustified(pairs, copies, a + b, age)
    ensures IngressIn(pairs, Ids(a) + Ids(b))
  {
    forall q | q in pairs ensures q.ingress in Ids(a) + Ids(b) {
      var c, g :| c in copies && g in a + b && c.id == q.copy && g.id == q.ingress && Forwards(g, c, age);
      assert g in a || g in b;
    }
  }

  lemma AdmittedSplits(cache: Cache, st: Plan, packets: seq<Packet>)
    requires Placed(packets, st)
    ensures Splits(packets, Delivery(cache, st.retained, st.pairs, [], Size(packets) - Size(st.retained)))
  {
    AppendNil(st.retained);
    FilterIsKept(packets, st.pairs);
    SizeSplit(packets, Copies(st.pairs));
  }

  lemma AdmittedBound(L: Limits, d: Cache, st: Plan, enqueued: seq<Packet>, skips: seq<Pair>)
    requires CacheOk(d) && AllIssued(enqueued, d.held) && UsesOk(d.held, st) && Single(d.held, st)
             && AllIssued(st.retained, st.offers)
    requires forall q :: q in skips + st.pairs ==> UsedUp(d.held, st, q.ingress)
    ensures Commit(L, d, st).Some? && CacheBound(L, Commit(L, d, st).value, enqueued + st.retained, skips + st.pairs)
  {
    CommitOk(L, d, st);
    AllIssuedMore(st.retained, enqueued + st.retained, st.offers);
    CommittedBound(L, d, st, Commit(L, d, st).value, enqueued, enqueued + st.retained, skips, st.pairs);
  }

  lemma AdmittedOk(L: Limits, d: Cache, st: Plan, enqueued: seq<Packet>, skips: seq<Pair>, packets: seq<Packet>,
                   pressure: bool)
    requires CacheBound(L, d, enqueued, skips) && PlanOk(d.held, enqueued, packets, st, L.maxAge, pressure)
    requires forall q :: q in skips + st.pairs ==> UsedUp(d.held, st, q.ingress)
    requires forall q :: q in st.pairs ==> Unpaired(skips, q.ingress)
    ensures Commit(L, d, st).Some?
    ensures Delivered(L, enqueued, skips, packets,
                      Delivery(Commit(L, d, st).value, st.retained, st.pairs, [], Size(packets) - Size(st.retained)))
  {
    AdmittedBound(L, d, st, enqueued, skips);
    AdmittedSplits(Commit(L, d, st).value, st, packets);
    IngressAdmitted(st.pairs, packets, enqueued, st.retained, L.maxAge);
  }

  lemma RejectedOk(L: Limits, d: Cache, st: Plan, enqueued: seq<Packet>, skips: seq<Pair>, packets: seq<Packet>,
                   pressure: bool)
    requires CacheBound(L, d, enqueued, skips) && PlanOk(d.held, enqueued, packets, st, L.maxAge, pressure)
    requires forall q :: q in skips + st.pairs ==> UsedUp(d.held, st, q.ingress)
    requires forall q :: q in st.pairs ==> Unpaired(skips, q.ingress)
    ensures CommitPriorSkips(d, st).Some?
    ensures var dropped := Filter(packets, Copies(st.prior), false);
            && Delivered(L, enqueued, skips, packets,
                         Delivery(CommitPriorSkips(d, st).value, [], st.prior, dropped,
                                  Size(Filter(packets, Copies(st.prior), true))))
            && |dropped| >= |st.retained|
  {
    CommitPriorOk(L, d, st);
    var e := CommitPriorSkips(d, st).value;
    RolledBackBound(L, d, st, e, enqueued, skips, st.prior);
    AppendNil(enqueued);
    IngressAdmitted(st.prior, packets, enqueued, [], L.maxAge);
    FilterIsKept(packets, st.prior);
    AppendNil(Kept(packets, st.prior));
    SizeSplit(packets, Copies(st.prior));
  }

  /**
   * Delivering a batch never raises. The batch splits exactly; a rejected batch drops at least one
   * packet; and no skip rests on an ingress frame that an earlier skip, or another skip, rests on.
   */
  lemma DeliverOk(L: Limits, c: Cache, packets: seq<Packet>, pressure: bool, admitted: bool, enqueued: seq<Packet>,
                  skips: seq<Pair>)
    requires packets != [] && CacheBound(L, c, enqueued, skips) && NewIds(packets, enqueued)
             && IngressIn(skips, Ids(enqueued))
    ensures Deliver(L, c, packets, pressure, admitted).Some?
    ensures var d := Deliver(L, c, packets, pressure, admitted).value;
            && Delivered(L, enqueued, skips, packets, d)
            && (!admitted ==> d.enqueued == [] && (d.dropped != [] || |d.skips| == |packets|))
            && (admitted ==> d.dropped == [])
            && (!pressure ==> d.skips == [])
  {
    PlannedOk(L, c, packets, pressure, enqueued, skips);
    var (d, st) := Planned(L, c, packets, pressure);
    if st.retained == [] || admitted {
      AdmittedOk(L, d, st, enqueued, skips, packets, pressure);
    } else {
      RejectedOk(L, d, st, enqueued, skips, packets, pressure);
    }
  }

  // ---------------------------------------------------------------- runs

  datatype Batch = Batch(packets: seq<Packet>, pressure: bool, admitted: bool)

  function Record(w: World, packets: seq<Packet>, d: Delivery): World {
    World(d.cache, w.captured + packets, w.enqueued + d.enqueued, w.skips + d.skips, w.dropped + d.dropped)
  }

  /** One call of the dispatcher; an empty batch does nothing. */
  function Next(L: Limits, w: World, b: Batch, suppress: bool): Option<World> {
    if b.packets == [] then Some(w)
    else if !suppress then Some(Record(w, b.packets, DeliverPlain(w.cache, b.packets, b.admitted)))
    else
      var d := Deliver(L, w.cache, b.packets, b.pressure, b.admitted);
      if d.None? then None else Some(Record(w, b.packets, d.value))
  }

  lemma EnqueuedAreNew(w: World, packets: seq<Packet>)
    requires NewIds(packets, w.captured) && forall p :: p in w.enqueued ==> p in w.captured
    ensures NewIds(packets, w.enqueued)
  {
  }

  lemma JustifiedJoin(L: Limits, w: World, packets: seq<Packet>, d: Delivery)
    requires AllJustified(w.skips, w.captured, w.enqueued, L.maxAge)
             && AllJustified(d.skips, packets, w.enqueued + d.enqueued, L.maxAge)
    ensures AllJustified(w.skips + d.skips, w.captured + packets, w.enqueued + d.enqueued, L.maxAge)
  {
    AllJustifiedMore(w.skips, w.captured, w.enqueued, w.captured + packets, w.enqueued + d.enqueued, L.maxAge);
    AllJustifiedMore(d.skips, packets, w.enqueued + d.enqueued, w.captured + packets, w.enqueued + d.enqueued,
                     L.maxAge);
  }

  lemma IdsJoin(a: seq<Packet>, b: seq<Packet>)
    ensures Ids(a + b) == Ids(a) + Ids(b)
  {
    assert forall x :: x in a + b <==> x in a || x in b;
  }

  lemma {:induction false} KeptMembers(packets: seq<Packet>, pairs: seq<Pair>)
    ensures forall p :: p in Kept(packets, pairs) ==> p in packets
    decreases |packets|
  {
    if packets != [] {
      KeptMembers(packets[..|packets| - 1], pairs);
    }
  }

  lemma OnceJoin(a: seq<Pair>, b: seq<Pair>)
    requires OncePerIngress(a) && OncePerIngress(b) && forall q :: q in b ==> Unpaired(a, q.ingress)
    ensures OncePerIngress(a + b)
  {
    var r := a + b;
    forall i, j | 0 <= i < j < |r| ensures r[i].ingress != r[j].ingress {
      if i < |a| <= j {
        assert r[i] in a && r[j] == b[j - |a|] && r[j] in b;
      } else if j < |a| {
        assert r[i] == a[i] && r[j] == a[j];
      } else {
        assert r[i] == b[i - |a|] && r[j] == b[j - |a|];
      }
    }
  }

  lemma RecordOk(L: Limits, w: World, packets: seq<Packet>, d: Delivery)
    requires WorldOk(L, w) && Delivered(L, w.enqueued, w.skips, packets, d)
    ensures WorldOk(L, Record(w, packets, d))
  {
    OnceJoin(w.skips, d.skips);
    IdsJoin(w.enqueued, d.enqueued);
    JustifiedJoin(L, w, packets, d);
    KeptMembers(packets, d.skips);
    assert forall p :: p in d.enqueued ==> p in d.enqueued + d.dropped;
  }

  lemma PlainDelivered(L: Limits, w: World, packets: seq<Packet>, admitted: bool)
    requires WorldOk(L, w)
    ensures Delivered(L, w.enqueued, w.skips, packets, DeliverPlain(w.cache, packets, admitted))
  {
    var d := DeliverPlain(w.cache, packets, admitted);
    PlainSplits(w.cache, packets, admitted);
    AppendNil(w.skips);
    AppendNil(w.enqueued);
    PlainBound(L, w.cache, w.enqueued, d.enqueued, w.skips);
  }

  lemma PlainSplits(c: Cache, packets: seq<Packet>, admitted: bool)
    ensures Splits(packets, DeliverPlain(c, packets, admitted))
  {
    NothingSkipped(packets);
    AppendNil(packets);
  }

  lemma PlainBound(L: Limits, c: Cache, enqueued: seq<Packet>, more: seq<Packet>, skips: seq<Pair>)
    requires CacheBound(L, c, enqueued, skips)
    ensures CacheBound(L, c, enqueued + more, skips)
  {
    AllIssuedMore(enqueued, enqueued + more, c.held);
  }

  lemma {:induction false} NothingSkipped(packets: seq<Packet>)
    ensures Kept(packets, []) == packets
    decreases |packets|
  {
    if packets != [] {
      NothingSkipped(packets[..|packets| - 1]);
      assert packets[..|packets| - 1] + [packets[|packets| - 1]] == packets;
    }
  }

  /** Every dispatch succeeds and keeps the invariant, whatever the queue answered. */
  lemma NextOk(L: Limits, w: World, b: Batch, suppress: bool)
    requires WorldOk(L, w) && NewIds(b.packets, w.captured)
    ensures Next(L, w, b, suppress).Some? && WorldOk(L, Next(L, w, b, suppress).value)
  {
    if b.packets != [] {
      if suppress {
        EnqueuedAreNew(w, b.packets);
        DeliverOk(L, w.cache, b.packets, b.pressure, b.admitted, w.enqueued, w.skips);
        RecordOk(L, w, b.packets, Deliver(L, w.cache, b.packets, b.pressure, b.admitted).value);
      } else {
        PlainDelivered(L, w, b.packets, b.admitted);
        RecordOk(L, w, b.packets, DeliverPlain(w.cache, b.packets, b.admitted));
      }
    }
  }

  /** A run: packet ids are never reused. */
  ghost predicate IsRun(L: Limits, suppress: bool, batches: seq<Batch>, worlds: seq<World>) {
    && |worlds| == |batches| + 1 && worlds[0] == START
    && forall i: nat {:trigger Stepped(L, suppress, batches, worlds, i)} ::
         i < |batches| ==> Stepped(L, suppress, batches, worlds, i)
  }

  ghost predicate Stepped(L: Limits, suppress: bool, batches: seq<Batch>, worlds: seq<World>, i: nat)
    requires i < |batches| && |worlds| == |batches| + 1
  {
    && NewIds(batches[i].packets, worlds[i].captured)
    && Next(L, worlds[i], batches[i], suppress) == Some(worlds[i + 1])
  }

  lemma {:induction false} RunOk(L: Limits, suppress: bool, batches: seq<Batch>, worlds: seq<World>, n: nat)
    requires IsRun(L, suppress, batches, worlds) && n < |worlds|
    ensures WorldOk(L, worlds[n])
    decreases n
  {
    if n > 0 {
      RunOk(L, suppress, batches, worlds, n - 1);
      assert Stepped(L, suppress, batches, worlds, n - 1);
      NextOk(L, worlds[n - 1], batches[n - 1], suppress);
    }
  }

  /**
   * Over any run each ingress frame authorises at most one skip, and each skipped packet is a
   * forwarded copy of an ingress frame that was really enqueued, in the same or an earlier batch.
   */
  lemma SkipsAreSound(L: Limits, suppress: bool, batches: seq<Batch>, worlds: seq<World>, n: nat)
    requires IsRun(L, suppress, batches, worlds) && n < |worlds|
    ensures var w := worlds[n];
            && (forall i, j :: 0 <= i < j < |w.skips| ==> w.skips[i].ingress != w.skips[j].ingress)
            && (forall q :: q in w.skips ==> Justified(q, w.captured, w.enqueued, L.maxAge))
  {
    RunOk(L, suppress, batches, worlds, n);
  }

  /** The identity checked at shutdown: captured packets are the dispatched, suppressed and dropped ones. */
  lemma Accounting(L: Limits, suppress: bool, batches: seq<Batch>, worlds: seq<World>, n: nat)
    requires IsRun(L, suppress, batches, worlds) && n < |worlds|
    ensures |worlds[n].captured| == |worlds[n].enqueued| + |worlds[n].skips| + |worlds[n].dropped|
    ensures |worlds[n].cache.order| <= L.maxEntries
            && worlds[n].cache.keyBytes == KeyBytes(worlds[n].cache.order) <= L.maxBytes
  {
    RunOk(L, suppress, batches, worlds, n);
  }
}
