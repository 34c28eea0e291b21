/** Dispatching batches to the analysis queues, with or without forwarded-duplicate suppression. */
module Dispatch {
  import opened Common
  import opened Suppression
  import opened SuppressionPlan
  import opened SuppressionTable

  /** What one batch came to. */
  datatype Delivery = Delivery(cache: Cache, enqueued: seq<Packet>, skips: seq<Pair>, dropped: seq<Packet>,
                               skippedBytes: int)

  ghost function Ids(packets: seq<Packet>): set<nat> { set p | p in packets :: p.id }

  function Size(packets: seq<Packet>): nat {
    if packets == [] then 0 else Size(packets[..|packets| - 1]) + packets[|packets| - 1].size
  }

  function Copies(pairs: seq<Pair>): set<nat> { set q | q in pairs :: q.copy }

  function Filter(packets: seq<Packet>, ids: set<nat>, inside: bool): seq<Packet> {
    if packets == [] then []
    else
      var p := packets[|packets| - 1];
      Filter(packets[..|packets| - 1], ids, inside) + if (p.id in ids) == inside then [p] else []
  }

  /** The table after expiry, and the plan for the batch. */
  function Planned(L: Limits, c: Cache, packets: seq<Packet>, pressure: bool): (Cache, Plan)
    requires packets != []
  {
    var d := Expire(L, c, LatestTs(packets));
    (d, PlanLoop(d.held, EMPTY_PLAN, packets, L.maxAge, pressure))
  }

  /**
   * Suppressing dispatch. `admitted` says whether the byte reservation and the queue slot were both
   * obtained; it is not consulted when nothing is left to enqueue. None is the error the table raises
   * when planned tickets are no longer there.
   */
  function Deliver(L: Limits, c: Cache, packets: seq<Packet>, pressure: bool, admitted: bool): Option<Delivery>
    requires packets != []
  {
    var (d, plan) := Planned(L, c, packets, pressure);
    if plan.retained == [] || admitted then
      var e := Commit(L, d, plan);
      if e.None? then None
      else Some(Delivery(e.value, plan.retained, plan.pairs, [], Size(packets) - Size(plan.retained)))
    else
      var e := CommitPriorSkips(d, plan);
      if e.None? then None
      else Some(Delivery(e.value, [], plan.prior, Filter(packets, Copies(plan.prior), false),
                         Size(Filter(packets, Copies(plan.prior), true))))
  }

  /** Dispatch without a suppressor. */
  function DeliverPlain(c: Cache, packets: seq<Packet>, admitted: bool): Delivery {
    if admitted then Delivery(c, packets, [], [], 0) else Delivery(c, [], [], packets, 0)
  }

  // ---------------------------------------------------------------- planning a whole batch

  ghost predicate PlanOk(held: Held, enqueued: seq<Packet>, done: seq<Packet>, st: Plan, age: nat, pressure: bool) {
    && TicketsOk(held, st, Ids(enqueued) + Ids(done))
    && UsesOk(held, st) && Placed(done, st) && SkipsOk(enqueued, done, st, age)
    && (!pressure ==> st.pairs == [])
  }

  ghost predicate TableOk(held: Held, enqueued: seq<Packet>) { Single(held, EMPTY_PLAN) && AllIssued(enqueued, held) }

  lemma IdsSnoc(done: seq<Packet>, p: Packet)
    ensures Ids(done + [p]) == Ids(done) + {p.id}
  {
    assert forall x :: x in done + [p] <==> x in done || x == p;
    assert p in done + [p];
  }

  lemma IdsHas(packets: seq<Packet>, id: nat)
    ensures id in Ids(packets) <==> HasId(packets, id)
  {
  }

  lemma StartOk(held: Held, enqueued: seq<Packet>, age: nat, pressure: bool)
    requires TableOk(held, enqueued)
    ensures PlanOk(held, enqueued, [], EMPTY_PLAN, age, pressure)
  {
    forall x | Live(held, EMPTY_PLAN, x) ensures TicketAt(held, EMPTY_PLAN, x).id in Ids(enqueued) {
      assert Issued(enqueued, x.slot, held[x.slot][x.i]);
    }
  }

  lemma KeepOk(held: Held, enqueued: seq<Packet>, done: seq<Packet>, st: Plan, p: Packet, age: nat, pressure: bool)
    requires PlanOk(held, enqueued, done, st, age, pressure) && !HasId(done, p.id)
    ensures PlanOk(held, enqueued, done + [p], Keep(st, p), age, pressure)
  {
    KeepTickets(held, st, p, Ids(enqueued) + Ids(done));
    MoreSeen(held, Keep(st, p), Ids(enqueued) + Ids(done), {p.id});
    SeenSnoc(enqueued, done, p);
    KeepPlaced(done, st, p);
    KeepSkips(enqueued, done, st, p, age);
  }

  lemma SeenSnoc(enqueued: seq<Packet>, done: seq<Packet>, p: Packet)
    ensures Ids(enqueued) + Ids(done + [p]) == Ids(enqueued) + Ids(done) + {p.id}
  {
    IdsSnoc(done, p);
  }

  lemma OfferOk(held: Held, enqueued: seq<Packet>, done: seq<Packet>, st: Plan, p: Packet, slot: Slot, t: Ticket,
                age: nat, pressure: bool)
    requires PlanOk(held, enqueued, done, st, age, pressure) && !HasId(done, p.id) && !HasId(enqueued, p.id)
             && OfferedBy(p, slot, t)
    ensures PlanOk(held, enqueued, done + [p], Keep(Offer(st, slot, t), p), age, pressure)
  {
    IdsHas(done, p.id);
    IdsHas(enqueued, p.id);
    OfferTickets(held, st, slot, t, Ids(enqueued) + Ids(done));
    KeepTickets(held, Offer(st, slot, t), p, Ids(enqueued) + Ids(done) + {p.id});
    SeenSnoc(enqueued, done, p);
    OfferUses(held, st, slot, t);
    OfferPlaced(done, st, p, slot, t);
    OfferSkips(enqueued, done, st, p, slot, t, age);
  }

  lemma OfferPlaced(done: seq<Packet>, st: Plan, p: Packet, slot: Slot, t: Ticket)
    requires Placed(done, st) && !HasId(done, p.id)
    ensures Placed(done + [p], Keep(Offer(st, slot, t), p))
  {
    KeepPlaced(done, st, p);
  }

  /** After a ticket was taken, its packet may be paired or not. */
  ghost predicate Taken(held: Held, enqueued: seq<Packet>, done: seq<Packet>, st: Plan, g: nat, age: nat,
                        pressure: bool) {
    PlanOk(held, enqueued, done, st, age, pressure) && g in Ids(enqueued) + Ids(done) && UsedUp(held, st, g)
      && Unpaired(st.pairs, g)
  }

  lemma LocalTaken(held: Held, enqueued: seq<Packet>, done: seq<Packet>, st: Plan, slot: Slot, age: nat, pressure: bool)
    requires PlanOk(held, enqueued, done, st, age, pressure) && slot in st.offers && st.offers[slot] != []
    ensures Taken(held, enqueued, done, TakeLocal(st, slot), st.offers[slot][0].id, age, pressure)
  {
    LocalTickets(held, st, slot, Ids(enqueued) + Ids(done));
    LocalUses(held, st, slot);
    LocalIssued(st.retained, st, slot);
  }

  lemma EarlierTaken(held: Held, enqueued: seq<Packet>, done: seq<Packet>, st: Plan, slot: Slot, age: nat,
                     pressure: bool)
    requires PlanOk(held, enqueued, done, st, age, pressure) && slot in held && Used(st, slot) < |held[slot]|
    ensures Taken(held, enqueued, done, TakeEarlier(st, slot), held[slot][Used(st, slot)].id, age, pressure)
  {
    EarlierTickets(held, st, slot, Ids(enqueued) + Ids(done));
    EarlierUses(held, st, slot);
  }

  lemma SettleOk(held: Held, enqueued: seq<Packet>, done: seq<Packet>, st: Plan, p: Packet, q: Packet, earlier: bool,
                 age: nat, pressure: bool)
    requires Taken(held, enqueued, done, st, q.id, age, pressure) && !HasId(done, p.id)
    requires Forwards(q, p, age) && q in (if earlier then enqueued else st.retained)
    ensures PlanOk(held, enqueued, done + [p], Settle(st, p, q.id, earlier, pressure), age, pressure)
  {
    if pressure {
      SettleTickets(held, st, p, q.id, earlier, true, Ids(enqueued) + Ids(done));
      MoreSeen(held, Settle(st, p, q.id, earlier, true), Ids(enqueued) + Ids(done), {p.id});
      SeenSnoc(enqueued, done, p);
      SkipPlaced(done, st, p, q.id, earlier);
      SettleSkips(enqueued, done, st, p, q, earlier, age);
    } else {
      KeepOk(held, enqueued, done, st, p, age, pressure);
    }
  }

  lemma PlaceOk(held: Held, enqueued: seq<Packet>, done: seq<Packet>, st: Plan, p: Packet, f: Frame, age: nat,
                pressure: bool)
    requires PlanOk(held, enqueued, done, st, age, pressure) && !HasId(done, p.id) && AllIssued(enqueued, held)
    requires p.frame == Some(f) && !f.ingress
    ensures PlanOk(held, enqueued, done + [p], Place(held, st, p, f, age, pressure), age, pressure)
  {
    var h := Match(held, st, f, age);
    if h.Local? {
      LocalTaken(held, enqueued, done, st, h.slot, age, pressure);
      assert Issued(st.retained, h.slot, st.offers[h.slot][0]);
      HitForwards(held, st, p, f, age, st.retained);
      var q :| q in st.retained && q.id == Chosen(held, st, h).id && Forwards(q, p, age);
      SettleOk(held, enqueued, done, TakeLocal(st, h.slot), p, q, false, age, pressure);
    } else if h.Earlier? {
      EarlierTaken(held, enqueued, done, st, h.slot, age, pressure);
      assert Issued(enqueued, h.slot, held[h.slot][Used(st, h.slot)]);
      HitForwards(held, st, p, f, age, enqueued);
      var q :| q in enqueued && q.id == Chosen(held, st, h).id && Forwards(q, p, age);
      SettleOk(held, enqueued, done, TakeEarlier(st, h.slot), p, q, true, age, pressure);
    } else {
      KeepOk(held, enqueued, done, st, p, age, pressure);
    }
  }

  lemma StepOk(held: Held, enqueued: seq<Packet>, done: seq<Packet>, st: Plan, p: Packet, age: nat, pressure: bool)
    requires PlanOk(held, enqueued, done, st, age, pressure) && !HasId(done, p.id) && !HasId(enqueued, p.id)
             && AllIssued(enqueued, held)
    ensures PlanOk(held, enqueued, done + [p], Step(held, st, p, age, pressure), age, pressure)
  {
    if p.frame.None? {
      KeepOk(held, enqueued, done, st, p, age, pressure);
    } else {
      var f := p.frame.value;
      if f.ingress {
        OfferOk(held, enqueued, done, st, p, Slot(f.key, f.hop), Ticket(p.id, f.ts, f.checksum), age, pressure);
      } else {
        PlaceOk(held, enqueued, done, st, p, f, age, pressure);
      }
    }
  }

  /** The packets of a batch are new, and pairwise different. */
  ghost predicate NewIds(packets: seq<Packet>, known: seq<Packet>) {
    && (forall i, j :: 0 <= i < j < |packets| ==> packets[i].id != packets[j].id)
    && (forall p :: p in packets ==> !HasId(known, p.id))
  }

  lemma {:induction false} PlanLoopOk(held: Held, enqueued: seq<Packet>, done: seq<Packet>, st: Plan,
                                      packets: seq<Packet>, age: nat, pressure: bool)
    requires PlanOk(held, enqueued, done, st, age, pressure) && AllIssued(enqueued, held)
    requires NewIds(done + packets, enqueued)
    ensures PlanOk(held, enqueued, done + packets, PlanLoop(held, st, packets, age, pressure), age, pressure)
    decreases |packets|
  {
    if packets == [] {
      AppendNil(done);
    } else {
      var p := packets[0];
      NextIsNew(done, packets, enqueued);
      StepOk(held, enqueued, done, st, p, age, pressure);
      PlanLoopOk(held, enqueued, done + [p], Step(held, st, p, age, pressure), packets[1..], age, pressure);
    }
  }

  lemma NextIsNew(done: seq<Packet>, packets: seq<Packet>, known: seq<Packet>)
    requires packets != [] && NewIds(done + packets, known)
    ensures !HasId(done, packets[0].id) && !HasId(known, packets[0].id)
    ensures (done + [packets[0]]) + packets[1..] == done + packets
  {
    var all := done + packets;
    assert all[|done|] == packets[0];
    assert packets[0] in all;
    forall x | x in done ensures x.id != packets[0].id {
      var i :| 0 <= i < |done| && done[i] == x;
      assert all[i] == x;
    }
  }

  lemma BatchPlanOk(held: Held, enqueued: seq<Packet>, packets: seq<Packet>, age: nat, pressure: bool)
    requires TableOk(held, enqueued) && NewIds(packets, enqueued)
    ensures PlanOk(held, enqueued, packets, PlanLoop(held, EMPTY_PLAN, packets, age, pressure), age, pressure)
  {
    StartOk(held, enqueued, age, pressure);
    AppendNil(packets);
    PlanLoopOk(held, enqueued, [], EMPTY_PLAN, packets, age, pressure);
  }
}
