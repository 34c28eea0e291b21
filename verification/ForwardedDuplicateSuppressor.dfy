/** The suppressor and the dispatcher as objects updated in place, tied to the functions of the model. */
module ForwardedDuplicateSuppressor {
  import opened Common
  import opened Suppression
  import opened Dispatch

  class Suppressor {
    const limits: Limits
    var order: seq<Slot>
    var held: map<Slot, seq<Ticket>>
    var keyBytes: int
    var nextExpire: int
    var expired: nat
    var evicted: nat

    constructor (limits: Limits)
      ensures Value() == EMPTY_CACHE && this.limits == limits
    {
      this.limits := limits;
      order, held, keyBytes, nextExpire, expired, evicted := [], map[], 0, 0, 0, 0;
    }

    function Value(): Cache reads this { Cache(order, held, keyBytes, nextExpire, expired, evicted) }

    method RemoveSlot(slot: Slot)
      modifies this
      ensures Value() == Remove(old(Value()), slot)
    {
      order, held, keyBytes := Without(order, slot), held - {slot}, keyBytes - |slot.key|;
    }

    method ExpireTickets(slot: Slot, now: int, age: nat)
      requires slot in held
      modifies this
      ensures Value() == ExpireSlot(old(Value()), slot, now, age)
    {
      var ids := held[slot];
      while ids != [] && now - ids[0].ts > age
        invariant |ids| <= |held[slot]| && DropStale(ids, now, age) == DropStale(held[slot], now, age)
      {
        ids := ids[1..];
      }
      expired := expired + Max(0, |held[slot]| - |ids|);
      held := held[slot := ids];
      if ids == [] {
        RemoveSlot(slot);
      }
    }

    method ExpireStale(now: int)
      modifies this
      ensures Value() == Expire(limits, old(Value()), now)
    {
      if now < nextExpire {
        return;
      }
      nextExpire := now + Min(MAX_EXPIRY_INTERVAL, limits.maxAge / 4);
      ghost var start := Value();
      var slots, i := order, 0;
      while i < |slots|
        invariant 0 <= i <= |slots|
        invariant ExpireLoop(Value(), slots[i..], now, limits.maxAge) == ExpireLoop(start, slots, now, limits.maxAge)
      {
        assert slots[i..][1..] == slots[i + 1..];
        if slots[i] in held {
          ExpireTickets(slots[i], now, limits.maxAge);
        }
        i := i + 1;
      }
    }

    /** Plans a batch without committing it; only expiry touches the table. */
    method PlanBatch(packets: seq<Packet>, pressure: bool) returns (plan: Plan)
      requires packets != []
      modifies this
      ensures Value() == Planned(limits, old(Value()), packets, pressure).0
      ensures plan == Planned(limits, old(Value()), packets, pressure).1
    {
      ExpireStale(LatestTs(packets));
      plan := EMPTY_PLAN;
      var i := 0;
      while i < |packets|
        invariant 0 <= i <= |packets|
        invariant PlanLoop(held, plan, packets[i..], limits.maxAge, pressure)
                  == PlanLoop(held, EMPTY_PLAN, packets, limits.maxAge, pressure)
        invariant Value() == Expire(limits, old(Value()), LatestTs(packets))
      {
        assert packets[i..][1..] == packets[i + 1..];
        plan := Step(held, plan, packets[i], limits.maxAge, pressure);
        i := i + 1;
      }
    }

    method SpendTickets(slot: Slot, count: nat) returns (ok: bool)
      modifies this
      ensures ok == Spend(old(Value()), slot, count).Some?
      ensures ok ==> Value() == Spend(old(Value()), slot, count).value
    {
      ok := slot in held && |held[slot]| >= count;
      if ok {
        held := held[slot := held[slot][count..]];
        if held[slot] == [] {
          RemoveSlot(slot);
        } else {
          order := Without(order, slot) + [slot];
        }
      }
    }

    /** False is the error raised when planned tickets are missing. */
    method CommitPriorSkipsOnFailure(plan: Plan) returns (ok: bool)
      modifies this
      ensures ok == CommitPriorSkips(old(Value()), plan).Some?
      ensures ok ==> Value() == CommitPriorSkips(old(Value()), plan).value
    {
      ghost var start := Value();
      var slots, i := plan.useOrder, 0;
      ok := true;
      while i < |slots|
        invariant 0 <= i <= |slots|
        invariant SpendAll(Value(), slots[i..], plan.uses) == SpendAll(start, slots, plan.uses)
      {
        assert slots[i..][1..] == slots[i + 1..];
        if slots[i] in plan.uses {
          ok := SpendTickets(slots[i], plan.uses[slots[i]]);
          if !ok {
            return;
          }
        }
        i := i + 1;
      }
    }

    method IssueTickets(slot: Slot, tickets: seq<Ticket>)
      modifies this
      ensures Value() == Issue(limits, old(Value()), slot, tickets)
    {
      if tickets == [] || |slot.key| > limits.maxBytes {
        return;
      }
      var all := (if slot in held then held[slot] else []) + tickets;
      if slot in held {
        order := Without(order, slot) + [slot];
      } else {
        order, keyBytes := order + [slot], keyBytes + |slot.key|;
        held := held[slot := []];
      }
      var kept := LastTickets(all);
      held, evicted := held[slot := kept], evicted + (|all| - |kept|);
    }

    method IssueOffers(plan: Plan)
      modifies this
      ensures Value() == IssueAll(limits, old(Value()), plan.freshOrder, plan.offers)
    {
      ghost var start := Value();
      var slots, i := plan.freshOrder, 0;
      while i < |slots|
        invariant 0 <= i <= |slots|
        invariant IssueAll(limits, Value(), slots[i..], plan.offers) == IssueAll(limits, start, slots, plan.offers)
      {
        assert slots[i..][1..] == slots[i + 1..];
        if slots[i] in plan.offers {
          IssueTickets(slots[i], plan.offers[slots[i]]);
        }
        i := i + 1;
      }
    }

    method EvictOverCap()
      modifies this
      ensures Value() == EvictLoop(limits, old(Value()))
    {
      while OverCap(limits, Value()) && order != []
        invariant EvictLoop(limits, Value()) == EvictLoop(limits, old(Value()))
        decreases |order|
      {
        var oldest := order[0];
        evicted := evicted + if oldest in held then |held[oldest]| else 0;
        RemoveSlot(oldest);
      }
    }

    method CommitPlan(plan: Plan) returns (ok: bool)
      modifies this
      ensures ok == Commit(limits, old(Value()), plan).Some?
      ensures ok ==> Value() == Commit(limits, old(Value()), plan).value
    {
      ok := CommitPriorSkipsOnFailure(plan);
      if ok {
        IssueOffers(plan);
        EvictOverCap();
      }
    }
  }

  // ---------------------------------------------------------------- the dispatcher

  /** What the queue answered: admitted, over the byte budget, or no free slot. */
  datatype Answer = Admitted | NoBytes | NoSlot

  datatype Tally = Tally(dispatched: nat, suppressed: nat, suppressedBytes: int, drops: nat, byteDrops: nat,
                         byteDropBytes: int, slotDrops: nat)

  /** The counters after a batch. */
  function Count(t: Tally, d: Delivery, a: Answer): Tally {
    var u := t.(dispatched := t.dispatched + |d.enqueued|, suppressed := t.suppressed + |d.skips|,
                suppressedBytes := t.suppressedBytes + d.skippedBytes, drops := t.drops + |d.dropped|);
    if d.dropped == [] then u
    else if a.NoBytes? then u.(byteDrops := u.byteDrops + |d.dropped|,
                               byteDropBytes := u.byteDropBytes + Size(d.dropped))
    else u.(slotDrops := u.slotDrops + |d.dropped|)
  }

  class Dispatcher {
    const suppressor: Suppressor
    var tally: Tally

    constructor (suppressor: Suppressor)
      ensures this.suppressor == suppressor && tally == Tally(0, 0, 0, 0, 0, 0, 0)
    {
      this.suppressor := suppressor;
      tally := Tally(0, 0, 0, 0, 0, 0, 0);
    }

    /** Plans, asks the queue, and commits or accounts for the failure. */
    method DispatchBatch(packets: seq<Packet>, pressure: bool, answer: Answer) returns (delivery: Option<Delivery>)
      requires packets != []
      modifies this, suppressor
      ensures delivery == Deliver(suppressor.limits, old(suppressor.Value()), packets, pressure, answer.Admitted?)
      ensures delivery.Some? ==>
              suppressor.Value() == delivery.value.cache && tally == Count(old(tally), delivery.value, answer)
    {
      var plan := suppressor.PlanBatch(packets, pressure);
      if plan.retained == [] || answer.Admitted? {
        var ok := suppressor.CommitPlan(plan);
        if !ok {
          return None;
        }
        delivery := Some(Delivery(suppressor.Value(), plan.retained, plan.pairs, [],
                                  Size(packets) - Size(plan.retained)));
      } else {
        var ok := suppressor.CommitPriorSkipsOnFailure(plan);
        if !ok {
          return None;
        }
        var gone := Copies(plan.prior);
        delivery := Some(Delivery(suppressor.Value(), [], plan.prior, Filter(packets, gone, false),
                                  Size(Filter(packets, gone, true))));
      }
      tally := Count(tally, delivery.value, answer);
    }
  }
}
