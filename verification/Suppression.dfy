/**
 * Forwarded-duplicate suppression: which egress copies of already captured ingress frames may be
 * skipped. A batch is planned first; the plan is committed only when its packets are admitted.
 */
module Suppression {
  import opened Common

  const MAX_INGRESS_COPIES_PER_KEY := 8
  const MAX_EXPIRY_INTERVAL := 250_000_000

  /** A normalised datagram with its VLAN stack, and the hop count it was seen with. */
  datatype Slot = Slot(key: Bytes, hop: nat)

  /** An ingress frame that may still authorise one skip. */
  datatype Ticket = Ticket(id: nat, ts: int, checksum: Option<nat>)

  datatype Frame = Frame(ingress: bool, key: Bytes, hop: nat, ts: int, checksum: Option<nat>)

  /** A parsed packet and, when it could take part in a match, its frame description. */
  datatype Packet = Packet(id: nat, ts: int, size: nat, frame: Option<Frame>)

  datatype Limits = Limits(maxBytes: nat, maxEntries: nat, maxAge: nat)

  datatype Cache = Cache(
    order: seq<Slot>, held: map<Slot, seq<Ticket>>, keyBytes: int, nextExpire: int, expired: nat, evicted: nat)

  const EMPTY_CACHE := Cache([], map[], 0, 0, 0, 0)

  // ---------------------------------------------------------------- matching

  /** One hop less adds 0x0100 to a one's-complement header checksum. */
  predicate ChecksumMatches(ingress: Option<nat>, egress: Option<nat>, decremented: bool) {
    if ingress.None? || egress.None? then ingress.None? && egress.None?
    else if !decremented then ingress.value == egress.value
    else (ingress.value + 0x0100) % 0x1_0000 + (ingress.value + 0x0100) / 0x1_0000 == egress.value
  }

  predicate Fits(t: Ticket, f: Frame, decremented: bool, age: nat) {
    0 <= f.ts - t.ts <= age && ChecksumMatches(t.checksum, f.checksum, decremented)
  }

  datatype Pair = Pair(copy: nat, ingress: nat)

  datatype Plan = Plan(
    retained: seq<Packet>, pairs: seq<Pair>, prior: seq<Pair>,
    useOrder: seq<Slot>, uses: map<Slot, nat>,
    freshOrder: seq<Slot>, offers: map<Slot, seq<Ticket>>)

  const EMPTY_PLAN := Plan([], [], [], [], map[], [], map[])

  function Used(st: Plan, slot: Slot): nat { if slot in st.uses then st.uses[slot] else 0 }

  datatype Hit = Local(slot: Slot) | Earlier(slot: Slot) | Miss

  function Attempt(held: map<Slot, seq<Ticket>>, st: Plan, f: Frame, slot: Slot, decremented: bool, age: nat): Hit {
    if slot in st.offers && st.offers[slot] != [] && Fits(st.offers[slot][0], f, decremented, age) then Local(slot)
    else if slot in held && Used(st, slot) < |held[slot]| && Fits(held[slot][Used(st, slot)], f, decremented, age)
    then Earlier(slot)
    else Miss
  }

  /** A decremented hop count is tried before an unchanged one. */
  function Match(held: map<Slot, seq<Ticket>>, st: Plan, f: Frame, age: nat): Hit {
    var first := Attempt(held, st, f, Slot(f.key, f.hop + 1), true, age);
    if first.Miss? then Attempt(held, st, f, Slot(f.key, f.hop), false, age) else first
  }

  // ---------------------------------------------------------------- planning

  function Keep(st: Plan, p: Packet): Plan { st.(retained := st.retained + [p]) }

  function Offer(st: Plan, slot: Slot, t: Ticket): Plan {
    if slot in st.offers then st.(offers := st.offers[slot := st.offers[slot] + [t]])
    else st.(freshOrder := st.freshOrder + [slot], offers := st.offers[slot := [t]])
  }

  function TakeLocal(st: Plan, slot: Slot): Plan
    requires slot in st.offers && st.offers[slot] != []
  {
    st.(offers := st.offers[slot := st.offers[slot][1..]])
  }

  function TakeEarlier(st: Plan, slot: Slot): Plan {
    st.(useOrder := if slot in st.uses then st.useOrder else st.useOrder + [slot],
        uses := st.uses[slot := Used(st, slot) + 1])
  }

  /** A matched copy is skipped under pressure, and analysed like any other packet otherwise. */
  function Settle(st: Plan, p: Packet, ingress: nat, earlier: bool, pressure: bool): Plan {
    if !pressure then Keep(st, p)
    else st.(pairs := st.pairs + [Pair(p.id, ingress)],
             prior := if earlier then st.prior + [Pair(p.id, ingress)] else st.prior)
  }

  /** The ingress frame a hit stands for. */
  function Chosen(held: map<Slot, seq<Ticket>>, st: Plan, h: Hit): Ticket
    requires h.Local? ==> h.slot in st.offers && st.offers[h.slot] != []
    requires h.Earlier? ==> h.slot in held && Used(st, h.slot) < |held[h.slot]|
    requires !h.Miss?
  {
    if h.Local? then st.offers[h.slot][0] else held[h.slot][Used(st, h.slot)]
  }

  function Place(held: map<Slot, seq<Ticket>>, st: Plan, p: Packet, f: Frame, age: nat, pressure: bool): Plan {
    var h := Match(held, st, f, age);
    if h.Local? then Settle(TakeLocal(st, h.slot), p, Chosen(held, st, h).id, false, pressure)
    else if h.Earlier? then Settle(TakeEarlier(st, h.slot), p, Chosen(held, st, h).id, true, pressure)
    else Keep(st, p)
  }

  function Step(held: map<Slot, seq<Ticket>>, st: Plan, p: Packet, age: nat, pressure: bool): Plan {
    if p.frame.None? then Keep(st, p)
    else if p.frame.value.ingress then
      Keep(Offer(st, Slot(p.frame.value.key, p.frame.value.hop),
                 Ticket(p.id, p.frame.value.ts, p.frame.value.checksum)), p)
    else Place(held, st, p, p.frame.value, age, pressure)
  }

  function PlanLoop(held: map<Slot, seq<Ticket>>, st: Plan, packets: seq<Packet>, age: nat, pressure: bool): Plan
    decreases |packets|
  {
    if packets == [] then st
    else PlanLoop(held, Step(held, st, packets[0], age, pressure), packets[1..], age, pressure)
  }

  // ---------------------------------------------------------------- the table

  function Without(order: seq<Slot>, slot: Slot): seq<Slot> {
    if order == [] then []
    else if order[0] == slot then order[1..] else [order[0]] + Without(order[1..], slot)
  }

  function Remove(c: Cache, slot: Slot): Cache {
    c.(order := Without(c.order, slot), held := c.held - {slot}, keyBytes := c.keyBytes - |slot.key|)
  }

  function MoveToEnd(c: Cache, slot: Slot): Cache { c.(order := Without(c.order, slot) + [slot]) }

  /** Drops the stale tickets at the front. */
  function DropStale(tickets: seq<Ticket>, now: int, age: nat): seq<Ticket> {
    if tickets != [] && now - tickets[0].ts > age then DropStale(tickets[1..], now, age) else tickets
  }

  function ExpireSlot(c: Cache, slot: Slot, now: int, age: nat): Cache
    requires slot in c.held
  {
    var left := DropStale(c.held[slot], now, age);
    var d := c.(held := c.held[slot := left], expired := c.expired + Max(0, |c.held[slot]| - |left|));
    if left == [] then Remove(d, slot) else d
  }

  function ExpireLoop(c: Cache, slots: seq<Slot>, now: int, age: nat): Cache
    decreases |slots|
  {
    if slots == [] then c
    else ExpireLoop(if slots[0] in c.held then ExpireSlot(c, slots[0], now, age) else c, slots[1..], now, age)
  }

  /** A full sweep, at most once per interval. */
  function Expire(L: Limits, c: Cache, now: int): Cache {
    if now < c.nextExpire then c
    else ExpireLoop(c.(nextExpire := now + Min(MAX_EXPIRY_INTERVAL, L.maxAge / 4)), c.order, now, L.maxAge)
  }

  function LatestTs(packets: seq<Packet>): int
    requires packets != []
  {
    if |packets| == 1 then packets[0].ts else Max(packets[0].ts, LatestTs(packets[1..]))
  }

  // ---------------------------------------------------------------- committing

  /** Uses up the oldest tickets of a slot; None when the table no longer has them. */
  function Spend(c: Cache, slot: Slot, count: nat): Option<Cache> {
    if slot !in c.held || |c.held[slot]| < count then None
    else
      var left := c.held[slot][count..];
      var d := c.(held := c.held[slot := left]);
      Some(if left == [] then Remove(d, slot) else MoveToEnd(d, slot))
  }

  function SpendAll(c: Cache, slots: seq<Slot>, uses: map<Slot, nat>): Option<Cache>
    decreases |slots|
  {
    if slots == [] then Some(c)
    else if slots[0] !in uses then SpendAll(c, slots[1..], uses)
    else
      var d := Spend(c, slots[0], uses[slots[0]]);
      if d.None? then None else SpendAll(d.value, slots[1..], uses)
  }

  function LastTickets(tickets: seq<Ticket>): seq<Ticket> {
    if |tickets| <= MAX_INGRESS_COPIES_PER_KEY then tickets else tickets[|tickets| - MAX_INGRESS_COPIES_PER_KEY..]
  }

  function Opened(c: Cache, slot: Slot): Cache {
    if slot in c.held then MoveToEnd(c, slot)
    else c.(order := c.order + [slot], held := c.held[slot := []], keyBytes := c.keyBytes + |slot.key|)
  }

  function Issue(L: Limits, c: Cache, slot: Slot, tickets: seq<Ticket>): Cache {
    if tickets == [] || |slot.key| > L.maxBytes then c
    else
      var d := Opened(c, slot);
      var all := (if slot in c.held then c.held[slot] else []) + tickets;
      d.(held := d.held[slot := LastTickets(all)], evicted := d.evicted + (|all| - |LastTickets(all)|))
  }

  function IssueAll(L: Limits, c: Cache, slots: seq<Slot>, offers: map<Slot, seq<Ticket>>): Cache
    decreases |slots|
  {
    if slots == [] then c
    else IssueAll(L, if slots[0] in offers then Issue(L, c, slots[0], offers[slots[0]]) else c, slots[1..], offers)
  }

  predicate OverCap(L: Limits, c: Cache) { |c.order| > L.maxEntries || c.keyBytes > L.maxBytes }

  function EvictOldest(c: Cache): Cache
    requires c.order != []
  {
    Remove(c.(evicted := c.evicted + if c.order[0] in c.held then |c.held[c.order[0]]| else 0), c.order[0])
  }

  function EvictLoop(L: Limits, c: Cache): Cache
    decreases |c.order|
  {
    if !OverCap(L, c) || c.order == [] then c else EvictLoop(L, EvictOldest(c))
  }

  function Commit(L: Limits, c: Cache, plan: Plan): Option<Cache> {
    var spent := SpendAll(c, plan.useOrder, plan.uses);
    if spent.None? then None else Some(EvictLoop(L, IssueAll(L, spent.value, plan.freshOrder, plan.offers)))
  }

  /** After a failed admission only copies of earlier ingress count as skipped. */
  function CommitPriorSkips(c: Cache, plan: Plan): Option<Cache> { SpendAll(c, plan.useOrder, plan.uses) }
}
