/** What planning a batch keeps: every ingress frame is used at most once, every packet is placed once. */
module SuppressionPlan {
  import opened Common
  import opened Suppression

  type Held = map<Slot, seq<Ticket>>

  // ---------------------------------------------------------------- tickets that can still be used

  /** A ticket of this batch, or one of an earlier batch. */
  datatype Spot = New(slot: Slot, i: nat) | Old(slot: Slot, i: nat)

  predicate Live(held: Held, st: Plan, x: Spot) {
    match x
    case New(s, i) => s in st.offers && i < |st.offers[s]|
    case Old(s, i) => s in held && Used(st, s) <= i < |held[s]|
  }

  function TicketAt(held: Held, st: Plan, x: Spot): Ticket
    requires Live(held, st, x)
  {
    match x
    case New(s, i) => st.offers[s][i]
    case Old(s, i) => held[s][i]
  }

  /** No two usable tickets come from the same packet. */
  ghost predicate Single(held: Held, st: Plan) {
    forall a, b :: Live(held, st, a) && Live(held, st, b) && TicketAt(held, st, a).id == TicketAt(held, st, b).id ==>
      a == b
  }

  ghost predicate UsedUp(held: Held, st: Plan, id: nat) {
    forall x :: Live(held, st, x) ==> TicketAt(held, st, x).id != id
  }

  ghost predicate LiveIn(held: Held, st: Plan, seen: set<nat>) {
    forall x :: Live(held, st, x) ==> TicketAt(held, st, x).id in seen
  }

  ghost predicate PairsUsedUp(held: Held, st: Plan) {
    forall q :: q in st.pairs ==> UsedUp(held, st, q.ingress)
  }

  ghost predicate OncePerIngress(pairs: seq<Pair>) {
    forall i, j :: 0 <= i < j < |pairs| ==> pairs[i].ingress != pairs[j].ingress
  }

  ghost predicate IngressIn(pairs: seq<Pair>, seen: set<nat>) { forall q :: q in pairs ==> q.ingress in seen }

  /** `seen` holds the ids of all packets enqueued before or planned so far. */
  ghost predicate TicketsOk(held: Held, st: Plan, seen: set<nat>) {
    && Single(held, st) && LiveIn(held, st, seen)
    && PairsUsedUp(held, st) && OncePerIngress(st.pairs) && IngressIn(st.pairs, seen)
    && OncePerIngress(st.prior) && (forall q :: q in st.prior ==> q in st.pairs)
  }

  lemma KeepTickets(held: Held, st: Plan, p: Packet, seen: set<nat>)
    requires TicketsOk(held, st, seen)
    ensures TicketsOk(held, Keep(st, p), seen)
  {
    SameLive(held, st, Keep(st, p), seen);
  }

  /** The tickets do not depend on the retained list. */
  lemma SameLive(held: Held, st: Plan, st': Plan, seen: set<nat>)
    requires TicketsOk(held, st, seen) && st'.offers == st.offers && st'.uses == st.uses && st'.pairs == st.pairs
             && st'.prior == st.prior
    ensures TicketsOk(held, st', seen)
  {
    assert forall x :: Live(held, st', x) <==> Live(held, st, x);
    assert forall x :: Live(held, st', x) ==> TicketAt(held, st', x) == TicketAt(held, st, x);
    forall q | q in st'.pairs ensures UsedUp(held, st', q.ingress) {
      assert UsedUp(held, st, q.ingress);
    }
  }

  lemma MoreSeen(held: Held, st: Plan, seen: set<nat>, more: set<nat>)
    requires TicketsOk(held, st, seen)
    ensures TicketsOk(held, st, seen + more)
  {
  }

  /** Where a spot after the offer was before it; the new ticket itself is last in its slot. */
  predicate IsNewest(st: Plan, slot: Slot, x: Spot) {
    x == New(slot, if slot in st.offers then |st.offers[slot]| else 0)
  }

  lemma OfferSpot(held: Held, st: Plan, slot: Slot, t: Ticket, x: Spot)
    requires Live(held, Offer(st, slot, t), x)
    ensures if IsNewest(st, slot, x) then TicketAt(held, Offer(st, slot, t), x) == t
            else Live(held, st, x) && TicketAt(held, st, x) == TicketAt(held, Offer(st, slot, t), x)
  {
  }

  lemma OfferTickets(held: Held, st: Plan, slot: Slot, t: Ticket, seen: set<nat>)
    requires TicketsOk(held, st, seen) && t.id !in seen
    ensures TicketsOk(held, Offer(st, slot, t), seen + {t.id})
  {
    var r := Offer(st, slot, t);
    forall x | Live(held, r, x)
      ensures if IsNewest(st, slot, x) then TicketAt(held, r, x) == t
              else Live(held, st, x) && TicketAt(held, st, x) == TicketAt(held, r, x)
    {
      OfferSpot(held, st, slot, t, x);
    }
    forall q | q in r.pairs ensures UsedUp(held, r, q.ingress) {
      assert UsedUp(held, st, q.ingress);
    }
  }

  lemma LocalSpot(held: Held, st: Plan, slot: Slot, x: Spot)
    requires slot in st.offers && st.offers[slot] != [] && Live(held, TakeLocal(st, slot), x)
    ensures var y := if x.New? && x.slot == slot then New(slot, x.i + 1) else x;
            Live(held, st, y) && TicketAt(held, st, y) == TicketAt(held, TakeLocal(st, slot), x)
  {
  }

  lemma LocalTickets(held: Held, st: Plan, slot: Slot, seen: set<nat>)
    requires TicketsOk(held, st, seen) && slot in st.offers && st.offers[slot] != []
    ensures TicketsOk(held, TakeLocal(st, slot), seen)
    ensures var g := st.offers[slot][0].id; g in seen && UsedUp(held, TakeLocal(st, slot), g) && Unpaired(st.pairs, g)
  {
    var r := TakeLocal(st, slot);
    var head := New(slot, 0);
    assert Live(held, st, head);
    forall x | Live(held, r, x)
      ensures var y := if x.New? && x.slot == slot then New(slot, x.i + 1) else x;
              Live(held, st, y) && y != head && TicketAt(held, st, y) == TicketAt(held, r, x)
    {
      LocalSpot(held, st, slot, x);
    }
    forall q | q in r.pairs ensures UsedUp(held, r, q.ingress) {
      assert UsedUp(held, st, q.ingress);
    }
    HeadUnpaired(held, st, head);
  }

  ghost predicate Unpaired(pairs: seq<Pair>, id: nat) { forall q :: q in pairs ==> q.ingress != id }

  lemma HeadUnpaired(held: Held, st: Plan, x: Spot)
    requires PairsUsedUp(held, st) && Live(held, st, x)
    ensures Unpaired(st.pairs, TicketAt(held, st, x).id)
  {
    forall q | q in st.pairs ensures q.ingress != TicketAt(held, st, x).id {
      assert UsedUp(held, st, q.ingress);
    }
  }

  lemma EarlierTickets(held: Held, st: Plan, slot: Slot, seen: set<nat>)
    requires TicketsOk(held, st, seen) && slot in held && Used(st, slot) < |held[slot]|
    ensures TicketsOk(held, TakeEarlier(st, slot), seen)
    ensures var g := held[slot][Used(st, slot)].id;
            g in seen && UsedUp(held, TakeEarlier(st, slot), g) && Unpaired(st.pairs, g)
  {
    var r := TakeEarlier(st, slot);
    var head := Old(slot, Used(st, slot));
    assert Live(held, st, head);
    forall x | Live(held, r, x) ensures Live(held, st, x) && x != head
      && TicketAt(held, st, x) == TicketAt(held, r, x) {
    }
    forall q | q in r.pairs ensures UsedUp(held, r, q.ingress) {
      assert UsedUp(held, st, q.ingress);
    }
    HeadUnpaired(held, st, head);
  }

  lemma SettleTickets(held: Held, st: Plan, p: Packet, g: nat, earlier: bool, pressure: bool, seen: set<nat>)
    requires TicketsOk(held, st, seen) && g in seen && UsedUp(held, st, g) && Unpaired(st.pairs, g)
    ensures TicketsOk(held, Settle(st, p, g, earlier, pressure), seen)
  {
    var r := Settle(st, p, g, earlier, pressure);
    assert forall x :: Live(held, r, x) <==> Live(held, st, x);
    assert forall x :: Live(held, r, x) ==> TicketAt(held, r, x) == TicketAt(held, st, x);
    forall q | q in r.pairs ensures UsedUp(held, r, q.ingress) {
      assert q in st.pairs || q.ingress == g;
      assert UsedUp(held, st, q.ingress);
    }
  }

  // ---------------------------------------------------------------- orders and counts of uses

  ghost predicate OrderOf(order: seq<Slot>, keys: set<Slot>) {
    Distinct(order) && forall s :: s in order <==> s in keys
  }

  ghost predicate UsesOk(held: Held, st: Plan) {
    && OrderOf(st.useOrder, st.uses.Keys) && OrderOf(st.freshOrder, st.offers.Keys)
    && forall s :: s in st.uses ==> s in held && 0 < st.uses[s] <= |held[s]|
  }

  lemma OrderSnoc(order: seq<Slot>, keys: set<Slot>, s: Slot)
    requires OrderOf(order, keys) && s !in keys
    ensures OrderOf(order + [s], keys + {s})
  {
  }

  lemma OfferUses(held: Held, st: Plan, slot: Slot, t: Ticket)
    requires UsesOk(held, st)
    ensures UsesOk(held, Offer(st, slot, t))
  {
    if slot !in st.offers {
      OrderSnoc(st.freshOrder, st.offers.Keys, slot);
      assert st.offers[slot := [t]].Keys == st.offers.Keys + {slot};
    } else {
      assert st.offers[slot := st.offers[slot] + [t]].Keys == st.offers.Keys;
    }
  }

  lemma LocalUses(held: Held, st: Plan, slot: Slot)
    requires UsesOk(held, st) && slot in st.offers && st.offers[slot] != []
    ensures UsesOk(held, TakeLocal(st, slot))
  {
    assert st.offers[slot := st.offers[slot][1..]].Keys == st.offers.Keys;
  }

  lemma EarlierUses(held: Held, st: Plan, slot: Slot)
    requires UsesOk(held, st) && slot in held && Used(st, slot) < |held[slot]|
    ensures UsesOk(held, TakeEarlier(st, slot))
  {
    var n := Used(st, slot) + 1;
    if slot !in st.uses {
      OrderSnoc(st.useOrder, st.uses.Keys, slot);
      assert st.uses[slot := n].Keys == st.uses.Keys + {slot};
    } else {
      assert st.uses[slot := n].Keys == st.uses.Keys;
    }
  }

  // ---------------------------------------------------------------- every packet is placed once

  ghost predicate HasId(packets: seq<Packet>, id: nat) { exists p :: p in packets && p.id == id }

  ghost predicate CopyOf(pairs: seq<Pair>, id: nat) { exists q :: q in pairs && q.copy == id }

  /** The packets that are not the copy of some pair. */
  ghost function Kept(packets: seq<Packet>, pairs: seq<Pair>): seq<Packet> {
    if packets == [] then []
    else
      var p := packets[|packets| - 1];
      Kept(packets[..|packets| - 1], pairs) + if CopyOf(pairs, p.id) then [] else [p]
  }

  ghost predicate CopiesIn(pairs: seq<Pair>, packets: seq<Packet>) { forall q :: q in pairs ==> HasId(packets, q.copy) }

  ghost predicate Placed(done: seq<Packet>, st: Plan) {
    && st.retained == Kept(done, st.pairs) && |done| == |st.retained| + |st.pairs|
    && |Kept(done, st.prior)| == |done| - |st.prior|
    && CopiesIn(st.pairs, done) && CopiesIn(st.prior, done)
    && |st.prior| <= |st.pairs|
  }

  lemma {:induction false} KeptMore(done: seq<Packet>, pairs: seq<Pair>, q: Pair)
    requires !HasId(done, q.copy)
    ensures Kept(done, pairs + [q]) == Kept(done, pairs)
    decreases |done|
  {
    if done != [] {
      var init, p := done[..|done| - 1], done[|done| - 1];
      assert p in done;
      assert forall x :: x in init ==> x in done;
      KeptMore(init, pairs, q);
      assert CopyOf(pairs + [q], p.id) <==> CopyOf(pairs, p.id) by {
        if CopyOf(pairs, p.id) {
          var o :| o in pairs && o.copy == p.id;
          assert o in pairs + [q];
        }
      }
    }
  }

  lemma NotCopyYet(done: seq<Packet>, pairs: seq<Pair>, p: Packet)
    requires CopiesIn(pairs, done) && !HasId(done, p.id)
    ensures !CopyOf(pairs, p.id)
  {
  }

  lemma KeptSnoc(done: seq<Packet>, pairs: seq<Pair>, p: Packet)
    ensures Kept(done + [p], pairs) == Kept(done, pairs) + if CopyOf(pairs, p.id) then [] else [p]
  {
    AppendSnoc(done, p);
  }

  lemma CopiesMore(pairs: seq<Pair>, done: seq<Packet>, p: Packet)
    requires CopiesIn(pairs, done)
    ensures CopiesIn(pairs, done + [p])
  {
    forall q | q in pairs ensures HasId(done + [p], q.copy) {
      var x :| x in done && x.id == q.copy;
      assert x in done + [p];
    }
  }

  lemma KeepPlaced(done: seq<Packet>, st: Plan, p: Packet)
    requires Placed(done, st) && !HasId(done, p.id)
    ensures Placed(done + [p], Keep(st, p))
  {
    NotCopyYet(done, st.pairs, p);
    NotCopyYet(done, st.prior, p);
    KeptSnoc(done, st.pairs, p);
    KeptSnoc(done, st.prior, p);
    CopiesMore(st.pairs, done, p);
    CopiesMore(st.prior, done, p);
  }

  lemma AddCopy(done: seq<Packet>, pairs: seq<Pair>, p: Packet, g: nat)
    requires CopiesIn(pairs, done) && !HasId(done, p.id)
    ensures Kept(done + [p], pairs + [Pair(p.id, g)]) == Kept(done, pairs)
    ensures CopiesIn(pairs + [Pair(p.id, g)], done + [p])
  {
    var q := Pair(p.id, g);
    KeptMore(done, pairs, q);
    KeptSnoc(done, pairs + [q], p);
    assert q in pairs + [q];
    CopiesMore(pairs, done, p);
    assert p in done + [p];
  }

  lemma SkipPlaced(done: seq<Packet>, st: Plan, p: Packet, g: nat, earlier: bool)
    requires Placed(done, st) && !HasId(done, p.id)
    ensures Placed(done + [p], Settle(st, p, g, earlier, true))
  {
    AddCopy(done, st.pairs, p, g);
    if earlier {
      AddCopy(done, st.prior, p, g);
    } else {
      NotCopyYet(done, st.prior, p);
      KeptSnoc(done, st.prior, p);
      CopiesMore(st.prior, done, p);
    }
  }

  // ---------------------------------------------------------------- every skip is justified

  predicate OfferedBy(p: Packet, slot: Slot, t: Ticket) {
    p.id == t.id && p.frame == Some(Frame(true, slot.key, slot.hop, t.ts, t.checksum))
  }

  /** The ticket stands for an ingress frame among these packets. */
  ghost predicate Issued(packets: seq<Packet>, slot: Slot, t: Ticket) {
    exists p :: p in packets && OfferedBy(p, slot, t)
  }

  ghost predicate AllIssued(packets: seq<Packet>, held: Held) {
    forall s, i :: s in held && 0 <= i < |held[s]| ==> Issued(packets, s, held[s][i])
  }

  /** `c` is a forwarded copy of the ingress frame `g`: same datagram, right hop count and checksum, in time. */
  predicate Forwards(g: Packet, c: Packet, age: nat) {
    && g.frame.Some? && g.frame.value.ingress && c.frame.Some? && !c.frame.value.ingress
    && g.frame.value.key == c.frame.value.key
    && 0 <= c.frame.value.ts - g.frame.value.ts <= age
    && (|| (g.frame.value.hop == c.frame.value.hop + 1
            && ChecksumMatches(g.frame.value.checksum, c.frame.value.checksum, true))
        || (g.frame.value.hop == c.frame.value.hop
            && ChecksumMatches(g.frame.value.checksum, c.frame.value.checksum, false)))
  }

  ghost predicate Justified(q: Pair, copies: seq<Packet>, admitted: seq<Packet>, age: nat) {
    exists c, g :: c in copies && g in admitted && c.id == q.copy && g.id == q.ingress && Forwards(g, c, age)
  }

  ghost predicate AllJustified(pairs: seq<Pair>, copies: seq<Packet>, admitted: seq<Packet>, age: nat) {
    forall q :: q in pairs ==> Justified(q, copies, admitted, age)
  }

  /** Skips rest on packets admitted earlier or retained in the same batch; prior skips on the former alone. */
  ghost predicate SkipsOk(enqueued: seq<Packet>, done: seq<Packet>, st: Plan, age: nat) {
    && AllIssued(st.retained, st.offers)
    && AllJustified(st.pairs, done, enqueued + st.retained, age)
    && AllJustified(st.prior, done, enqueued, age)
  }

  lemma IssuedMore(a: seq<Packet>, b: seq<Packet>, slot: Slot, t: Ticket)
    requires Issued(a, slot, t) && forall p :: p in a ==> p in b
    ensures Issued(b, slot, t)
  {
  }

  lemma AllIssuedMore(a: seq<Packet>, b: seq<Packet>, held: Held)
    requires AllIssued(a, held) && forall p :: p in a ==> p in b
    ensures AllIssued(b, held)
  {
    forall s, i | s in held && 0 <= i < |held[s]| ensures Issued(b, s, held[s][i]) {
      IssuedMore(a, b, s, held[s][i]);
    }
  }

  lemma JustifiedMore(q: Pair, c1: seq<Packet>, a1: seq<Packet>, c2: seq<Packet>, a2: seq<Packet>, age: nat)
    requires Justified(q, c1, a1, age) && (forall p :: p in c1 ==> p in c2) && (forall p :: p in a1 ==> p in a2)
    ensures Justified(q, c2, a2, age)
  {
  }

  lemma AllJustifiedMore(pairs: seq<Pair>, c1: seq<Packet>, a1: seq<Packet>, c2: seq<Packet>, a2: seq<Packet>, age: nat)
    requires AllJustified(pairs, c1, a1, age) && (forall p :: p in c1 ==> p in c2) && (forall p :: p in a1 ==> p in a2)
    ensures AllJustified(pairs, c2, a2, age)
  {
    forall q | q in pairs ensures Justified(q, c2, a2, age) {
      JustifiedMore(q, c1, a1, c2, a2, age);
    }
  }

  lemma KeepSkips(enqueued: seq<Packet>, done: seq<Packet>, st: Plan, p: Packet, age: nat)
    requires SkipsOk(enqueued, done, st, age)
    ensures SkipsOk(enqueued, done + [p], Keep(st, p), age)
  {
    AllIssuedMore(st.retained, st.retained + [p], st.offers);
    AllJustifiedMore(st.pairs, done, enqueued + st.retained, done + [p], enqueued + (st.retained + [p]), age);
    AllJustifiedMore(st.prior, done, enqueued, done + [p], enqueued, age);
  }

  lemma OfferSkips(enqueued: seq<Packet>, done: seq<Packet>, st: Plan, p: Packet, slot: Slot, t: Ticket, age: nat)
    requires SkipsOk(enqueued, done, st, age) && OfferedBy(p, slot, t)
    ensures SkipsOk(enqueued, done + [p], Keep(Offer(st, slot, t), p), age)
  {
    KeepSkips(enqueued, done, st, p, age);
    var r := Offer(st, slot, t);
    assert p in st.retained + [p];
    forall s, i | s in r.offers && 0 <= i < |r.offers[s]| ensures Issued(st.retained + [p], s, r.offers[s][i]) {
      if s == slot && (slot !in st.offers || i == |st.offers[slot]|) {
        assert OfferedBy(p, slot, r.offers[s][i]);
      } else {
        assert r.offers[s][i] == st.offers[s][i];
        assert Issued(st.retained, s, st.offers[s][i]);
        IssuedMore(st.retained, st.retained + [p], s, st.offers[s][i]);
      }
    }
  }

  lemma LocalIssued(packets: seq<Packet>, st: Plan, slot: Slot)
    requires AllIssued(packets, st.offers) && slot in st.offers && st.offers[slot] != []
    ensures AllIssued(packets, TakeLocal(st, slot).offers)
  {
    var r := TakeLocal(st, slot).offers;
    forall s, i | s in r && 0 <= i < |r[s]| ensures Issued(packets, s, r[s][i]) {
      if s == slot {
        assert r[s][i] == st.offers[s][i + 1];
      }
    }
  }

  /** A hit is a forwarded copy of the packet that issued the chosen ticket. */
  lemma HitForwards(held: Held, st: Plan, p: Packet, f: Frame, age: nat, packets: seq<Packet>)
    requires p.frame == Some(f) && !f.ingress && !Match(held, st, f, age).Miss?
    requires var h := Match(held, st, f, age); Issued(packets, h.slot, Chosen(held, st, h))
    ensures var g := Chosen(held, st, Match(held, st, f, age)).id;
            exists q :: q in packets && q.id == g && Forwards(q, p, age)
  {
    var h := Match(held, st, f, age);
    var t := Chosen(held, st, h);
    var q :| q in packets && OfferedBy(q, h.slot, t);
    assert Forwards(q, p, age);
  }

  lemma PairJustified(q: Packet, p: Packet, copies: seq<Packet>, admitted: seq<Packet>, age: nat)
    requires q in admitted && p in copies && Forwards(q, p, age)
    ensures Justified(Pair(p.id, q.id), copies, admitted, age)
  {
  }

  lemma SettleSkips(enqueued: seq<Packet>, done: seq<Packet>, st: Plan, p: Packet, q: Packet, earlier: bool, age: nat)
    requires SkipsOk(enqueued, done, st, age) && Forwards(q, p, age)
    requires q in (if earlier then enqueued else st.retained)
    ensures SkipsOk(enqueued, done + [p], Settle(st, p, q.id, earlier, true), age)
  {
    AllJustifiedMore(st.pairs, done, enqueued + st.retained, done + [p], enqueued + st.retained, age);
    AllJustifiedMore(st.prior, done, enqueued, done + [p], enqueued, age);
    PairJustified(q, p, done + [p], enqueued + st.retained, age);
    if earlier {
      PairJustified(q, p, done + [p], enqueued, age);
    }
  }
}
