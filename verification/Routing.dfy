/**
 * How the supervisor assigns packets to workers. Whole packets go by a hash of their flow; fragments
 * follow their datagram, and pull their flow along, through two bounded insertion-ordered tables.
 */
module Routing {
  import opened Common

  /** A table entry: a datagram key or a flow, the worker it goes to, and when it was last used. */
  datatype Route = Route(name: string, shard: nat, used: int)

  datatype Tables = Tables(
    fragments: seq<Route>, overrides: seq<Route>, evictions: nat, overrideEvictions: nat, fallbacks: nat)

  const NO_TABLES := Tables([], [], 0, 0, 0)

  /** Only the first fragment of a datagram can name its flow. */
  datatype Packet = Fragment(key: string, hint: Option<string>) | Whole(flow: string)

  type Hash = string -> nat

  function Lookup(routes: seq<Route>, name: string): Option<nat> {
    if routes == [] then None else if routes[0].name == name then Some(routes[0].shard) else Lookup(routes[1..], name)
  }

  function Without(routes: seq<Route>, name: string): (r: seq<Route>)
    ensures |r| <= |routes|
    ensures forall x :: x in r <==> x in routes && x.name != name
  {
    if routes == [] then []
    else (if routes[0].name == name then [] else [routes[0]]) + Without(routes[1..], name)
  }

  /** Takes the oldest entry out of a full table. */
  function Fitted(routes: seq<Route>, max: nat): seq<Route> {
    if routes != [] && |routes| >= max then routes[1..] else routes
  }

  function Evicted(routes: seq<Route>, max: nat): nat { if routes != [] && |routes| >= max then 1 else 0 }

  /** A used entry becomes the most recent one. */
  function Touched(routes: seq<Route>, name: string, shard: nat, now: int): seq<Route> {
    Without(routes, name) + [Route(name, shard, now)]
  }

  function Remember(t: Tables, flow: string, shard: nat, now: int, max: nat): Tables {
    var rest := Without(t.overrides, flow);
    t.(overrides := Fitted(rest, max) + [Route(flow, shard, now)],
       overrideEvictions := t.overrideEvictions + Evicted(rest, max))
  }

  function RememberHint(t: Tables, hint: Option<string>, shard: nat, now: int, max: nat): Tables {
    if hint.Some? then Remember(t, hint.value, shard, now, max) else t
  }

  datatype Routed = Routed(t: Tables, shard: nat)

  /** A fragment of a datagram that is not in the table: its flow decides, or else its own key. */
  function RouteNew(hash: Hash, t: Tables, key: string, hint: Option<string>, now: int, max: nat): Routed {
    var shard := if hint.Some? then hash(hint.value) else hash(key);
    var u := RememberHint(t, hint, shard, now, max);
    Routed(u.(fragments := Fitted(u.fragments, max) + [Route(key, shard, now)],
              evictions := u.evictions + Evicted(u.fragments, max),
              fallbacks := u.fallbacks + if hint.Some? then 0 else 1),
           shard)
  }

  function RouteKnown(t: Tables, key: string, hint: Option<string>, shard: nat, now: int, max: nat): Routed {
    Routed(RememberHint(t.(fragments := Touched(t.fragments, key, shard, now)), hint, shard, now, max), shard)
  }

  function RouteWhole(hash: Hash, t: Tables, flow: string, now: int): Routed {
    var known := Lookup(t.overrides, flow);
    if known.None? then Routed(t, hash(flow))
    else Routed(t.(overrides := Touched(t.overrides, flow, known.value, now)), known.value)
  }

  function RoutePacket(hash: Hash, t: Tables, p: Packet, now: int, max: nat): Routed {
    match p
    case Whole(flow) => RouteWhole(hash, t, flow, now)
    case Fragment(key, hint) =>
      var known := Lookup(t.fragments, key);
      if known.None? then RouteNew(hash, t, key, hint, now, max) else RouteKnown(t, key, hint, known.value, now, max)
  }

  function Fresh(routes: seq<Route>, cutoff: int): (r: seq<Route>)
    ensures |r| <= |routes|
    ensures forall x :: x in r <==> x in routes && x.used >= cutoff
  {
    if routes == [] then []
    else (if routes[0].used >= cutoff then [routes[0]] else []) + Fresh(routes[1..], cutoff)
  }

  function ExpireRoutes(t: Tables, cutoff: int, flowCutoff: int): Tables {
    t.(fragments := Fresh(t.fragments, cutoff), overrides := Fresh(t.overrides, flowCutoff))
  }

  // ---------------------------------------------------------------- the object

  class Router {
    const hash: Hash
    const max: nat
    var t: Tables

    constructor (hash: Hash, max: nat)
      ensures this.hash == hash && this.max == max && t == NO_TABLES
    {
      this.hash, this.max, t := hash, max, NO_TABLES;
    }

    method RememberFlow(flow: string, shard: nat, now: int)
      modifies this`t
      ensures t == Remember(old(t), flow, shard, now, max)
    {
      var rest := Without(t.overrides, flow);
      var evictions := t.overrideEvictions;
      if rest != [] && |rest| >= max {
        rest := rest[1..];
        evictions := evictions + 1;
      }
      t := t.(overrides := rest + [Route(flow, shard, now)], overrideEvictions := evictions);
    }

    method Assign(p: Packet, now: int) returns (shard: nat)
      modifies this`t
      ensures Routed(t, shard) == RoutePacket(hash, old(t), p, now, max)
    {
      if p.Whole? {
        var known := Lookup(t.overrides, p.flow);
        if known.None? {
          return hash(p.flow);
        }
        t := t.(overrides := Touched(t.overrides, p.flow, known.value, now));
        return known.value;
      }
      var known := Lookup(t.fragments, p.key);
      if known.Some? {
        t := t.(fragments := Touched(t.fragments, p.key, known.value, now));
        if p.hint.Some? {
          RememberFlow(p.hint.value, known.value, now);
        }
        return known.value;
      }
      if p.hint.Some? {
        shard := hash(p.hint.value);
        RememberFlow(p.hint.value, shard, now);
      } else {
        shard := hash(p.key);
        t := t.(fallbacks := t.fallbacks + 1);
      }
      if t.fragments != [] && |t.fragments| >= max {
        t := t.(fragments := t.fragments[1..], evictions := t.evictions + 1);
      }
      t := t.(fragments := t.fragments + [Route(p.key, shard, now)]);
    }
  }

  // ---------------------------------------------------------------- runs

  datatype Call = Assign(packet: Packet, now: int) | Expire(cutoff: int, flowCutoff: int)

  function Apply(hash: Hash, t: Tables, c: Call, max: nat): Tables {
    match c
    case Assign(p, now) => RoutePacket(hash, t, p, now, max).t
    case Expire(cutoff, flowCutoff) => ExpireRoutes(t, cutoff, flowCutoff)
  }

  ghost predicate IsRun(hash: Hash, max: nat, calls: seq<Call>, tables: seq<Tables>) {
    && |tables| == |calls| + 1 && tables[0] == NO_TABLES
    && forall i: nat {:trigger Stepped(hash, max, calls, tables, i)} ::
         i < |calls| ==> Stepped(hash, max, calls, tables, i)
  }

  ghost predicate Stepped(hash: Hash, max: nat, calls: seq<Call>, tables: seq<Tables>, i: nat)
    requires i < |calls| && |tables| == |calls| + 1
  {
    tables[i + 1] == Apply(hash, tables[i], calls[i], max)
  }

  /** One entry per name, and no more of them than the bound allows. */
  ghost predicate TableOk(routes: seq<Route>, max: nat) {
    && |routes| <= max
    && forall i, j :: 0 <= i < j < |routes| ==> routes[i].name != routes[j].name
  }

  ghost predicate Bounded(t: Tables, max: nat) { TableOk(t.fragments, max) && TableOk(t.overrides, max) }

  lemma {:induction false} WithoutOk(routes: seq<Route>, name: string, max: nat)
    requires TableOk(routes, max)
    ensures TableOk(Without(routes, name), max)
    ensures Lookup(routes, name).Some? ==> |Without(routes, name)| < |routes|
    decreases |routes|
  {
    if routes != [] {
      WithoutOk(routes[1..], name, max);
      assert forall x :: x in routes[1..] ==> x in routes;
    }
  }

  lemma {:induction false} FreshOk(routes: seq<Route>, cutoff: int, max: nat)
    requires TableOk(routes, max)
    ensures TableOk(Fresh(routes, cutoff), max)
    decreases |routes|
  {
    if routes != [] {
      FreshOk(routes[1..], cutoff, max);
      assert forall x :: x in routes[1..] ==> x in routes;
    }
  }

  lemma {:induction false} LookupMeans(routes: seq<Route>, name: string)
    ensures Lookup(routes, name).None? ==> forall x :: x in routes ==> x.name != name
    ensures Lookup(routes, name).Some? ==>
            exists x :: x in routes && x.name == name && x.shard == Lookup(routes, name).value
    decreases |routes|
  {
    if routes != [] && routes[0].name != name {
      LookupMeans(routes[1..], name);
      assert forall x :: x in routes <==> x == routes[0] || x in routes[1..];
    }
  }

  lemma SnocOk(routes: seq<Route>, x: Route, max: nat)
    requires TableOk(routes, max) && |routes| < max && forall y :: y in routes ==> y.name != x.name
    ensures TableOk(routes + [x], max)
  {
  }

  lemma FittedOk(routes: seq<Route>, max: nat)
    requires TableOk(routes, max) && max >= 1
    ensures TableOk(Fitted(routes, max), max) && |Fitted(routes, max)| < max
    ensures forall x :: x in Fitted(routes, max) ==> x in routes
  {
  }

  lemma TouchedOk(routes: seq<Route>, name: string, shard: nat, now: int, max: nat)
    requires TableOk(routes, max) && Lookup(routes, name).Some?
    ensures TableOk(Touched(routes, name, shard, now), max)
  {
    WithoutOk(routes, name, max);
    SnocOk(Without(routes, name), Route(name, shard, now), max);
  }

  lemma RememberOk(t: Tables, hint: Option<string>, shard: nat, now: int, max: nat)
    requires Bounded(t, max) && max >= 1
    ensures Bounded(RememberHint(t, hint, shard, now, max), max)
  {
    if hint.Some? {
      WithoutOk(t.overrides, hint.value, max);
      FittedOk(Without(t.overrides, hint.value), max);
      SnocOk(Fitted(Without(t.overrides, hint.value), max), Route(hint.value, shard, now), max);
    }
  }

  lemma FragmentBounded(hash: Hash, t: Tables, key: string, hint: Option<string>, now: int, max: nat)
    requires Bounded(t, max) && max >= 1
    ensures Bounded(RoutePacket(hash, t, Fragment(key, hint), now, max).t, max)
  {
    var known := Lookup(t.fragments, key);
    if known.Some? {
      TouchedOk(t.fragments, key, known.value, now, max);
      RememberOk(t.(fragments := Touched(t.fragments, key, known.value, now)), hint, known.value, now, max);
    } else {
      var shard := if hint.Some? then hash(hint.value) else hash(key);
      RememberOk(t, hint, shard, now, max);
      LookupMeans(t.fragments, key);
      FittedOk(t.fragments, max);
      SnocOk(Fitted(t.fragments, max), Route(key, shard, now), max);
    }
  }

  lemma ApplyBounded(hash: Hash, t: Tables, c: Call, max: nat)
    requires Bounded(t, max) && max >= 1
    ensures Bounded(Apply(hash, t, c, max), max)
  {
    match c
    case Expire(cutoff, flowCutoff) =>
      FreshOk(t.fragments, cutoff, max);
      FreshOk(t.overrides, flowCutoff, max);
    case Assign(p, now) =>
      match p {
        case Fragment(key, hint) => FragmentBounded(hash, t, key, hint, now, max);
        case Whole(flow) =>
          if Lookup(t.overrides, flow).Some? {
            TouchedOk(t.overrides, flow, Lookup(t.overrides, flow).value, now, max);
          }
      }
  }

  /** In every reachable state both tables are within their bound and hold one entry per name. */
  lemma {:induction false} TablesBounded(hash: Hash, max: nat, calls: seq<Call>, tables: seq<Tables>, n: nat)
    requires IsRun(hash, max, calls, tables) && max >= 1 && n < |tables|
    ensures Bounded(tables[n], max)
  {
    if n > 0 {
      TablesBounded(hash, max, calls, tables, n - 1);
      assert Stepped(hash, max, calls, tables, n - 1);
      ApplyBounded(hash, tables[n - 1], calls[n - 1], max);
    }
  }

  // ---------------------------------------------------------------- agreement with the plain hash

  /** The flow that owns each datagram key. */
  type Owner = string -> string

  /** A fragment that names a flow names the one that owns its datagram. */
  predicate Owned(owner: Owner, c: Call) {
    c.Assign? && c.packet.Fragment? && c.packet.hint.Some? ==> c.packet.hint.value == owner(c.packet.key)
  }

  /** The flow a packet belongs to. */
  function FlowOf(owner: Owner, p: Packet): string {
    match p case Fragment(key, _) => owner(key) case Whole(flow) => flow
  }

  /** Every entry says what the hash of its flow says. */
  ghost predicate Plain(hash: Hash, owner: Owner, t: Tables) {
    && (forall x :: x in t.fragments ==> x.shard == hash(owner(x.name)))
    && (forall x :: x in t.overrides ==> x.shard == hash(x.name))
  }

  lemma FittedKeeps(routes: seq<Route>, max: nat)
    ensures forall x :: x in Fitted(routes, max) ==> x in routes
  {
  }

  lemma RememberPlain(hash: Hash, owner: Owner, t: Tables, hint: Option<string>, shard: nat, now: int, max: nat)
    requires Plain(hash, owner, t) && (hint.Some? ==> shard == hash(hint.value))
    ensures Plain(hash, owner, RememberHint(t, hint, shard, now, max))
  {
    if hint.Some? {
      FittedKeeps(Without(t.overrides, hint.value), max);
    }
  }

  lemma FragmentPlain(hash: Hash, owner: Owner, t: Tables, key: string, hint: Option<string>, now: int, max: nat)
    requires Plain(hash, owner, t) && (hint.Some? ==> hint.value == owner(key))
    ensures var r := RoutePacket(hash, t, Fragment(key, hint), now, max);
            r.t.fallbacks == t.fallbacks ==> r.shard == hash(owner(key)) && Plain(hash, owner, r.t)
  {
    LookupMeans(t.fragments, key);
    var known := Lookup(t.fragments, key);
    if known.Some? {
      RememberPlain(hash, owner, t.(fragments := Touched(t.fragments, key, known.value, now)), hint, known.value, now,
                    max);
    } else if hint.Some? {
      RememberPlain(hash, owner, t, hint, hash(hint.value), now, max);
      FittedKeeps(t.fragments, max);
    }
  }

  lemma ApplyPlain(hash: Hash, owner: Owner, t: Tables, c: Call, max: nat)
    requires Plain(hash, owner, t) && Owned(owner, c)
    ensures t.fallbacks <= Apply(hash, t, c, max).fallbacks
    ensures Apply(hash, t, c, max).fallbacks == t.fallbacks ==>
              && Plain(hash, owner, Apply(hash, t, c, max))
              && (c.Assign? ==> RoutePacket(hash, t, c.packet, c.now, max).shard == hash(FlowOf(owner, c.packet)))
  {
    if c.Assign? {
      match c.packet
      case Fragment(key, hint) => FragmentPlain(hash, owner, t, key, hint, c.now, max);
      case Whole(flow) => LookupMeans(t.overrides, flow);
    }
  }

  lemma {:induction false} RunPlain(hash: Hash, owner: Owner, max: nat, calls: seq<Call>, tables: seq<Tables>, n: nat)
    requires IsRun(hash, max, calls, tables) && n < |tables| && tables[n].fallbacks == 0
    requires forall i :: 0 <= i < n ==> Owned(owner, calls[i])
    ensures Plain(hash, owner, tables[n])
  {
    if n > 0 {
      assert Stepped(hash, max, calls, tables, n - 1);
      FallbacksGrow(hash, tables[n - 1], calls[n - 1], max);
      RunPlain(hash, owner, max, calls, tables, n - 1);
      ApplyPlain(hash, owner, tables[n - 1], calls[n - 1], max);
    }
  }

  lemma FallbacksGrow(hash: Hash, t: Tables, c: Call, max: nat)
    ensures t.fallbacks <= Apply(hash, t, c, max).fallbacks
  {
  }

  /**
   * In every run that has needed no fallback, and in which no datagram key is shared by two flows,
   * the two tables change nothing: every packet and every fragment goes where the plain hash of its
   * flow sends it, whatever was evicted or expired.
   */
  lemma RoutesAreThePlainHash(hash: Hash, owner: Owner, max: nat, calls: seq<Call>, tables: seq<Tables>, n: nat)
    requires IsRun(hash, max, calls, tables) && n < |calls| && calls[n].Assign? && tables[n + 1].fallbacks == 0
    requires forall i :: 0 <= i <= n ==> Owned(owner, calls[i])
    ensures RoutePacket(hash, tables[n], calls[n].packet, calls[n].now, max).shard
            == hash(FlowOf(owner, calls[n].packet))
  {
    assert Stepped(hash, max, calls, tables, n);
    FallbacksGrow(hash, tables[n], calls[n], max);
    RunPlain(hash, owner, max, calls, tables, n);
    ApplyPlain(hash, owner, tables[n], calls[n], max);
  }

  /** A fragment that names its flow pulls the flow along: the next whole packet of it follows the datagram. */
  lemma FlowFollowsDatagram(hash: Hash, t: Tables, key: string, flow: string, now: int, later: int, max: nat)
    ensures var r := RoutePacket(hash, t, Fragment(key, Some(flow)), now, max);
            RoutePacket(hash, r.t, Whole(flow), later, max).shard == r.shard
  {
    var r := RoutePacket(hash, t, Fragment(key, Some(flow)), now, max);
    var rest := Without(t.overrides, flow);
    FittedKeeps(rest, max);
    LookupLast(Fitted(rest, max), Route(flow, r.shard, now));
  }

  /**
   * A fallback is what breaks the rule: when a datagram that is not in the table begins with a fragment
   * that names no flow, its key decides, for the flow's later packets too.
   */
  lemma FallbackDiverts(hash: Hash, t: Tables, key: string, flow: string, now: int, max: nat)
    requires Lookup(t.fragments, key).None?
    ensures var a := RoutePacket(hash, t, Fragment(key, None), now, max);
            var b := RoutePacket(hash, a.t, Fragment(key, Some(flow)), now, max);
            var c := RoutePacket(hash, b.t, Whole(flow), now, max);
            a.t.fallbacks == t.fallbacks + 1 && (c.shard == hash(flow) <==> hash(key) == hash(flow))
  {
    var a := RoutePacket(hash, t, Fragment(key, None), now, max);
    LookupMeans(t.fragments, key);
    FittedKeeps(t.fragments, max);
    LookupLast(Fitted(t.fragments, max), Route(key, hash(key), now));
    FlowFollowsDatagram(hash, a.t, key, flow, now, now, max);
  }

  lemma {:induction false} LookupLast(routes: seq<Route>, x: Route)
    requires forall y :: y in routes ==> y.name != x.name
    ensures Lookup(routes + [x], x.name) == Some(x.shard)
    decreases |routes|
  {
    if routes != [] {
      assert (routes + [x])[1..] == routes[1..] + [x];
      LookupLast(routes[1..], x);
    }
  }
}
