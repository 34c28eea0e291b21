/** Worker-wide counters are sums over live flows, and the NTLM index is the union of their entries. */
module DetectorLaws {
  import opened Common
  import opened Detector

  // ---------------------------------------------------------------- sums over flows

  function Total(flows: seq<Flow>): Weights {
    if flows == [] then ZERO else Plus(Total(flows[..|flows| - 1]), Weight(flows[|flows| - 1]))
  }

  lemma {:induction false} TotalAppend(a: seq<Flow>, b: seq<Flow>)
    ensures Total(a + b) == Plus(Total(a), Total(b))
    decreases |b|
  {
    if b == [] {
      AppendNil(a);
    } else {
      assert (a + b)[..|a + b| - 1] == a + b[..|b| - 1];
      TotalAppend(a, b[..|b| - 1]);
    }
  }

  lemma TotalOne(f: Flow)
    ensures Total([f]) == Weight(f)
  {
    assert [f][..0] == [];
  }

  lemma TotalSnoc(a: seq<Flow>, f: Flow)
    ensures Total(a + [f]) == Plus(Total(a), Weight(f))
  {
    TotalAppend(a, [f]);
    TotalOne(f);
  }

  lemma TotalAround(a: seq<Flow>, f: Flow, b: seq<Flow>)
    ensures Total(a + [f] + b) == Plus(Total(a + b), Weight(f))
  {
    TotalAppend(a + [f], b);
    TotalSnoc(a, f);
    TotalAppend(a, b);
  }

  lemma Around(flows: seq<Flow>, i: nat)
    requires i < |flows|
    ensures flows == flows[..i] + [flows[i]] + flows[i + 1..]
  {
  }

  lemma TotalWithout(flows: seq<Flow>, i: nat)
    requires i < |flows|
    ensures Total(flows) == Plus(Total(flows[..i] + flows[i + 1..]), Weight(flows[i]))
  {
    Around(flows, i);
    TotalAround(flows[..i], flows[i], flows[i + 1..]);
  }

  lemma TotalUpdate(flows: seq<Flow>, i: nat, f: Flow)
    requires i < |flows|
    ensures Total(flows[i := f]) == Plus(Minus(Total(flows), Weight(flows[i])), Weight(f))
  {
    assert flows[i := f] == flows[..i] + [f] + flows[i + 1..];
    TotalAround(flows[..i], f, flows[i + 1..]);
    TotalWithout(flows, i);
  }

  // ---------------------------------------------------------------- flows

  /** A flow's cached sums are right. */
  predicate FlowOk(f: Flow) {
    && f.ntlmBytes == Sizes(f.entries)
    && f.pendingBytes == PendingSize(f.pending) + PendingSize(f.losses) && f.pendingObjects == |f.pending| + |f.losses|
  }

  predicate NonNegative(w: Weights) {
    w.tail >= 0 && w.ntlm >= 0 && w.pending >= 0 && w.objects >= 0 && w.spans >= 0 && w.refs >= 0 && w.metadata >= 0
  }

  ghost predicate AllFlowsOk(flows: seq<Flow>) { forall f :: f in flows ==> FlowOk(f) }

  lemma {:induction false} TotalNonNegative(flows: seq<Flow>)
    requires AllFlowsOk(flows)
    ensures NonNegative(Total(flows))
    decreases |flows|
  {
    if flows != [] {
      assert flows[|flows| - 1] in flows;
      WeightIs(flows[|flows| - 1]);
      TotalNonNegative(flows[..|flows| - 1]);
    }
  }

  ghost predicate DistinctIds(flows: seq<Flow>) { forall i, j :: 0 <= i < j < |flows| ==> flows[i].id != flows[j].id }

  // ---------------------------------------------------------------- entries and index

  predicate Owns(f: Flow, cid: nat) { exists e :: e in f.entries && e.cid == cid }

  /** Some live flow with that id holds the entry. */
  ghost predicate Backed(flows: seq<Flow>, r: Ref) {
    exists i :: 0 <= i < |flows| && flows[i].id == r.flow && Owns(flows[i], r.cid)
  }

  ghost predicate Listed(index: seq<Ref>, f: Flow) { forall e :: e in f.entries ==> Ref(e.cid, f.id) in index }

  ghost predicate IndexAscends(index: seq<Ref>) { forall i, j :: 0 <= i < j < |index| ==> index[i].cid < index[j].cid }

  ghost predicate EntriesAscend(entries: seq<Entry>) {
    forall i, j :: 0 <= i < j < |entries| ==> entries[i].cid < entries[j].cid
  }

  /** The index is exactly the union of the flows' entries, in order of retention. */
  ghost predicate IndexSound(flows: seq<Flow>, index: seq<Ref>, nextCid: nat) {
    && IndexAscends(index)
    && (forall r :: r in index ==> r.cid < nextCid && Backed(flows, r))
    && (forall f :: f in flows ==> Listed(index, f) && EntriesAscend(f.entries))
  }

  /** `IndexSound`, behind a recursion that the solver does not unfold by itself. */
  ghost predicate IndexOk(flows: seq<Flow>, index: seq<Ref>, nextCid: nat) {
    IndexSealed(flows, index, nextCid, nextCid + 4)
  }

  ghost predicate IndexSealed(flows: seq<Flow>, index: seq<Ref>, nextCid: nat, depth: nat) {
    if depth > 0 then IndexSealed(flows, index, nextCid, depth - 1) else IndexSound(flows, index, nextCid)
  }

  lemma {:induction false} IndexUnsealed(flows: seq<Flow>, index: seq<Ref>, nextCid: nat, depth: nat)
    ensures IndexSealed(flows, index, nextCid, depth) <==> IndexSound(flows, index, nextCid)
  {
    if depth > 0 {
      IndexUnsealed(flows, index, nextCid, depth - 1);
    }
  }

  lemma IndexMeans(flows: seq<Flow>, index: seq<Ref>, nextCid: nat)
    ensures IndexOk(flows, index, nextCid) <==> IndexSound(flows, index, nextCid)
  {
    IndexUnsealed(flows, index, nextCid, nextCid + 4);
  }

  lemma FlowEntries(d: State, f: Flow)
    requires Inv(d) && f in d.flows
    ensures EntriesAscend(f.entries) && Listed(d.index, f)
  {
    IndexMeans(d.flows, d.index, d.nextCid);
  }

  // ---------------------------------------------------------------- reported pairs

  /** The flow state's map is at or above everything it reported for a scope. */
  ghost predicate Covers(f: Flow, e: Emission) {
    e.born == f.born ==> e.scope in f.highwater && e.offset <= f.highwater[e.scope]
  }

  ghost predicate DistinctBirths(flows: seq<Flow>) {
    forall i, j :: 0 <= i < j < |flows| ==> flows[i].born != flows[j].born
  }

  /** Per flow state and scope, reported response offsets strictly increase. */
  ghost predicate Rising(emitted: seq<Emission>) {
    forall i, j ::
      0 <= i < j < |emitted| && emitted[i].born == emitted[j].born && emitted[i].scope == emitted[j].scope ==>
        emitted[i].offset < emitted[j].offset
  }

  ghost predicate PairsSound(flows: seq<Flow>, births: nat, emitted: seq<Emission>) {
    && Rising(emitted) && DistinctBirths(flows)
    && (forall f :: f in flows ==> f.born < births) && (forall e :: e in emitted ==> e.born < births)
    && (forall f, e :: f in flows && e in emitted ==> Covers(f, e))
  }

  /** `PairsSound`, behind a recursion that the solver does not unfold by itself. */
  ghost predicate PairsOk(flows: seq<Flow>, births: nat, emitted: seq<Emission>) {
    PairsSealed(flows, births, emitted, births + 4)
  }

  ghost predicate PairsSealed(flows: seq<Flow>, births: nat, emitted: seq<Emission>, depth: nat) {
    if depth > 0 then PairsSealed(flows, births, emitted, depth - 1) else PairsSound(flows, births, emitted)
  }

  lemma {:induction false} PairsUnsealed(flows: seq<Flow>, births: nat, emitted: seq<Emission>, depth: nat)
    ensures PairsSealed(flows, births, emitted, depth) <==> PairsSound(flows, births, emitted)
  {
    if depth > 0 {
      PairsUnsealed(flows, births, emitted, depth - 1);
    }
  }

  lemma PairsMean(flows: seq<Flow>, births: nat, emitted: seq<Emission>)
    ensures PairsOk(flows, births, emitted) <==> PairsSound(flows, births, emitted)
  {
    PairsUnsealed(flows, births, emitted, births + 4);
  }

  lemma DropPairs(flows: seq<Flow>, births: nat, emitted: seq<Emission>, i: nat)
    requires i < |flows| && PairsOk(flows, births, emitted)
    ensures PairsOk(flows[..i] + flows[i + 1..], births, emitted)
  {
    var rest := flows[..i] + flows[i + 1..];
    PairsMean(flows, births, emitted);
    PairsMean(rest, births, emitted);
    assert forall f :: f in rest ==> f in flows;
    forall a, b | 0 <= a < b < |rest| ensures rest[a].born != rest[b].born {
      assert rest[a] == flows[if a < i then a else a + 1] && rest[b] == flows[if b < i then b else b + 1];
    }
  }

  lemma UpdatePairs(flows: seq<Flow>, births: nat, emitted: seq<Emission>, i: nat, f: Flow)
    requires i < |flows| && PairsOk(flows, births, emitted) && f.born == flows[i].born
             && f.highwater == flows[i].highwater
    ensures PairsOk(flows[i := f], births, emitted)
  {
    PairsMean(flows, births, emitted);
    PairsMean(flows[i := f], births, emitted);
    assert flows[i] in flows;
    forall x | x in flows[i := f] ensures x.born < births && forall e :: e in emitted ==> Covers(x, e) {
      UpdateMembers(flows, i, f, x);
      assert forall e :: e in emitted ==> Covers(flows[i], e);
    }
  }

  ghost predicate Inv(d: State) {
    && DistinctIds(d.flows) && AllFlowsOk(d.flows) && d.count == Total(d.flows)
    && IndexOk(d.flows, d.index, d.nextCid) && PairsOk(d.flows, d.births, d.emitted) && d.clamps == 0
  }

  /** A correlation id belongs to one flow only. */
  lemma OneOwner(d: State, i: nat, j: nat, cid: nat)
    requires Inv(d) && i < |d.flows| && j < |d.flows| && Owns(d.flows[i], cid) && Owns(d.flows[j], cid)
    ensures i == j
  {
    IndexMeans(d.flows, d.index, d.nextCid);
    var e :| e in d.flows[i].entries && e.cid == cid;
    var g :| g in d.flows[j].entries && g.cid == cid;
    assert d.flows[i] in d.flows && d.flows[j] in d.flows;
    assert Ref(cid, d.flows[i].id) in d.index && Ref(cid, d.flows[j].id) in d.index;
    var a :| 0 <= a < |d.index| && d.index[a] == Ref(cid, d.flows[i].id);
    var b :| 0 <= b < |d.index| && d.index[b] == Ref(cid, d.flows[j].id);
  }

  // ---------------------------------------------------------------- dropping a flow

  lemma {:induction false} IndexWithoutOk(index: seq<Ref>, flow: string)
    requires IndexAscends(index)
    ensures IndexAscends(IndexWithout(index, flow))
    ensures forall r :: r in IndexWithout(index, flow) <==> r in index && r.flow != flow
    ensures |IndexWithout(index, flow)| <= |index|
    decreases |index|
  {
    if index != [] {
      var rest := index[1..];
      assert forall i :: 0 <= i < |rest| ==> rest[i] == index[i + 1];
      IndexWithoutOk(rest, flow);
      assert forall r :: r in index <==> r == index[0] || r in rest;
      assert forall r :: r in rest ==> index[0].cid < r.cid;
      if index[0].flow != flow {
        ConsAscends(index[0], IndexWithout(rest, flow));
      }
    }
  }

  lemma ConsAscends(r: Ref, rest: seq<Ref>)
    requires IndexAscends(rest) && forall x :: x in rest ==> r.cid < x.cid
    ensures IndexAscends([r] + rest)
  {
  }

  lemma WithoutMembers(flows: seq<Flow>, i: nat, f: Flow)
    requires i < |flows| && DistinctIds(flows)
    ensures f in flows[..i] + flows[i + 1..] <==> f in flows && f.id != flows[i].id
  {
    var rest := flows[..i] + flows[i + 1..];
    if f in rest {
      var k :| 0 <= k < |rest| && rest[k] == f;
      assert f == flows[if k < i then k else k + 1];
    }
    if f in flows && f.id != flows[i].id {
      var k :| 0 <= k < |flows| && flows[k] == f;
      assert rest[if k < i then k else k - 1] == f;
    }
  }

  lemma WithoutDistinct(flows: seq<Flow>, i: nat)
    requires i < |flows| && DistinctIds(flows)
    ensures DistinctIds(flows[..i] + flows[i + 1..])
  {
    var rest := flows[..i] + flows[i + 1..];
    forall a, b | 0 <= a < b < |rest| ensures rest[a].id != rest[b].id {
      assert rest[a] == flows[if a < i then a else a + 1] && rest[b] == flows[if b < i then b else b + 1];
    }
  }

  lemma BackedElsewhere(flows: seq<Flow>, i: nat, r: Ref)
    requires i < |flows| && DistinctIds(flows) && Backed(flows, r) && r.flow != flows[i].id
    ensures Backed(flows[..i] + flows[i + 1..], r)
  {
    var k :| 0 <= k < |flows| && flows[k].id == r.flow && Owns(flows[k], r.cid);
    var rest := flows[..i] + flows[i + 1..];
    assert rest[if k < i then k else k - 1] == flows[k];
  }

  lemma DropIndexOk(flows: seq<Flow>, index: seq<Ref>, nextCid: nat, i: nat)
    requires i < |flows| && DistinctIds(flows) && IndexOk(flows, index, nextCid)
    ensures IndexOk(flows[..i] + flows[i + 1..], IndexWithout(index, flows[i].id), nextCid)
  {
    var rest, left := flows[..i] + flows[i + 1..], IndexWithout(index, flows[i].id);
    IndexMeans(flows, index, nextCid);
    IndexMeans(rest, left, nextCid);
    IndexWithoutOk(index, flows[i].id);
    forall r | r in left ensures r.cid < nextCid && Backed(rest, r) {
      BackedElsewhere(flows, i, r);
    }
    forall f | f in rest ensures Listed(left, f) && EntriesAscend(f.entries) {
      WithoutMembers(flows, i, f);
    }
  }

  lemma MinusPlus(t: Weights, w: Weights)
    requires NonNegative(t)
    ensures Clamp(Minus(Plus(t, w), w)) == t
  {
  }

  /** Dropping a flow subtracts exactly its share: the clamps do nothing. */
  lemma DropOk(d: State, i: nat)
    requires Inv(d) && i < |d.flows|
    ensures Inv(DropFlow(d, i)) && DropFlow(d, i).count == Minus(d.count, Weight(d.flows[i]))
    ensures |DropFlow(d, i).index| <= |d.index|
  {
    var rest := d.flows[..i] + d.flows[i + 1..];
    WithoutDistinct(d.flows, i);
    forall f | f in rest ensures FlowOk(f) {
      WithoutMembers(d.flows, i, f);
    }
    TotalWithout(d.flows, i);
    TotalNonNegative(rest);
    MinusPlus(Total(rest), Weight(d.flows[i]));
    DropIndexOk(d.flows, d.index, d.nextCid, i);
    DropPairs(d.flows, d.births, d.emitted, i);
    IndexMeans(d.flows, d.index, d.nextCid);
    IndexWithoutOk(d.index, d.flows[i].id);
  }

  // ---------------------------------------------------------------- replacing a flow

  lemma UpdateMembers(flows: seq<Flow>, i: nat, f: Flow, x: Flow)
    requires i < |flows| && x in flows[i := f]
    ensures x == f || (x in flows && exists k :: 0 <= k < |flows| && k != i && flows[k] == x)
  {
    var k :| 0 <= k < |flows| && flows[i := f][k] == x;
    if k != i {
      assert flows[k] == x;
    }
  }

  /** A flow replaced by one with the same id and entries: the index does not change. */
  lemma UpdateIndexOk(flows: seq<Flow>, index: seq<Ref>, nextCid: nat, i: nat, f: Flow)
    requires i < |flows| && IndexOk(flows, index, nextCid) && f.id == flows[i].id && f.entries == flows[i].entries
    ensures IndexOk(flows[i := f], index, nextCid)
  {
    var r := flows[i := f];
    IndexMeans(flows, index, nextCid);
    IndexMeans(r, index, nextCid);
    forall x | x in index ensures x.cid < nextCid && Backed(r, x) {
      var k :| 0 <= k < |flows| && flows[k].id == x.flow && Owns(flows[k], x.cid);
      assert r[k].id == x.flow && r[k].entries == flows[k].entries;
      assert Owns(r[k], x.cid);
    }
    forall x | x in r ensures Listed(index, x) && EntriesAscend(x.entries) {
      UpdateMembers(flows, i, f, x);
      assert flows[i] in flows;
    }
  }

  lemma UpdateDistinct(flows: seq<Flow>, i: nat, f: Flow)
    requires i < |flows| && DistinctIds(flows) && f.id == flows[i].id
    ensures DistinctIds(flows[i := f])
  {
  }

  lemma UpdateAllOk(flows: seq<Flow>, i: nat, f: Flow)
    requires i < |flows| && AllFlowsOk(flows) && FlowOk(f)
    ensures AllFlowsOk(flows[i := f])
  {
    forall x | x in flows[i := f] ensures FlowOk(x) {
      UpdateMembers(flows, i, f, x);
    }
  }

  lemma LastUpdate(flows: seq<Flow>, f: Flow)
    requires flows != []
    ensures flows[..|flows| - 1] + [f] == flows[|flows| - 1 := f]
  {
  }

  /** Replacing the current flow keeps every counter equal to its sum. */
  lemma SetCurrentOk(d: State, f: Flow)
    requires Inv(d) && d.flows != [] && FlowOk(f) && f.id == Current(d).id && f.entries == Current(d).entries
    requires f.born == Current(d).born && f.highwater == Current(d).highwater
    ensures Inv(SetCurrent(d, f)) && Current(SetCurrent(d, f)) == f && |SetCurrent(d, f).flows| == |d.flows|
  {
    var n := |d.flows| - 1;
    LastUpdate(d.flows, f);
    TotalUpdate(d.flows, n, f);
    UpdateDistinct(d.flows, n, f);
    UpdateAllOk(d.flows, n, f);
    UpdateIndexOk(d.flows, d.index, d.nextCid, n, f);
    UpdatePairs(d.flows, d.births, d.emitted, n, f);
  }

  // ---------------------------------------------------------------- removing an entry

  lemma {:induction false} WithoutEntryOk(entries: seq<Entry>, cid: nat)
    requires EntriesAscend(entries)
    ensures var r := WithoutEntry(entries, cid);
            && EntriesAscend(r) && |r| <= |entries|
            && (forall e :: e in r <==> e in entries && e.cid != cid)
            && Sizes(r) == Sizes(entries) - (if FindEntry(entries, cid).Some? then FindEntry(entries, cid).value.size
                                             else 0)
            && (FindEntry(entries, cid).Some? <==> exists e :: e in entries && e.cid == cid)
            && (FindEntry(entries, cid).Some? ==>
                FindEntry(entries, cid).value in entries && FindEntry(entries, cid).value.cid == cid)
    decreases |entries|
  {
    if entries != [] {
      var rest := entries[1..];
      assert forall i :: 0 <= i < |rest| ==> rest[i] == entries[i + 1];
      assert forall e :: e in entries <==> e == entries[0] || e in rest;
      assert forall e :: e in rest ==> entries[0].cid < e.cid;
      WithoutEntryOk(rest, cid);
      if entries[0].cid != cid {
        ConsEntries(entries[0], WithoutEntry(rest, cid));
      }
    }
  }

  lemma ConsEntries(e: Entry, rest: seq<Entry>)
    requires EntriesAscend(rest) && forall x :: x in rest ==> e.cid < x.cid
    ensures EntriesAscend([e] + rest) && Sizes([e] + rest) == e.size + Sizes(rest)
  {
    assert ([e] + rest)[1..] == rest;
  }

  lemma {:induction false} IndexDropOk(index: seq<Ref>, cid: nat)
    requires IndexAscends(index)
    ensures IndexAscends(IndexDrop(index, cid))
            && forall r :: r in IndexDrop(index, cid) <==> r in index && r.cid != cid
    ensures |IndexDrop(index, cid)| <= |index|
    decreases |index|
  {
    if index != [] {
      var rest := index[1..];
      assert forall i :: 0 <= i < |rest| ==> rest[i] == index[i + 1];
      assert forall r :: r in index <==> r == index[0] || r in rest;
      assert forall r :: r in rest ==> index[0].cid < r.cid;
      IndexDropOk(rest, cid);
      if index[0].cid != cid {
        ConsAscends(index[0], IndexDrop(rest, cid));
      }
    }
  }

  lemma RemoveBacked(d: State, i: nat, cid: nat, f: Flow, r: Ref)
    requires Inv(d) && i < |d.flows| && f.id == d.flows[i].id && f.entries == WithoutEntry(d.flows[i].entries, cid)
    requires r in d.index && r.cid != cid
    ensures Backed(d.flows[i := f], r)
  {
    IndexMeans(d.flows, d.index, d.nextCid);
    var k :| 0 <= k < |d.flows| && d.flows[k].id == r.flow && Owns(d.flows[k], r.cid);
    var flows := d.flows[i := f];
    if k == i {
      assert d.flows[i] in d.flows;
      WithoutEntryOk(d.flows[i].entries, cid);
      var e :| e in d.flows[i].entries && e.cid == r.cid;
      assert e in f.entries;
      assert Owns(flows[i], r.cid);
    } else {
      assert flows[k] == d.flows[k];
    }
  }

  lemma NotOwned(d: State, i: nat, k: nat, cid: nat)
    requires Inv(d) && i < |d.flows| && k < |d.flows| && k != i && Owns(d.flows[i], cid)
    ensures forall e :: e in d.flows[k].entries ==> e.cid != cid
  {
    if Owns(d.flows[k], cid) {
      OneOwner(d, i, k, cid);
    }
  }

  lemma RemoveListed(d: State, i: nat, cid: nat, f: Flow, x: Flow)
    requires Inv(d) && i < |d.flows| && f.id == d.flows[i].id && f.entries == WithoutEntry(d.flows[i].entries, cid)
    requires Owns(d.flows[i], cid) && x in d.flows[i := f]
    ensures Listed(IndexDrop(d.index, cid), x) && EntriesAscend(x.entries)
  {
    IndexMeans(d.flows, d.index, d.nextCid);
    IndexDropOk(d.index, cid);
    assert d.flows[i] in d.flows;
    WithoutEntryOk(d.flows[i].entries, cid);
    UpdateMembers(d.flows, i, f, x);
    if x != f {
      var k :| 0 <= k < |d.flows| && k != i && d.flows[k] == x;
      NotOwned(d, i, k, cid);
    }
  }

  lemma RemoveIndexOk(d: State, i: nat, cid: nat, f: Flow)
    requires Inv(d) && i < |d.flows| && f.id == d.flows[i].id && f.entries == WithoutEntry(d.flows[i].entries, cid)
             && Owns(d.flows[i], cid)
    ensures IndexOk(d.flows[i := f], IndexDrop(d.index, cid), d.nextCid)
  {
    IndexMeans(d.flows, d.index, d.nextCid);
    IndexMeans(d.flows[i := f], IndexDrop(d.index, cid), d.nextCid);
    IndexDropOk(d.index, cid);
    forall r | r in IndexDrop(d.index, cid) ensures r.cid < d.nextCid && Backed(d.flows[i := f], r) {
      RemoveBacked(d, i, cid, f, r);
    }
    forall x | x in d.flows[i := f] ensures Listed(IndexDrop(d.index, cid), x) && EntriesAscend(x.entries) {
      RemoveListed(d, i, cid, f, x);
    }
  }

  /** Each component of the counters is at least each flow's share. */
  lemma ShareOfTotal(d: State, i: nat)
    requires Inv(d) && i < |d.flows|
    ensures NonNegative(Minus(d.count, Weight(d.flows[i])))
  {
    TotalWithout(d.flows, i);
    forall f | f in d.flows[..i] + d.flows[i + 1..] ensures FlowOk(f) {
      WithoutMembers(d.flows, i, f);
    }
    TotalNonNegative(d.flows[..i] + d.flows[i + 1..]);
  }

  function NtlmMoved(w: Weights, delta: int): Weights { w.(ntlm := w.ntlm + delta) }

  lemma NtlmWeight(f: Flow, g: Flow)
    requires g == f.(entries := g.entries, ntlmBytes := g.ntlmBytes)
    ensures Weight(g) == NtlmMoved(Weight(f), Sizes(g.entries) - Sizes(f.entries))
  {
    WeightIs(f);
    WeightIs(g);
  }

  lemma NtlmCount(d: State, i: nat, g: Flow, size: nat)
    requires Inv(d) && i < |d.flows| && g == d.flows[i].(entries := g.entries, ntlmBytes := g.ntlmBytes)
    requires Sizes(g.entries) == Sizes(d.flows[i].entries) - size
    ensures d.count.ntlm - size >= 0 && d.count.(ntlm := d.count.ntlm - size) == Total(d.flows[i := g])
  {
    NtlmWeight(d.flows[i], g);
    ShareOfTotal(d, i);
    WeightIs(d.flows[i]);
    TotalUpdate(d.flows, i, g);
  }

  lemma RemoveParts(d: State, i: nat, cid: nat, g: Flow)
    requires Inv(d) && i < |d.flows| && g.id == d.flows[i].id && g.entries == WithoutEntry(d.flows[i].entries, cid)
    requires Owns(d.flows[i], cid) && FlowOk(g)
    ensures DistinctIds(d.flows[i := g]) && AllFlowsOk(d.flows[i := g])
            && IndexOk(d.flows[i := g], IndexDrop(d.index, cid), d.nextCid)
    ensures |IndexDrop(d.index, cid)| <= |d.index|
  {
    UpdateDistinct(d.flows, i, g);
    UpdateAllOk(d.flows, i, g);
    RemoveIndexOk(d, i, cid, g);
    IndexMeans(d.flows, d.index, d.nextCid);
    IndexDropOk(d.index, cid);
  }

  lemma RemovedFlow(d: State, i: nat, e: Entry)
    requires Inv(d) && i < |d.flows| && FindEntry(d.flows[i].entries, e.cid) == Some(e)
    ensures var f, g := d.flows[i], WithoutNtlm(d.flows[i], e);
            && Owns(f, e.cid) && FlowOk(g) && g.id == f.id && g.entries == WithoutEntry(f.entries, e.cid)
            && Sizes(g.entries) == Sizes(f.entries) - e.size && g.ntlmBytes == f.ntlmBytes - e.size
            && |g.entries| <= |f.entries|
  {
    assert d.flows[i] in d.flows;
    FlowEntries(d, d.flows[i]);
    WithoutEntryOk(d.flows[i].entries, e.cid);
  }

  /** Removing an entry takes exactly its size out of both counters: no clamp fires. */
  lemma RemovedOk(d: State, i: nat, e: Entry)
    requires Inv(d) && i < |d.flows| && FindEntry(d.flows[i].entries, e.cid) == Some(e)
    ensures Inv(Removed(d, i, e)) && d.count.ntlm - e.size >= 0 && |Removed(d, i, e).index| <= |d.index|
    ensures Removed(d, i, e).count == d.count.(ntlm := d.count.ntlm - e.size)
  {
    RemovedFlow(d, i, e);
    NtlmCount(d, i, WithoutNtlm(d.flows[i], e), e.size);
    RemoveParts(d, i, e.cid, WithoutNtlm(d.flows[i], e));
    UpdatePairs(d.flows, d.births, d.emitted, i, WithoutNtlm(d.flows[i], e));
  }

  lemma {:induction false} FoundEntry(entries: seq<Entry>, cid: nat)
    ensures FindEntry(entries, cid).Some? ==>
            FindEntry(entries, cid).value.cid == cid && FindEntry(entries, cid).value in entries
    ensures (exists e :: e in entries && e.cid == cid) ==> FindEntry(entries, cid).Some?
    decreases |entries|
  {
    if entries != [] {
      FoundEntry(entries[1..], cid);
      assert forall e :: e in entries <==> e == entries[0] || e in entries[1..];
    }
  }

  // ---------------------------------------------------------------- adding an entry

  lemma {:induction false} SizesSnoc(entries: seq<Entry>, e: Entry)
    ensures Sizes(entries + [e]) == Sizes(entries) + e.size
    decreases |entries|
  {
    if entries != [] {
      assert (entries + [e])[1..] == entries[1..] + [e];
      SizesSnoc(entries[1..], e);
    }
  }

  lemma AddBacked(d: State, f: Flow, e: Entry, r: Ref)
    requires Inv(d) && d.flows != [] && f.id == Current(d).id && f.entries == Current(d).entries + [e]
    requires r in d.index || r == Ref(e.cid, f.id)
    ensures Backed(d.flows[|d.flows| - 1 := f], r)
  {
    IndexMeans(d.flows, d.index, d.nextCid);
    var n := |d.flows| - 1;
    var flows := d.flows[n := f];
    if r in d.index {
      var k :| 0 <= k < |d.flows| && d.flows[k].id == r.flow && Owns(d.flows[k], r.cid);
      var x :| x in d.flows[k].entries && x.cid == r.cid;
      assert x in flows[k].entries && flows[k].id == r.flow;
      assert Owns(flows[k], r.cid);
    } else {
      assert e in flows[n].entries;
      assert Owns(flows[n], r.cid);
    }
  }

  lemma CurrentCids(d: State)
    requires Inv(d) && d.flows != []
    ensures forall x :: x in Current(d).entries ==> x.cid < d.nextCid
  {
    IndexMeans(d.flows, d.index, d.nextCid);
    assert Current(d) in d.flows;
  }

  lemma EntriesSnoc(entries: seq<Entry>, e: Entry)
    requires EntriesAscend(entries) && forall x :: x in entries ==> x.cid < e.cid
    ensures EntriesAscend(entries + [e])
  {
  }

  lemma IndexSnoc(index: seq<Ref>, r: Ref)
    requires IndexAscends(index) && forall x :: x in index ==> x.cid < r.cid
    ensures IndexAscends(index + [r])
  {
  }

  lemma AddListed(d: State, f: Flow, e: Entry, x: Flow)
    requires Inv(d) && d.flows != [] && f.id == Current(d).id && f.entries == Current(d).entries + [e]
             && e.cid == d.nextCid
    requires x in d.flows[|d.flows| - 1 := f]
    ensures Listed(d.index + [Ref(e.cid, f.id)], x) && EntriesAscend(x.entries)
  {
    CurrentCids(d);
    IndexMeans(d.flows, d.index, d.nextCid);
    assert Current(d) in d.flows;
    UpdateMembers(d.flows, |d.flows| - 1, f, x);
    EntriesSnoc(Current(d).entries, e);
  }

  lemma AddIndexOk(d: State, f: Flow, e: Entry)
    requires Inv(d) && d.flows != [] && f.id == Current(d).id && f.entries == Current(d).entries + [e]
             && e.cid == d.nextCid
    ensures IndexOk(d.flows[|d.flows| - 1 := f], d.index + [Ref(e.cid, f.id)], d.nextCid + 1)
  {
    var flows, index := d.flows[|d.flows| - 1 := f], d.index + [Ref(e.cid, f.id)];
    IndexMeans(d.flows, d.index, d.nextCid);
    IndexMeans(flows, index, d.nextCid + 1);
    IndexSnoc(d.index, Ref(e.cid, f.id));
    forall r | r in index ensures r.cid < d.nextCid + 1 && Backed(flows, r) {
      AddBacked(d, f, e, r);
    }
    forall x | x in flows ensures Listed(index, x) && EntriesAscend(x.entries) {
      AddListed(d, f, e, x);
    }
  }

  lemma AddParts(d: State, g: Flow, e: Entry)
    requires Inv(d) && d.flows != [] && g.id == Current(d).id && g.entries == Current(d).entries + [e]
             && e.cid == d.nextCid && FlowOk(g)
    ensures var flows := d.flows[|d.flows| - 1 := g];
            DistinctIds(flows) && AllFlowsOk(flows) && IndexOk(flows, d.index + [Ref(e.cid, g.id)], d.nextCid + 1)
  {
    var n := |d.flows| - 1;
    UpdateDistinct(d.flows, n, g);
    UpdateAllOk(d.flows, n, g);
    AddIndexOk(d, g, e);
  }

  lemma AddCount(d: State, g: Flow, size: nat)
    requires Inv(d) && d.flows != [] && g == Current(d).(entries := g.entries, ntlmBytes := g.ntlmBytes)
    requires Sizes(g.entries) == Sizes(Current(d).entries) + size
    ensures d.count.(ntlm := d.count.ntlm + size) == Total(d.flows[|d.flows| - 1 := g])
  {
    NtlmWeight(Current(d), g);
    TotalUpdate(d.flows, |d.flows| - 1, g);
  }

  lemma AddEntryOk(d: State, challenge: bool, key: int, size: nat)
    requires Inv(d) && d.flows != []
    ensures Inv(AddEntry(d, challenge, key, size)) && |AddEntry(d, challenge, key, size).flows| == |d.flows|
    ensures AddEntry(d, challenge, key, size).count == d.count.(ntlm := d.count.ntlm + size)
  {
    var f, e := Current(d), Entry(d.nextCid, challenge, key, size);
    assert f in d.flows;
    var g := f.(entries := f.entries + [e], ntlmBytes := f.ntlmBytes + size);
    SizesSnoc(f.entries, e);
    LastUpdate(d.flows, g);
    AddCount(d, g, size);
    AddParts(d, g, e);
    UpdatePairs(d.flows, d.births, d.emitted, |d.flows| - 1, g);
  }

  // ---------------------------------------------------------------- pending maps

  function PendingMoved(w: Weights, bytes: int, objects: int): Weights {
    w.(pending := w.pending + bytes, objects := w.objects + objects)
  }

  lemma PendingWeight(f: Flow, g: Flow)
    requires g == f.(pending := g.pending, losses := g.losses, pendingBytes := g.pendingBytes,
                     pendingObjects := g.pendingObjects)
    ensures Weight(g) == PendingMoved(Weight(f), g.pendingBytes - f.pendingBytes, g.pendingObjects - f.pendingObjects)
  {
    WeightIs(f);
    WeightIs(g);
  }

  lemma PendingCount(d: State, g: Flow)
    requires Inv(d) && d.flows != [] && g.pendingBytes >= 0 && g.pendingObjects >= 0
    requires g == Current(d).(pending := g.pending, losses := g.losses, pendingBytes := g.pendingBytes,
                              pendingObjects := g.pendingObjects)
    ensures var bytes, objects := g.pendingBytes - Current(d).pendingBytes,
            g.pendingObjects - Current(d).pendingObjects;
            && d.count.pending + bytes >= 0 && d.count.objects + objects >= 0
            && PendingMoved(d.count, bytes, objects) == Total(d.flows[|d.flows| - 1 := g])
  {
    var n := |d.flows| - 1;
    PendingWeight(Current(d), g);
    ShareOfTotal(d, n);
    WeightIs(d.flows[n]);
    TotalUpdate(d.flows, n, g);
  }

  lemma PendingParts(d: State, g: Flow)
    requires Inv(d) && d.flows != [] && FlowOk(g)
    requires g == Current(d).(pending := g.pending, losses := g.losses, pendingBytes := g.pendingBytes,
                              pendingObjects := g.pendingObjects)
    ensures var flows := d.flows[|d.flows| - 1 := g];
            DistinctIds(flows) && AllFlowsOk(flows) && IndexOk(flows, d.index, d.nextCid)
  {
    var n := |d.flows| - 1;
    UpdateDistinct(d.flows, n, g);
    UpdateAllOk(d.flows, n, g);
    UpdateIndexOk(d.flows, d.index, d.nextCid, n, g);
  }

  lemma RefreshedOk(f: Flow, pending: seq<Pending>, losses: seq<Pending>)
    requires FlowOk(f)
    ensures var g := Refreshed(f, pending, losses);
            && FlowOk(g) && g.pendingBytes >= 0 && g.pendingObjects >= 0
            && g == f.(pending := g.pending, losses := g.losses, pendingBytes := g.pendingBytes,
                       pendingObjects := g.pendingObjects)
  {
  }

  /** A refresh makes the cached pending size true and moves the counters with it: no clamp fires. */
  lemma RefreshOk(d: State, pending: seq<Pending>, losses: seq<Pending>)
    requires Inv(d) && d.flows != []
    ensures var e := Refresh(d, pending, losses);
            && Inv(e) && |e.flows| == |d.flows| && e.index == d.index
            && e.count == d.count.(pending := e.count.pending, objects := e.count.objects)
  {
    var g := Refreshed(Current(d), pending, losses);
    assert Current(d) in d.flows;
    RefreshedOk(Current(d), pending, losses);
    LastUpdate(d.flows, g);
    PendingCount(d, g);
    PendingParts(d, g);
    UpdatePairs(d.flows, d.births, d.emitted, |d.flows| - 1, g);
  }
}
