/** After every call the worker's retained bytes, entries and flows are within their caps. */
module DetectorBudget {
  import opened Common
  import opened Spans
  import opened Provenance
  import opened RetainedWindow
  import opened Detector
  import opened DetectorLaws

  // ---------------------------------------------------------------- caps that every step keeps

  predicate FlowCap(L: Limits, f: Flow) {
    |f.entries| <= L.maxNtlmObjectsPerFlow && f.ntlmBytes <= L.maxNtlmBytesPerFlow
  }

  ghost predicate Capped(L: Limits, d: State) {
    && (forall f :: f in d.flows ==> FlowCap(L, f))
    && |d.index| <= L.maxNtlmObjects && d.count.ntlm <= L.maxNtlmBytes
    && |d.flows| <= L.maxFlows && d.count.metadata <= L.maxMetadata
  }

  ghost predicate Good(L: Limits, d: State) { Inv(d) && Capped(L, d) }

  /** Usable limits: every cap admits something. */
  predicate LimitsOk(L: Limits) {
    L.maxFlows >= 1 && L.maxMetadata >= 1 && L.maxNtlmObjects >= 1 && L.maxNtlmObjectsPerFlow >= 1
  }

  /** `e` has no more of anything than `d`. */
  predicate Less(e: Weights, d: Weights) {
    e.tail <= d.tail && e.ntlm <= d.ntlm && e.pending <= d.pending && e.objects <= d.objects
    && e.spans <= d.spans && e.refs <= d.refs && e.metadata <= d.metadata
  }

  // ---------------------------------------------------------------- dropping

  lemma DropGood(L: Limits, d: State, i: nat)
    requires Good(L, d) && i < |d.flows|
    ensures Good(L, DropFlow(d, i)) && Less(DropFlow(d, i).count, d.count) && |DropFlow(d, i).flows| == |d.flows| - 1
  {
    DropOk(d, i);
    WeightIs(d.flows[i]);
    assert d.flows[i] in d.flows;
    forall f | f in DropFlow(d, i).flows ensures FlowCap(L, f) {
      WithoutMembers(d.flows, i, f);
    }
  }

  lemma DropFirst(flows: seq<Flow>)
    requires |flows| > 1
    ensures flows[..0] + flows[1..] == flows[1..] && flows[1..][|flows| - 2] == flows[|flows| - 1]
  {
  }

  /** The current flow is the last one, so the oldest is another one. */
  lemma DropOldestGood(L: Limits, d: State, current: string)
    requires Good(L, d) && |d.flows| > 1 && Current(d).id == current
    ensures Good(L, DropOldest(d, current)) && Less(DropOldest(d, current).count, d.count)
    ensures DropOldest(d, current).flows == d.flows[1..] && Current(DropOldest(d, current)) == Current(d)
  {
    assert d.flows[0].id != d.flows[|d.flows| - 1].id;
    DropGood(L, d, 0);
    DropFirst(d.flows);
  }

  // ---------------------------------------------------------------- opening

  lemma {:induction false} MakeRoomGood(L: Limits, d: State)
    requires Good(L, d) && LimitsOk(L)
    ensures Good(L, MakeRoom(L, d)) && |MakeRoom(L, d).flows| < L.maxFlows && Less(MakeRoom(L, d).count, d.count)
    ensures forall f :: f in MakeRoom(L, d).flows ==> f in d.flows
    decreases |d.flows|
  {
    if d.flows != [] && |d.flows| >= L.maxFlows {
      DropGood(L, d, 0);
      forall f | f in DropFlow(d, 0).flows ensures f in d.flows {
        WithoutMembers(d.flows, 0, f);
      }
      MakeRoomGood(L, DropFlow(d, 0));
    }
  }

  lemma AppendBacked(flows: seq<Flow>, f: Flow, r: Ref)
    requires Backed(flows, r)
    ensures Backed(flows + [f], r)
  {
    var k :| 0 <= k < |flows| && flows[k].id == r.flow && Owns(flows[k], r.cid);
    assert (flows + [f])[k] == flows[k];
  }

  lemma AppendIndex(flows: seq<Flow>, index: seq<Ref>, nextCid: nat, f: Flow)
    requires IndexOk(flows, index, nextCid) && f.entries == []
    ensures IndexOk(flows + [f], index, nextCid)
  {
    IndexMeans(flows, index, nextCid);
    IndexMeans(flows + [f], index, nextCid);
    forall r | r in index ensures Backed(flows + [f], r) {
      AppendBacked(flows, f, r);
    }
    assert forall x :: x in flows + [f] <==> x in flows || x == f;
  }

  lemma AppendPairs(flows: seq<Flow>, births: nat, emitted: seq<Emission>, f: Flow)
    requires PairsOk(flows, births, emitted) && f.born == births
    ensures PairsOk(flows + [f], births + 1, emitted)
  {
    PairsMean(flows, births, emitted);
    PairsMean(flows + [f], births + 1, emitted);
    assert forall x :: x in flows + [f] <==> x in flows || x == f;
    forall a, b | 0 <= a < b < |flows + [f]| ensures (flows + [f])[a].born != (flows + [f])[b].born {
      assert (flows + [f])[a] in flows;
    }
  }

  lemma MovePairs(flows: seq<Flow>, births: nat, emitted: seq<Emission>, i: nat)
    requires i < |flows| && DistinctIds(flows) && PairsOk(flows, births, emitted)
    ensures PairsOk(flows[..i] + flows[i + 1..] + [flows[i]], births, emitted)
  {
    var rest := flows[..i] + flows[i + 1..];
    var moved := rest + [flows[i]];
    PairsMean(flows, births, emitted);
    PairsMean(moved, births, emitted);
    MoveMembers(flows, i);
    forall a, b | 0 <= a < b < |moved| ensures moved[a].born != moved[b].born {
      assert moved[a] == flows[if a < i then a else a + 1];
      assert moved[b] == flows[if b == |moved| - 1 then i else if b < i then b else b + 1];
    }
  }

  lemma AppendDistinct(flows: seq<Flow>, f: Flow)
    requires DistinctIds(flows) && forall x :: x in flows ==> x.id != f.id
    ensures DistinctIds(flows + [f])
  {
    var r := flows + [f];
    forall a, b | 0 <= a < b < |r| ensures r[a].id != r[b].id {
      assert r[a] == flows[a] && flows[a] in flows;
    }
  }

  lemma NewFlowIs(id: string, born: nat)
    ensures FlowOk(NewFlow(id, born)) && Weight(NewFlow(id, born)) == ZERO && NewFlow(id, born).entries == []
  {
    WeightIs(NewFlow(id, born));
  }

  lemma AppendAll(L: Limits, flows: seq<Flow>, f: Flow)
    requires AllFlowsOk(flows) && FlowOk(f) && (forall x :: x in flows ==> FlowCap(L, x)) && FlowCap(L, f)
    ensures AllFlowsOk(flows + [f]) && forall x :: x in flows + [f] ==> FlowCap(L, x)
  {
    assert forall x :: x in flows + [f] <==> x in flows || x == f;
  }

  lemma AppendFlow(L: Limits, d: State, id: string)
    requires Good(L, d) && |d.flows| < L.maxFlows && forall f :: f in d.flows ==> f.id != id
    ensures Good(L, d.(flows := d.flows + [NewFlow(id, d.births)], births := d.births + 1))
  {
    var f := NewFlow(id, d.births);
    NewFlowIs(id, d.births);
    AppendPairs(d.flows, d.births, d.emitted, f);
    TotalSnoc(d.flows, f);
    AppendIndex(d.flows, d.index, d.nextCid, f);
    AppendDistinct(d.flows, f);
    AppendAll(L, d.flows, f);
  }

  lemma MoveIndex(flows: seq<Flow>, index: seq<Ref>, nextCid: nat, i: nat)
    requires i < |flows| && DistinctIds(flows) && IndexOk(flows, index, nextCid)
    ensures IndexOk(flows[..i] + flows[i + 1..] + [flows[i]], index, nextCid)
  {
    var moved := flows[..i] + flows[i + 1..] + [flows[i]];
    IndexMeans(flows, index, nextCid);
    IndexMeans(moved, index, nextCid);
    MoveMembers(flows, i);
    forall r | r in index ensures Backed(moved, r) {
      MoveBacked(flows, i, r);
    }
  }

  lemma MoveDistinct(flows: seq<Flow>, i: nat)
    requires i < |flows| && DistinctIds(flows)
    ensures DistinctIds(flows[..i] + flows[i + 1..] + [flows[i]])
  {
    var rest := flows[..i] + flows[i + 1..];
    WithoutDistinct(flows, i);
    forall x | x in rest ensures x.id != flows[i].id {
      WithoutMembers(flows, i, x);
    }
    AppendDistinct(rest, flows[i]);
  }

  lemma MoveFlow(L: Limits, d: State, i: nat)
    requires Good(L, d) && i < |d.flows|
    ensures Good(L, d.(flows := d.flows[..i] + d.flows[i + 1..] + [d.flows[i]]))
  {
    TotalSnoc(d.flows[..i] + d.flows[i + 1..], d.flows[i]);
    TotalWithout(d.flows, i);
    MoveMembers(d.flows, i);
    MoveDistinct(d.flows, i);
    MoveIndex(d.flows, d.index, d.nextCid, i);
    MovePairs(d.flows, d.births, d.emitted, i);
  }

  lemma MoveMembers(flows: seq<Flow>, i: nat)
    requires i < |flows| && DistinctIds(flows)
    ensures forall x :: x in flows[..i] + flows[i + 1..] + [flows[i]] <==> x in flows
  {
    forall x ensures x in flows[..i] + flows[i + 1..] + [flows[i]] <==> x in flows {
      WithoutMembers(flows, i, x);
      if x in flows && x.id == flows[i].id {
        var k :| 0 <= k < |flows| && flows[k] == x;
        assert k == i;
      }
    }
  }

  lemma MoveBacked(flows: seq<Flow>, i: nat, r: Ref)
    requires i < |flows| && DistinctIds(flows) && Backed(flows, r)
    ensures Backed(flows[..i] + flows[i + 1..] + [flows[i]], r)
  {
    var k :| 0 <= k < |flows| && flows[k].id == r.flow && Owns(flows[k], r.cid);
    var moved := flows[..i] + flows[i + 1..] + [flows[i]];
    assert moved[if k < i then k else if k == i then |flows| - 1 else k - 1] == flows[k];
  }

  lemma OpenGood(L: Limits, d: State, id: string)
    requires Good(L, d) && LimitsOk(L)
    ensures Good(L, Open(L, d, id)) && Open(L, d, id).flows != [] && Current(Open(L, d, id)).id == id
  {
    FindFlowOk(d.flows, id);
    var at := FindFlow(d.flows, id);
    if at.Some? {
      MoveFlow(L, d, at.value);
    } else {
      MakeRoomGood(L, d);
      AppendFlow(L, MakeRoom(L, d), id);
    }
  }

  // ---------------------------------------------------------------- the current flow

  /** The state between two steps of a call on flow `id`. */
  ghost predicate Ready(L: Limits, d: State, id: string) { Good(L, d) && d.flows != [] && Current(d).id == id }

  lemma SetCurrentReady(L: Limits, d: State, id: string, f: Flow)
    requires Ready(L, d, id) && f == Current(d).(sides := f.sides)
    ensures Ready(L, SetCurrent(d, f), id) && Current(SetCurrent(d, f)) == f && |SetCurrent(d, f).flows| == |d.flows|
    ensures SetCurrent(d, f).count == Plus(Minus(d.count, Weight(Current(d))), Weight(f))
    ensures SetCurrent(d, f).index == d.index
  {
    assert Current(d) in d.flows;
    SetCurrentOk(d, f);
    WeightIs(Current(d));
    WeightIs(f);
    LastUpdate(d.flows, f);
    forall x | x in SetCurrent(d, f).flows ensures FlowCap(L, x) {
      UpdateMembers(d.flows, |d.flows| - 1, f, x);
    }
  }

  lemma MergeReady(L: Limits, d: State, id: string, direction: nat, chunk: Retained)
    requires Ready(L, d, id)
    ensures Ready(L, MergeChunk(L, d, direction, chunk), id)
  {
    var f := Current(d);
    SetCurrentReady(L, d, id,
                    f.(sides := WithWindow(f.sides, direction,
                                           Merge(WindowOf(f.sides, direction), chunk, L.overlap).window)));
  }

  // ---------------------------------------------------------------- span caps

  lemma {:induction false} EvictForSpansReady(L: Limits, d: State, id: string)
    requires Ready(L, d, id)
    ensures var e := EvictForSpans(L, d, id); Ready(L, e, id) && (OverSpans(L, e) ==> |e.flows| == 1)
    decreases |d.flows|
  {
    if OverSpans(L, d) && |d.flows| > 1 {
      DropOldestGood(L, d, id);
      EvictForSpansReady(L, DropOldest(d, id), id);
    }
  }

  lemma PopSpanReady(L: Limits, d: State, id: string, i: nat)
    requires Ready(L, d, id) && i < |Current(d).sides| && Current(d).sides[i].window.spans != []
    ensures Ready(L, PopSpan(d, i), id) && |PopSpan(d, i).flows| == |d.flows|
  {
    var f := Current(d);
    SetCurrentReady(L, d, id, f.(sides := f.sides[i := f.sides[i].(window := Forget(f.sides[i].window, 1))]));
  }

  lemma {:induction false} PopRoundReady(L: Limits, d: State, id: string, i: nat)
    requires Ready(L, d, id)
    ensures Ready(L, PopRound(L, d, i), id)
    decreases |Current(d).sides| - i
  {
    if i < |Current(d).sides| {
      if Current(d).sides[i].window.spans == [] {
        PopRoundReady(L, d, id, i + 1);
      } else {
        PopSpanReady(L, d, id, i);
        PopRoundReady(L, PopSpan(d, i), id, i + 1);
      }
    }
  }

  lemma {:induction false} PopLoopReady(L: Limits, d: State, id: string)
    requires Ready(L, d, id)
    ensures var e := PopLoop(L, d);
            Ready(L, e, id) && |e.flows| == |d.flows| && (OverSpans(L, e) ==> SpanCount(Current(e).sides) == 0)
    decreases SpanCount(Current(d).sides)
  {
    if OverSpans(L, d) && SpanCount(Current(d).sides) > 0 {
      PopRoundShrinks(L, d, 0);
      PopRoundReady(L, d, id, 0);
      PopLoopReady(L, PopRound(L, d, 0), id);
    }
  }

  lemma {:induction false} NoSpansNoRefs(sides: seq<Side>)
    requires SpanCount(sides) == 0
    ensures RefCount(sides) == 0
    decreases |sides|
  {
    if sides != [] {
      NoSpansNoRefs(sides[1..]);
    }
  }

  lemma OnlyFlow(d: State)
    requires Inv(d) && |d.flows| == 1
    ensures d.count == Weight(Current(d))
  {
    assert d.flows == [d.flows[0]];
    TotalOne(d.flows[0]);
  }

  lemma LoneFlowWithoutSpans(L: Limits, d: State)
    requires Inv(d) && |d.flows| == 1 && SpanCount(Current(d).sides) == 0
    ensures !OverSpans(L, d)
  {
    OnlyFlow(d);
    WeightIs(Current(d));
    NoSpansNoRefs(Current(d).sides);
  }

  /** The span caps hold after enforcement, whatever was evicted. */
  lemma EnforceSpansReady(L: Limits, d: State, id: string)
    requires Ready(L, d, id)
    ensures Ready(L, EnforceSpans(L, d, id), id) && !OverSpans(L, EnforceSpans(L, d, id))
  {
    EvictForSpansReady(L, d, id);
    var e := EvictForSpans(L, d, id);
    PopLoopReady(L, e, id);
    var r := PopLoop(L, e);
    if OverSpans(L, r) {
      if OverSpans(L, e) {
        LoneFlowWithoutSpans(L, r);
      }
    }
  }

  // ---------------------------------------------------------------- metadata

  lemma {:induction false} EvictForMetadataReady(L: Limits, d: State, id: string)
    requires Ready(L, d, id)
    ensures var e := EvictForMetadata(L, d, id); Ready(L, e, id) && Less(e.count, d.count)
    decreases |d.flows|
  {
    if d.count.metadata >= L.maxMetadata && |d.flows| > 1 {
      DropOldestGood(L, d, id);
      EvictForMetadataReady(L, DropOldest(d, id), id);
    }
  }

  lemma CountMetadata(L: Limits, d: State, id: string)
    requires Ready(L, d, id) && d.count.metadata < L.maxMetadata
    ensures var e := SetCurrent(d, Current(d).(metadata := Current(d).metadata + 1));
            Ready(L, e, id) && e.count == d.count.(metadata := d.count.metadata + 1)
  {
    var f := Current(d).(metadata := Current(d).metadata + 1);
    assert Current(d) in d.flows;
    SetCurrentOk(d, f);
    WeightIs(Current(d));
    WeightIs(f);
    LastUpdate(d.flows, f);
    forall x | x in SetCurrent(d, f).flows ensures FlowCap(L, x) {
      UpdateMembers(d.flows, |d.flows| - 1, f, x);
    }
  }

  lemma ReserveMetadataReady(L: Limits, d: State, id: string)
    requires Ready(L, d, id) && !OverSpans(L, d)
    ensures Ready(L, ReserveMetadata(L, d), id) && !OverSpans(L, ReserveMetadata(L, d))
  {
    EvictForMetadataReady(L, d, id);
    var e := EvictForMetadata(L, d, id);
    if e.count.metadata < L.maxMetadata {
      CountMetadata(L, e, id);
    }
  }

  // ---------------------------------------------------------------- NTLM entries

  /** Same table but for one flow's entries. */
  lemma RemovedReady(L: Limits, d: State, id: string, i: nat, e: Entry)
    requires Ready(L, d, id) && i < |d.flows| && FindEntry(d.flows[i].entries, e.cid) == Some(e)
    ensures Ready(L, Removed(d, i, e), id) && |Removed(d, i, e).flows| == |d.flows|
    ensures Removed(d, i, e).count == d.count.(ntlm := d.count.ntlm - e.size)
  {
    RemovedOk(d, i, e);
    RemovedFlow(d, i, e);
    assert d.flows[i] in d.flows;
    forall x | x in Removed(d, i, e).flows ensures FlowCap(L, x) {
      UpdateMembers(d.flows, i, WithoutNtlm(d.flows[i], e), x);
    }
  }

  lemma RemoveReady(L: Limits, d: State, id: string, i: nat, cid: nat)
    requires Ready(L, d, id) && i < |d.flows|
    ensures var r := RemoveEntry(d, i, cid);
            Ready(L, r, id) && r.count == d.count.(ntlm := r.count.ntlm) && r.count.ntlm <= d.count.ntlm
  {
    FoundEntry(d.flows[i].entries, cid);
    var e := FindEntry(d.flows[i].entries, cid);
    if e.Some? {
      RemovedReady(L, d, id, i, e.value);
    }
  }

  lemma FlowHasRoom(L: Limits, f: Flow, size: nat)
    requires FlowOk(f) && f.entries == [] && LimitsOk(L) && size <= L.maxNtlmBytesPerFlow
    ensures !FlowFull(L, f, size)
  {
  }

  /** `e` differs from `d` in NTLM entries only. */
  predicate OnlyNtlm(d: State, e: State) { e.count == d.count.(ntlm := e.count.ntlm) && e.count.ntlm <= d.count.ntlm }

  lemma {:induction false} EvictFlowReady(L: Limits, d: State, id: string, size: nat)
    requires Ready(L, d, id) && LimitsOk(L) && size <= L.maxNtlmBytesPerFlow
    ensures var e := EvictFlowEntries(L, d, size); Ready(L, e, id) && OnlyNtlm(d, e) && !FlowFull(L, Current(e), size)
    decreases |Current(d).entries|
  {
    var f := Current(d);
    assert f in d.flows;
    if FlowFull(L, f, size) {
      if f.entries == [] {
        FlowHasRoom(L, f, size);
      } else {
        RemoveReady(L, d, id, |d.flows| - 1, f.entries[0].cid);
        EvictFlowReady(L, RemoveEntry(d, |d.flows| - 1, f.entries[0].cid), id, size);
      }
    }
  }

  /** The oldest index entry is always backed by a live flow, so eviction finds it. */
  lemma OldestFound(d: State)
    requires Inv(d) && d.index != []
    ensures FindFlow(d.flows, d.index[0].flow).Some?
    ensures var at := FindFlow(d.flows, d.index[0].flow).value;
            at < |d.flows| && FindEntry(d.flows[at].entries, d.index[0].cid).Some?
  {
    IndexMeans(d.flows, d.index, d.nextCid);
    assert d.index[0] in d.index;
    var k :| 0 <= k < |d.flows| && d.flows[k].id == d.index[0].flow && Owns(d.flows[k], d.index[0].cid);
    FindFlowOk(d.flows, d.index[0].flow);
    var at := FindFlow(d.flows, d.index[0].flow).value;
    assert at == k;
    FoundEntry(d.flows[at].entries, d.index[0].cid);
  }

  lemma EvictOldestReady(L: Limits, d: State, id: string)
    requires Ready(L, d, id) && d.index != []
    ensures EvictOldestEntry(d).Some?
    ensures var e := EvictOldestEntry(d).value; Ready(L, e, id) && OnlyNtlm(d, e) && |e.index| < |d.index|
  {
    OldestFound(d);
    EvictShortens(d);
    var at := FindFlow(d.flows, d.index[0].flow).value;
    RemoveReady(L, d, id, at, d.index[0].cid);
  }

  lemma ListedHead(index: seq<Ref>, f: Flow)
    requires Listed(index, f) && f.entries != []
    ensures Ref(f.entries[0].cid, f.id) in index
  {
    assert f.entries[0] in f.entries;
  }

  lemma NoEntriesNoBytes(d: State)
    requires Inv(d) && d.index == []
    ensures d.count.ntlm == 0
  {
    IndexMeans(d.flows, d.index, d.nextCid);
    forall f | f in d.flows ensures f.entries == [] {
      if f.entries != [] {
        ListedHead(d.index, f);
      }
    }
    NoBytes(d.flows);
  }

  lemma {:induction false} NoBytes(flows: seq<Flow>)
    requires forall f :: f in flows ==> f.entries == []
    ensures Total(flows).ntlm == 0
    decreases |flows|
  {
    if flows != [] {
      assert flows[|flows| - 1] in flows;
      WeightIs(flows[|flows| - 1]);
      NoBytes(flows[..|flows| - 1]);
    }
  }

  lemma OldestRemoved(d: State)
    requires Inv(d) && d.index != []
    ensures var at := FindFlow(d.flows, d.index[0].flow);
            && at.Some? && at.value < |d.flows| && FindEntry(d.flows[at.value].entries, d.index[0].cid).Some?
            && var e := FindEntry(d.flows[at.value].entries, d.index[0].cid).value;
               e.cid == d.index[0].cid && EvictOldestEntry(d) == Some(Removed(d, at.value, e))
  {
    OldestFound(d);
    FindEntryId(d.flows[FindFlow(d.flows, d.index[0].flow).value].entries, d.index[0].cid);
  }

  lemma RemovedKeepsRoom(L: Limits, d: State, id: string, i: nat, e: Entry, size: nat)
    requires Ready(L, d, id) && i < |d.flows| && FindEntry(d.flows[i].entries, e.cid) == Some(e)
    requires !FlowFull(L, Current(d), size)
    ensures !FlowFull(L, Current(Removed(d, i, e)), size)
  {
    RemovedFlow(d, i, e);
  }

  /** Removing entries never fills the current flow again. */
  lemma StillRoom(L: Limits, d: State, id: string, size: nat)
    requires Ready(L, d, id) && d.index != [] && !FlowFull(L, Current(d), size)
    ensures EvictOldestEntry(d).Some? && EvictOldestEntry(d).value.flows != []
    ensures !FlowFull(L, Current(EvictOldestEntry(d).value), size)
  {
    OldestRemoved(d);
    var at := FindFlow(d.flows, d.index[0].flow).value;
    RemovedKeepsRoom(L, d, id, at, FindEntry(d.flows[at].entries, d.index[0].cid).value, size);
  }

  lemma {:induction false} EvictStoreReady(L: Limits, d: State, id: string, size: nat)
    requires Ready(L, d, id) && LimitsOk(L) && size <= L.maxNtlmBytes && !FlowFull(L, Current(d), size)
    ensures var e := EvictStoreEntries(L, d, size);
            Ready(L, e, id) && OnlyNtlm(d, e) && !StoreFull(L, e, size) && !FlowFull(L, Current(e), size)
    decreases |d.index|
  {
    if StoreFull(L, d, size) {
      if d.index == [] {
        NoEntriesNoBytes(d);
      } else {
        EvictOldestReady(L, d, id);
        StillRoom(L, d, id, size);
        EvictStoreReady(L, EvictOldestEntry(d).value, id, size);
      }
    }
  }

  lemma AddReady(L: Limits, d: State, id: string, challenge: bool, key: int, size: nat)
    requires Ready(L, d, id) && !StoreFull(L, d, size) && !FlowFull(L, Current(d), size)
    ensures var e := AddEntry(d, challenge, key, size);
            Ready(L, e, id) && e.count == d.count.(ntlm := d.count.ntlm + size)
  {
    AddEntryOk(d, challenge, key, size);
    var f, n := Current(d), Entry(d.nextCid, challenge, key, size);
    assert f in d.flows;
    var g := f.(entries := f.entries + [n], ntlmBytes := f.ntlmBytes + size);
    LastUpdate(d.flows, g);
    forall x | x in AddEntry(d, challenge, key, size).flows ensures FlowCap(L, x) {
      UpdateMembers(d.flows, |d.flows| - 1, g, x);
    }
  }

  /** An entry is refused only when it alone exceeds a byte cap; either way all caps hold afterwards. */
  lemma RetainReady(L: Limits, d: State, id: string, challenge: bool, key: int, size: nat)
    requires Ready(L, d, id) && LimitsOk(L)
    ensures var r := RetainEntry(L, d, challenge, key, size);
            && Ready(L, r.state, id) && r.state.count == d.count.(ntlm := r.state.count.ntlm)
            && (r.granted <==> size <= L.maxNtlmBytesPerFlow && size <= L.maxNtlmBytes)
            && (r.granted ==> Current(r.state).entries != []
                              && var last := Current(r.state).entries[|Current(r.state).entries| - 1];
                                 last.challenge == challenge && last.key == key && last.size == size)
  {
    var had := ChallengeWith(Current(d).entries, key);
    if challenge && had.Some? {
      RemoveReady(L, d, id, |d.flows| - 1, had.value.cid);
    }
    var e := if challenge then Supersede(d, key) else d;
    if size <= L.maxNtlmBytesPerFlow && size <= L.maxNtlmBytes {
      EvictFlowReady(L, e, id, size);
      var f := EvictFlowEntries(L, e, size);
      EvictStoreReady(L, f, id, size);
      AddReady(L, EvictStoreEntries(L, f, size), id, challenge, key, size);
    }
  }

  // ---------------------------------------------------------------- reporting pairs

  lemma ReportPairs(flows: seq<Flow>, births: nat, emitted: seq<Emission>, i: nat, scope: int, offset: int)
    requires i < |flows| && PairsOk(flows, births, emitted) && !Stale(flows[i], scope, offset)
    ensures PairsOk(flows[i := flows[i].(highwater := flows[i].highwater[scope := offset])], births,
                    emitted + [Emission(flows[i].born, scope, offset)])
  {
    var f, e := flows[i].(highwater := flows[i].highwater[scope := offset]), Emission(flows[i].born, scope, offset);
    PairsMean(flows, births, emitted);
    PairsMean(flows[i := f], births, emitted + [e]);
    assert flows[i] in flows;
    assert forall x :: x in emitted + [e] <==> x in emitted || x == e;
    forall x | x in emitted && x.born == e.born && x.scope == e.scope ensures x.offset < e.offset {
      assert Covers(flows[i], x);
    }
    RisingSnoc(emitted, e);
    forall x, y | x in flows[i := f] && y in emitted + [e] ensures Covers(x, y) {
      ReportCovers(flows, emitted, i, f, e, x, y);
    }
    forall x | x in flows[i := f] ensures x.born < births {
      UpdateMembers(flows, i, f, x);
    }
  }

  lemma RisingSnoc(emitted: seq<Emission>, e: Emission)
    requires Rising(emitted)
             && forall x :: x in emitted && x.born == e.born && x.scope == e.scope ==> x.offset < e.offset
    ensures Rising(emitted + [e])
  {
  }

  lemma ReportCovers(flows: seq<Flow>, emitted: seq<Emission>, i: nat, f: Flow, e: Emission, x: Flow, y: Emission)
    requires i < |flows| && f == flows[i].(highwater := flows[i].highwater[e.scope := e.offset]) && e.born == f.born
    requires !Stale(flows[i], e.scope, e.offset) && DistinctBirths(flows)
    requires forall a, b :: a in flows && b in emitted ==> Covers(a, b)
    requires x in flows[i := f] && (y in emitted || y == e)
    ensures Covers(x, y)
  {
    UpdateMembers(flows, i, f, x);
    assert flows[i] in flows;
    if y in emitted {
      assert Covers(flows[i], y);
      if x != f {
        assert Covers(x, y);
      }
    } else if x != f {
      var k :| 0 <= k < |flows| && k != i && flows[k] == x;
      assert flows[k].born != flows[i].born;
    }
  }

  lemma ReportReady(L: Limits, d: State, id: string, scope: int, offset: int)
    requires Ready(L, d, id) && !Stale(Current(d), scope, offset)
    ensures Ready(L, Report(d, scope, offset), id) && Report(d, scope, offset).count == d.count
  {
    var n, f := |d.flows| - 1, Current(d).(highwater := Current(d).highwater[scope := offset]);
    assert Current(d) in d.flows;
    LastUpdate(d.flows, f);
    WeightIs(Current(d));
    WeightIs(f);
    TotalUpdate(d.flows, n, f);
    UpdateDistinct(d.flows, n, f);
    UpdateAllOk(d.flows, n, f);
    UpdateIndexOk(d.flows, d.index, d.nextCid, n, f);
    ReportPairs(d.flows, d.births, d.emitted, n, scope, offset);
    forall x | x in d.flows[n := f] ensures FlowCap(L, x) {
      UpdateMembers(d.flows, n, f, x);
    }
  }

  lemma ReserveKeepsHighwater(L: Limits, d: State, id: string)
    requires Ready(L, d, id)
    ensures ReserveMetadata(L, d).flows != [] && Current(ReserveMetadata(L, d)).highwater == Current(d).highwater
  {
    EvictKeepsCurrent(L, d, id);
  }

  lemma {:induction false} EvictKeepsCurrent(L: Limits, d: State, id: string)
    requires Ready(L, d, id)
    ensures var e := EvictForMetadata(L, d, id); e.flows != [] && Current(e) == Current(d)
    decreases |d.flows|
  {
    if d.count.metadata >= L.maxMetadata && |d.flows| > 1 {
      DropOldestGood(L, d, id);
      EvictKeepsCurrent(L, DropOldest(d, id), id);
    }
  }

  lemma PairUpReady(L: Limits, d: State, id: string, scope: int, offset: int)
    requires Ready(L, d, id) && !OverSpans(L, d)
    ensures Ready(L, PairUp(L, d, scope, offset), id) && !OverSpans(L, PairUp(L, d, scope, offset))
  {
    if !Stale(Current(d), scope, offset) {
      if scope in Current(d).highwater {
        ReportReady(L, d, id, scope, offset);
      } else {
        ReserveMetadataReady(L, d, id);
        ReserveKeepsHighwater(L, d, id);
        ReportReady(L, ReserveMetadata(L, d), id, scope, offset);
      }
    }
  }

  lemma PerformReady(L: Limits, d: State, id: string, s: Scan)
    requires Ready(L, d, id) && LimitsOk(L) && !OverSpans(L, d)
    ensures Ready(L, Perform(L, d, s), id) && !OverSpans(L, Perform(L, d, s))
  {
    match s
    case Mark => ReserveMetadataReady(L, d, id);
    case Challenge(key, size) => RetainReady(L, d, id, true, key, size);
    case Response(size) => RetainReady(L, d, id, false, 0, size);
    case Release(cid) => RemoveReady(L, d, id, |d.flows| - 1, cid);
    case Pair(scope, offset) => PairUpReady(L, d, id, scope, offset);
  }

  lemma {:induction false} PerformAllReady(L: Limits, d: State, id: string, scans: seq<Scan>)
    requires Ready(L, d, id) && LimitsOk(L) && !OverSpans(L, d)
    ensures Ready(L, PerformAll(L, d, scans), id) && !OverSpans(L, PerformAll(L, d, scans))
    decreases |scans|
  {
    if scans != [] {
      PerformReady(L, d, id, scans[0]);
      PerformAllReady(L, Perform(L, d, scans[0]), id, scans[1..]);
    }
  }

  // ---------------------------------------------------------------- no operation on spans adds any

  lemma DedupNoLonger(ids: seq<nat>)
    ensures |Dedup(ids)| <= |ids|
  {
    AppendNewNoLonger([], ids);
  }

  lemma {:induction false} AppendNewNoLonger(ids: seq<nat>, more: seq<nat>)
    ensures |AppendNew(ids, more)| <= |ids| + |more|
    decreases |more|
  {
    if more != [] {
      AppendNewNoLonger(if more[0] in ids then ids else ids + [more[0]], more[1..]);
    }
  }

  lemma {:induction false} RefsAppend(a: seq<Span>, b: seq<Span>)
    ensures Refs(a + b) == Refs(a) + Refs(b)
    decreases |a|
  {
    if a == [] {
      AppendNil(b);
    } else {
      assert (a + b)[1..] == a[1..] + b;
      RefsAppend(a[1..], b);
    }
  }

  lemma RefsOne(s: Span)
    ensures Refs([s]) == |s.ids|
  {
  }

  /** As many spans and packet references as `b`, or fewer. */
  predicate NoMore(a: seq<Span>, b: seq<Span>) { |a| <= |b| && Refs(a) <= Refs(b) }

  lemma PushNoMore(spans: seq<Span>, s: Span)
    ensures |Push(spans, s)| <= |spans| + 1 && Refs(Push(spans, s)) <= Refs(spans) + |s.ids|
  {
    RefsAppend(spans, [s]);
    RefsOne(s);
    if spans != [] {
      var init, last := spans[..|spans| - 1], spans[|spans| - 1];
      assert spans == init + [last];
      RefsAppend(init, [last]);
      RefsAppend(init, [last.(end := s.end)]);
      RefsOne(last);
      RefsOne(last.(end := s.end));
    }
  }

  lemma {:induction false} PushAllNoMore(acc: seq<Span>, spans: seq<Span>)
    ensures |PushAll(acc, spans)| <= |acc| + |spans| && Refs(PushAll(acc, spans)) <= Refs(acc) + Refs(spans)
    decreases |spans|
  {
    if spans != [] {
      var next := if spans[0].start < spans[0].end then Push(acc, Normal(spans[0])) else acc;
      DedupNoLonger(spans[0].ids);
      PushNoMore(acc, Normal(spans[0]));
      PushAllNoMore(next, spans[1..]);
    }
  }

  lemma {:induction false} InsertNoMore(sorted: seq<Span>, s: Span)
    ensures |InsertSpan(sorted, s)| == |sorted| + 1 && Refs(InsertSpan(sorted, s)) == Refs(sorted) + |s.ids|
    decreases |sorted|
  {
    RefsOne(s);
    RefsAppend(sorted, [s]);
    if sorted != [] {
      var init, last := sorted[..|sorted| - 1], sorted[|sorted| - 1];
      assert sorted == init + [last];
      InsertNoMore(init, s);
      RefsAppend(init, [last]);
      RefsAppend(InsertSpan(init, s), [last]);
    }
  }

  lemma {:induction false} SortNoMore(spans: seq<Span>)
    ensures NoMore(SortSpans(spans), spans)
    decreases |spans|
  {
    if spans != [] {
      var init, s := spans[..|spans| - 1], spans[|spans| - 1];
      assert spans == init + [s];
      RefsAppend(init, [s]);
      RefsOne(s);
      SortNoMore(init);
      InsertNoMore(SortSpans(init), s);
    }
  }

  lemma CoalesceNoMore(spans: seq<Span>)
    ensures NoMore(Coalesce(spans), spans)
  {
    SortNoMore(spans);
    PushAllNoMore([], SortSpans(spans));
  }

  lemma {:induction false} ClipLoopNoMore(spans: seq<Span>, start: int, end: int)
    ensures NoMore(ClipLoop(spans, start, end), spans)
    decreases |spans|
  {
    if spans != [] {
      ClipLoopNoMore(spans[1..], start, end);
      var head := spans[0].(start := Max(start, spans[0].start), end := Min(end, spans[0].end));
      RefsAppend([head], ClipLoop(spans[1..], start, end));
      RefsOne(head);
    }
  }

  /** Cutting a window keeps no more spans and references than it had. */
  lemma RetainNoMore(spans: seq<Span>, lo: int, hi: int)
    ensures NoMore(Retain(spans, lo, hi), spans)
  {
    ClipLoopNoMore(spans, lo, hi);
    CoalesceNoMore(ClipLoop(spans, lo, hi));
    CoalesceNoMore(Clip(spans, lo, hi));
  }

  // ---------------------------------------------------------------- trimming tails

  lemma CutNoMore(w: Retained, n: nat)
    ensures |CutTo(w, n).data| == Min(n, |w.data|) && NoMore(CutTo(w, n).spans, w.spans)
  {
    RetainNoMore(w.spans, w.End() - |LastBytes(w.data, n)|, w.End());
  }

  /** The sum of the shares of sides `i` to `n - 1`. */
  function Shares(budget: nat, n: nat, i: nat): nat
    requires i <= n
    decreases n - i
  {
    if i == n then 0 else Share(budget, n, i) + Shares(budget, n, i + 1)
  }

  lemma {:induction false} SharesCount(budget: nat, n: nat, i: nat, share: nat, extra: nat)
    requires 0 < n && i <= n && share == budget / n && extra == budget - share * n && extra < n
    ensures Shares(budget, n, i) == share * (n - i) + Max(0, extra - i)
    decreases n - i
  {
    if i < n {
      SharesCount(budget, n, i + 1, share, extra);
      assert share * (n - i) == share + share * (n - (i + 1));
    }
  }

  /** The shares add up to the budget exactly. */
  lemma SharesExact(budget: nat, n: nat)
    requires n > 0
    ensures Shares(budget, n, 0) == budget
  {
    var share := budget / n;
    assert budget == share * n + budget % n;
    SharesCount(budget, n, 0, share, budget - share * n);
  }

  lemma {:induction false} TrimSidesOk(sides: seq<Side>, budget: nat, n: nat, i: nat)
    requires i + |sides| == n
    ensures var r := TrimSides(sides, budget, n, i);
            && TailBytes(r) <= Shares(budget, n, i) && TailBytes(r) <= TailBytes(sides)
            && SpanCount(r) <= SpanCount(sides) && RefCount(r) <= RefCount(sides)
    decreases |sides|
  {
    if sides != [] {
      var keep := Share(budget, n, i);
      CutNoMore(sides[0].window, keep);
      TrimSidesOk(sides[1..], budget, n, i + 1);
      TrimHead(sides, budget, n, i, keep);
    }
  }

  function TrimOne(s: Side, keep: nat): Side {
    if |s.window.data| > keep then s.(window := CutTo(s.window, keep)) else s
  }

  lemma TrimHead(sides: seq<Side>, budget: nat, n: nat, i: nat, keep: nat)
    requires sides != [] && keep == Share(budget, n, i)
    ensures var rest, head := TrimSides(sides[1..], budget, n, i + 1), TrimOne(sides[0], keep);
            && TrimSides(sides, budget, n, i) == [head] + rest && ([head] + rest)[1..] == rest
  {
  }
}
