/** What holds after every call of the detector, and over every run of calls. */
module DetectorTheorems {
  import opened Common
  import opened Detector
  import opened DetectorLaws
  import opened DetectorBudget

  predicate OverBytes(L: Limits, d: State) { RetainedBytes(d) > L.maxRetained }

  /** The state of a call whose spans were brought under their caps. */
  ghost predicate Steady(L: Limits, d: State, id: string) { Ready(L, d, id) && !OverSpans(L, d) }

  // ---------------------------------------------------------------- the enforcement, step by step

  lemma {:induction false} EvictForBytesSteady(L: Limits, d: State, id: string)
    requires Steady(L, d, id)
    ensures var e := EvictForBytes(L, d, id); Steady(L, e, id) && (OverBytes(L, e) ==> |e.flows| == 1)
    decreases |d.flows|
  {
    if OverBytes(L, d) && |d.flows| > 1 {
      DropOldestGood(L, d, id);
      EvictForBytesSteady(L, DropOldest(d, id), id);
    }
  }

  /** `w` keeps no more than `budget` tail bytes and no more spans than `v`, and agrees on the rest. */
  predicate TrimmedTo(w: Weights, v: Weights, budget: nat) {
    w == v.(tail := w.tail, spans := w.spans, refs := w.refs) && w.tail <= budget && w.spans <= v.spans
      && w.refs <= v.refs
  }

  lemma TrimmedWeight(f: Flow, budget: nat)
    ensures TrimmedTo(Weight(Trimmed(f, budget)), Weight(f), budget)
    ensures Trimmed(f, budget) == f.(sides := Trimmed(f, budget).sides)
  {
    WeightIs(f);
    WeightIs(Trimmed(f, budget));
    TrimSidesOk(f.sides, budget, |f.sides|, 0);
    if f.sides != [] {
      SharesExact(budget, |f.sides|);
    }
  }

  lemma Replaced(w: Weights, v: Weights)
    ensures Plus(Minus(v, v), w) == w
  {
  }

  /** One flow is left, and only what trimming cannot reach may exceed the budget. */
  ghost predicate Lone(L: Limits, d: State, id: string) {
    && Steady(L, d, id) && |d.flows| == 1
    && (OverBytes(L, d) ==> d.count.ntlm + d.count.pending > L.maxRetained)
  }

  lemma TrimSteady(L: Limits, d: State, id: string, g: Flow, budget: nat)
    requires Steady(L, d, id) && |d.flows| == 1 && g == Current(d).(sides := g.sides)
    requires TrimmedTo(Weight(g), Weight(Current(d)), budget)
             && budget == Max(0, L.maxRetained - d.count.ntlm - d.count.pending)
    ensures Lone(L, SetCurrent(d, g), id)
  {
    SetCurrentReady(L, d, id, g);
    OnlyFlow(d);
    Replaced(Weight(g), d.count);
  }

  /** With one flow left, its tails are trimmed to what the other two budgets leave. */
  lemma TrimTailsSteady(L: Limits, d: State, id: string)
    requires Steady(L, d, id) && |d.flows| == 1
    ensures Lone(L, TrimTails(L, d), id)
  {
    var budget: nat := Max(0, L.maxRetained - d.count.ntlm - d.count.pending);
    TrimmedLone(L, d, id, Trimmed(Current(d), budget), budget);
  }

  lemma TrimmedLone(L: Limits, d: State, id: string, g: Flow, budget: nat)
    requires Steady(L, d, id) && |d.flows| == 1 && g == Trimmed(Current(d), budget)
    requires budget == Max(0, L.maxRetained - d.count.ntlm - d.count.pending)
    ensures Lone(L, SetCurrent(d, g), id)
  {
    TrimmedWeight(Current(d), budget);
    TrimSteady(L, d, id, g, budget);
  }

  lemma {:induction false} EvictEntriesSteady(L: Limits, d: State, id: string)
    requires Steady(L, d, id)
    ensures var e := EvictEntriesForBytes(L, d); Steady(L, e, id) && |e.flows| == |d.flows|
    decreases |d.index|
  {
    if OverBytes(L, d) && d.index != [] {
      EvictOldestReady(L, d, id);
      EvictShortens(d);
      EvictEntriesSteady(L, EvictOldestEntry(d).value, id);
    }
  }

  lemma RefreshReady(L: Limits, d: State, id: string, pending: seq<Pending>, losses: seq<Pending>)
    requires Steady(L, d, id)
    ensures var e := Refresh(d, pending, losses); Steady(L, e, id) && |e.flows| == |d.flows|
  {
    RefreshOk(d, pending, losses);
    var g := Refreshed(Current(d), pending, losses);
    LastUpdate(d.flows, g);
    assert Current(d) in d.flows;
    forall x | x in Refresh(d, pending, losses).flows ensures FlowCap(L, x) {
      UpdateMembers(d.flows, |d.flows| - 1, g, x);
    }
  }

  lemma {:induction false} DiscardSteady(L: Limits, d: State, id: string, marker: nat -> nat)
    requires Steady(L, d, id)
    ensures var e := DiscardForBytes(L, d, marker); Steady(L, e, id) && |e.flows| == |d.flows|
    decreases |Current(d).pending|
  {
    if OverBytes(L, d) && Current(d).pending != [] {
      var f := Current(d);
      RefreshReady(L, d, id, f.pending[1..], AddLoss(f.losses, Pending(f.pending[0].name, marker(f.pending[0].name))));
      DiscardSteady(L, DiscardPending(d, marker), id, marker);
    }
  }

  lemma EmptyTable(d: State)
    requires Inv(d) && d.flows == []
    ensures d.count == ZERO
  {
  }

  /** The last resort: the only flow left is dropped, and with it everything retained. */
  lemma DropLast(L: Limits, d: State, id: string)
    requires Steady(L, d, id) && |d.flows| == 1
    ensures var e := DropFlow(d, 0); Good(L, e) && !OverSpans(L, e) && !OverBytes(L, e)
  {
    DropGood(L, d, 0);
    EmptyTable(DropFlow(d, 0));
  }

  /** Whatever has to be given up, the bytes fit their budget afterwards and every other cap still holds. */
  lemma EnforceBytesOk(L: Limits, d: State, id: string, marker: nat -> nat)
    requires Steady(L, d, id)
    ensures var e := EnforceBytes(L, d, marker); Good(L, e) && !OverSpans(L, e) && !OverBytes(L, e)
  {
    EvictForBytesSteady(L, d, id);
    var a := EvictForBytes(L, d, id);
    if OverBytes(L, a) {
      TrimTailsSteady(L, a, id);
    }
    var b := if a.flows != [] && OverBytes(L, a) then TrimTails(L, a) else a;
    EvictEntriesSteady(L, b, id);
    var c := EvictEntriesForBytes(L, b);
    DiscardSteady(L, c, id, marker);
    var e := DiscardForBytes(L, c, marker);
    if OverBytes(L, e) {
      OverMeansLone(L, a, b, c, e, id, marker);
      DropLast(L, e, id);
    }
  }

  lemma OverMeansLone(L: Limits, a: State, b: State, c: State, e: State, id: string, marker: nat -> nat)
    requires Steady(L, a, id) && (OverBytes(L, a) ==> |a.flows| == 1)
    requires b == if OverBytes(L, a) then TrimTails(L, a) else a
    requires |b.flows| == |a.flows| && b.flows != [] && c == EvictEntriesForBytes(L, b) && |c.flows| == |b.flows|
    requires e == DiscardForBytes(L, c, marker) && |e.flows| == |c.flows| && OverBytes(L, e)
    ensures |e.flows| == 1
  {
  }

  // ---------------------------------------------------------------- one call

  lemma TakeChunkSteady(L: Limits, d: State, c: Call)
    requires Ready(L, d, c.id) && !OverSpans(L, d)
    ensures Steady(L, TakeChunk(L, d, c), c.id)
  {
    if c.chunk.Some? {
      MergeReady(L, d, c.id, c.chunk.value.0, c.chunk.value.1);
      EnforceSpansReady(L, MergeChunk(L, d, c.chunk.value.0, c.chunk.value.1), c.id);
    }
  }

  /** Between calls: every counter is a sum, every cap holds. */
  ghost predicate Settled(L: Limits, d: State) { Good(L, d) && !OverSpans(L, d) && !OverBytes(L, d) }

  lemma OpenSpans(L: Limits, d: State, id: string)
    requires Good(L, d) && LimitsOk(L) && !OverSpans(L, d)
    ensures !OverSpans(L, Open(L, d, id))
  {
    FindFlowOk(d.flows, id);
    if FindFlow(d.flows, id).None? {
      MakeRoomGood(L, d);
    }
  }

  lemma ProcessOk(L: Limits, d: State, c: Call, marker: nat -> nat)
    requires Settled(L, d) && LimitsOk(L)
    ensures Settled(L, Process(L, d, c, marker))
  {
    OpenGood(L, d, c.id);
    OpenSpans(L, d, c.id);
    var a := Open(L, d, c.id);
    TakeChunkSteady(L, a, c);
    var b := TakeChunk(L, a, c);
    PerformAllReady(L, b, c.id, c.scans);
    var s := PerformAll(L, b, c.scans);
    RefreshReady(L, s, c.id, c.pending, c.losses);
    EnforceBytesOk(L, Refresh(s, c.pending, c.losses), c.id, marker);
  }

  // ---------------------------------------------------------------- expiry

  /** Forgets every flow that `stale` names. */
  function ExpireFlows(d: State, stale: string -> bool, i: nat): State
    decreases |d.flows| - i
  {
    if i >= |d.flows| then d
    else if stale(d.flows[i].id) then ExpireFlows(DropFlow(d, i), stale, i) else ExpireFlows(d, stale, i + 1)
  }

  lemma {:induction false} ExpireOk(L: Limits, d: State, stale: string -> bool, i: nat)
    requires Settled(L, d)
    ensures Settled(L, ExpireFlows(d, stale, i))
    decreases |d.flows| - i
  {
    if i < |d.flows| {
      if stale(d.flows[i].id) {
        DropGood(L, d, i);
        ExpireOk(L, DropFlow(d, i), stale, i);
      } else {
        ExpireOk(L, d, stale, i + 1);
      }
    }
  }

  // ---------------------------------------------------------------- runs

  datatype Step = Feed(call: Call, marker: nat -> nat) | Expire(stale: string -> bool)

  function Apply(L: Limits, d: State, s: Step): State {
    match s
    case Feed(call, marker) => Process(L, d, call, marker)
    case Expire(stale) => ExpireFlows(d, stale, 0)
  }

  ghost predicate IsRun(L: Limits, steps: seq<Step>, states: seq<State>) {
    && |states| == |steps| + 1 && states[0] == EMPTY_STATE
    && forall i: nat {:trigger Stepped(L, steps, states, i)} :: i < |steps| ==> Stepped(L, steps, states, i)
  }

  ghost predicate Stepped(L: Limits, steps: seq<Step>, states: seq<State>, i: nat)
    requires i < |steps| && |states| == |steps| + 1
  {
    states[i + 1] == Apply(L, states[i], steps[i])
  }

  lemma StartSettled(L: Limits)
    requires LimitsOk(L)
    ensures Settled(L, EMPTY_STATE)
  {
    IndexMeans([], [], 1);
    PairsMean([], 0, []);
  }

  lemma {:induction false} RunOk(L: Limits, steps: seq<Step>, states: seq<State>, n: nat)
    requires LimitsOk(L) && IsRun(L, steps, states) && n < |states|
    ensures Settled(L, states[n])
    decreases n
  {
    if n == 0 {
      StartSettled(L);
    } else {
      RunOk(L, steps, states, n - 1);
      assert Stepped(L, steps, states, n - 1);
      match steps[n - 1]
      case Feed(call, marker) => ProcessOk(L, states[n - 1], call, marker);
      case Expire(stale) => ExpireOk(L, states[n - 1], stale, 0);
    }
  }

  /**
   * The byte budget over every run: retained tail, NTLM and pending bytes together are within their
   * budget after each call; each worker-wide counter is the sum over live flows; no clamp at zero ever
   * changed one; and the flow, metadata, span and reference caps hold.
   */
  lemma ByteBudget(L: Limits, steps: seq<Step>, states: seq<State>, n: nat)
    requires LimitsOk(L) && IsRun(L, steps, states) && n < |states|
    ensures var d := states[n];
            && d.count.tail + d.count.ntlm + d.count.pending <= L.maxRetained
            && d.count == Total(d.flows) && d.clamps == 0
            && |d.flows| <= L.maxFlows && d.count.metadata <= L.maxMetadata
            && d.count.spans <= L.maxSpans && d.count.refs <= L.maxRefs
  {
    RunOk(L, steps, states, n);
  }

  /**
   * NTLM store agreement over every run: the index lists exactly the live flows' entries, oldest first;
   * per-flow and global byte counters are the sums of the entries' sizes; and all four caps hold.
   */
  lemma NtlmAgreement(L: Limits, steps: seq<Step>, states: seq<State>, n: nat)
    requires LimitsOk(L) && IsRun(L, steps, states) && n < |states|
    ensures var d := states[n];
            && (forall r :: r in d.index <==> Backed(d.flows, r))
            && IndexAscends(d.index)
            && |d.index| <= L.maxNtlmObjects && d.count.ntlm == Total(d.flows).ntlm <= L.maxNtlmBytes
            && (forall f :: f in d.flows ==>
                f.ntlmBytes == Sizes(f.entries) <= L.maxNtlmBytesPerFlow && |f.entries| <= L.maxNtlmObjectsPerFlow)
  {
    RunOk(L, steps, states, n);
    var d := states[n];
    IndexMeans(d.flows, d.index, d.nextCid);
    forall r | Backed(d.flows, r) ensures r in d.index {
      var i :| 0 <= i < |d.flows| && d.flows[i].id == r.flow && Owns(d.flows[i], r.cid);
      assert d.flows[i] in d.flows;
      var e :| e in d.flows[i].entries && e.cid == r.cid;
      assert Ref(e.cid, d.flows[i].id) in d.index;
    }
  }

  /**
   * Over every run, the pairs one flow state reports for a direction and session have strictly
   * increasing response offsets.
   */
  lemma PairsIncrease(L: Limits, steps: seq<Step>, states: seq<State>, n: nat, i: nat, j: nat)
    requires LimitsOk(L) && IsRun(L, steps, states) && n < |states| && i < j < |states[n].emitted|
    requires states[n].emitted[i].born == states[n].emitted[j].born
             && states[n].emitted[i].scope == states[n].emitted[j].scope
    ensures states[n].emitted[i].offset < states[n].emitted[j].offset
  {
    RunOk(L, steps, states, n);
    PairsMean(states[n].flows, states[n].births, states[n].emitted);
  }
}
