/**
 * The detector's per-flow state and worker-wide counters. Scanners are arbitrary: they may reserve
 * metadata entries, retain and remove NTLM entries, and change the pending authentication maps of the
 * current flow, in any order. The current flow is the most recently used one, the last of the table.
 */
module Detector {
  import opened Common
  import opened Spans
  import opened RetainedWindow

  datatype Limits = Limits(
    overlap: nat, maxFlows: nat, maxRetained: nat, maxMetadata: nat, maxSpans: nat, maxRefs: nat,
    maxNtlmBytes: nat, maxNtlmBytesPerFlow: nat, maxNtlmObjects: nat, maxNtlmObjectsPerFlow: nat)

  /** One direction's retained window, in the order directions were first seen. */
  datatype Side = Side(direction: nat, window: Retained)

  /** A retained NTLM challenge or unmatched response; `key` tells challenges of one flow apart. */
  datatype Entry = Entry(cid: nat, challenge: bool, key: int, size: nat)

  /** A pending authentication map entry or loss marker, by its accounted size. */
  datatype Pending = Pending(name: nat, size: nat)

  datatype Flow = Flow(
    id: string, sides: seq<Side>, entries: seq<Entry>, ntlmBytes: int,
    pending: seq<Pending>, losses: seq<Pending>, pendingBytes: int, pendingObjects: int, metadata: nat,
    born: nat, highwater: map<int, int>)

  /** A flow state created as the `born`-th one; its high-water map holds the last paired response of each scope. */
  function NewFlow(id: string, born: nat): Flow { Flow(id, [], [], 0, [], [], 0, 0, 0, born, map[]) }

  /** Everything a flow contributes to a worker-wide counter. */
  datatype Weights = Weights(tail: int, ntlm: int, pending: int, objects: int, spans: int, refs: int, metadata: int)

  const ZERO := Weights(0, 0, 0, 0, 0, 0, 0)

  function Plus(a: Weights, b: Weights): Weights {
    Weights(a.tail + b.tail, a.ntlm + b.ntlm, a.pending + b.pending, a.objects + b.objects, a.spans + b.spans,
            a.refs + b.refs, a.metadata + b.metadata)
  }

  function Minus(a: Weights, b: Weights): Weights {
    Weights(a.tail - b.tail, a.ntlm - b.ntlm, a.pending - b.pending, a.objects - b.objects, a.spans - b.spans,
            a.refs - b.refs, a.metadata - b.metadata)
  }

  function Refs(spans: seq<Span>): nat { if spans == [] then 0 else |spans[0].ids| + Refs(spans[1..]) }

  function TailBytes(sides: seq<Side>): nat {
    if sides == [] then 0 else |sides[0].window.data| + TailBytes(sides[1..])
  }

  function SpanCount(sides: seq<Side>): nat {
    if sides == [] then 0 else |sides[0].window.spans| + SpanCount(sides[1..])
  }

  function RefCount(sides: seq<Side>): nat {
    if sides == [] then 0 else Refs(sides[0].window.spans) + RefCount(sides[1..])
  }

  function Sizes(entries: seq<Entry>): nat { if entries == [] then 0 else entries[0].size + Sizes(entries[1..]) }

  function PendingSize(ps: seq<Pending>): nat { if ps == [] then 0 else ps[0].size + PendingSize(ps[1..]) }

  function Weight(f: Flow): Weights { WeightSealed(f, |f.id| + 3) }

  /** The sums themselves, behind a recursion that the solver does not unfold by itself. */
  function WeightSealed(f: Flow, depth: nat): Weights
    decreases depth
  {
    if depth > 0 then WeightSealed(f, depth - 1)
    else Weights(TailBytes(f.sides), Sizes(f.entries), f.pendingBytes, f.pendingObjects, SpanCount(f.sides),
                 RefCount(f.sides), f.metadata)
  }

  lemma {:induction false} WeightUnsealed(f: Flow, depth: nat)
    ensures WeightSealed(f, depth)
            == Weights(TailBytes(f.sides), Sizes(f.entries), f.pendingBytes, f.pendingObjects, SpanCount(f.sides),
                       RefCount(f.sides), f.metadata)
  {
    if depth > 0 {
      WeightUnsealed(f, depth - 1);
    }
  }

  lemma WeightIs(f: Flow)
    ensures Weight(f)
            == Weights(TailBytes(f.sides), Sizes(f.entries), f.pendingBytes, f.pendingObjects, SpanCount(f.sides),
                       RefCount(f.sides), f.metadata)
  {
    WeightUnsealed(f, |f.id| + 3);
  }

  /** An index entry: a correlation id and the flow that holds it. */
  datatype Ref = Ref(cid: nat, flow: string)

  /** An NTLM pair reported by the flow state `born`, for a direction and session, at a response offset. */
  datatype Emission = Emission(born: nat, scope: int, offset: int)

  /**
   * The table, the counters and the index. The last three fields are records for the statements about
   * runs: flow states created so far, pairs reported, and how often a clamp at zero changed a counter.
   */
  datatype State = State(
    flows: seq<Flow>, count: Weights, index: seq<Ref>, nextCid: nat, births: nat, emitted: seq<Emission>, clamps: nat)

  const EMPTY_STATE := State([], ZERO, [], 1, 0, [], 0)

  function RetainedBytes(d: State): int { d.count.tail + d.count.ntlm + d.count.pending }

  function Current(d: State): Flow
    requires d.flows != []
  {
    d.flows[|d.flows| - 1]
  }

  /** Replaces the current flow and moves the counters by the difference. */
  function SetCurrent(d: State, f: Flow): State
    requires d.flows != []
  {
    d.(flows := d.flows[..|d.flows| - 1] + [f], count := Plus(Minus(d.count, Weight(Current(d))), Weight(f)))
  }

  // ---------------------------------------------------------------- dropping flows

  function IndexWithout(index: seq<Ref>, flow: string): seq<Ref> {
    if index == [] then []
    else (if index[0].flow == flow then [] else [index[0]]) + IndexWithout(index[1..], flow)
  }

  /** Counters are clamped at zero after a drop. */
  function Clamp(w: Weights): Weights {
    Weights(Max(0, w.tail), Max(0, w.ntlm), Max(0, w.pending), Max(0, w.objects), Max(0, w.spans), Max(0, w.refs),
            Max(0, w.metadata))
  }

  function DropFlow(d: State, i: nat): State
    requires i < |d.flows|
  {
    var count := Minus(d.count, Weight(d.flows[i]));
    d.(flows := d.flows[..i] + d.flows[i + 1..], count := Clamp(count), index := IndexWithout(d.index, d.flows[i].id),
       clamps := d.clamps + if Clamp(count) == count then 0 else 1)
  }

  /** The oldest flow is dropped; if it is the current one it first becomes the most recent. */
  function DropOldest(d: State, current: string): State
    requires |d.flows| > 1
  {
    if d.flows[0].id == current then DropFlow(d.(flows := d.flows[1..] + [d.flows[0]]), 0) else DropFlow(d, 0)
  }

  // ---------------------------------------------------------------- opening a flow

  function FindFlow(flows: seq<Flow>, id: string): Option<nat> {
    if flows == [] then None
    else if flows[0].id == id then Some(0)
    else
      var rest := FindFlow(flows[1..], id);
      if rest.None? then None else Some(rest.value + 1)
  }

  lemma FindFlowOk(flows: seq<Flow>, id: string)
    ensures var r := FindFlow(flows, id);
            if r.Some? then r.value < |flows| && flows[r.value].id == id
              else forall i :: 0 <= i < |flows| ==> flows[i].id != id
  {
    if flows != [] {
      FindFlowOk(flows[1..], id);
      forall i | 0 <= i < |flows| && FindFlow(flows, id).None? ensures flows[i].id != id {
        if i > 0 {
          assert flows[i] == flows[1..][i - 1];
        }
      }
    }
  }

  function MakeRoom(L: Limits, d: State): State
    decreases |d.flows|
  {
    if d.flows == [] || |d.flows| < L.maxFlows then d else MakeRoom(L, DropFlow(d, 0))
  }

  /** Finds or creates a flow and makes it the most recent. */
  function Open(L: Limits, d: State, id: string): State {
    FindFlowOk(d.flows, id);
    var at := FindFlow(d.flows, id);
    if at.Some? then d.(flows := d.flows[..at.value] + d.flows[at.value + 1..] + [d.flows[at.value]])
    else
      var room := MakeRoom(L, d);
      room.(flows := room.flows + [NewFlow(id, room.births)], births := room.births + 1)
  }

  // ---------------------------------------------------------------- stream windows

  function FindSide(sides: seq<Side>, direction: nat): (r: nat)
    ensures r <= |sides|
  {
    if sides == [] || sides[0].direction == direction then 0 else 1 + FindSide(sides[1..], direction)
  }

  function WithWindow(sides: seq<Side>, direction: nat, w: Retained): seq<Side> {
    var i := FindSide(sides, direction);
    if i < |sides| then sides[i := Side(direction, w)] else sides + [Side(direction, w)]
  }

  function WindowOf(sides: seq<Side>, direction: nat): Retained {
    var i := FindSide(sides, direction);
    if i < |sides| then sides[i].window else Retained(0, [], [])
  }

  /** Merges a chunk into the current flow. */
  function MergeChunk(L: Limits, d: State, direction: nat, chunk: Retained): State
    requires d.flows != []
  {
    var f := Current(d);
    SetCurrent(d, f.(sides := WithWindow(f.sides, direction,
                                         Merge(WindowOf(f.sides, direction), chunk, L.overlap).window)))
  }

  predicate OverSpans(L: Limits, d: State) { d.count.spans > L.maxSpans || d.count.refs > L.maxRefs }

  function EvictForSpans(L: Limits, d: State, current: string): State
    decreases |d.flows|
  {
    if !OverSpans(L, d) || |d.flows| <= 1 then d else EvictForSpans(L, DropOldest(d, current), current)
  }

  /** Drops the oldest span of a side. */
  function PopSpan(d: State, i: nat): State
    requires d.flows != [] && i < |Current(d).sides| && Current(d).sides[i].window.spans != []
  {
    var f := Current(d);
    SetCurrent(d, f.(sides := f.sides[i := f.sides[i].(window := Forget(f.sides[i].window, 1))]))
  }

  /** One round over the sides from `i` on, stopping as soon as the caps hold. */
  function PopRound(L: Limits, d: State, i: nat): (r: State)
    requires d.flows != []
    ensures |r.flows| == |d.flows| && |Current(r).sides| == |Current(d).sides|
    decreases |Current(d).sides| - i
  {
    if i >= |Current(d).sides| then d
    else if Current(d).sides[i].window.spans == [] then PopRound(L, d, i + 1)
    else
      var e := PopSpan(d, i);
      if OverSpans(L, e) then PopRound(L, e, i + 1) else e
  }

  lemma SpanCountUpdate(sides: seq<Side>, i: nat, s: Side)
    requires i < |sides|
    ensures SpanCount(sides[i := s]) == SpanCount(sides) - |sides[i].window.spans| + |s.window.spans|
  {
    if i == 0 {
      assert sides[0 := s][1..] == sides[1..];
    } else {
      assert sides[i := s][1..] == sides[1..][i - 1 := s];
      SpanCountUpdate(sides[1..], i - 1, s);
    }
  }

  lemma SpanCountZero(sides: seq<Side>, i: nat)
    requires i < |sides| && SpanCount(sides) == 0
    ensures sides[i].window.spans == []
  {
    if i > 0 {
      SpanCountZero(sides[1..], i - 1);
    }
  }

  ghost predicate NoneBefore(sides: seq<Side>, i: nat) {
    forall k :: 0 <= k < i && k < |sides| ==> sides[k].window.spans == []
  }

  lemma NoneIsZero(sides: seq<Side>)
    requires NoneBefore(sides, |sides|)
    ensures SpanCount(sides) == 0
  {
    if sides != [] {
      assert forall k :: 0 <= k < |sides| - 1 ==> sides[1..][k] == sides[k + 1];
      NoneIsZero(sides[1..]);
    }
  }

  lemma {:induction false} PopRoundShrinks(L: Limits, d: State, i: nat)
    requires d.flows != []
    ensures SpanCount(Current(PopRound(L, d, i)).sides) <= SpanCount(Current(d).sides)
    ensures NoneBefore(Current(d).sides, i) && SpanCount(Current(d).sides) > 0 ==>
              SpanCount(Current(PopRound(L, d, i)).sides) < SpanCount(Current(d).sides)
    decreases |Current(d).sides| - i
  {
    var sides := Current(d).sides;
    if i >= |sides| {
      if NoneBefore(sides, i) {
        NoneIsZero(sides);
      }
    } else if sides[i].window.spans == [] {
      PopRoundShrinks(L, d, i + 1);
    } else {
      SpanCountUpdate(sides, i, sides[i].(window := Forget(sides[i].window, 1)));
      PopRoundShrinks(L, PopSpan(d, i), i + 1);
    }
  }

  /** Rounds of popping until the caps hold or no span is left; every round removes at least one span. */
  function PopLoop(L: Limits, d: State): (r: State)
    requires d.flows != []
    decreases SpanCount(Current(d).sides)
  {
    if !OverSpans(L, d) || SpanCount(Current(d).sides) == 0 then d
    else
      PopRoundShrinks(L, d, 0);
      PopLoop(L, PopRound(L, d, 0))
  }

  function EnforceSpans(L: Limits, d: State, current: string): State
    requires d.flows != []
  {
    var e := EvictForSpans(L, d, current);
    if e.flows == [] then e else PopLoop(L, e)
  }

  // ---------------------------------------------------------------- metadata entries

  function EvictForMetadata(L: Limits, d: State, current: string): State
    decreases |d.flows|
  {
    if d.count.metadata < L.maxMetadata || |d.flows| <= 1 then d
      else EvictForMetadata(L, DropOldest(d, current), current)
  }

  /** Whether a high-water entry can be had: after evictions the counter is below its cap. */
  predicate Granted(L: Limits, d: State)
    requires d.flows != []
  {
    EvictForMetadata(L, d, Current(d).id).count.metadata < L.maxMetadata
  }

  /** Reserves one high-water entry for the current flow, unless the cap is saturated by it alone. */
  function ReserveMetadata(L: Limits, d: State): State
    requires d.flows != []
  {
    var e := EvictForMetadata(L, d, Current(d).id);
    if e.flows == [] || e.count.metadata >= L.maxMetadata then e
    else SetCurrent(e, Current(e).(metadata := Current(e).metadata + 1))
  }

  // ---------------------------------------------------------------- NTLM entries

  function WithoutEntry(entries: seq<Entry>, cid: nat): seq<Entry> {
    if entries == [] then [] else if entries[0].cid == cid then entries[1..]
      else [entries[0]] + WithoutEntry(entries[1..], cid)
  }

  function IndexDrop(index: seq<Ref>, cid: nat): seq<Ref> {
    if index == [] then [] else if index[0].cid == cid then index[1..] else [index[0]] + IndexDrop(index[1..], cid)
  }

  function FindEntry(entries: seq<Entry>, cid: nat): Option<Entry> {
    if entries == [] then None else if entries[0].cid == cid then Some(entries[0]) else FindEntry(entries[1..], cid)
  }

  function Removed(d: State, i: nat, e: Entry): State
    requires i < |d.flows|
  {
    d.(flows := d.flows[i := WithoutNtlm(d.flows[i], e)], count := d.count.(ntlm := Max(0, d.count.ntlm - e.size)),
       index := IndexDrop(d.index, e.cid),
       clamps := d.clamps + if d.flows[i].ntlmBytes >= e.size && d.count.ntlm >= e.size then 0 else 1)
  }

  function WithoutNtlm(f: Flow, e: Entry): Flow {
    f.(entries := WithoutEntry(f.entries, e.cid), ntlmBytes := Max(0, f.ntlmBytes - e.size))
  }

  /** Removes an entry from a flow, the index and the counters; nothing happens if it is not there. */
  function RemoveEntry(d: State, i: nat, cid: nat): State
    requires i < |d.flows|
  {
    var e := FindEntry(d.flows[i].entries, cid);
    if e.None? then d else Removed(d, i, e.value)
  }

  predicate FlowFull(L: Limits, f: Flow, size: nat) {
    |f.entries| >= L.maxNtlmObjectsPerFlow || f.ntlmBytes + size > L.maxNtlmBytesPerFlow
  }

  predicate StoreFull(L: Limits, d: State, size: nat) {
    |d.index| >= L.maxNtlmObjects || d.count.ntlm + size > L.maxNtlmBytes
  }

  /** Evicts the current flow's oldest entries until the new one fits the per-flow caps. */
  function EvictFlowEntries(L: Limits, d: State, size: nat): State
    requires d.flows != []
    decreases |Current(d).entries|
  {
    var f := Current(d);
    if !FlowFull(L, f, size) || f.entries == [] then d
    else EvictFlowEntries(L, RemoveEntry(d, |d.flows| - 1, f.entries[0].cid), size)
  }

  /** Evicts the oldest entry of the whole store; index entries of unknown flows are passed over. */
  function EvictOldestEntry(d: State): Option<State>
    decreases |d.index|
  {
    if d.index == [] then None
    else
      FindFlowOk(d.flows, d.index[0].flow);
      var at := FindFlow(d.flows, d.index[0].flow);
      if at.None? then EvictOldestEntry(d.(index := d.index[1..]))
      else if FindEntry(d.flows[at.value].entries, d.index[0].cid).None? then None
      else Some(RemoveEntry(d, at.value, d.index[0].cid))
  }

  /** What a search that finds nothing leaves: the index without the unknown flows at its front. */
  function StaleDropped(d: State): (r: State)
    ensures r.flows == d.flows
    decreases |d.index|
  {
    if d.index == [] || FindFlow(d.flows, d.index[0].flow).Some? then d
    else StaleDropped(d.(index := d.index[1..]))
  }

  lemma FindEntryId(entries: seq<Entry>, cid: nat)
    ensures FindEntry(entries, cid).Some? ==> FindEntry(entries, cid).value.cid == cid
  {
  }

  lemma IndexDropHead(index: seq<Ref>)
    requires index != []
    ensures IndexDrop(index, index[0].cid) == index[1..]
  {
  }

  lemma EvictShortens(d: State)
    ensures EvictOldestEntry(d).Some? ==>
            |EvictOldestEntry(d).value.index| < |d.index| && |EvictOldestEntry(d).value.flows| == |d.flows|
    decreases |d.index|
  {
    if d.index != [] {
      FindFlowOk(d.flows, d.index[0].flow);
      var at := FindFlow(d.flows, d.index[0].flow);
      if at.None? {
        EvictShortens(d.(index := d.index[1..]));
      } else {
        FindEntryId(d.flows[at.value].entries, d.index[0].cid);
        IndexDropHead(d.index);
      }
    }
  }

  function EvictStoreEntries(L: Limits, d: State, size: nat): State
    decreases |d.index|
  {
    if !StoreFull(L, d, size) then d
    else
      var e := EvictOldestEntry(d);
      if e.None? then StaleDropped(d)
      else
        EvictShortens(d);
        EvictStoreEntries(L, e.value, size)
  }

  datatype Reserved = Reserved(state: State, granted: bool)

  /** Makes room for an entry of this size; an entry that alone exceeds a byte cap is refused. */
  function ReserveEntry(L: Limits, d: State, size: nat): Reserved
    requires d.flows != []
  {
    if size > L.maxNtlmBytesPerFlow || size > L.maxNtlmBytes then Reserved(d, false)
    else
      var e := EvictFlowEntries(L, d, size);
      var f := EvictStoreEntries(L, e, size);
      Reserved(f, f.flows != [] && !FlowFull(L, Current(f), size) && !StoreFull(L, f, size))
  }

  function AddEntry(d: State, challenge: bool, key: int, size: nat): State
    requires d.flows != []
  {
    var f, e := Current(d), Entry(d.nextCid, challenge, key, size);
    d.(flows := d.flows[..|d.flows| - 1] + [f.(entries := f.entries + [e], ntlmBytes := f.ntlmBytes + size)],
       count := d.count.(ntlm := d.count.ntlm + size), index := d.index + [Ref(d.nextCid, f.id)],
       nextCid := d.nextCid + 1)
  }

  function ChallengeWith(entries: seq<Entry>, key: int): Option<Entry> {
    if entries == [] then None
    else if entries[0].challenge && entries[0].key == key then Some(entries[0]) else ChallengeWith(entries[1..], key)
  }

  /** A new challenge supersedes the one with the same key. */
  function Supersede(d: State, key: int): State
    requires d.flows != []
  {
    var had := ChallengeWith(Current(d).entries, key);
    if had.None? then d else RemoveEntry(d, |d.flows| - 1, had.value.cid)
  }

  function RetainEntry(L: Limits, d: State, challenge: bool, key: int, size: nat): Reserved
    requires d.flows != []
  {
    var e := if challenge then Supersede(d, key) else d;
    if e.flows == [] then Reserved(e, false)
    else
      var r := ReserveEntry(L, e, size);
      if !r.granted || r.state.flows == [] then Reserved(r.state, false)
      else Reserved(AddEntry(r.state, challenge, key, size), true)
  }

  // ---------------------------------------------------------------- pairing challenges and responses

  /** A response at or below the scope's high-water offset was reported before. */
  predicate Stale(f: Flow, scope: int, offset: int) { scope in f.highwater && offset <= f.highwater[scope] }

  /** Raises the scope's high-water mark and reports the pair. */
  function Report(d: State, scope: int, offset: int): State
    requires d.flows != []
  {
    var f := Current(d);
    d.(flows := d.flows[..|d.flows| - 1] + [f.(highwater := f.highwater[scope := offset])],
       emitted := d.emitted + [Emission(f.born, scope, offset)])
  }

  /** A response of a supported format met a challenge: reported once, if its scope can be remembered. */
  function PairUp(L: Limits, d: State, scope: int, offset: int): State
    requires d.flows != []
  {
    if Stale(Current(d), scope, offset) then d
    else if scope in Current(d).highwater then Report(d, scope, offset)
    else
      var e := ReserveMetadata(L, d);
      if e.flows == [] || !Granted(L, d) then e else Report(e, scope, offset)
  }

  // ---------------------------------------------------------------- pending authentication

  /** The flow with these pending maps and their size. */
  function Refreshed(f: Flow, pending: seq<Pending>, losses: seq<Pending>): Flow {
    f.(pending := pending, losses := losses,
       pendingBytes := PendingSize(pending) + PendingSize(losses), pendingObjects := |pending| + |losses|)
  }

  /**
   * The pending maps of the current flow as the scanners left them: their size is recomputed and the
   * counters move by the difference. Nothing reads the maps between a scanner's change and this.
   */
  function Refresh(d: State, pending: seq<Pending>, losses: seq<Pending>): State
    requires d.flows != []
  {
    var f, g := Current(d), Refreshed(Current(d), pending, losses);
    var bytes, objects := d.count.pending + (g.pendingBytes - f.pendingBytes),
      d.count.objects + (g.pendingObjects - f.pendingObjects);
    d.(flows := d.flows[..|d.flows| - 1] + [g],
       count := d.count.(pending := Max(0, bytes), objects := Max(0, objects)),
       clamps := d.clamps + if bytes >= 0 && objects >= 0 then 0 else 1)
  }

  function AddLoss(losses: seq<Pending>, p: Pending): seq<Pending> { if p in losses then losses else losses + [p] }

  /** Gives up one pending entry, leaving a loss marker whose size depends on what was lost. */
  function DiscardPending(d: State, marker: nat -> nat): State
    requires d.flows != [] && Current(d).pending != []
  {
    var f := Current(d);
    Refresh(d, f.pending[1..], AddLoss(f.losses, Pending(f.pending[0].name, marker(f.pending[0].name))))
  }

  // ---------------------------------------------------------------- the byte budget

  function EvictForBytes(L: Limits, d: State, current: string): State
    decreases |d.flows|
  {
    if RetainedBytes(d) <= L.maxRetained || |d.flows| <= 1 then d else EvictForBytes(L, DropOldest(d, current), current)
  }

  /** The share of side `i` when `budget` bytes are divided among `n` sides. */
  function Share(budget: nat, n: nat, i: nat): nat {
    var share := budget / Max(1, n);
    share + if i < budget - share * n then 1 else 0
  }

  function TrimSides(sides: seq<Side>, budget: nat, n: nat, i: nat): seq<Side> {
    if sides == [] then []
    else
      var keep := Share(budget, n, i);
      [if |sides[0].window.data| > keep then sides[0].(window := CutTo(sides[0].window, keep)) else sides[0]]
      + TrimSides(sides[1..], budget, n, i + 1)
  }

  function Trimmed(f: Flow, budget: nat): Flow { f.(sides := TrimSides(f.sides, budget, |f.sides|, 0)) }

  function TrimTails(L: Limits, d: State): State
    requires d.flows != []
  {
    SetCurrent(d, Trimmed(Current(d), Max(0, L.maxRetained - d.count.ntlm - d.count.pending)))
  }

  function EvictEntriesForBytes(L: Limits, d: State): State
    decreases |d.index|
  {
    if RetainedBytes(d) <= L.maxRetained then d
    else
      var e := EvictOldestEntry(d);
      if e.None? then StaleDropped(d)
      else
        EvictShortens(d);
        EvictEntriesForBytes(L, e.value)
  }

  function DiscardForBytes(L: Limits, d: State, marker: nat -> nat): State
    requires d.flows != []
    decreases |Current(d).pending|
  {
    if RetainedBytes(d) <= L.maxRetained || Current(d).pending == [] then d
    else DiscardForBytes(L, DiscardPending(d, marker), marker)
  }

  /** The final enforcement of a call: flows, tails, NTLM entries, pending entries, and at last the flow itself. */
  function EnforceBytes(L: Limits, d: State, marker: nat -> nat): State
    requires d.flows != []
  {
    var a := EvictForBytes(L, d, Current(d).id);
    var b := if a.flows != [] && RetainedBytes(a) > L.maxRetained then TrimTails(L, a) else a;
    var c := EvictEntriesForBytes(L, b);
    var e := if c.flows != [] then DiscardForBytes(L, c, marker) else c;
    if e.flows != [] && RetainedBytes(e) > L.maxRetained then DropFlow(e, |e.flows| - 1) else e
  }

  // ---------------------------------------------------------------- one call

  /** What a scanner may do to the current flow, apart from its pending maps. */
  datatype Scan =
    | Mark
    | Challenge(key: int, size: nat)
    | Response(size: nat)
    | Release(cid: nat)
    | Pair(scope: int, offset: int)

  function Perform(L: Limits, d: State, s: Scan): State
    requires d.flows != []
  {
    match s
    case Mark => ReserveMetadata(L, d)
    case Challenge(key, size) => RetainEntry(L, d, true, key, size).state
    case Response(size) => RetainEntry(L, d, false, 0, size).state
    case Release(cid) => RemoveEntry(d, |d.flows| - 1, cid)
    case Pair(scope, offset) => PairUp(L, d, scope, offset)
  }

  function PerformAll(L: Limits, d: State, scans: seq<Scan>): State
    decreases |scans|
  {
    if scans == [] || d.flows == [] then d else PerformAll(L, Perform(L, d, scans[0]), scans[1..])
  }

  /**
   * One call: a chunk of a stream in some direction, or a datagram when there is none; what the
   * scanners did; and the pending maps they left.
   */
  datatype Call = Call(id: string, chunk: Option<(nat, Retained)>, scans: seq<Scan>, pending: seq<Pending>,
                       losses: seq<Pending>)

  function TakeChunk(L: Limits, d: State, c: Call): State {
    if c.chunk.Some? && d.flows != [] then EnforceSpans(L, MergeChunk(L, d, c.chunk.value.0, c.chunk.value.1), c.id)
      else d
  }

  function Process(L: Limits, d: State, c: Call, marker: nat -> nat): State {
    var scanned := PerformAll(L, TakeChunk(L, Open(L, d, c.id), c), c.scans);
    if scanned.flows == [] then scanned else EnforceBytes(L, Refresh(scanned, c.pending, c.losses), marker)
  }
}
