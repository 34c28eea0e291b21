/** The detector as the mutable object it is: its loops, proved against the state functions. */
module SensitiveDetector {
  import opened Common
  import opened RetainedWindow
  import opened Detector

  class SensitiveDetector {
    const L: Limits
    var state: State

    constructor (limits: Limits)
      ensures L == limits && state == EMPTY_STATE
    {
      L := limits;
      state := EMPTY_STATE;
    }

    /** Takes a flow out, with everything it contributes to the counters and the index. */
    method Drop(i: nat)
      requires i < |state.flows|
      modifies this`state
      ensures state == DropFlow(old(state), i)
    {
      var count := Minus(state.count, Weight(state.flows[i]));
      state := state.(flows := state.flows[..i] + state.flows[i + 1..],
                      count := Clamp(count), index := IndexWithout(state.index, state.flows[i].id),
                      clamps := state.clamps + if Clamp(count) == count then 0 else 1);
    }

    /** Drops the oldest flow; the current one is first made the most recent. */
    method DropOldestFlow(current: string)
      requires |state.flows| > 1
      modifies this`state
      ensures state == DropOldest(old(state), current)
    {
      if state.flows[0].id == current {
        state := state.(flows := state.flows[1..] + [state.flows[0]]);
      }
      Drop(0);
    }

    method OpenFlow(id: string)
      modifies this`state
      ensures state == Open(L, old(state), id)
    {
      FindFlowOk(state.flows, id);
      var at := FindFlow(state.flows, id);
      if at.Some? {
        state := state.(flows := state.flows[..at.value] + state.flows[at.value + 1..] + [state.flows[at.value]]);
        return;
      }
      while state.flows != [] && |state.flows| >= L.maxFlows
        invariant MakeRoom(L, state) == MakeRoom(L, old(state))
        decreases |state.flows|
      {
        Drop(0);
      }
      state := state.(flows := state.flows + [NewFlow(id, state.births)], births := state.births + 1);
    }

    /** Merges a chunk into the current flow's window and enforces the span caps. */
    method MergeStream(direction: nat, chunk: Retained, current: string)
      requires state.flows != []
      modifies this`state
      ensures state == EnforceSpans(L, MergeChunk(L, old(state), direction, chunk), current)
    {
      state := MergeChunk(L, state, direction, chunk);
      ghost var merged := state;
      while OverSpans(L, state) && |state.flows| > 1
        invariant EvictForSpans(L, state, current) == EvictForSpans(L, merged, current)
        decreases |state.flows|
      {
        DropOldestFlow(current);
      }
      if state.flows != [] {
        PopSpans();
      }
    }

    /** Rounds over the current flow's directions, dropping the oldest span of each until the caps hold. */
    method PopSpans()
      requires state.flows != []
      modifies this`state
      ensures state == PopLoop(L, old(state))
    {
      while OverSpans(L, state) && SpanCount(Current(state).sides) > 0
        invariant state.flows != [] && PopLoop(L, state) == PopLoop(L, old(state))
        decreases SpanCount(Current(state).sides)
      {
        PopRoundShrinks(L, state, 0);
        PopOnce();
      }
    }

    method PopOnce()
      requires state.flows != []
      modifies this`state
      ensures state == PopRound(L, old(state), 0)
    {
      var i := 0;
      while i < |Current(state).sides|
        invariant state.flows != [] && i <= |Current(state).sides|
        invariant PopRound(L, state, i) == PopRound(L, old(state), 0)
        decreases |Current(state).sides| - i
      {
        if Current(state).sides[i].window.spans != [] {
          state := PopSpan(state, i);
          if !OverSpans(L, state) {
            return;
          }
        }
        i := i + 1;
      }
    }

    /** Whether one more high-water entry could be reserved for the current flow. */
    method ReserveMetadataEntry() returns (granted: bool)
      requires state.flows != []
      modifies this`state
      ensures state == ReserveMetadata(L, old(state)) && granted == Granted(L, old(state))
    {
      var id := Current(state).id;
      while state.count.metadata >= L.maxMetadata && |state.flows| > 1
        invariant state.flows != [] && EvictForMetadata(L, state, id) == EvictForMetadata(L, old(state), id)
        decreases |state.flows|
      {
        DropOldestFlow(id);
      }
      granted := state.count.metadata < L.maxMetadata;
      if granted {
        state := SetCurrent(state, Current(state).(metadata := Current(state).metadata + 1));
      }
    }

    /** Evicts the oldest NTLM entry of the whole store; index entries of unknown flows are passed over. */
    method EvictOldestNtlm() returns (evicted: bool)
      modifies this`state
      ensures evicted == EvictOldestEntry(old(state)).Some?
      ensures state == if evicted then EvictOldestEntry(old(state)).value else StaleDropped(old(state))
    {
      while state.index != []
        invariant EvictOldestEntry(state) == EvictOldestEntry(old(state))
        invariant StaleDropped(state) == StaleDropped(old(state))
        decreases |state.index|
      {
        FindFlowOk(state.flows, state.index[0].flow);
        var at := FindFlow(state.flows, state.index[0].flow);
        if at.Some? {
          evicted := FindEntry(state.flows[at.value].entries, state.index[0].cid).Some?;
          if evicted {
            state := RemoveEntry(state, at.value, state.index[0].cid);
          }
          return;
        }
        state := state.(index := state.index[1..]);
      }
      evicted := false;
    }

    /** Makes room for an NTLM entry: the current flow's oldest entries first, then the whole store's. */
    method ReserveNtlmEntry(size: nat) returns (granted: bool)
      requires state.flows != []
      modifies this`state
      ensures Reserved(state, granted) == ReserveEntry(L, old(state), size)
    {
      if size > L.maxNtlmBytesPerFlow || size > L.maxNtlmBytes {
        return false;
      }
      EvictOwnEntries(size);
      EvictStore(size);
      granted := state.flows != [] && !FlowFull(L, Current(state), size) && !StoreFull(L, state, size);
    }

    method EvictOwnEntries(size: nat)
      requires state.flows != []
      modifies this`state
      ensures state == EvictFlowEntries(L, old(state), size)
    {
      while FlowFull(L, Current(state), size) && Current(state).entries != []
        invariant state.flows != [] && EvictFlowEntries(L, state, size) == EvictFlowEntries(L, old(state), size)
        decreases |Current(state).entries|
      {
        state := RemoveEntry(state, |state.flows| - 1, Current(state).entries[0].cid);
      }
    }

    method EvictStore(size: nat)
      modifies this`state
      ensures state == EvictStoreEntries(L, old(state), size)
    {
      while StoreFull(L, state, size)
        invariant EvictStoreEntries(L, state, size) == EvictStoreEntries(L, old(state), size)
        decreases |state.index|
      {
        EvictShortens(state);
        var evicted := EvictOldestNtlm();
        if !evicted {
          return;
        }
      }
    }

    method EvictFlowsForBytes(current: string)
      modifies this`state
      ensures state == EvictForBytes(L, old(state), current)
    {
      while RetainedBytes(state) > L.maxRetained && |state.flows| > 1
        invariant EvictForBytes(L, state, current) == EvictForBytes(L, old(state), current)
        decreases |state.flows|
      {
        DropOldestFlow(current);
      }
    }

    method EvictNtlmForBytes()
      modifies this`state
      ensures state == EvictEntriesForBytes(L, old(state))
    {
      while RetainedBytes(state) > L.maxRetained
        invariant EvictEntriesForBytes(L, state) == EvictEntriesForBytes(L, old(state))
        decreases |state.index|
      {
        EvictShortens(state);
        var evicted := EvictOldestNtlm();
        if !evicted {
          return;
        }
      }
    }

    method DiscardPendingForBytes(marker: nat -> nat)
      requires state.flows != []
      modifies this`state
      ensures state == DiscardForBytes(L, old(state), marker)
    {
      while RetainedBytes(state) > L.maxRetained && Current(state).pending != []
        invariant state.flows != [] && DiscardForBytes(L, state, marker) == DiscardForBytes(L, old(state), marker)
        decreases |Current(state).pending|
      {
        state := DiscardPending(state, marker);
      }
    }

    /** Evicts flows, then trims the last one's tails, then NTLM and pending entries, and at last the flow. */
    method EnforceRetainedCap(marker: nat -> nat)
      requires state.flows != []
      modifies this`state
      ensures state == EnforceBytes(L, old(state), marker)
    {
      EvictFlowsForBytes(Current(state).id);
      if state.flows != [] && RetainedBytes(state) > L.maxRetained {
        state := TrimTails(L, state);
      }
      EvictNtlmForBytes();
      if state.flows != [] {
        DiscardPendingForBytes(marker);
      }
      if state.flows != [] && RetainedBytes(state) > L.maxRetained {
        Drop(|state.flows| - 1);
      }
    }

    /** What one scanner asks for. */
    method PerformScan(s: Scan)
      requires state.flows != []
      modifies this`state
      ensures state == Perform(L, old(state), s)
    {
      match s
      case Mark =>
        var granted := ReserveMetadataEntry();
      case Challenge(key, size) =>
        var kept := RetainNtlm(true, key, size);
      case Response(size) =>
        var kept := RetainNtlm(false, 0, size);
      case Release(cid) =>
        state := RemoveEntry(state, |state.flows| - 1, cid);
      case Pair(scope, offset) =>
        PairOnce(scope, offset);
    }

    /** Keeps a challenge, in place of the one with the same key, or an unmatched response. */
    method RetainNtlm(challenge: bool, key: int, size: nat) returns (granted: bool)
      requires state.flows != []
      modifies this`state
      ensures Reserved(state, granted) == RetainEntry(L, old(state), challenge, key, size)
    {
      if challenge {
        state := Supersede(state, key);
      }
      granted := false;
      if state.flows != [] {
        granted := ReserveNtlmEntry(size);
        granted := granted && state.flows != [];
        if granted {
          state := AddEntry(state, challenge, key, size);
        }
      }
    }

    /** Reports a pair above its scope's high-water offset, if the scope can be remembered. */
    method PairOnce(scope: int, offset: int)
      requires state.flows != []
      modifies this`state
      ensures state == PairUp(L, old(state), scope, offset)
    {
      if Stale(Current(state), scope, offset) {
        return;
      }
      var granted := true;
      if scope !in Current(state).highwater {
        granted := ReserveMetadataEntry();
      }
      if granted && state.flows != [] {
        state := Report(state, scope, offset);
      }
    }

    /** One call: open the flow, merge the chunk, scan, refresh the pending accounting, enforce the cap. */
    method ProcessCall(c: Call, marker: nat -> nat)
      modifies this`state
      ensures state == Process(L, old(state), c, marker)
    {
      OpenFlow(c.id);
      if c.chunk.Some? && state.flows != [] {
        MergeStream(c.chunk.value.0, c.chunk.value.1, c.id);
      }
      RunScans(c.scans);
      if state.flows != [] {
        state := Refresh(state, c.pending, c.losses);
        EnforceRetainedCap(marker);
      }
    }

    method RunScans(scans: seq<Scan>)
      modifies this`state
      ensures state == PerformAll(L, old(state), scans)
    {
      var i := 0;
      while i < |scans| && state.flows != []
        invariant i <= |scans| && PerformAll(L, state, scans[i..]) == PerformAll(L, old(state), scans)
        decreases |scans| - i
      {
        assert scans[i..][1..] == scans[i + 1..];
        PerformScan(scans[i]);
        i := i + 1;
      }
    }
  }
}
