/**
 * The shared reservation counters of one worker queue, as a step relation over every interleaving of
 * the dispatcher (reserve bytes, count the batch, put or roll back) and the worker (get, release).
 * Each critical section under a counter's lock is one step. Hard-killed workers are not modelled.
 */
module QueueReservation {
  import opened Common

  datatype Limits = Limits(maxBytes: nat, queueSize: nat)

  /** Where the dispatcher stands with the batch in hand; the number is its reserved bytes. */
  datatype Producer = Idle | Reserved(units: nat) | Counted(units: nat) | Unbooked

  /** Where the worker stands with the batch in hand. */
  datatype Consumer = Ready | Busy(units: nat) | Released | Stopped

  datatype State = State(bytes: int, batches: int, queue: seq<nat>, producer: Producer, consumer: Consumer)

  const START := State(0, 0, [], Idle, Ready)

  datatype Action =
    | Reserve(units: nat) | CountBatch | Put | RollBackBytes | RollBackBatch
    | Get | ReleaseBytes | ReleaseBatch | Stop

  /** The counters never go below zero: they are clamped. */
  function Lower(counter: int, units: nat): int { Max(0, counter - units) }

  predicate Enabled(L: Limits, s: State, a: Action) {
    match a
    case Reserve(n) => s.producer.Idle?
    case CountBatch => s.producer.Reserved?
    case Put => s.producer.Counted? && |s.queue| < L.queueSize
    case RollBackBytes => s.producer.Counted?
    case RollBackBatch => s.producer.Unbooked?
    case Get => s.consumer.Ready? && s.queue != []
    case ReleaseBytes => s.consumer.Busy?
    case ReleaseBatch => s.consumer.Released?
    case Stop => s.consumer.Ready? && s.queue == []
  }

  /** A reservation that does not fit changes nothing. */
  function Perform(L: Limits, s: State, a: Action): State
    requires Enabled(L, s, a)
  {
    match a
    case Reserve(n) => if s.bytes + n > L.maxBytes then s else s.(bytes := s.bytes + n, producer := Reserved(n))
    case CountBatch => s.(batches := s.batches + 1, producer := Counted(s.producer.units))
    case Put => s.(queue := s.queue + [s.producer.units], producer := Idle)
    case RollBackBytes => s.(bytes := Lower(s.bytes, s.producer.units), producer := Unbooked)
    case RollBackBatch => s.(batches := Lower(s.batches, 1), producer := Idle)
    case Get => s.(queue := s.queue[1..], consumer := Busy(s.queue[0]))
    case ReleaseBytes => s.(bytes := Lower(s.bytes, s.consumer.units), consumer := Released)
    case ReleaseBatch => s.(batches := Lower(s.batches, 1), consumer := Ready)
    case Stop => s.(consumer := Stopped)
  }

  /** A step during which a clamp would hide an accounting error. */
  predicate Clamps(s: State, a: Action) {
    match a
    case RollBackBytes => s.producer.Counted? && s.bytes < s.producer.units
    case ReleaseBytes => s.consumer.Busy? && s.bytes < s.consumer.units
    case RollBackBatch => s.batches < 1
    case ReleaseBatch => s.batches < 1
    case _ => false
  }

  // ---------------------------------------------------------------- the invariant

  function InHand(s: State): nat {
    (if s.producer.Reserved? || s.producer.Counted? then s.producer.units else 0)
    + if s.consumer.Busy? then s.consumer.units else 0
  }

  function BatchesInHand(s: State): nat {
    (if s.producer.Counted? || s.producer.Unbooked? then 1 else 0) + if s.consumer.Busy? || s.consumer.Released?
      then 1 else 0
  }

  ghost predicate Inv(L: Limits, s: State) {
    && s.bytes == SumNat(s.queue) + InHand(s) && s.bytes <= L.maxBytes
    && s.batches == |s.queue| + BatchesInHand(s) && |s.queue| <= L.queueSize
  }

  lemma {:induction false} SumSnoc(queue: seq<nat>, n: nat)
    ensures SumNat(queue + [n]) == SumNat(queue) + n
    decreases |queue|
  {
    if queue != [] {
      assert (queue + [n])[1..] == queue[1..] + [n];
      SumSnoc(queue[1..], n);
    }
  }

  lemma StepKeeps(L: Limits, s: State, a: Action)
    requires Inv(L, s) && Enabled(L, s, a)
    ensures Inv(L, Perform(L, s, a)) && !Clamps(s, a)
  {
    if a.Put? {
      SumSnoc(s.queue, s.producer.units);
    }
  }

  ghost predicate IsTrace(L: Limits, actions: seq<Action>, states: seq<State>) {
    && |states| == |actions| + 1
    && forall i :: 0 <= i < |actions| ==>
         Enabled(L, states[i], actions[i]) && states[i + 1] == Perform(L, states[i], actions[i])
  }

  lemma {:induction false} TraceKeeps(L: Limits, actions: seq<Action>, states: seq<State>, n: nat)
    requires IsTrace(L, actions, states) && states[0] == START && n < |states|
    ensures Inv(L, states[n])
    decreases n
  {
    if n > 0 {
      TraceKeeps(L, actions, states, n - 1);
      StepKeeps(L, states[n - 1], actions[n - 1]);
    }
  }

  /** No one holds a batch. */
  predicate Quiescent(s: State) { s.queue == [] && s.producer.Idle? && (s.consumer.Ready? || s.consumer.Stopped?) }

  /**
   * Over every interleaving the byte counter is exactly what is reserved, queued and in process and
   * stays within its budget; at most queueSize + 2 batches are outstanding; no clamp ever fires; and
   * both counters are zero when nothing is held.
   */
  lemma ReservationsAreExact(L: Limits, actions: seq<Action>, states: seq<State>, n: nat)
    requires IsTrace(L, actions, states) && states[0] == START && n < |states|
    ensures var s := states[n];
            && s.bytes == SumNat(s.queue) + InHand(s) <= L.maxBytes
            && s.batches == |s.queue| + BatchesInHand(s) <= L.queueSize + 2
            && (n < |actions| ==> !Clamps(s, actions[n]))
            && (Quiescent(s) ==> s.bytes == 0 && s.batches == 0)
  {
    TraceKeeps(L, actions, states, n);
    if n < |actions| {
      StepKeeps(L, states[n], actions[n]);
    }
  }

  // ---------------------------------------------------------------- reservations are always given back

  /** Work left: what each party still has to do with the batches it holds. */
  function Work(s: State): nat {
    6 * |s.queue|
    + (match s.producer case Idle => 0 case Reserved(_) => 3 case Counted(_) => 2 case Unbooked => 1)
    + (match s.consumer case Ready => 0 case Busy(_) => 2 case Released => 1 case Stopped => 0)
  }

  /** The step that finishes work in hand: the dispatcher gives up, the worker goes on. */
  function Finish(s: State): Action {
    if s.producer.Reserved? then CountBatch
    else if s.producer.Counted? then RollBackBytes
    else if s.producer.Unbooked? then RollBackBatch
    else if s.consumer.Busy? then ReleaseBytes
    else if s.consumer.Released? then ReleaseBatch
    else Get
  }

  lemma FinishWorks(L: Limits, s: State)
    requires !Quiescent(s) && !s.consumer.Stopped?
    ensures Enabled(L, s, Finish(s)) && Work(Perform(L, s, Finish(s))) < Work(s)
            && !Perform(L, s, Finish(s)).consumer.Stopped?
  {
  }

  /** From any state with a running worker, giving up puts and releasing reaches quiescence: nothing leaks. */
  lemma {:induction false} CanDrain(L: Limits, s: State) returns (actions: seq<Action>, states: seq<State>)
    requires !s.consumer.Stopped?
    ensures IsTrace(L, actions, states) && states[0] == s && Quiescent(states[|actions|])
    decreases Work(s)
  {
    if Quiescent(s) {
      actions, states := [], [s];
    } else {
      FinishWorks(L, s);
      var next := Perform(L, s, Finish(s));
      var a, t := CanDrain(L, next);
      actions, states := [Finish(s)] + a, [s] + t;
      forall i | 0 <= i < |actions|
        ensures Enabled(L, states[i], actions[i]) && states[i + 1] == Perform(L, states[i], actions[i])
      {
        if i > 0 {
          assert states[i] == t[i - 1] && actions[i] == a[i - 1] && states[i + 1] == t[i];
        }
      }
    }
  }
}
