/**
 The life of the goroutines and of the handles: Start, Stop, the receive loops, the
 ageing loop and the write locks, under every interleaving. Start and any number of
 Stop calls run concurrently. What a receive loop does inside forward is left open
 here, but for the writes: it may write to any handle, any number of times.

 A read or a write takes time: a goroutine is in `Reading` or `Writing` for as long
 as the call on the handle lasts.
 */
module Lifecycle {
  import opened Wrappers
  import opened Sums

  /** A receive loop: at the head of its loop, inside the read, inside forward, inside
      a write (holding the write lock of that port), or on its way out. */
  datatype Rx = Unborn | Head | Reading | Busy | Writing(out: nat) | Exiting | Gone

  datatype Gc = GcUnborn | GcSelect | GcReaping | GcExiting | GcGone

  /** Start adds to the wait group and then spawns, port by port; the last is the
      ageing loop. */
  datatype Starter = Adding(next: nat) | Spawning(next: nat) | Started

  /** A Stop call: the first one closes done, waits, and closes the handles one by one;
      the others wait for it. */
  datatype Stopper = Calling | Closing | Waiting | Releasing(next: nat) | Returned

  datatype Once = Fresh | Running(who: nat) | Finished

  datatype Life = Life(
    rx: seq<Rx>, gc: Gc, starter: Starter, stoppers: seq<Stopper>, once: Once, done: bool, wg: int,
    closes: seq<nat>,          // how often each handle was closed
    holder: seq<Option<nat>>,  // who holds each write lock
    late: seq<nat>,            // frames each receive loop took on after done was closed
    failed: seq<nat>)          // reads of each receive loop that failed, other than by a timeout

  function Init(ports: nat, stops: nat): Life {
    Life(seq(ports, i => Unborn), GcUnborn, Adding(0), seq(stops, i => Calling), Fresh, false, 0,
         seq(ports, i => 0), seq(ports, i => None), seq(ports, i => 0), seq(ports, i => 0))
  }

  datatype Action =
    | StartStep
    | Check(t: nat) | Timeout(t: nat) | Fail(t: nat) | Data(t: nat)
    | Lock(t: nat, out: nat) | Unlock(t: nat) | Return(t: nat) | Exit(t: nat)
    | Tick | Reaped | GcCheck | GcExit
    | StopStep(i: nat)

  predicate Enabled(s: Life, a: Action) {
    && |s.holder| == |s.closes| == |s.late| == |s.failed| == |s.rx|
    && match a
       case StartStep => !s.starter.Started? && s.starter.next <= |s.rx|
       case Check(t) => t < |s.rx| && s.rx[t].Head?
       case Timeout(t) => t < |s.rx| && s.rx[t].Reading?
       case Fail(t) => t < |s.rx| && s.rx[t].Reading?
       case Data(t) => t < |s.rx| && s.rx[t].Reading?
       case Lock(t, out) => t < |s.rx| && s.rx[t].Busy? && out < |s.rx| && s.holder[out].None?
       case Unlock(t) => t < |s.rx| && s.rx[t].Writing? && s.rx[t].out < |s.rx|
       case Return(t) => t < |s.rx| && s.rx[t].Busy?
       case Exit(t) => t < |s.rx| && s.rx[t].Exiting?
       case Tick => s.gc.GcSelect?
       case Reaped => s.gc.GcReaping?
       case GcCheck => s.gc.GcSelect? && s.done
       case GcExit => s.gc.GcExiting?
       case StopStep(i) =>
         i < |s.stoppers| && match s.stoppers[i]
           case Calling => !s.once.Running?
           case Waiting => s.wg == 0
           case Returned => false
           case _ => true
  }

  function Set(s: Life, t: nat, r: Rx): Life
    requires t < |s.rx|
  {
    s.(rx := s.rx[t := r])
  }

  function Stops(s: Life, i: nat, c: Stopper): Life
    requires i < |s.stoppers|
  {
    s.(stoppers := s.stoppers[i := c])
  }

  function Apply(s: Life, a: Action): Life
    requires Enabled(s, a)
  {
    match a
    case StartStep =>
      (match s.starter
       case Adding(n) => s.(starter := Spawning(n), wg := s.wg + 1)
       case Spawning(n) =>
         if n < |s.rx| then Set(s, n, Head).(starter := Adding(n + 1)) else s.(starter := Started, gc := GcSelect)
       case Started => s)
    case Check(t) => Set(s, t, if s.done then Exiting else Reading)
    case Timeout(t) => Set(s, t, Head)
    case Fail(t) => Set(s, t, Exiting).(failed := s.failed[t := s.failed[t] + 1])
    case Data(t) => Set(s, t, Busy).(late := if s.done then s.late[t := s.late[t] + 1] else s.late)
    case Lock(t, out) => Set(s, t, Writing(out)).(holder := s.holder[out := Some(t)])
    case Unlock(t) => Set(s, t, Busy).(holder := s.holder[s.rx[t].out := None])
    case Return(t) => Set(s, t, Head)
    case Exit(t) => Set(s, t, Gone).(wg := s.wg - 1)
    case Tick => s.(gc := GcReaping)
    case Reaped => s.(gc := GcSelect)
    case GcCheck => s.(gc := GcExiting)
    case GcExit => s.(gc := GcGone, wg := s.wg - 1)
    case StopStep(i) =>
      match s.stoppers[i]
      case Calling => if s.once.Fresh? then Stops(s, i, Closing).(once := Running(i)) else Stops(s, i, Returned)
      case Closing => Stops(s, i, Waiting).(done := true)
      case Waiting => Stops(s, i, Releasing(0))
      case Releasing(n) =>
        if n < |s.closes| then Stops(s, i, Releasing(n + 1)).(closes := s.closes[n := s.closes[n] + 1])
        else Stops(s, i, Returned).(once := Finished)
      case Returned => s
  }

  // ---- the invariant ----

  function Weight(r: Rx): int {
    if r.Unborn? || r.Gone? then 0 else 1
  }

  function Weights(rx: seq<Rx>): seq<int> {
    seq(|rx|, i requires 0 <= i < |rx| => Weight(rx[i]))
  }

  /** The wait group counts the goroutines that were added and have not exited. */
  predicate WgOk(s: Life) {
    s.wg == Sum(Weights(s.rx))
            + (if s.gc.GcUnborn? || s.gc.GcGone? then 0 else 1) + (if s.starter.Spawning? then 1 else 0)
  }

  predicate BornOk(s: Life) {
    && (forall t :: 0 <= t < |s.rx| ==> (s.rx[t].Unborn? <==> !s.starter.Started? && s.starter.next <= t))
    && (s.gc.GcUnborn? <==> !s.starter.Started?)
    && (!s.starter.Started? ==> s.starter.next <= |s.rx|)
  }

  predicate OnceOk(s: Life) {
    match s.once
    case Fresh => !s.done && forall i :: 0 <= i < |s.stoppers| ==> s.stoppers[i].Calling?
    case Running(who) =>
      && who < |s.stoppers|
      && (s.stoppers[who].Closing? || s.stoppers[who].Waiting? || s.stoppers[who].Releasing?)
      && (s.done <==> !s.stoppers[who].Closing?)
      && (s.stoppers[who].Releasing? ==> s.stoppers[who].next <= |s.rx|)
      && forall i :: 0 <= i < |s.stoppers| && i != who ==> s.stoppers[i].Calling?
    case Finished => s.done && forall i :: 0 <= i < |s.stoppers| ==> s.stoppers[i].Calling? || s.stoppers[i].Returned?
  }

  /** How many handles the running Stop call has closed. */
  function Released(s: Life): nat
    requires OnceOk(s)
  {
    match s.once
    case Fresh => 0
    case Running(who) => if s.stoppers[who].Releasing? then s.stoppers[who].next else 0
    case Finished => |s.rx|
  }

  /** The Stop call is past its wait. */
  predicate Drained(s: Life)
    requires OnceOk(s)
  {
    s.once.Finished? || (s.once.Running? && s.stoppers[s.once.who].Releasing?)
  }

  /** Past the wait, nobody is inside the switch: goroutines spawned since then see done. */
  predicate Quiet(s: Life) {
    && (forall t :: 0 <= t < |s.rx| ==> !s.rx[t].Reading? && !s.rx[t].Busy? && !s.rx[t].Writing?)
    && s.done
  }

  predicate HandlesOk(s: Life)
    requires OnceOk(s)
  {
    && |s.closes| == |s.holder| == |s.late| == |s.rx|
    && (forall p :: 0 <= p < |s.closes| ==> s.closes[p] == if p < Released(s) then 1 else 0)
    && (Drained(s) ==> Quiet(s))
  }

  predicate LocksOk(s: Life) {
    && |s.holder| == |s.rx|
    && (forall t :: 0 <= t < |s.rx| && s.rx[t].Writing? ==> s.rx[t].out < |s.rx| && s.holder[s.rx[t].out] == Some(t))
    && (forall p :: 0 <= p < |s.holder| && s.holder[p].Some? ==>
          s.holder[p].value < |s.rx| && s.rx[s.holder[p].value] == Writing(p))
  }

  /** After done is closed a receive loop takes on one more frame at most. */
  predicate LateOk(s: Life) {
    && |s.late| == |s.rx|
    && forall t :: 0 <= t < |s.rx| ==>
         && s.late[t] <= 1
         && (!s.done ==> s.late[t] == 0)
         && (s.rx[t].Reading? ==> s.late[t] == 0)
  }

  /** A receive loop leaves if and only if it has seen done closed or a read of its own has
      failed; the ageing loop leaves only when done is closed. */
  predicate LeavesOk(s: Life) {
    && |s.failed| == |s.rx|
    && (forall t :: 0 <= t < |s.rx| ==>
          && (s.failed[t] > 0 ==> s.rx[t].Exiting? || s.rx[t].Gone?)
          && (s.rx[t].Exiting? || s.rx[t].Gone? ==> s.done || s.failed[t] > 0))
    && (s.gc.GcExiting? || s.gc.GcGone? ==> s.done)
  }

  predicate Inv(s: Life) {
    WgOk(s) && BornOk(s) && OnceOk(s) && HandlesOk(s) && LocksOk(s) && LateOk(s) && LeavesOk(s)
  }

  // ---- what it means ----

  /** No read and no write is ever inside a closed handle, no handle is closed twice, no
      handle has two writers, the wait group never goes negative, and when a Stop call
      has returned every handle is closed and nobody is inside forward. Nobody leaves
      without a reason. */
  predicate Safe(s: Life) {
    && |s.closes| == |s.rx|
    && (forall t :: 0 <= t < |s.rx| && s.rx[t].Reading? ==> s.closes[t] == 0)
    && (forall t :: 0 <= t < |s.rx| && s.rx[t].Writing? ==> s.rx[t].out < |s.rx| && s.closes[s.rx[t].out] == 0)
    && (forall p :: 0 <= p < |s.closes| ==> s.closes[p] <= 1)
    && (forall t, u :: 0 <= t < u < |s.rx| && s.rx[t].Writing? ==> s.rx[t] != s.rx[u])
    && s.wg >= 0
    && LeavesOk(s)
    && (forall i :: 0 <= i < |s.stoppers| && s.stoppers[i].Returned? ==>
          Quiet(s) && forall p :: 0 <= p < |s.closes| ==> s.closes[p] == 1)
  }

  lemma InvIsSafe(s: Life)
    requires Inv(s)
    ensures Safe(s)
  {
    SumZero(Weights(s.rx));
  }

  lemma InitInv(ports: nat, stops: nat)
    ensures Inv(Init(ports, stops))
  {
    SumZero(Weights(Init(ports, stops).rx));
  }

  // ---- preservation ----

  lemma WeightsUpdate(rx: seq<Rx>, t: nat, r: Rx)
    requires t < |rx|
    ensures Sum(Weights(rx[t := r])) == Sum(Weights(rx)) - Weight(rx[t]) + Weight(r)
  {
    assert Weights(rx[t := r]) == Weights(rx)[t := Weight(r)];
    SumUpdate(Weights(rx), t, Weight(r));
  }

  /** The receive loop an action moves. */
  function Mover(s: Life, a: Action): nat {
    match a
    case StartStep => if s.starter.Spawning? then s.starter.next else |s.rx|
    case Check(t) => t
    case Timeout(t) => t
    case Fail(t) => t
    case Data(t) => t
    case Lock(t, _) => t
    case Unlock(t) => t
    case Return(t) => t
    case Exit(t) => t
    case _ => |s.rx|
  }

  /** Who is born, who leaves, and what that does to the count, but for the receive loops. */
  lemma RestStep(s: Life, a: Action)
    requires WgOk(s) && BornOk(s) && Enabled(s, a)
    ensures var s' := Apply(s, a);
            var t := Mover(s, a);
            var rest := s'.wg - (if s'.gc.GcUnborn? || s'.gc.GcGone? then 0 else 1) - (if s'.starter.Spawning? then 1 else 0);
            && (t < |s.rx| ==> |s'.rx| == |s.rx| && s'.rx == s.rx[t := s'.rx[t]]
                               && rest == Sum(Weights(s.rx)) - Weight(s.rx[t]) + Weight(s'.rx[t]))
            && (t >= |s.rx| ==> s'.rx == s.rx && rest == Sum(Weights(s.rx)))
  {
  }

  lemma WgStep(s: Life, a: Action)
    requires Inv(s) && Enabled(s, a)
    ensures WgOk(Apply(s, a))
  {
    var t := Mover(s, a);
    RestStep(s, a);
    if t < |s.rx| {
      WeightsUpdate(s.rx, t, Apply(s, a).rx[t]);
    }
  }

  lemma BornStep(s: Life, a: Action)
    requires BornOk(s) && Enabled(s, a)
    ensures BornOk(Apply(s, a))
  {
  }

  lemma LateStep(s: Life, a: Action)
    requires LateOk(s) && OnceOk(s) && BornOk(s) && Enabled(s, a)
    ensures LateOk(Apply(s, a))
  {
  }

  lemma LeavesStep(s: Life, a: Action)
    requires LeavesOk(s) && BornOk(s) && Enabled(s, a)
    ensures LeavesOk(Apply(s, a))
  {
  }

  lemma OnceStep(s: Life, a: Action)
    requires OnceOk(s) && Enabled(s, a)
    ensures OnceOk(Apply(s, a))
  {
  }

  /** The wait ends when everyone who was added has left. */
  lemma WaitEnds(s: Life)
    requires WgOk(s) && s.wg == 0
    ensures forall t :: 0 <= t < |s.rx| ==> s.rx[t].Unborn? || s.rx[t].Gone?
  {
    SumZero(Weights(s.rx));
    assert forall t :: 0 <= t < |s.rx| ==> Weights(s.rx)[t] == Weight(s.rx[t]);
  }

  lemma HandlesStopStep(s: Life, i: nat)
    requires WgOk(s) && OnceOk(s) && HandlesOk(s) && Enabled(s, StopStep(i))
    ensures OnceOk(Apply(s, StopStep(i))) && HandlesOk(Apply(s, StopStep(i)))
  {
    OnceStep(s, StopStep(i));
    if s.stoppers[i].Waiting? {
      WaitEnds(s);
    }
  }

  lemma HandlesStep(s: Life, a: Action)
    requires WgOk(s) && BornOk(s) && OnceOk(s) && HandlesOk(s) && Enabled(s, a)
    ensures OnceOk(Apply(s, a)) && HandlesOk(Apply(s, a))
  {
    if a.StopStep? {
      HandlesStopStep(s, a.i);
    } else {
      HandlesRestStep(s, a);
    }
  }

  /** But for a Stop call, nobody closes a handle, and past the wait nobody comes inside. */
  lemma HandlesRestStep(s: Life, a: Action)
    requires BornOk(s) && OnceOk(s) && HandlesOk(s) && Enabled(s, a) && !a.StopStep?
    ensures OnceOk(Apply(s, a)) && HandlesOk(Apply(s, a))
  {
    var s' := Apply(s, a);
    assert s'.once == s.once && s'.stoppers == s.stoppers && s'.closes == s.closes && s'.done == s.done;
    assert |s'.rx| == |s.rx| && |s'.holder| == |s.holder| && |s'.late| == |s.late|;
    if Drained(s) {
      QuietStays(s, a);
    }
  }

  lemma QuietStays(s: Life, a: Action)
    requires Quiet(s) && Enabled(s, a)
    ensures Quiet(Apply(s, a))
  {
  }

  /** Moving a receive loop between states without a write keeps the locks. */
  lemma LocksKept(s: Life, s': Life, t: nat)
    requires LocksOk(s) && t < |s.rx| == |s'.rx| && s'.holder == s.holder && s'.rx == s.rx[t := s'.rx[t]]
    requires !s.rx[t].Writing? && !s'.rx[t].Writing?
    ensures LocksOk(s')
  {
  }

  lemma LocksTaken(s: Life, t: nat, out: nat)
    requires LocksOk(s) && Enabled(s, Lock(t, out))
    ensures LocksOk(Apply(s, Lock(t, out)))
  {
    var s' := Apply(s, Lock(t, out));
    forall p | 0 <= p < |s.holder| && s'.holder[p].Some?
      ensures s'.holder[p].value < |s.rx| && s'.rx[s'.holder[p].value] == Writing(p)
    {
      assert p != out ==> s.holder[p] == s'.holder[p];
    }
  }

  lemma LocksFreed(s: Life, t: nat)
    requires LocksOk(s) && Enabled(s, Unlock(t))
    ensures LocksOk(Apply(s, Unlock(t)))
  {
  }

  lemma LocksStep(s: Life, a: Action)
    requires LocksOk(s) && BornOk(s) && Enabled(s, a)
    ensures LocksOk(Apply(s, a))
  {
    if a.Lock? {
      LocksTaken(s, a.t, a.out);
    } else if a.Unlock? {
      LocksFreed(s, a.t);
    } else if Mover(s, a) < |s.rx| {
      LocksKept(s, Apply(s, a), Mover(s, a));
    }
  }

  lemma InvStep(s: Life, a: Action)
    requires Inv(s) && Enabled(s, a)
    ensures Inv(Apply(s, a))
  {
    WgStep(s, a);
    BornStep(s, a);
    LateStep(s, a);
    LeavesStep(s, a);
    HandlesStep(s, a);
    LocksStep(s, a);
  }
}
