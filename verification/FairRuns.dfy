/**
 Shutdown under fair scheduling: in every infinite run in which done is closed at some
 point, timer ticks and changes of the ageing time included, shutdown completes.
 */
module FairRuns {
  import opened Wrappers
  import opened Config
  import opened Forwarding
  import opened Stats
  import opened SwitchSteps
  import opened Shutdown
  import F = FdbSteps
  import L = Lifecycle
  import P = Pipeline

  type Run = nat -> World

  /** Nothing happens, or one step. */
  ghost predicate Moves(net: Net, w: World, w': World) {
    w' == w || Next(net, w, w')
  }

  ghost predicate MovesAt(net: Net, run: Run, i: nat) {
    Moves(net, run(i), run(i + 1))
  }

  ghost predicate IsInfiniteRun(net: Net, run: Run) {
    && (exists ageing, stops: nat :: run(0) == Init(net, ageing, stops))
    && forall i: nat :: MovesAt(net, run, i)
  }

  // ---- fairness ----

  predicate Takes(net: Net, w: World, a: Action, w': World) {
    Enabled(net, w, a) && w' == Apply(net, w, a)
  }

  predicate TakenAt(net: Net, run: Run, a: Action, i: nat) {
    Takes(net, run(i), a, run(i + 1))
  }

  ghost predicate EnabledFrom(net: Net, run: Run, a: Action, i: nat) {
    forall j: nat :: i <= j ==> Enabled(net, run(j), a)
  }

  ghost predicate EnabledAfter(net: Net, run: Run, a: Action, i: nat) {
    exists j: nat :: i <= j && Enabled(net, run(j), a)
  }

  ghost predicate TakenAfter(net: Net, run: Run, a: Action, i: nat) {
    exists j: nat :: i <= j && TakenAt(net, run, a, j)
  }

  /** No step other than the environment's stays possible forever without being taken. */
  ghost predicate Fair(net: Net, run: Run) {
    forall a, i: nat :: !ByEnvironment(a) && EnabledFrom(net, run, a, i) ==> TakenAfter(net, run, a, i)
  }

  const GC_CHECK := Act(Some(L.GcCheck), None)

  /** The ageing loop's select does not overlook a closed done again and again forever. */
  ghost predicate SelectFair(net: Net, run: Run) {
    (forall i: nat :: EnabledAfter(net, run, GC_CHECK, i)) ==> TakenAfter(net, run, GC_CHECK, 0)
  }

  // ---- what stays ----

  lemma DoneStays(net: Net, w: World, w': World)
    requires Moves(net, w, w') && w.life.done
    ensures w'.life.done
  {
    if w' != w {
      var a :| Enabled(net, w, a) && w' == Apply(net, w, a);
      Shutdown.DoneStays(net, w, a);
    }
  }

  predicate GcLeft(w: World) {
    w.life.gc.GcExiting? || w.life.gc.GcGone?
  }

  lemma GcLeftStays(net: Net, w: World, w': World)
    requires Inv(net, w) && Moves(net, w, w') && GcLeft(w)
    ensures GcLeft(w')
  {
  }

  lemma MovesKeepInv(net: Net, w: World, w': World)
    requires Inv(net, w) && Moves(net, w, w')
    ensures Inv(net, w')
  {
    if w' != w {
      InvStays(net, w, w');
    }
  }

  lemma {:induction false} RunKeeps(net: Net, run: Run, i: nat)
    requires IsInfiniteRun(net, run)
    ensures Inv(net, run(i))
  {
    if i == 0 {
      var ageing, stops: nat :| run(0) == Init(net, ageing, stops);
      InitInv(net, ageing, stops);
    } else {
      RunKeeps(net, run, i - 1);
      assert MovesAt(net, run, i - 1);
      MovesKeepInv(net, run(i - 1), run(i));
    }
  }

  lemma {:induction false} RunStaysDone(net: Net, run: Run, i: nat, j: nat)
    requires IsInfiniteRun(net, run) && i <= j && run(i).life.done
    ensures run(j).life.done
  {
    if i < j {
      RunStaysDone(net, run, i, j - 1);
      assert MovesAt(net, run, j - 1);
      DoneStays(net, run(j - 1), run(j));
    }
  }

  lemma {:induction false} RunStaysGcLeft(net: Net, run: Run, i: nat, j: nat)
    requires IsInfiniteRun(net, run) && i <= j && GcLeft(run(i))
    ensures GcLeft(run(j))
  {
    if i < j {
      RunStaysGcLeft(net, run, i, j - 1);
      RunKeeps(net, run, j - 1);
      assert MovesAt(net, run, j - 1);
      GcLeftStays(net, run(j - 1), run(j));
    }
  }

  // ---- idle steps ----

  /** Nothing but the ageing time changes. */
  predicate Idles(w: World, w': World) {
    w' == w.(pipe := w.pipe.(sys := w.pipe.sys.(ageing := w'.pipe.sys.ageing)))
  }

  predicate IdlesAt(run: Run, i: nat) {
    Idles(run(i), run(i + 1))
  }

  /** From some point on all steps are idle. */
  ghost predicate IdlesFrom(run: Run, n: nat) {
    forall i: nat :: n <= i ==> IdlesAt(run, i)
  }

  /** Without a tick, a step is idle, or lowers the measure. */
  lemma IdlesOrGoes(net: Net, w: World, w': World)
    requires Moves(net, w, w') && !w.life.gc.GcSelect?
    ensures Idles(w, w') || Goes(net, w, w')
  {
    if w' != w {
      var a :| Enabled(net, w, a) && w' == Apply(net, w, a);
      if ByEnvironment(a) {
        assert a.pipe.Some? && a.pipe.value.SetAgeing?;
      }
    }
  }

  lemma IdlesKeepsMeasure(w: World, w': World)
    requires Coupled(w) && Idles(w, w')
    ensures Coupled(w') && Measure(w') == Measure(w)
  {
    SameRanks(w, w');
  }

  lemma IdlesKeepsEnabled(net: Net, w: World, w': World, a: Action)
    requires Idles(w, w') && Enabled(net, w, a)
    ensures Enabled(net, w', a)
  {
  }

  // ---- no more ticks ----

  /** After done is closed, from some point on the ageing loop is never at its select. */
  lemma SelectEnds(net: Net, run: Run, d: nat) returns (m: nat)
    requires IsInfiniteRun(net, run) && SelectFair(net, run) && run(d).life.done
    ensures d <= m && forall j: nat :: m <= j ==> !run(j).life.gc.GcSelect?
  {
    if TakenAfter(net, run, GC_CHECK, 0) {
      var i: nat :| TakenAt(net, run, GC_CHECK, i);
      m := if d <= i then i + 1 else d;
      forall j: nat | m <= j
        ensures !run(j).life.gc.GcSelect?
      {
        RunStaysGcLeft(net, run, i + 1, j);
      }
    } else {
      var i: nat :| !EnabledAfter(net, run, GC_CHECK, i);
      m := if d <= i then i else d;
      forall j: nat | m <= j
        ensures !run(j).life.gc.GcSelect?
      {
        RunStaysDone(net, run, d, j);
        RunKeeps(net, run, j);
        assert !Enabled(net, run(j), GC_CHECK);
      }
    }
  }

  /** The run is past all ticks. */
  ghost predicate Unticked(net: Net, run: Run, m: nat) {
    && IsInfiniteRun(net, run) && run(m).life.done
    && forall j: nat :: m <= j ==> !run(j).life.gc.GcSelect?
  }

  /** A height falls at every moment that is not calm, and never rises. */
  predicate Falls(height: nat -> nat, calm: nat -> bool, i: nat) {
    height(i + 1) <= height(i) && (!calm(i) ==> height(i + 1) < height(i))
  }

  lemma {:induction false} NeverUp(height: nat -> nat, calm: nat -> bool, m: nat, j: nat)
    requires m <= j && forall i: nat :: m <= i ==> Falls(height, calm, i)
    ensures height(j) <= height(m)
  {
    if m < j {
      NeverUp(height, calm, m, j - 1);
      assert Falls(height, calm, j - 1);
    }
  }

  /** So from some moment on all is calm. */
  lemma {:induction false} CalmsDown(height: nat -> nat, calm: nat -> bool, m: nat) returns (n: nat)
    requires forall i: nat :: m <= i ==> Falls(height, calm, i)
    ensures m <= n && forall j: nat :: n <= j ==> calm(j)
    decreases height(m)
  {
    if j: nat :| m <= j && !calm(j) {
      NeverUp(height, calm, m, j);
      assert Falls(height, calm, j);
      n := CalmsDown(height, calm, j + 1);
    } else {
      n := m;
    }
  }

  function Height(w: World): nat {
    if Coupled(w) && Measure(w) >= 0 then Measure(w) else 0
  }

  lemma StepFalls(net: Net, w: World, w': World)
    requires Inv(net, w) && w.life.done && Moves(net, w, w') && !w.life.gc.GcSelect?
    ensures Height(w') <= Height(w) && (!Idles(w, w') ==> Height(w') < Height(w))
  {
    IdlesOrGoes(net, w, w');
    if Idles(w, w') {
      IdlesKeepsMeasure(w, w');
    } else {
      MeasureNonNegative(net, w);
      GoesDown(net, w, w');
    }
  }

  lemma FallsAt(net: Net, run: Run, m: nat, i: nat)
    requires Unticked(net, run, m) && m <= i
    ensures Height(run(i + 1)) <= Height(run(i)) && (!IdlesAt(run, i) ==> Height(run(i + 1)) < Height(run(i)))
  {
    RunKeeps(net, run, i);
    RunStaysDone(net, run, m, i);
    assert MovesAt(net, run, i);
    StepFalls(net, run(i), run(i + 1));
  }

  /** Past all ticks, from some point on all steps are idle. */
  lemma StepsEnd(net: Net, run: Run, m: nat) returns (n: nat)
    requires Unticked(net, run, m)
    ensures m <= n && IdlesFrom(run, n)
  {
    var height: nat -> nat, calm: nat -> bool :=
      (i: nat) => Height(run(i)), (i: nat) => IdlesAt(run, i);
    forall i: nat | m <= i
      ensures Falls(height, calm, i)
    {
      FallsAt(net, run, m, i);
    }
    n := CalmsDown(height, calm, m);
    assert forall j: nat :: n <= j ==> calm(j) ==> IdlesAt(run, j);
  }

  lemma {:induction false} StaysEnabled(net: Net, run: Run, n: nat, a: Action, j: nat)
    requires IdlesFrom(run, n) && Enabled(net, run(n), a) && n <= j
    ensures Enabled(net, run(j), a)
  {
    if n < j {
      StaysEnabled(net, run, n, a, j - 1);
      assert IdlesAt(run, j - 1);
      IdlesKeepsEnabled(net, run(j - 1), run(j), a);
    }
  }

  /** A fair run does not idle while a step other than the environment's is possible. */
  lemma NothingIsIgnored(net: Net, run: Run, n: nat, a: Action)
    requires IsInfiniteRun(net, run) && Fair(net, run) && run(n).life.done && IdlesFrom(run, n)
    requires !ByEnvironment(a)
    ensures !Enabled(net, run(n), a)
  {
    if Enabled(net, run(n), a) {
      forall j: nat | n <= j
        ensures Enabled(net, run(j), a)
      {
        StaysEnabled(net, run, n, a, j);
      }
      assert EnabledFrom(net, run, a, n);
      assert TakenAfter(net, run, a, n);
      var j: nat :| n <= j && TakenAt(net, run, a, j);
      RunStaysDone(net, run, n, j);
      RunKeeps(net, run, j);
      assert IdlesAt(run, j);
      NotTaken(net, run(j), a, run(j + 1));
    }
  }

  lemma NotTaken(net: Net, w: World, a: Action, w': World)
    requires Inv(net, w) && w.life.done && Idles(w, w') && !ByEnvironment(a)
    ensures !Takes(net, w, a, w')
  {
    if Takes(net, w, a, w') {
      StepDecreases(net, w, a);
      IdlesKeepsMeasure(w, w');
    }
  }

  /** Shutdown completes: in every fair run in which done is closed, a state is reached in
      which everybody has left, every Stop call has returned, and every handle was closed
      exactly once. */
  lemma FairRunsShutDown(net: Net, run: Run, d: nat) returns (n: nat)
    requires IsInfiniteRun(net, run) && Fair(net, run) && SelectFair(net, run) && run(d).life.done
    ensures d <= n && Final(run(n))
    ensures forall p :: 0 <= p < |run(n).life.closes| ==> run(n).life.closes[p] == 1
  {
    var m := SelectEnds(net, run, d);
    RunStaysDone(net, run, d, m);
    RunKeeps(net, run, m);
    n := StepsEnd(net, run, m);
    RunStaysDone(net, run, m, n);
    RunKeeps(net, run, n);
    if !Final(run(n)) {
      var a := NoDeadlock(net, run(n));
      NothingIsIgnored(net, run, n, a);
    }
    FinalMeansClosed(net, run(n));
  }

  // ---- and only then ----

  /** The ageing loop leaves its select by its check of done, and by nothing else. */
  lemma LeftByCheck(net: Net, w: World, w': World)
    requires Moves(net, w, w') && !GcLeft(w) && GcLeft(w')
    ensures Takes(net, w, GC_CHECK, w')
  {
    var a :| Enabled(net, w, a) && w' == Apply(net, w, a);
    assert a == GC_CHECK;
  }

  lemma {:induction false} RunLeftByCheck(net: Net, run: Run, i: nat)
    requires IsInfiniteRun(net, run) && GcLeft(run(i))
    ensures TakenAfter(net, run, GC_CHECK, 0)
  {
    if i > 0 {
      assert MovesAt(net, run, i - 1);
      if GcLeft(run(i - 1)) {
        RunLeftByCheck(net, run, i - 1);
      } else {
        LeftByCheck(net, run(i - 1), run(i));
        assert TakenAt(net, run, GC_CHECK, i - 1);
      }
    }
  }

  /** A run in which done is closed and that ignores no possible step forever shuts down if
      and only if select does not overlook done forever. */
  lemma ShutsDownIff(net: Net, run: Run, d: nat)
    requires IsInfiniteRun(net, run) && Fair(net, run) && run(d).life.done
    ensures SelectFair(net, run) <==> exists n: nat :: Final(run(n))
  {
    if SelectFair(net, run) {
      var n := FairRunsShutDown(net, run, d);
    }
    if n: nat :| Final(run(n)) {
      RunLeftByCheck(net, run, n);
    }
  }

  // ---- a run that does not shut down ----

  const CONFIG := [PortConfig("eth0", 0, [])]
  const ONE_PORT := Net(SpecsOf(CONFIG), 0)

  /** A switch with one plain port, one Stop call, and ageing time zero, at rest. */
  function Still(rx: L.Rx, gc: L.Gc, starter: L.Starter, stopper: L.Stopper, once: L.Once, done: bool, wg: int, pc: F.Pc): World {
    World(L.Life([rx], gc, starter, [stopper], once, done, wg, [0], [None], [0], [0]),
          P.Pipe(F.System(map[], [], 0, None, [F.Idle, pc], [], {}, []), [P.Outside], [ZERO], [0], [0], [0], [[]], []))
  }

  /** The ageing loop is all that is left, and Stop waits for it. */
  function Turning(gc: L.Gc, pc: F.Pc): World {
    Still(L.Gone, gc, L.Started, L.Waiting, L.Running(0), true, 1, pc)
  }

  /** Start, then Stop closes done and waits, and the receive loop leaves; and from then on
      the timer always fires first. */
  function Spin(i: nat): World {
    if i == 0 then Still(L.Unborn, L.GcUnborn, L.Adding(0), L.Calling, L.Fresh, false, 0, F.Idle)
    else if i == 1 then Still(L.Unborn, L.GcUnborn, L.Spawning(0), L.Calling, L.Fresh, false, 1, F.Idle)
    else if i == 2 then Still(L.Head, L.GcUnborn, L.Adding(1), L.Calling, L.Fresh, false, 1, F.Idle)
    else if i == 3 then Still(L.Head, L.GcUnborn, L.Spawning(1), L.Calling, L.Fresh, false, 2, F.Idle)
    else if i == 4 then Still(L.Head, L.GcSelect, L.Started, L.Calling, L.Fresh, false, 2, F.Idle)
    else if i == 5 then Still(L.Head, L.GcSelect, L.Started, L.Closing, L.Running(0), false, 2, F.Idle)
    else if i == 6 then Still(L.Head, L.GcSelect, L.Started, L.Waiting, L.Running(0), true, 2, F.Idle)
    else if i == 7 then Still(L.Exiting, L.GcSelect, L.Started, L.Waiting, L.Running(0), true, 2, F.Idle)
    else if i == 8 then Turning(L.GcSelect, F.Idle)
    else if i % 3 == 0 then Turning(L.GcReaping, F.ReapAge(0))
    else if i % 3 == 1 then Turning(L.GcReaping, F.ReapDone)
    else Turning(L.GcSelect, F.ReapDone)
  }

  lemma Took(net: Net, w: World, a: Action, w': World)
    requires Takes(net, w, a, w')
    ensures Moves(net, w, w')
  {
  }

  lemma SpinStarts(i: nat)
    requires i < 6
    ensures Moves(ONE_PORT, Spin(i), Spin(i + 1))
  {
    Took(ONE_PORT, Spin(i), Act(Some(if i < 4 then L.StartStep else L.StopStep(0)), None), Spin(i + 1));
  }

  lemma SpinDrains(i: nat)
    requires 6 <= i < 8
    ensures Moves(ONE_PORT, Spin(i), Spin(i + 1))
  {
    Took(ONE_PORT, Spin(i), Act(Some(if i == 6 then L.Check(0) else L.Exit(0)), None), Spin(i + 1));
  }

  lemma SpinTicks(pc: F.Pc)
    requires pc.Finished()
    ensures Moves(ONE_PORT, Turning(L.GcSelect, pc), Turning(L.GcReaping, F.ReapAge(0)))
  {
    Took(ONE_PORT, Turning(L.GcSelect, pc), Act(Some(L.Tick), Some(P.GcBegin(0))), Turning(L.GcReaping, F.ReapAge(0)));
  }

  lemma SpinReaps(pick: Key)
    ensures Moves(ONE_PORT, Turning(L.GcReaping, F.ReapAge(0)), Turning(L.GcReaping, F.ReapDone))
  {
    Took(ONE_PORT, Turning(L.GcReaping, F.ReapAge(0)), Act(None, Some(P.GcOnTable(pick))), Turning(L.GcReaping, F.ReapDone));
  }

  lemma SpinReturns()
    ensures Moves(ONE_PORT, Turning(L.GcReaping, F.ReapDone), Turning(L.GcSelect, F.ReapDone))
  {
    Took(ONE_PORT, Turning(L.GcReaping, F.ReapDone), Act(Some(L.Reaped), None), Turning(L.GcSelect, F.ReapDone));
  }

  lemma SpinTurns(i: nat)
    requires 8 <= i
    ensures i % 3 == 0 ==> Spin(i) == Turning(L.GcReaping, F.ReapAge(0))
    ensures i % 3 == 1 ==> Spin(i) == Turning(L.GcReaping, F.ReapDone)
    ensures i % 3 == 2 ==> Spin(i) == Turning(L.GcSelect, if i == 8 then F.Idle else F.ReapDone)
  {
  }

  lemma SpinMoves(i: nat)
    ensures Moves(ONE_PORT, Spin(i), Spin(i + 1))
  {
    if i < 6 {
      SpinStarts(i);
    } else if i < 8 {
      SpinDrains(i);
    } else {
      SpinGoesRound(i);
    }
  }

  lemma SpinGoesRound(i: nat)
    requires 8 <= i
    ensures Moves(ONE_PORT, Spin(i), Spin(i + 1))
  {
    SpinTurns(i);
    SpinTurns(i + 1);
    if i % 3 == 2 {
      SpinTicks(if i == 8 then F.Idle else F.ReapDone);
    } else if i % 3 == 0 {
      SpinReaps(Key(0, [0, 0, 0, 0, 0, 0]));
    } else {
      SpinReturns();
    }
  }

  lemma OnlySelectMoves(a: Action)
    requires Enabled(ONE_PORT, Turning(L.GcSelect, F.ReapDone), a) && !ByEnvironment(a)
    ensures a == GC_CHECK
  {
  }

  lemma NotPossibleForever(a: Action, i: nat)
    requires !ByEnvironment(a)
    ensures !EnabledFrom(ONE_PORT, Spin, a, i)
  {
    var j := 3 * i + 11;
    if EnabledFrom(ONE_PORT, Spin, a, i) {
      assert Enabled(ONE_PORT, Spin(j), a) && Enabled(ONE_PORT, Spin(j + 1), a);
    }
    NotBothAt(a, j);
  }

  lemma NotBothAt(a: Action, j: nat)
    requires !ByEnvironment(a) && 8 < j && j % 3 == 2
    ensures !(Enabled(ONE_PORT, Spin(j), a) && Enabled(ONE_PORT, Spin(j + 1), a))
  {
    SpinTurns(j);
    SpinTurns(j + 1);
    if Enabled(ONE_PORT, Spin(j), a) {
      NotBoth(a);
    }
  }

  lemma NotBoth(a: Action)
    requires !ByEnvironment(a) && Enabled(ONE_PORT, Turning(L.GcSelect, F.ReapDone), a)
    ensures !Enabled(ONE_PORT, Turning(L.GcReaping, F.ReapAge(0)), a)
  {
    OnlySelectMoves(a);
  }

  lemma SpinIsFair()
    ensures Fair(ONE_PORT, Spin)
  {
    forall a, i: nat | !ByEnvironment(a)
      ensures !EnabledFrom(ONE_PORT, Spin, a, i)
    {
      NotPossibleForever(a, i);
    }
  }

  /** Fairness alone does not end shutdown: in this run, of a switch that construction
      accepts, no step stays possible forever without being taken, but whenever the ageing
      loop selects, the timer has fired. */
  lemma TimerMayWinForever()
    ensures WellFormed(CONFIG, 1) && ONE_PORT.ports == SpecsOf(CONFIG)
    ensures IsInfiniteRun(ONE_PORT, Spin) && Fair(ONE_PORT, Spin)
    ensures Spin(6).life.done && forall i: nat :: !Final(Spin(i))
  {
    assert Init(ONE_PORT, 0, 1) == Spin(0);
    forall i: nat
      ensures MovesAt(ONE_PORT, Spin, i)
    {
      SpinMoves(i);
    }
    SpinIsFair();
  }
}
