/**
 Shutdown progress: once done is closed, every step but a tick of the ageing timer (or a
 change of the ageing time) lowers a measure, and until everybody has left some such
 step is possible. So shutdown completes, if reads and writes return, the scheduler is
 fair and the ageing loop's select does not choose the timer forever.
 */
module Shutdown {
  import opened Wrappers
  import opened Forwarding
  import opened Sums
  import opened SwitchSteps
  import F = FdbSteps
  import L = Lifecycle
  import P = Pipeline
  import opened FdbRanks
  import opened ForwardRanks

  // ---- the measure ----

  function RxRank(r: L.Rx, f: P.Fwd, pc: F.Pc, n: nat): nat {
    match r
    case Unborn => 0
    case Head => 2
    case Reading => 5 * n + 27
    case Busy => 3 + FwdRank(f, pc, n)
    case Writing(_) => 3 + FwdRank(f, pc, n)
    case Exiting => 1
    case Gone => 0
  }

  function GcRank(g: L.Gc, pc: F.Pc, keys: nat): nat {
    match g
    case GcUnborn => 0
    case GcSelect => 2
    case GcReaping => 3 + ReapRank(pc, keys)
    case GcExiting => 1
    case GcGone => 0
  }

  function StartRank(s: L.Starter, n: nat): int {
    match s
    case Adding(next) => 4 * (n - next) + 4
    case Spawning(next) => 4 * (n - next) + 3
    case Started => 0
  }

  function StopRank(s: L.Stopper, n: nat): int {
    match s
    case Calling => n + 5
    case Closing => n + 4
    case Waiting => n + 3
    case Releasing(next) => n - next + 1
    case Returned => 0
  }

  /** The rank of one receive goroutine. */
  function Rank(w: World, t: nat): nat
    requires Coupled(w) && t < |w.life.rx|
  {
    RxRank(w.life.rx[t], w.pipe.fwd[t], w.pipe.sys.pcs[t], |w.life.rx|)
  }

  function RxRanks(w: World): seq<int>
    requires Coupled(w)
  {
    seq(|w.life.rx|, t requires 0 <= t < |w.life.rx| => Rank(w, t))
  }

  function StopRanks(stoppers: seq<L.Stopper>, n: nat): (r: seq<int>)
    ensures |r| == |stoppers| && forall i :: 0 <= i < |stoppers| ==> r[i] == StopRank(stoppers[i], n)
  {
    seq(|stoppers|, i requires 0 <= i < |stoppers| => StopRank(stoppers[i], n))
  }

  function GcPart(w: World): nat
    requires Coupled(w)
  {
    GcRank(w.life.gc, w.pipe.sys.pcs[|w.pipe.fwd|], |w.pipe.sys.table|)
  }

  function Measure(w: World): int
    requires Coupled(w)
  {
    Sum(RxRanks(w)) + GcPart(w) + StartRank(w.life.starter, |w.life.rx|) + Sum(StopRanks(w.life.stoppers, |w.life.rx|))
  }

  /** What the environment may do at any time: let the timer fire, set the ageing time. */
  predicate ByEnvironment(a: Action) {
    (a.life.Some? && a.life.value.Tick?) || (a.pipe.Some? && a.pipe.value.SetAgeing?)
  }

  lemma MeasureNonNegative(net: Net, w: World)
    requires Inv(net, w)
    ensures Measure(w) >= 0
  {
    SumZero(RxRanks(w));
    SumZero(StopRanks(w.life.stoppers, |w.life.rx|));
  }

  // ---- it decreases ----

  function Keys(w: World): nat {
    |w.pipe.sys.table|
  }

  /** A receive goroutine that moves its life only. */
  lemma LifeDrops(net: Net, w: World, a: Action)
    requires Inv(net, w) && w.life.done && Enabled(net, w, a) && a.pipe.None?
    requires Mover(w, a) < |w.life.rx| && !a.life.value.StartStep?
    ensures Coupled(Apply(net, w, a)) && Rank(Apply(net, w, a), Mover(w, a)) < Rank(w, Mover(w, a))
  {
    CoupledStep(net, w, a);
  }

  /** A receive goroutine on the table. */
  lemma TableDrops(net: Net, w: World, a: Action)
    requires Inv(net, w) && Enabled(net, w, a) && a.pipe.Some? && a.pipe.value.OnTable?
    ensures var w' := Apply(net, w, a);
            && Coupled(w')
            && Keys(w') <= Keys(w) + 1
            && Rank(w', Mover(w, a)) + (if Keys(w') > Keys(w) then 3 else 1) <= Rank(w, Mover(w, a))
  {
    var t := a.pipe.value.t;
    CoupledStep(net, w, a);
    assert Matches(w.life.rx[t], w.pipe.fwd[t]) && P.FwdOk(net, t, w.pipe.fwd[t], w.pipe.sys.pcs[t]);
    CallDecreases(w.pipe.sys, t, a.pipe.value.pick);
  }

  /** Entering a call on the table adds no key. */
  lemma KeysStay(net: Net, s: P.Pipe, a: P.Action)
    requires P.Enabled(net, s, a) && P.Actor(s, a) < |s.fwd| && !a.OnTable?
    ensures P.Apply(net, s, a).sys.table == s.sys.table
  {
    P.TableFollows(net, s, a);
  }

  /** A receive goroutine elsewhere inside forward, or entering or leaving it. */
  lemma ForwardDrops(net: Net, w: World, a: Action)
    requires Inv(net, w) && Enabled(net, w, a) && a.pipe.Some? && !a.pipe.value.OnTable?
    requires Mover(w, a) < |w.life.rx|
    ensures var w' := Apply(net, w, a);
            Coupled(w') && Keys(w') == Keys(w) && Rank(w', Mover(w, a)) < Rank(w, Mover(w, a))
  {
    var t := Mover(w, a);
    CoupledStep(net, w, a);
    KeysStay(net, w.pipe, a.pipe.value);
    assert Matches(w.life.rx[t], w.pipe.fwd[t]) && P.FwdOk(net, t, w.pipe.fwd[t], w.pipe.sys.pcs[t]);
    if a.pipe.value.Enter? {
      EnteringDrops(net, w, a);
    } else {
      if UpToRouting(a.pipe.value) {
        RoutingDrops(net, w.pipe, a.pipe.value);
      } else {
        SendingDrops(net, w.pipe, a.pipe.value);
      }
      LifeSide(net, w, a);
    }
  }

  lemma EnteringDrops(net: Net, w: World, a: Action)
    requires Coupled(w) && Enabled(net, w, a) && a.pipe.Some? && a.pipe.value.Enter?
    requires Coupled(Apply(net, w, a))
    ensures Mover(w, a) < |w.life.rx| && Rank(Apply(net, w, a), Mover(w, a)) < Rank(w, Mover(w, a))
  {
  }

  /** While inside forward the life of the goroutine adds three steps, two when it leaves. */
  lemma LifeSide(net: Net, w: World, a: Action)
    requires Coupled(w) && Enabled(net, w, a) && a.pipe.Some? && !a.pipe.value.OnTable? && !a.pipe.value.Enter?
    requires Mover(w, a) < |w.life.rx| && Coupled(Apply(net, w, a))
    ensures var w' := Apply(net, w, a);
            var t := Mover(w, a);
            && Rank(w, t) == 3 + FwdRank(w.pipe.fwd[t], w.pipe.sys.pcs[t], |w.life.rx|)
            && Rank(w', t) <= 3 + FwdRank(w'.pipe.fwd[t], w'.pipe.sys.pcs[t], |w.life.rx|)
  {
    var t := Mover(w, a);
    assert Matches(w.life.rx[t], w.pipe.fwd[t]);
    assert Matches(Apply(net, w, a).life.rx[t], Apply(net, w, a).pipe.fwd[t]);
  }

  // ---- all together ----

  lemma SumOfRanks(w: World, w': World, t: nat)
    requires Coupled(w) && Coupled(w') && |w'.life.rx| == |w.life.rx| && t < |w.life.rx|
    requires forall u :: 0 <= u < |w.life.rx| && u != t ==> Rank(w', u) == Rank(w, u)
    ensures Sum(RxRanks(w')) == Sum(RxRanks(w)) - Rank(w, t) + Rank(w', t)
  {
    assert RxRanks(w') == RxRanks(w)[t := Rank(w', t)];
    SumUpdate(RxRanks(w), t, Rank(w', t));
  }

  lemma SameRanks(w: World, w': World)
    requires Coupled(w) && Coupled(w') && |w'.life.rx| == |w.life.rx|
    requires forall u :: 0 <= u < |w.life.rx| ==> Rank(w', u) == Rank(w, u)
    ensures Sum(RxRanks(w')) == Sum(RxRanks(w))
  {
    assert RxRanks(w') == RxRanks(w);
  }

  /** A step of a receive goroutine. */
  lemma RxDecreases(net: Net, w: World, a: Action)
    requires Inv(net, w) && w.life.done && Enabled(net, w, a)
    requires Mover(w, a) < |w.life.rx| && !(a.life.Some? && a.life.value.StartStep?)
    ensures Coupled(Apply(net, w, a)) && Measure(Apply(net, w, a)) < Measure(w)
  {
    var w' := Apply(net, w, a);
    CoupledStep(net, w, a);
    OthersStay(net, w, a);
    SumOfRanks(w, w', Mover(w, a));
    if a.pipe.None? {
      LifeDrops(net, w, a);
    } else if a.pipe.value.OnTable? {
      TableDrops(net, w, a);
    } else {
      ForwardDrops(net, w, a);
    }
    RestStays(net, w, a);
    GcGrows(w.life.gc, w.pipe.sys.pcs[|w.pipe.fwd|], Keys(w), Keys(w'));
  }

  lemma LifeRestStays(s: L.Life, a: L.Action)
    requires L.Enabled(s, a) && L.Mover(s, a) < |s.rx| && !a.StartStep?
    ensures var s' := L.Apply(s, a);
            s'.gc == s.gc && s'.starter == s.starter && s'.stoppers == s.stoppers
  {
  }

  /** What a step of a receive goroutine does to the other parts of the measure. */
  lemma RestStays(net: Net, w: World, a: Action)
    requires Coupled(w) && Enabled(net, w, a) && Coupled(Apply(net, w, a))
    requires Mover(w, a) < |w.life.rx| && !(a.life.Some? && a.life.value.StartStep?)
    ensures var w' := Apply(net, w, a);
            && w'.life.gc == w.life.gc && w'.life.starter == w.life.starter && w'.life.stoppers == w.life.stoppers
            && w'.pipe.sys.pcs[|w.life.rx|] == w.pipe.sys.pcs[|w.life.rx|]
  {
    if a.pipe.Some? {
      P.OthersStay(net, w.pipe, a.pipe.value);
    }
    if a.life.Some? {
      LifeRestStays(w.life, a.life.value);
    }
  }

  /** A waiting reap gets two more steps for every key that is added. */
  lemma GcGrows(g: L.Gc, pc: F.Pc, keys: nat, keys': nat)
    ensures GcRank(g, pc, keys') <= GcRank(g, pc, keys) + if keys' > keys then 2 * (keys' - keys) else 0
  {
  }

  lemma StartDecreases(net: Net, w: World, a: Action)
    requires Inv(net, w) && Enabled(net, w, a) && a.life.Some? && a.life.value.StartStep?
    ensures Coupled(Apply(net, w, a)) && Measure(Apply(net, w, a)) < Measure(w)
  {
    var w' := Apply(net, w, a);
    CoupledStep(net, w, a);
    OthersStay(net, w, a);
    if Mover(w, a) < |w.life.rx| {
      SumOfRanks(w, w', Mover(w, a));
    } else {
      SameRanks(w, w');
    }
  }

  lemma StopRankDrops(s: L.Life, i: nat) returns (c: L.Stopper)
    requires L.Inv(s) && L.Enabled(s, L.StopStep(i))
    ensures var s' := L.Apply(s, L.StopStep(i));
            && s'.rx == s.rx && s'.gc == s.gc && s'.starter == s.starter
            && s'.stoppers == s.stoppers[i := c] && StopRank(c, |s.rx|) < StopRank(s.stoppers[i], |s.rx|)
  {
    var s' := L.Apply(s, L.StopStep(i));
    c := s'.stoppers[i];
  }

  lemma StopDecreases(net: Net, w: World, a: Action)
    requires Inv(net, w) && Enabled(net, w, a) && a.life.Some? && a.life.value.StopStep?
    ensures Coupled(Apply(net, w, a)) && Measure(Apply(net, w, a)) < Measure(w)
  {
    var w' := Apply(net, w, a);
    var i := a.life.value.i;
    var c := StopRankDrops(w.life, i);
    OneStop(w.life.stoppers, i, c, |w.life.rx|);
    assert w' == World(w'.life, w.pipe);
    SameRanks(w, w');
  }

  lemma OneStop(stoppers: seq<L.Stopper>, i: nat, c: L.Stopper, n: nat)
    requires i < |stoppers|
    ensures Sum(StopRanks(stoppers[i := c], n)) == Sum(StopRanks(stoppers, n)) - StopRank(stoppers[i], n) + StopRank(c, n)
  {
    assert StopRanks(stoppers[i := c], n) == StopRanks(stoppers, n)[i := StopRank(c, n)];
    SumUpdate(StopRanks(stoppers, n), i, StopRank(c, n));
  }

  predicate OfGc(a: Action) {
    || (a.pipe.None? && a.life.Some? && (a.life.value.GcCheck? || a.life.value.GcExit? || a.life.value.Reaped?))
    || (a.life.None? && a.pipe.Some? && a.pipe.value.GcOnTable?)
  }

  /** A step of the ageing loop lowers its part and leaves the others. */
  lemma GcPartDrops(net: Net, w: World, a: Action)
    requires Inv(net, w) && Enabled(net, w, a) && OfGc(a) && Coupled(Apply(net, w, a))
    ensures var w' := Apply(net, w, a);
            && GcPart(w') < GcPart(w)
            && w'.life.rx == w.life.rx && w'.life.starter == w.life.starter && w'.life.stoppers == w.life.stoppers
  {
    if a.pipe.Some? {
      assert F.PcOk(w.pipe.sys, w.pipe.sys.pcs[|w.pipe.fwd|]);
      GcTableDrops(net, w, a);
    } else {
      GcLifeDrops(net, w, a);
    }
  }

  lemma GcTableDrops(net: Net, w: World, a: Action)
    requires Coupled(w) && Enabled(net, w, a) && OfGc(a) && a.pipe.Some? && Coupled(Apply(net, w, a))
    requires var sys, pc := w.pipe.sys, w.pipe.sys.pcs[|w.pipe.fwd|];
             F.TableOk(sys) && P.GcOk(pc) && F.PcOk(sys, pc)
    ensures GcPart(Apply(net, w, a)) < GcPart(w) && Apply(net, w, a).life == w.life
  {
    ReapDecreases(w.pipe.sys, |w.pipe.fwd|, a.pipe.value.pick);
  }

  lemma GcLifeDrops(net: Net, w: World, a: Action)
    requires Coupled(w) && Enabled(net, w, a) && OfGc(a) && a.pipe.None? && Coupled(Apply(net, w, a))
    ensures var w' := Apply(net, w, a);
            && GcPart(w') < GcPart(w)
            && w'.life.rx == w.life.rx && w'.life.starter == w.life.starter && w'.life.stoppers == w.life.stoppers
  {
  }

  lemma GcDecreases(net: Net, w: World, a: Action)
    requires Inv(net, w) && Enabled(net, w, a) && OfGc(a)
    ensures Coupled(Apply(net, w, a)) && Measure(Apply(net, w, a)) < Measure(w)
  {
    CoupledStep(net, w, a);
    OthersStay(net, w, a);
    SameRanks(w, Apply(net, w, a));
    GcPartDrops(net, w, a);
  }

  /** After done is closed, every step but the environment's lowers the measure. */
  lemma StepDecreases(net: Net, w: World, a: Action)
    requires Inv(net, w) && w.life.done && Enabled(net, w, a) && !ByEnvironment(a)
    ensures Inv(net, Apply(net, w, a)) && Apply(net, w, a).life.done
    ensures 0 <= Measure(Apply(net, w, a)) < Measure(w)
  {
    var w' := Apply(net, w, a);
    InvStep(net, w, a);
    DoneStays(net, w, a);
    MeasureNonNegative(net, w');
    MeasureDrops(net, w, a);
  }

  lemma DoneStays(net: Net, w: World, a: Action)
    requires Enabled(net, w, a) && w.life.done
    ensures Apply(net, w, a).life.done
  {
  }

  lemma MeasureDrops(net: Net, w: World, a: Action)
    requires Inv(net, w) && w.life.done && Enabled(net, w, a) && !ByEnvironment(a)
    ensures Coupled(Apply(net, w, a)) && Measure(Apply(net, w, a)) < Measure(w)
  {
    if a.life.Some? && a.life.value.StartStep? {
      StartDecreases(net, w, a);
    } else if a.life.Some? && a.life.value.StopStep? {
      StopDecreases(net, w, a);
    } else if OfGc(a) {
      GcDecreases(net, w, a);
    } else {
      RxDecreases(net, w, a);
    }
  }

  // ---- no deadlock ----

  /** Everybody has left, and every Stop call has returned. */
  predicate Final(w: World) {
    && w.life.starter.Started?
    && w.life.gc.GcGone?
    && (forall t :: 0 <= t < |w.life.rx| ==> w.life.rx[t].Gone?)
    && (forall i :: 0 <= i < |w.life.stoppers| ==> w.life.stoppers[i].Returned?)
  }

  /** A goroutine in a table call can move, or the one that holds the lock can. */
  lemma TableMoves(s: F.System, t: nat) returns (u: nat, pick: Key)
    requires F.Inv(s) && t < |s.pcs| && !s.pcs[t].Finished()
    ensures u < |s.pcs| && F.Enabled(s, F.Do(u, pick))
    ensures u == t || s.pcs[u].HoldsLock()
  {
    u := if s.writer.Some? then s.writer.value else t;
    assert F.PcOk(s, s.pcs[u]);
    if s.pcs[u].ReapScan? && s.pcs[u].todo != {} {
      pick :| pick in s.pcs[u].todo;
    } else {
      pick := Key(0, [0, 0, 0, 0, 0, 0]);
    }
  }

  function TableAction(w: World, u: nat, pick: Key): Action {
    Act(None, Some(if u < |w.pipe.fwd| then P.OnTable(u, pick) else P.GcOnTable(pick)))
  }

  /** A step on the table is a step of the switch. */
  lemma TableStepEnabled(net: Net, w: World, u: nat, pick: Key)
    requires Coupled(w) && P.Shaped(net, w.pipe) && u < |w.pipe.sys.pcs|
    requires F.Enabled(w.pipe.sys, F.Do(u, pick))
    requires u < |w.pipe.fwd| ==> P.FwdOk(net, u, w.pipe.fwd[u], w.pipe.sys.pcs[u])
    ensures Enabled(net, w, TableAction(w, u, pick)) && !ByEnvironment(TableAction(w, u, pick))
  {
  }

  /** Whoever is in a table call, there is a step on the table. */
  lemma SomeTableStep(net: Net, w: World, t: nat) returns (a: Action)
    requires Coupled(w) && P.Shaped(net, w.pipe) && F.Inv(w.pipe.sys)
    requires forall u :: 0 <= u < |w.pipe.fwd| ==> P.FwdOk(net, u, w.pipe.fwd[u], w.pipe.sys.pcs[u])
    requires t < |w.pipe.sys.pcs| && !w.pipe.sys.pcs[t].Finished()
    ensures Enabled(net, w, a) && !ByEnvironment(a)
  {
    var u, pick := TableMoves(w.pipe.sys, t);
    TableStepEnabled(net, w, u, pick);
    a := TableAction(w, u, pick);
  }

  /** The holder of a write lock is inside a write and can move on. */
  lemma HolderMoves(net: Net, w: World, out: nat) returns (a: Action)
    requires Inv(net, w) && out < |w.life.holder| && w.life.holder[out].Some?
    ensures Enabled(net, w, a) && !ByEnvironment(a)
  {
    var t := w.life.holder[out].value;
    assert Matches(w.life.rx[t], w.pipe.fwd[t]);
    a := if w.pipe.fwd[t].Writing? then Act(None, Some(P.End(t, true)))
         else Act(Some(L.Unlock(t)), Some(P.Release(t)));
  }

  lemma SenderMoves(net: Net, w: World, t: nat) returns (a: Action)
    requires Inv(net, w) && t < |w.life.rx| && w.life.rx[t].Busy? && w.pipe.fwd[t].Sending?
    ensures Enabled(net, w, a) && !ByEnvironment(a)
  {
    var job, todo := w.pipe.fwd[t].job, w.pipe.fwd[t].todo;
    assert P.FwdOk(net, t, w.pipe.fwd[t], w.pipe.sys.pcs[t]);
    if todo == [] {
      a := Act(Some(L.Return(t)), Some(P.Leave(t)));
    } else {
      assert P.MemberPort(net, todo[0], job.a.vid);
      if w.life.holder[todo[0]].None? {
        a := Act(Some(L.Lock(t, todo[0])), Some(P.Begin(t)));
      } else {
        a := HolderMoves(net, w, todo[0]);
      }
    }
  }

  /** A goroutine in a call on the table. */
  lemma CallerMoves(net: Net, w: World, t: nat) returns (a: Action)
    requires Inv(net, w) && t < |w.life.rx| && (w.pipe.fwd[t].Learning? || w.pipe.fwd[t].Looking?)
    ensures Enabled(net, w, a) && !ByEnvironment(a)
  {
    var pc := w.pipe.sys.pcs[t];
    assert P.FwdOk(net, t, w.pipe.fwd[t], pc);
    if pc.LearnDone? {
      a := Act(None, Some(P.Learned(t)));
    } else if pc.LookupDone? {
      a := Act(None, Some(P.Looked(t)));
    } else {
      a := SomeTableStep(net, w, t);
    }
  }

  /** A goroutine inside forward, outside any write: it or somebody it waits for can move. */
  lemma BusyMoves(net: Net, w: World, t: nat) returns (a: Action)
    requires Inv(net, w) && t < |w.life.rx| && w.life.rx[t].Busy?
    ensures Enabled(net, w, a) && !ByEnvironment(a)
  {
    var f := w.pipe.fwd[t];
    assert Matches(w.life.rx[t], f) && P.FwdOk(net, t, f, w.pipe.sys.pcs[t]);
    match f {
      case Entered(_) => a := Act(None, Some(P.CountRx(t)));
      case Deciding(_) => a := Act(None, Some(P.Decide(t)));
      case Dropping => a := Act(Some(L.Return(t)), Some(P.Drop(t)));
      case Stamping(_, _) => a := Act(None, Some(P.Stamp(t, 0)));
      case Learning(_) => a := CallerMoves(net, w, t);
      case Routing(_) => a := Act(None, Some(P.StartLookup(t)));
      case Looking(_) => a := CallerMoves(net, w, t);
      case Flooding(_) => a := Act(None, Some(P.Flood(t)));
      case Sending(_, _) => a := SenderMoves(net, w, t);
      case Tallying(job, todo, _) =>
        assert P.MemberPort(net, todo[0], job.a.vid);
        a := Act(None, Some(P.Tally(t)));
    }
  }

  /** A receive goroutine that has not left: there is a step. */
  lemma RxMoves(net: Net, w: World, t: nat) returns (a: Action)
    requires Inv(net, w) && t < |w.life.rx| && !w.life.rx[t].Gone? && !w.life.rx[t].Unborn?
    ensures Enabled(net, w, a) && !ByEnvironment(a)
  {
    match w.life.rx[t] {
      case Head => a := Act(Some(L.Check(t)), None);
      case Reading => a := Act(Some(L.Timeout(t)), None);
      case Busy => a := BusyMoves(net, w, t);
      case Writing(out) => a := HolderMoves(net, w, out);
      case Exiting => a := Act(Some(L.Exit(t)), None);
    }
  }

  lemma GcMoves(net: Net, w: World) returns (a: Action)
    requires Inv(net, w) && w.life.done && !w.life.gc.GcGone? && !w.life.gc.GcUnborn?
    ensures Enabled(net, w, a) && !ByEnvironment(a)
  {
    match w.life.gc {
      case GcSelect => a := Act(Some(L.GcCheck), None);
      case GcExiting => a := Act(Some(L.GcExit), None);
      case GcReaping =>
        if GcIdle(w) {
          a := Act(Some(L.Reaped), None);
        } else {
          a := SomeTableStep(net, w, |w.pipe.fwd|);
        }
    }
  }

  /** When all goroutines have left, the wait is over. */
  lemma WaitIsOver(s: L.Life)
    requires L.Inv(s) && s.starter.Started? && s.gc.GcGone? && forall t :: 0 <= t < |s.rx| ==> s.rx[t].Gone?
    ensures s.wg == 0
  {
    SumZero(L.Weights(s.rx));
  }

  lemma StopMoves(net: Net, w: World, i: nat) returns (a: Action)
    requires Inv(net, w) && w.life.done && i < |w.life.stoppers| && !w.life.stoppers[i].Returned? && w.life.wg == 0
    ensures Enabled(net, w, a) && !ByEnvironment(a)
  {
    var j := if w.life.once.Running? then w.life.once.who else i;
    a := Act(Some(L.StopStep(j)), None);
  }

  /** Until everybody has left, some step other than the environment's is possible. */
  lemma NoDeadlock(net: Net, w: World) returns (a: Action)
    requires Inv(net, w) && w.life.done && !Final(w)
    ensures Enabled(net, w, a) && !ByEnvironment(a)
  {
    if !w.life.starter.Started? {
      a := Act(Some(L.StartStep), None);
    } else if t :| 0 <= t < |w.life.rx| && !w.life.rx[t].Gone? {
      a := RxMoves(net, w, t);
    } else if !w.life.gc.GcGone? {
      a := GcMoves(net, w);
    } else {
      WaitIsOver(w.life);
      var i :| 0 <= i < |w.life.stoppers| && !w.life.stoppers[i].Returned?;
      a := StopMoves(net, w, i);
    }
  }

  // ---- shutdown ends ----

  /** A step that is not the environment's. */
  ghost predicate Goes(net: Net, w: World, w': World) {
    exists a :: Enabled(net, w, a) && !ByEnvironment(a) && w' == Apply(net, w, a)
  }

  /** A stretch of steps without the environment's. */
  ghost predicate Stretch(net: Net, run: seq<World>) {
    run != [] && forall i :: 0 <= i < |run| - 1 ==> Goes(net, run[i], run[i + 1])
  }

  lemma GoesDown(net: Net, w: World, w': World)
    requires Inv(net, w) && w.life.done && Goes(net, w, w')
    ensures Inv(net, w') && w'.life.done && 0 <= Measure(w') < Measure(w)
  {
    var a :| Enabled(net, w, a) && !ByEnvironment(a) && w' == Apply(net, w, a);
    StepDecreases(net, w, a);
  }

  /** However it is scheduled, a stretch after done is closed is no longer than the
      measure it starts with. */
  lemma {:induction false} StretchesAreBounded(net: Net, run: seq<World>, n: nat)
    requires Stretch(net, run) && Inv(net, run[0]) && run[0].life.done && n < |run|
    ensures Inv(net, run[n]) && run[n].life.done
    ensures 0 <= Measure(run[n]) <= Measure(run[0]) - n
  {
    if n == 0 {
      MeasureNonNegative(net, run[0]);
    } else {
      StretchesAreBounded(net, run, n - 1);
      assert Goes(net, run[n - 1], run[n - 1 + 1]);
      GoesDown(net, run[n - 1], run[n]);
    }
  }

  /** When everybody has left, every handle was closed exactly once. */
  lemma FinalMeansClosed(net: Net, w: World)
    requires Inv(net, w) && w.life.done && Final(w)
    ensures forall p :: 0 <= p < |w.life.closes| ==> w.life.closes[p] == 1
  {
    assert w.life.once.Finished?;
  }

  /** A stretch that cannot be continued has ended shutdown: everybody has left, every
      Stop call has returned, and every handle was closed exactly once. */
  lemma ShutdownCompletes(net: Net, run: seq<World>)
    requires Stretch(net, run) && Inv(net, run[0]) && run[0].life.done
    requires forall a :: Enabled(net, run[|run| - 1], a) ==> ByEnvironment(a)
    ensures var w := run[|run| - 1];
            Final(w) && forall p :: 0 <= p < |w.life.closes| ==> w.life.closes[p] == 1
  {
    var w := run[|run| - 1];
    StretchesAreBounded(net, run, |run| - 1);
    if !Final(w) {
      var a := NoDeadlock(net, w);
      assert false;
    }
    FinalMeansClosed(net, w);
  }
}
