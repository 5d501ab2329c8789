/**
 The running switch: the goroutines' lives and locks (Lifecycle) together with what
 they do inside forward (Pipeline). One action moves one of the two, or both at once
 where they meet: a frame arrives, a write lock is taken or released, forward returns,
 the ageing loop starts or ends a reap.
 */
module SwitchSteps {
  import opened Wrappers
  import opened Wire
  import opened Config
  import opened Forwarding
  import L = Lifecycle
  import P = Pipeline
  import A = Accounting
  import D = Deliveries

  datatype World = World(life: L.Life, pipe: P.Pipe)

  datatype Action = Act(life: Option<L.Action>, pipe: Option<P.Action>)

  function Init(net: Net, ageing: int, stops: nat): World {
    World(L.Init(|net.ports|, stops), P.Init(net, ageing))
  }

  predicate GcIdle(w: World) {
    |w.pipe.sys.pcs| == |w.pipe.fwd| + 1 && w.pipe.sys.pcs[|w.pipe.fwd|].Finished()
  }

  /** Which actions go together. */
  predicate Paired(w: World, a: Action) {
    match a
    case Act(Some(l), None) =>
      || l.StartStep? || l.Check? || l.Timeout? || l.Fail? || l.Exit? || l.GcCheck? || l.GcExit? || l.StopStep?
      || (l.Reaped? && GcIdle(w))
    case Act(None, Some(p)) =>
      || p.CountRx? || p.Decide? || p.Stamp? || p.OnTable? || p.Learned? || p.StartLookup? || p.Looked?
      || p.Flood? || p.End? || p.Tally? || p.GcOnTable? || p.SetAgeing?
    case Act(Some(Data(t)), Some(Enter(u, _))) => t == u
    case Act(Some(Lock(t, out)), Some(Begin(u))) =>
      t == u && u < |w.pipe.fwd| && w.pipe.fwd[u].Sending? && w.pipe.fwd[u].todo != [] && w.pipe.fwd[u].todo[0] == out
    case Act(Some(Unlock(t)), Some(Release(u))) => t == u
    case Act(Some(Return(t)), Some(Leave(u))) => t == u
    case Act(Some(Return(t)), Some(Drop(u))) => t == u
    case Act(Some(Tick), Some(GcBegin(_))) => true
    case _ => false
  }

  predicate Enabled(net: Net, w: World, a: Action) {
    && Paired(w, a)
    && (a.life.Some? ==> L.Enabled(w.life, a.life.value))
    && (a.pipe.Some? ==> P.Enabled(net, w.pipe, a.pipe.value))
  }

  function Apply(net: Net, w: World, a: Action): World
    requires Enabled(net, w, a)
  {
    World(if a.life.Some? then L.Apply(w.life, a.life.value) else w.life,
          if a.pipe.Some? then P.Apply(net, w.pipe, a.pipe.value) else w.pipe)
  }

  ghost predicate Next(net: Net, w: World, w': World) {
    exists a :: Enabled(net, w, a) && w' == Apply(net, w, a)
  }

  // ---- the invariant ----

  /** A goroutine is inside forward in one part exactly if it is in the other; it holds
      the write lock of the port it writes to. */
  predicate Matches(r: L.Rx, f: P.Fwd) {
    match r
    case Busy => !f.Outside? && !f.Writing? && !f.Wrote?
    case Writing(out) => (f.Writing? || f.Wrote?) && f.todo != [] && f.todo[0] == out
    case _ => f.Outside?
  }

  predicate Coupled(w: World) {
    && |w.life.rx| == |w.pipe.fwd| && |w.pipe.sys.pcs| == |w.pipe.fwd| + 1
    && (forall t :: 0 <= t < |w.life.rx| ==> Matches(w.life.rx[t], w.pipe.fwd[t]))
    && (!w.life.gc.GcReaping? ==> GcIdle(w))
  }

  ghost predicate Inv(net: Net, w: World) {
    L.Inv(w.life) && P.Inv(net, w.pipe) && A.Balanced(net, w.pipe) && Coupled(w)
  }

  lemma InitInv(net: Net, ageing: int, stops: nat)
    ensures Inv(net, Init(net, ageing, stops))
  {
    L.InitInv(|net.ports|, stops);
    P.InitInv(net, ageing);
    A.InitBalanced(net, ageing);
  }

  /** The receive loop an action moves, in either part; there is at most one. */
  function Mover(w: World, a: Action): nat {
    if a.pipe.Some? then P.Actor(w.pipe, a.pipe.value)
    else if a.life.Some? then L.Mover(w.life, a.life.value)
    else |w.life.rx|
  }

  lemma OthersStay(net: Net, w: World, a: Action)
    requires Coupled(w) && L.BornOk(w.life) && Enabled(net, w, a)
    ensures var w' := Apply(net, w, a);
            && |w'.life.rx| == |w.life.rx| == |w'.pipe.fwd| && |w'.pipe.sys.pcs| == |w.pipe.sys.pcs|
            && forall t :: 0 <= t < |w.life.rx| && t != Mover(w, a) ==>
                 w'.life.rx[t] == w.life.rx[t] && w'.pipe.fwd[t] == w.pipe.fwd[t]
                 && w'.pipe.sys.pcs[t] == w.pipe.sys.pcs[t]
  {
    if a.pipe.Some? {
      P.OthersStay(net, w.pipe, a.pipe.value);
    }
    if a.life.Some? {
      LifeOthersStay(w.life, a.life.value);
    }
  }

  lemma LifeOthersStay(s: L.Life, a: L.Action)
    requires L.Enabled(s, a) && L.BornOk(s)
    ensures var s' := L.Apply(s, a);
            |s'.rx| == |s.rx| && forall t :: 0 <= t < |s.rx| && t != L.Mover(s, a) ==> s'.rx[t] == s.rx[t]
  {
  }

  lemma LifeMatches(net: Net, w: World, a: Action)
    requires Coupled(w) && L.BornOk(w.life) && Enabled(net, w, a) && a.pipe.None? && Mover(w, a) < |w.life.rx|
    ensures Matches(Apply(net, w, a).life.rx[Mover(w, a)], w.pipe.fwd[Mover(w, a)])
  {
    assert Matches(w.life.rx[Mover(w, a)], w.pipe.fwd[Mover(w, a)]);
  }

  lemma PipeMatches(net: Net, w: World, a: Action)
    requires Coupled(w) && P.Inv(net, w.pipe) && Enabled(net, w, a) && a.life.None? && Mover(w, a) < |w.life.rx|
    ensures var w' := Apply(net, w, a);
            |w'.pipe.fwd| == |w.pipe.fwd| && Matches(w.life.rx[Mover(w, a)], w'.pipe.fwd[Mover(w, a)])
  {
    var t := Mover(w, a);
    P.OthersStay(net, w.pipe, a.pipe.value);
    assert Matches(w.life.rx[t], w.pipe.fwd[t]);
    assert P.FwdOk(net, t, w.pipe.fwd[t], w.pipe.sys.pcs[t]);
  }

  lemma BothMatch(net: Net, w: World, a: Action)
    requires Coupled(w) && Enabled(net, w, a) && a.life.Some? && a.pipe.Some? && Mover(w, a) < |w.life.rx|
    ensures var w' := Apply(net, w, a);
            var t := Mover(w, a);
            t < |w'.life.rx| && t < |w'.pipe.fwd| && Matches(w'.life.rx[t], w'.pipe.fwd[t])
  {
    assert Matches(w.life.rx[Mover(w, a)], w.pipe.fwd[Mover(w, a)]);
  }

  lemma CoupledStep(net: Net, w: World, a: Action)
    requires Inv(net, w) && Enabled(net, w, a)
    ensures Coupled(Apply(net, w, a))
  {
    var w' := Apply(net, w, a);
    OthersStay(net, w, a);
    forall t | 0 <= t < |w'.life.rx|
      ensures Matches(w'.life.rx[t], w'.pipe.fwd[t])
    {
      if t == Mover(w, a) {
        if a.pipe.None? {
          LifeMatches(net, w, a);
        } else if a.life.None? {
          PipeMatches(net, w, a);
        } else {
          BothMatch(net, w, a);
        }
      } else {
        assert Matches(w.life.rx[t], w.pipe.fwd[t]);
      }
    }
    GcStep(net, w, a);
  }

  lemma GcStep(net: Net, w: World, a: Action)
    requires Coupled(w) && L.BornOk(w.life) && Enabled(net, w, a)
    ensures var w' := Apply(net, w, a);
            |w'.pipe.sys.pcs| == |w'.pipe.fwd| + 1 && (!w'.life.gc.GcReaping? ==> GcIdle(w'))
  {
    if a.pipe.Some? {
      P.OthersStay(net, w.pipe, a.pipe.value);
    }
  }

  /** Every step of the running switch keeps the invariant. */
  lemma InvStep(net: Net, w: World, a: Action)
    requires Inv(net, w) && Enabled(net, w, a)
    ensures Inv(net, Apply(net, w, a))
  {
    if a.life.Some? {
      L.InvStep(w.life, a.life.value);
    }
    if a.pipe.Some? {
      P.InvStep(net, w.pipe, a.pipe.value);
      A.BalancedStep(net, w.pipe, a.pipe.value);
    }
    CoupledStep(net, w, a);
  }

  // ---- runs ----

  ghost predicate StepAt(net: Net, run: seq<World>, i: nat) {
    i + 1 < |run| && Next(net, run[i], run[i + 1])
  }

  /** A run of the switch: Start, any number of Stop calls, traffic, reaps, and changes
      of the ageing time, interleaved in any way. */
  ghost predicate IsRun(net: Net, run: seq<World>) {
    && run != []
    && (exists ageing, stops: nat :: run[0] == Init(net, ageing, stops))
    && forall i :: 0 <= i < |run| - 1 ==> StepAt(net, run, i)
  }

  lemma {:induction false} RunKeepsInv(net: Net, run: seq<World>, i: nat)
    requires IsRun(net, run) && i < |run|
    ensures Inv(net, run[i])
  {
    if i == 0 {
      var ageing, stops: nat :| run[0] == Init(net, ageing, stops);
      InitInv(net, ageing, stops);
    } else {
      RunKeepsInv(net, run, i - 1);
      assert StepAt(net, run, i - 1);
      InvStays(net, run[i - 1], run[i]);
    }
  }

  lemma InvStays(net: Net, w: World, w': World)
    requires Inv(net, w) && Next(net, w, w')
    ensures Inv(net, w')
  {
    var a :| Enabled(net, w, a) && w' == Apply(net, w, a);
    InvStep(net, w, a);
  }

  /** Nobody is inside forward. */
  predicate Idle(w: World) {
    forall t :: 0 <= t < |w.life.rx| ==> !w.life.rx[t].Busy? && !w.life.rx[t].Writing?
  }

  /** Safety of every run. Handles: no access to a closed handle, one close and one
      writer at most. VLANs: every write goes to a member of the frame's VLAN other than
      its ingress port, and so does every write still to come. */
  lemma RunsAreSafe(net: Net, run: seq<World>, i: nat)
    requires IsRun(net, run) && i < |run|
    ensures L.Safe(run[i].life)
    ensures forall j :: 0 <= j < |run[i].pipe.log| ==> P.WriteOk(net, run[i].pipe.log[j])
    ensures |run[i].life.rx| == |run[i].pipe.fwd| == |run[i].life.late|
    ensures forall t :: 0 <= t < |run[i].life.rx| && run[i].life.rx[t].Writing? ==>
              var f := run[i].pipe.fwd[t];
              && (f.Writing? || f.Wrote?)
              && P.MemberPort(net, run[i].life.rx[t].out, f.job.a.vid) && run[i].life.rx[t].out != t
    ensures forall t :: 0 <= t < |run[i].life.rx| ==> run[i].life.late[t] <= 1
  {
    var w := run[i];
    RunKeepsInv(net, run, i);
    L.InvIsSafe(w.life);
    forall t | 0 <= t < |w.life.rx| && w.life.rx[t].Writing?
      ensures var f := w.pipe.fwd[t];
              (f.Writing? || f.Wrote?) && P.MemberPort(net, w.life.rx[t].out, f.job.a.vid) && w.life.rx[t].out != t
    {
      assert Matches(w.life.rx[t], w.pipe.fwd[t]);
      assert P.FwdOk(net, t, w.pipe.fwd[t], w.pipe.sys.pcs[t]);
    }
  }

  /** Conservation in every run, whenever nobody is inside forward. */
  lemma RunsConserveFrames(net: Net, run: seq<World>, i: nat)
    requires IsRun(net, run) && i < |run| && Idle(run[i])
    ensures var s := run[i].pipe;
            && P.Shaped(net, s)
            && (forall p :: 0 <= p < |s.fwd| ==>
                  s.stats[p].rxFrames == s.stats[p].forwardDrop + s.stats[p].flooded + s.known[p])
            && A.TxTotal(s.stats, |s.stats|) == A.PlanTotal(s, |s.fwd|)
  {
    RunKeepsInv(net, run, i);
    assert forall t :: 0 <= t < |run[i].pipe.fwd| ==> Matches(run[i].life.rx[t], run[i].pipe.fwd[t]);
    A.Conservation(net, run[i].pipe);
  }

  lemma OneTargetStays(net: Net, w: World, w': World)
    requires P.Inv(net, w.pipe) && A.TwoPlain(net) && A.OneTarget(w.pipe) && Next(net, w, w')
    ensures A.OneTarget(w'.pipe)
  {
    var a :| Enabled(net, w, a) && w' == Apply(net, w, a);
    if a.pipe.Some? {
      A.OneTargetStep(net, w.pipe, a.pipe.value);
    }
  }

  lemma InitHasOneTarget(net: Net, ageing: int)
    ensures A.OneTarget(P.Init(net, ageing))
  {
  }

  lemma {:induction false} RunHasOneTarget(net: Net, run: seq<World>, i: nat)
    requires IsRun(net, run) && i < |run| && A.TwoPlain(net)
    ensures A.OneTarget(run[i].pipe)
  {
    if i == 0 {
      var ageing, stops: nat :| run[0] == Init(net, ageing, stops);
      InitHasOneTarget(net, ageing);
    } else {
      RunHasOneTarget(net, run, i - 1);
      RunKeepsInv(net, run, i - 1);
      assert StepAt(net, run, i - 1);
      OneTargetStays(net, run[i - 1], run[i]);
    }
  }

  /** A switch of two plain ports: what one port sent or failed to send is what the other
      received, less its drops and what split horizon filtered. */
  lemma RunsConserveTwoPorts(net: Net, run: seq<World>, i: nat, p: nat)
    requires IsRun(net, run) && i < |run| && A.TwoPlain(net) && Idle(run[i]) && p < 2
    ensures var s := run[i].pipe;
            && P.Shaped(net, s)
            && s.stats[1 - p].txFrames + s.stats[1 - p].txDrop
               == s.stats[p].rxFrames - s.stats[p].forwardDrop - s.filtered[p]
  {
    RunKeepsInv(net, run, i);
    RunHasOneTarget(net, run, i);
    assert forall t :: 0 <= t < |run[i].pipe.fwd| ==> Matches(run[i].life.rx[t], run[i].pipe.fwd[t]);
    A.TwoPortConservation(net, run[i].pipe, p);
  }

  lemma DeliveringStays(net: Net, w: World, w': World)
    requires P.Inv(net, w.pipe) && D.Delivering(net, w.pipe) && Next(net, w, w')
    ensures D.Delivering(net, w'.pipe)
  {
    var a :| Enabled(net, w, a) && w' == Apply(net, w, a);
    if a.pipe.Some? {
      D.DeliveringStep(net, w.pipe, a.pipe.value);
    }
  }

  lemma NextDelivers(net: Net, run: seq<World>, i: nat)
    requires IsRun(net, run) && i + 1 < |run| && D.Delivering(net, run[i].pipe)
    ensures D.Delivering(net, run[i + 1].pipe)
  {
    RunKeepsInv(net, run, i);
    assert StepAt(net, run, i);
    DeliveringStays(net, run[i], run[i + 1]);
  }

  lemma {:induction false} RunDelivers(net: Net, run: seq<World>, i: nat)
    requires IsRun(net, run) && i < |run|
    ensures D.Delivering(net, run[i].pipe)
  {
    if i == 0 {
      var ageing, stops: nat :| run[0] == Init(net, ageing, stops);
      D.InitDelivering(net, ageing);
    } else {
      RunDelivers(net, run, i - 1);
      NextDelivers(net, run, i - 1);
    }
  }

  /** Delivery in every run. Every frame that was routed is written at most once to a port,
      in port order, and to members of its VLAN other than its ingress port only. Once its
      goroutine is done with it, a flooded frame has been written to every other member, and
      a frame to a known port to that one, if it is not the ingress port. And the writes of
      the log are the writes of these frames. */
  lemma RunsDeliverOnce(net: Net, run: seq<World>, i: nat, t: nat, j: nat)
    requires IsRun(net, run) && i < |run| && t < |run[i].pipe.trips| && j < |run[i].pipe.trips[t]|
    ensures var s := run[i].pipe;
            var trip := s.trips[t][j];
            && t < |s.fwd|
            && StrictlyIncreasing(trip.sent)
            && (forall m :: 0 <= m < |trip.sent| ==> P.MemberPort(net, trip.sent[m], trip.job.a.vid) && trip.sent[m] != t)
            && (j < |s.trips[t]| - 1 || !D.Underway(s.fwd[t]) ==>
                  && (trip.route.Flood? ==>
                        forall q :: 0 <= q < |net.ports| && net.ports[q].Has(trip.job.a.vid) && q != t ==> q in trip.sent)
                  && (trip.route.Known? ==> trip.sent == if trip.route.out == t then [] else [trip.route.out]))
            && D.DstsFrom(s.log, t) == D.AllSent(s.trips[t])
  {
    RunDelivers(net, run, i);
    var s := run[i].pipe;
    D.TripsFollowPlans(net, s, t, j);
    D.PlanExact(net, t, s.trips[t][j]);
  }

  /** As construction ensures: all ports are plain, or none is. */
  predicate Unmixed(net: Net) {
    forall p, q :: 0 <= p < |net.ports| && 0 <= q < |net.ports| ==> (net.ports[p].role.Plain? <==> net.ports[q].role.Plain?)
  }

  /** Egress in every run: what is written to a port decodes with the tag its role wants,
      for the VLAN of the frame, and with the frame's content, if and only if the frame did
      not announce a tag it was too short for. On a plain port this says that tags are
      stripped. */
  lemma RunsTagCorrectly(net: Net, run: seq<World>, i: nat, j: nat)
    requires IsRun(net, run) && i < |run| && j < |run[i].pipe.log|
    requires var w := run[i].pipe.log[j];
             && Unmixed(net)
             && (w.dst < |net.ports| && net.ports[w.dst].role.Trunk? && w.job.a.view.tag.None? ==> w.job.a.vid < 0x1000)
    ensures var w := run[i].pipe.log[j];
            var d := Decode(EmissionFor(net, w.job.a, w.job.frame, w.dst).pkt);
            && w.dst < |net.ports| && d.Some?
            && ((&& d.value.tag == WantedTag(net.ports[w.dst].role.Trunk?, w.job.a.vid)
                 && SameContent(w.job.a.view, d.value, net.minLen))
                <==> !TornTag(net.ports[w.dst].role.Trunk?, w.job.a.view, net.minLen))
  {
    RunKeepsInv(net, run, i);
    var w := run[i].pipe.log[j];
    assert P.WriteOk(net, w);
    EgressCorrect(net.ports[w.dst].role.Trunk?, w.job.frame, w.job.a.view, w.job.a.vid, net.minLen);
  }
}
