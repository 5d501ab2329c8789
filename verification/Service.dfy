/**
 What the running switch can always do: take in a frame on any port and forward it as one
 event of the specification, reap at a tick as one event, start, and hear Stop. The safety
 theorems would hold of a switch that does nothing; these would not.
 */
module Service {
  import opened Wrappers
  import opened Wire
  import opened Config
  import opened Forwarding
  import opened SwitchSteps
  import opened ForwardRanks
  import B = InBytes
  import C = FdbAlone
  import F = FdbSteps
  import FA = ForwardAlone
  import L = Lifecycle
  import P = Pipeline
  import S = Switching

  /** Executing a list of actions, all of them of one goroutine; |fwd| is the ageing loop. */
  predicate LeadsAlone(net: Net, w: World, t: nat, acts: seq<Action>, w': World)
    decreases |acts|
  {
    if acts == [] then w == w'
    else Enabled(net, w, acts[0]) && Mover(w, acts[0]) == t && LeadsAlone(net, Apply(net, w, acts[0]), t, acts[1..], w')
  }

  lemma Longer(net: Net, w: World, t: nat, a: Action, acts: seq<Action>, w': World)
    requires Enabled(net, w, a) && Mover(w, a) == t && LeadsAlone(net, Apply(net, w, a), t, acts, w')
    ensures LeadsAlone(net, w, t, [a] + acts, w')
  {
    assert ([a] + acts)[1..] == acts;
  }

  /** No other goroutine holds a write lock. */
  predicate LocksFree(w: World, t: nat) {
    forall q :: 0 <= q < |w.life.holder| ==> w.life.holder[q].None? || w.life.holder[q] == Some(t)
  }

  /** An action inside forward, with what it does to the life of its goroutine. */
  function Whole(s: P.Pipe, a: P.Action): Action {
    match a
    case Begin(t) =>
      var out := if t < |s.fwd| && s.fwd[t].Sending? && s.fwd[t].todo != [] then s.fwd[t].todo[0] else 0;
      Act(Some(L.Lock(t, out)), Some(a))
    case Release(t) => Act(Some(L.Unlock(t)), Some(a))
    case Leave(t) => Act(Some(L.Return(t)), Some(a))
    case Drop(t) => Act(Some(L.Return(t)), Some(a))
    case _ => Act(None, Some(a))
  }

  /** A goroutine with a port to write to can begin as soon as nobody holds the lock of that
      port, whoever holds the locks of others. */
  lemma BeginIsPossible(net: Net, w: World, t: nat)
    requires Inv(net, w) && P.Enabled(net, w.pipe, P.Begin(t))
    ensures var out := w.pipe.fwd[t].todo[0];
            && out < |w.life.holder|
            && (w.life.holder[out].None? ==> Enabled(net, w, Act(Some(L.Lock(t, out)), Some(P.Begin(t)))))
  {
    var f := w.pipe.fwd[t];
    assert Matches(w.life.rx[t], f) && P.FwdOk(net, t, f, w.pipe.sys.pcs[t]);
    assert P.MemberPort(net, f.todo[0], f.job.a.vid);
  }

  /** A read may time out, and the loop goes on; or fail, and the loop leaves. */
  lemma ReadMayEnd(net: Net, w: World, t: nat)
    requires Inv(net, w) && t < |w.life.rx| && w.life.rx[t].Reading?
    ensures var timeout, fail := Act(Some(L.Timeout(t)), None), Act(Some(L.Fail(t)), None);
            && Enabled(net, w, timeout) && Apply(net, w, timeout) == w.(life := w.life.(rx := w.life.rx[t := L.Head]))
            && Enabled(net, w, fail) && Apply(net, w, fail).life.rx[t].Exiting?
            && Apply(net, w, fail).life.failed[t] == w.life.failed[t] + 1
  {
  }

  /** A write may succeed or fail. */
  lemma WriteMayEnd(net: Net, w: World, t: nat, ok: bool)
    requires Inv(net, w) && t < |w.pipe.fwd| && w.pipe.fwd[t].Writing?
    ensures var a := Act(None, Some(P.End(t, ok)));
            && Enabled(net, w, a)
            && Apply(net, w, a).pipe.fwd == w.pipe.fwd[t := P.Wrote(w.pipe.fwd[t].job, w.pipe.fwd[t].todo, ok)]
  {
  }

  lemma WholeIsPossible(net: Net, w: World, a: P.Action)
    requires Inv(net, w) && P.Enabled(net, w.pipe, a) && P.Actor(w.pipe, a) < |w.pipe.fwd| && !a.Enter?
    requires LocksFree(w, P.Actor(w.pipe, a))
    ensures Enabled(net, w, Whole(w.pipe, a)) && Mover(w, Whole(w.pipe, a)) == P.Actor(w.pipe, a)
  {
    var t := P.Actor(w.pipe, a);
    assert Matches(w.life.rx[t], w.pipe.fwd[t]);
    if a.Begin? {
      BeginIsPossible(net, w, t);
      assert w.life.holder[w.pipe.fwd[t].todo[0]] != Some(t);
    }
  }

  /** Afterwards the locks are as free as before, and outside forward the goroutine is back at
      the head of its loop. */
  lemma WholeKeeps(net: Net, w: World, a: P.Action)
    requires Enabled(net, w, Whole(w.pipe, a)) && P.Actor(w.pipe, a) < |w.pipe.fwd| && !a.Enter?
    requires LocksFree(w, P.Actor(w.pipe, a)) && P.Shaped(net, w.pipe) && |w.life.rx| == |w.pipe.fwd|
    ensures var w' := Apply(net, w, Whole(w.pipe, a));
            var t := P.Actor(w.pipe, a);
            && w'.pipe == P.Apply(net, w.pipe, a)
            && LocksFree(w', t) && w'.life.done == w.life.done
            && t < |w'.life.rx| && t < |w'.pipe.fwd|
            && (!w.pipe.fwd[t].Outside? && w'.pipe.fwd[t].Outside? ==> w'.life.rx[t].Head?)
  {
    if a.Begin? || a.Release? || a.Leave? || a.Drop? {
      LifeKeeps(w.life, Whole(w.pipe, a).life.value, P.Actor(w.pipe, a));
    } else {
      StaysInside(net, w.pipe, a);
    }
    P.OthersStay(net, w.pipe, a);
  }

  lemma LifeKeeps(s: L.Life, a: L.Action, t: nat)
    requires L.Enabled(s, a) && (a.Lock? || a.Unlock? || a.Return?) && a.t == t
    ensures var s' := L.Apply(s, a);
            && |s'.rx| == |s.rx| && |s'.holder| == |s.holder| && s'.done == s.done
            && (forall q :: 0 <= q < |s.holder| ==> s'.holder[q] == s.holder[q] || s'.holder[q].None? || s'.holder[q] == Some(t))
            && (a.Return? ==> s'.rx[t].Head?)
  {
  }

  lemma StaysInside(net: Net, s: P.Pipe, a: P.Action)
    requires P.Enabled(net, s, a) && P.Actor(s, a) < |s.fwd| && !a.Enter? && !a.Leave? && !a.Drop?
    ensures var s' := P.Apply(net, s, a);
            P.Actor(s, a) < |s'.fwd| && !s'.fwd[P.Actor(s, a)].Outside?
  {
  }

  /** One more step inside forward. */
  lemma StepsOn(net: Net, p: FA.Passage, w: World) returns (a: P.Action)
    requires Inv(net, w) && p.t < |w.pipe.fwd| && !w.pipe.fwd[p.t].Outside?
    requires C.Free(w.pipe.sys, p.t) && LocksFree(w, p.t)
    ensures P.Enabled(net, w.pipe, a) && FA.OfPassage(w.pipe, p, a)
    ensures Enabled(net, w, Whole(w.pipe, a)) && Mover(w, Whole(w.pipe, a)) == p.t
    ensures var w' := Apply(net, w, Whole(w.pipe, a));
            && Inv(net, w') && w'.pipe == P.Apply(net, w.pipe, a)
            && C.Free(w'.pipe.sys, p.t) && LocksFree(w', p.t) && w'.life.done == w.life.done
            && p.t < |w'.life.rx| && p.t < |w'.pipe.fwd| == |w.pipe.fwd|
            && (w'.pipe.fwd[p.t].Outside? ==> w'.life.rx[p.t].Head?)
            && FwdRank(w'.pipe.fwd[p.t], w'.pipe.sys.pcs[p.t], |w.pipe.fwd|)
               < FwdRank(w.pipe.fwd[p.t], w.pipe.sys.pcs[p.t], |w.pipe.fwd|)
  {
    a := FA.NextAction(net, p, w.pipe);
    WholeIsPossible(net, w, a);
    WholeKeeps(net, w, a);
    InvStep(net, w, Whole(w.pipe, a));
    FA.RankDrops(net, w.pipe, a);
    FA.StaysFree(net, w.pipe, a);
  }

  /** A goroutine inside forward that is left alone gets through it. */
  lemma {:induction false} GetsThrough(net: Net, p: FA.Passage, w: World)
    returns (acts: seq<Action>, pacts: seq<P.Action>, w': World)
    requires Inv(net, w) && p.t < |w.pipe.fwd| && !w.pipe.fwd[p.t].Outside?
    requires C.Free(w.pipe.sys, p.t) && LocksFree(w, p.t)
    ensures LeadsAlone(net, w, p.t, acts, w') && FA.Alone(net, w.pipe, p, pacts, w'.pipe)
    ensures p.t < |w'.pipe.fwd| && p.t < |w'.life.rx| && w'.pipe.fwd[p.t].Outside? && w'.life.rx[p.t].Head?
    ensures w'.life.done == w.life.done
    decreases FwdRank(w.pipe.fwd[p.t], w.pipe.sys.pcs[p.t], |w.pipe.fwd|)
  {
    var a := StepsOn(net, p, w);
    var next := Apply(net, w, Whole(w.pipe, a));
    var rest, prest := [], [];
    w' := next;
    if !next.pipe.fwd[p.t].Outside? {
      rest, prest, w' := GetsThrough(net, p, next);
    }
    acts, pacts := [Whole(w.pipe, a)] + rest, [a] + prest;
    Longer(net, w, p.t, Whole(w.pipe, a), rest, w');
    assert pacts[1..] == prest;
  }

  /** A frame arrives. */
  lemma Arrives(net: Net, w: World, p: FA.Passage) returns (a: Action)
    requires Inv(net, w) && p.t < |w.life.rx| && w.life.rx[p.t].Reading?
    ensures Enabled(net, w, a) && Mover(w, a) == p.t
    ensures P.Enabled(net, w.pipe, P.Enter(p.t, p.frame))
    ensures var w' := Apply(net, w, a);
            && w'.pipe == P.Apply(net, w.pipe, P.Enter(p.t, p.frame))
            && w'.life.done == w.life.done && w'.life.holder == w.life.holder
  {
    assert Matches(w.life.rx[p.t], w.pipe.fwd[p.t]);
    a := Act(Some(L.Data(p.t)), Some(P.Enter(p.t, p.frame)));
  }

  lemma ReadsOn(net: Net, w: World, p: FA.Passage) returns (acts: seq<Action>, w': World)
    requires Inv(net, w) && p.t < |w.life.rx| && w.life.rx[p.t].Reading?
    requires w.pipe.sys.writer.None? && forall q :: 0 <= q < |w.life.holder| ==> w.life.holder[q].None?
    ensures LeadsAlone(net, w, p.t, acts, w')
    ensures p.t < |w'.life.rx| && w'.life.rx[p.t].Head? && w'.life.done == w.life.done
    ensures F.TableOk(w.pipe.sys) && F.TableOk(w'.pipe.sys) && FA.AsOneEvent(net, w.pipe, p, w'.pipe)
  {
    var a := Arrives(net, w, p);
    var next := Apply(net, w, a);
    InvStep(net, w, a);
    FA.StaysFree(net, w.pipe, P.Enter(p.t, p.frame));
    var rest, pacts;
    rest, pacts, w' := GetsThrough(net, p, next);
    acts := [a] + rest;
    Longer(net, w, p.t, a, rest, w');
    FA.ForwardIsOneEvent(net, w.pipe, p, pacts, w'.pipe);
  }

  lemma ChecksDone(net: Net, w: World, t: nat)
    requires Inv(net, w) && t < |w.life.rx| && w.life.rx[t].Head? && !w.life.done
    ensures var a := Act(Some(L.Check(t)), None);
            && Enabled(net, w, a) && Mover(w, a) == t
            && var w' := Apply(net, w, a);
               w' == w.(life := w.life.(rx := w.life.rx[t := L.Reading]))
  {
  }

  /** A receive loop that is at the head of its loop or waits for a frame, with done open and
      the locks free, can take in any frame on its own and forward it as one event of the
      specification; and is then back at the head of its loop. */
  lemma FrameIsServed(net: Net, w: World, p: FA.Passage) returns (acts: seq<Action>, w': World)
    requires Inv(net, w) && p.t < |w.life.rx| && (w.life.rx[p.t].Head? || w.life.rx[p.t].Reading?) && !w.life.done
    requires w.pipe.sys.writer.None? && forall q :: 0 <= q < |w.life.holder| ==> w.life.holder[q].None?
    ensures LeadsAlone(net, w, p.t, acts, w')
    ensures p.t < |w'.life.rx| && w'.life.rx[p.t].Head? && !w'.life.done
    ensures F.TableOk(w.pipe.sys) && F.TableOk(w'.pipe.sys) && FA.AsOneEvent(net, w.pipe, p, w'.pipe)
  {
    if w.life.rx[p.t].Reading? {
      acts, w' := ReadsOn(net, w, p);
    } else {
      var a := Act(Some(L.Check(p.t)), None);
      ChecksDone(net, w, p.t);
      InvStep(net, w, a);
      var rest;
      rest, w' := ReadsOn(net, Apply(net, w, a), p);
      acts := [a] + rest;
      Longer(net, w, p.t, a, rest, w');
    }
  }

  /** In every run, in terms of the configuration and of bytes: from every state in which done
      is open and the locks are free, every port whose receive loop is at its head or waits
      can take in every frame; what is learned, where it goes and what leaves are as they
      must be, and a frame that is not accepted changes nothing and goes nowhere. */
  lemma EveryPortServes(cfg: seq<PortConfig>, minLen: nat, run: seq<World>, p: FA.Passage)
    returns (acts: seq<Action>, w': World, sent: seq<Emission>)
    requires IsRun(B.NetOf(cfg, minLen), run) && p.t < |cfg|
    requires var w := run[|run| - 1];
             && p.t < |w.life.rx| && (w.life.rx[p.t].Head? || w.life.rx[p.t].Reading?) && !w.life.done
             && w.pipe.sys.writer.None? && forall q :: 0 <= q < |w.life.holder| ==> w.life.holder[q].None?
    ensures var w := run[|run| - 1];
            && LeadsAlone(B.NetOf(cfg, minLen), w, p.t, acts, w')
            && p.t < |w'.life.rx| && w'.life.rx[p.t].Head?
            && F.TableOk(w.pipe.sys) && F.TableOk(w'.pipe.sys)
            && |w.pipe.log| <= |w'.pipe.log|
            && sent == S.Emitted(FA.Since(B.NetOf(cfg, minLen), w'.pipe.log, |w.pipe.log|))
            && var s, s' := FA.StateOf(w.pipe), FA.StateOf(w'.pipe);
            && ((forall vid :: !B.Accepts(cfg[p.t], p.frame, vid)) ==> s' == s && sent == [])
            && forall vid :: B.Accepts(cfg[p.t], p.frame, vid) ==>
                 && s' == State(B.TaughtBy(s.table, p.frame, vid, p.t, p.now), s.ageing)
                 && B.GoesTo(cfg, s'.table, s.ageing, p.frame, vid, p.t, p.now, B.Ports(sent))
                 && forall i :: 0 <= i < |sent| ==> B.LeavesAs(cfg, p.frame, vid, minLen, sent[i])
  {
    var net, w := B.NetOf(cfg, minLen), run[|run| - 1];
    RunKeepsInv(net, run, |run| - 1);
    acts, w' := FrameIsServed(net, w, p);
    sent := S.Emitted(FA.Since(net, w'.pipe.log, |w.pipe.log|));
    B.StepInBytes(cfg, minLen, FA.StateOf(w.pipe), p.t, p.frame, p.now);
  }

  // ---- what is written ----

  /** In every run every write is of a frame that its ingress port accepted, to another port
      configured for the VLAN, and what is written is that frame byte for byte if its tag
      state is wanted there, and otherwise the frame with its tags cut out or a tag
      inserted. */
  lemma RunsWriteBytes(cfg: seq<PortConfig>, minLen: nat, run: seq<World>, i: nat, j: nat)
    requires IsRun(B.NetOf(cfg, minLen), run) && i < |run| && j < |run[i].pipe.log|
    ensures var w := run[i].pipe.log[j];
            && w.src < |cfg| && w.dst < |cfg| && w.dst != w.src
            && B.Accepts(cfg[w.src], w.job.frame, w.job.a.vid) && ConfiguredFor(cfg[w.dst], w.job.a.vid)
            && B.LeavesAs(cfg, w.job.frame, w.job.a.vid, minLen,
                          EmissionFor(B.NetOf(cfg, minLen), w.job.a, w.job.frame, w.dst))
  {
    var net, w := B.NetOf(cfg, minLen), run[i].pipe.log[j];
    RunKeepsInv(net, run, i);
    assert P.WriteOk(net, w);
    B.AdmittedIff(cfg[w.src], w.job.frame, w.job.a.vid);
    SpecMeans(cfg[w.dst]);
    B.Leaves(cfg, minLen, w.job.a, w.job.frame, w.dst);
  }

  // ---- reaping and ageing ----

  lemma Ticks(net: Net, w: World, now: int)
    requires Inv(net, w) && w.life.gc.GcSelect?
    ensures var a := Act(Some(L.Tick), Some(P.GcBegin(now)));
            && Enabled(net, w, a) && Mover(w, a) == |w.pipe.fwd|
            && F.Enabled(w.pipe.sys, F.Enter(|w.pipe.fwd|, F.Reap(now)))
            && Apply(net, w, a) == World(w.life.(gc := L.GcReaping),
                                         w.pipe.(sys := F.Apply(w.pipe.sys, F.Enter(|w.pipe.fwd|, F.Reap(now)))))
  {
  }

  lemma ReapReturns(net: Net, w: World, t: nat)
    requires w.life.gc.GcReaping? && GcIdle(w) && t == |w.life.rx| && L.Enabled(w.life, L.Reaped)
    ensures LeadsAlone(net, w, t, [Act(Some(L.Reaped), None)], w.(life := w.life.(gc := L.GcSelect)))
  {
    var a := Act(Some(L.Reaped), None);
    assert [a][1..] == [];
    assert Apply(net, w, a) == w.(life := w.life.(gc := L.GcSelect));
    assert LeadsAlone(net, Apply(net, w, a), t, [], w.(life := w.life.(gc := L.GcSelect)));
  }

  /** The steps of a reap on the table are steps of the switch, and then the ageing loop is
      back at its select. */
  lemma {:induction false} ReapGoesThrough(net: Net, w: World, steps: seq<F.Action>, s': F.System)
    returns (acts: seq<Action>)
    requires Inv(net, w) && w.life.gc.GcReaping?
    requires C.Leads(w.pipe.sys, steps, s') && C.OnlyMoves(steps, |w.pipe.fwd|)
    requires |w.pipe.fwd| < |s'.pcs| && s'.pcs[|w.pipe.fwd|].Finished()
    ensures LeadsAlone(net, w, |w.pipe.fwd|, acts, World(w.life.(gc := L.GcSelect), w.pipe.(sys := s')))
    decreases |steps|
  {
    var t := |w.pipe.fwd|;
    if steps == [] {
      acts := [Act(Some(L.Reaped), None)];
      ReapReturns(net, w, t);
    } else {
      var a := Act(None, Some(P.GcOnTable(steps[0].pick)));
      assert steps[0] == F.Do(t, steps[0].pick);
      InvStep(net, w, a);
      var rest := ReapGoesThrough(net, Apply(net, w, a), steps[1..], s');
      acts := [a] + rest;
      Longer(net, w, t, a, rest, World(w.life.(gc := L.GcSelect), w.pipe.(sys := s')));
    }
  }

  /** A tick, with the table's lock free, can reap on its own as one event of the specification
      with the tick's own time, after which nothing else has changed. */
  lemma TickReaps(net: Net, w: World, now: int) returns (acts: seq<Action>, w': World)
    requires Inv(net, w) && w.life.gc.GcSelect? && w.pipe.sys.writer.None?
    ensures LeadsAlone(net, w, |w.pipe.fwd|, acts, w')
    ensures w' == w.(pipe := w.pipe.(sys := w'.pipe.sys))
    ensures F.TableOk(w.pipe.sys) && F.TableOk(w'.pipe.sys) && Secure(net.ports, FA.StateOf(w.pipe).table)
    ensures (FA.StateOf(w'.pipe), []) == Step(net, FA.StateOf(w.pipe), Event.Reap(now))
  {
    var gc := |w.pipe.fwd|;
    var tick := Act(Some(L.Tick), Some(P.GcBegin(now)));
    Ticks(net, w, now);
    InvStep(net, w, tick);
    var steps, sys := C.CallEnds(w.pipe.sys, gc, F.Reap(now));
    C.ReapAlone(w.pipe.sys, gc, now, steps, sys);
    C.OnlyMoverMovesOn(F.Apply(w.pipe.sys, F.Enter(gc, F.Reap(now))), gc, steps, sys);
    var rest := ReapGoesThrough(net, Apply(net, w, tick), steps, sys);
    w' := w.(pipe := w.pipe.(sys := sys));
    acts := [tick] + rest;
    Longer(net, w, gc, tick, rest, w');
    FA.TableIsSecure(net, w.pipe);
  }

  /** The ageing time can be set at any moment, which is one event of the specification. */
  lemma AgeingIsSet(net: Net, w: World, d: int)
    requires Inv(net, w)
    ensures var a := Act(None, Some(P.SetAgeing(d)));
            && Enabled(net, w, a)
            && var w' := Apply(net, w, a);
            && w' == w.(pipe := w.pipe.(sys := w'.pipe.sys))
            && F.TableOk(w.pipe.sys) && F.TableOk(w'.pipe.sys) && Secure(net.ports, FA.StateOf(w.pipe).table)
            && (FA.StateOf(w'.pipe), []) == Step(net, FA.StateOf(w.pipe), Event.SetAgeing(d))
  {
    FA.TableIsSecure(net, w.pipe);
    var w' := Apply(net, w, Act(None, Some(P.SetAgeing(d))));
    assert C.Contents(w'.pipe.sys) == C.Contents(w.pipe.sys);
  }

  // ---- start and stop ----

  predicate OnlyStarts(acts: seq<Action>) {
    forall i :: 0 <= i < |acts| ==> acts[i] == Act(Some(L.StartStep), None)
  }

  /** Executing a list of actions. */
  predicate Leads(net: Net, w: World, acts: seq<Action>, w': World)
    decreases |acts|
  {
    if acts == [] then w == w' else Enabled(net, w, acts[0]) && Leads(net, Apply(net, w, acts[0]), acts[1..], w')
  }

  /** What Start has done: goroutines that were not born are at the head of their loops, and
      the others are where they were. */
  predicate Born(s: L.Life, s': L.Life) {
    && |s'.rx| == |s.rx|
    && (forall t :: 0 <= t < |s.rx| ==> s'.rx[t] == if s.rx[t].Unborn? then L.Head else s.rx[t])
    && s'.gc == (if s.gc.GcUnborn? then L.GcSelect else s.gc)
    && s'.done == s.done
  }

  function StartLeft(s: L.Life): nat
    requires L.BornOk(s)
  {
    match s.starter
    case Adding(n) => 2 * (|s.rx| - n) + 2
    case Spawning(n) => 2 * (|s.rx| - n) + 1
    case Started => 0
  }

  lemma StartStepBears(s: L.Life)
    requires L.BornOk(s) && L.Enabled(s, L.StartStep)
    ensures var s' := L.Apply(s, L.StartStep);
            && L.BornOk(s') && StartLeft(s') < StartLeft(s)
            && |s'.rx| == |s.rx| && s'.done == s.done
            && (forall t :: 0 <= t < |s.rx| ==> s'.rx[t] == s.rx[t] || (s.rx[t].Unborn? && s'.rx[t].Head?))
            && (s'.gc == s.gc || (s.gc.GcUnborn? && s'.gc.GcSelect?))
  {
  }

  /** Start can always be run to its end, and then every goroutine is born. */
  lemma {:induction false} StartCompletes(net: Net, w: World) returns (acts: seq<Action>, w': World)
    requires Inv(net, w)
    ensures Leads(net, w, acts, w') && OnlyStarts(acts)
    ensures w'.life.starter.Started? && Born(w.life, w'.life) && w'.pipe == w.pipe
    decreases StartLeft(w.life)
  {
    if w.life.starter.Started? {
      acts, w' := [], w;
    } else {
      var a := Act(Some(L.StartStep), None);
      InvStep(net, w, a);
      StartStepBears(w.life);
      var rest;
      rest, w' := StartCompletes(net, Apply(net, w, a));
      acts := [a] + rest;
      assert acts[1..] == rest;
    }
  }

  /** The first Stop call can always close done, in two steps of its own. */
  lemma StopIsHeard(net: Net, w: World, i: nat) returns (w': World)
    requires Inv(net, w) && i < |w.life.stoppers| && w.life.once.Fresh?
    ensures Leads(net, w, [Act(Some(L.StopStep(i)), None), Act(Some(L.StopStep(i)), None)], w')
    ensures w'.life.done && i < |w'.life.stoppers| && w'.life.stoppers[i].Waiting?
  {
    var a := Act(Some(L.StopStep(i)), None);
    var w1 := Apply(net, w, a);
    w' := Apply(net, w1, a);
    assert [a, a][1..] == [a] && [a][1..] == [];
    assert Leads(net, w', [], w') && Leads(net, w1, [a], w');
  }
}
