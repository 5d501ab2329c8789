/**
 Conservation of frames: what the counters of the ports add up to, in every state of
 every interleaving and in particular whenever nobody is inside forward.
 */
module Accounting {
  import opened Config
  import opened Forwarding
  import opened Pipeline
  import opened Stats

  // ---- counting the log of writes ----

  function From(log: seq<Write>, p: nat): nat {
    if log == [] then 0 else From(log[..|log| - 1], p) + if log[|log| - 1].src == p then 1 else 0
  }

  function Into(log: seq<Write>, q: nat, ok: bool): nat {
    if log == [] then 0
    else Into(log[..|log| - 1], q, ok) + if log[|log| - 1].dst == q && log[|log| - 1].ok == ok then 1 else 0
  }

  lemma Append(log: seq<Write>, w: Write, p: nat, ok: bool)
    ensures From(log + [w], p) == From(log, p) + if w.src == p then 1 else 0
    ensures Into(log + [w], p, ok) == Into(log, p, ok) + if w.dst == p && w.ok == ok then 1 else 0
  {
    assert (log + [w])[..|log|] == log;
  }

  // ---- the invariant ----

  /** The frame a goroutine has counted as received but not yet as dropped, flooded or
      known. */
  function InHand(f: Fwd): nat {
    if f.Deciding? || f.Dropping? || f.Stamping? || f.Learning? || f.Routing? || f.Looking? || f.Flooding? then 1 else 0
  }

  /** The writes a goroutine has still to finish. */
  function Pending(f: Fwd): nat {
    match f
    case Sending(_, todo) => |todo|
    case Writing(_, todo) => |todo|
    case Wrote(_, todo, _) => |todo|
    case Tallying(_, todo, _) => |todo|
    case _ => 0
  }

  predicate RxBalance(s: Pipe, p: nat)
    requires p < |s.fwd| && p < |s.stats| && p < |s.known|
  {
    s.stats[p].rxFrames == s.stats[p].forwardDrop + s.stats[p].flooded + s.known[p] + InHand(s.fwd[p])
  }

  predicate PlanBalance(s: Pipe, p: nat)
    requires p < |s.fwd| && p < |s.known| && p < |s.filtered| && p < |s.floodTargets|
  {
    From(s.log, p) + Pending(s.fwd[p]) + s.filtered[p] == s.floodTargets[p] + s.known[p]
  }

  predicate TxBalance(s: Pipe, p: nat)
    requires p < |s.stats|
  {
    s.stats[p].txFrames == Into(s.log, p, true) && s.stats[p].txDrop == Into(s.log, p, false)
  }

  predicate Balanced(net: Net, s: Pipe) {
    && Shaped(net, s)
    && forall p :: 0 <= p < |s.fwd| ==> RxBalance(s, p) && PlanBalance(s, p) && TxBalance(s, p)
  }

  lemma InitBalanced(net: Net, ageing: int)
    ensures Balanced(net, Init(net, ageing))
  {
  }

  /** Only the owner of a port moves its receive counters and its history. */
  lemma RxStep(net: Net, s: Pipe, a: Action, p: nat)
    requires Shaped(net, s) && Enabled(net, s, a) && p < |s.fwd| && RxBalance(s, p)
    ensures Shaped(net, Apply(net, s, a)) && RxBalance(Apply(net, s, a), p)
  {
    OthersStay(net, s, a);
  }

  lemma PlanOnTally(net: Net, s: Pipe, t: nat, p: nat)
    requires Shaped(net, s) && Enabled(net, s, Tally(t)) && p < |s.fwd| && PlanBalance(s, p)
    ensures Shaped(net, Apply(net, s, Tally(t))) && PlanBalance(Apply(net, s, Tally(t)), p)
  {
    var Tallying(job, todo, ok) := s.fwd[t];
    Append(s.log, Write(t, job, todo[0], ok), p, true);
  }

  lemma PlanStep(net: Net, s: Pipe, a: Action, p: nat)
    requires Shaped(net, s) && Enabled(net, s, a) && p < |s.fwd| && PlanBalance(s, p)
    ensures Shaped(net, Apply(net, s, a)) && PlanBalance(Apply(net, s, a), p)
  {
    if a.Tally? {
      PlanOnTally(net, s, a.t, p);
    } else {
      OthersStay(net, s, a);
    }
  }

  lemma TxOnTally(net: Net, s: Pipe, t: nat, p: nat)
    requires Shaped(net, s) && Enabled(net, s, Tally(t)) && p < |s.stats| && TxBalance(s, p)
    ensures Shaped(net, Apply(net, s, Tally(t))) && TxBalance(Apply(net, s, Tally(t)), p)
  {
    var Tallying(job, todo, ok) := s.fwd[t];
    Append(s.log, Write(t, job, todo[0], ok), p, true);
    Append(s.log, Write(t, job, todo[0], ok), p, false);
  }

  lemma TxStep(net: Net, s: Pipe, a: Action, p: nat)
    requires Shaped(net, s) && Enabled(net, s, a) && p < |s.stats| && TxBalance(s, p)
    ensures Shaped(net, Apply(net, s, a)) && TxBalance(Apply(net, s, a), p)
  {
    if a.Tally? {
      TxOnTally(net, s, a.t, p);
    } else {
      assert Apply(net, s, a).log == s.log;
    }
  }

  lemma BalancedStep(net: Net, s: Pipe, a: Action)
    requires Balanced(net, s) && Enabled(net, s, a)
    ensures Balanced(net, Apply(net, s, a))
  {
    OthersStay(net, s, a);
    forall p | 0 <= p < |s.fwd|
      ensures var s' := Apply(net, s, a); RxBalance(s', p) && PlanBalance(s', p) && TxBalance(s', p)
    {
      RxStep(net, s, a, p);
      PlanStep(net, s, a, p);
      TxStep(net, s, a, p);
    }
  }

  // ---- totals ----

  /** The writes from, and into, the first n ports. */
  function FromAll(log: seq<Write>, n: nat): nat {
    if n == 0 then 0 else FromAll(log, n - 1) + From(log, n - 1)
  }

  function IntoAll(log: seq<Write>, n: nat): nat {
    if n == 0 then 0 else IntoAll(log, n - 1) + Into(log, n - 1, true) + Into(log, n - 1, false)
  }

  lemma {:induction false} AppendAll(log: seq<Write>, w: Write, n: nat)
    ensures FromAll(log + [w], n) == FromAll(log, n) + if w.src < n then 1 else 0
    ensures IntoAll(log + [w], n) == IntoAll(log, n) + if w.dst < n then 1 else 0
  {
    if n > 0 {
      AppendAll(log, w, n - 1);
      Append(log, w, n - 1, true);
      Append(log, w, n - 1, false);
    }
  }

  lemma {:induction false} NothingLogged(n: nat)
    ensures FromAll([], n) == IntoAll([], n) == 0
  {
    if n > 0 {
      NothingLogged(n - 1);
    }
  }

  /** Counted by where they came from or by where they went, it is the same writes. */
  lemma {:induction false} LogTotals(log: seq<Write>, n: nat)
    requires forall i :: 0 <= i < |log| ==> log[i].src < n && log[i].dst < n
    ensures FromAll(log, n) == IntoAll(log, n) == |log|
  {
    if log == [] {
      NothingLogged(n);
    } else {
      var past, w := log[..|log| - 1], log[|log| - 1];
      LogTotals(past, n);
      AppendAll(past, w, n);
      assert past + [w] == log;
    }
  }

  /** Frames sent and writes that failed, over the first n ports. */
  function TxTotal(stats: seq<PortStats>, n: nat): nat
    requires n <= |stats|
  {
    if n == 0 then 0 else TxTotal(stats, n - 1) + stats[n - 1].txFrames + stats[n - 1].txDrop
  }

  /** Flood targets, and known unicasts not filtered, over the first n ports. */
  function PlanTotal(s: Pipe, n: nat): int
    requires n <= |s.floodTargets| && n <= |s.known| && n <= |s.filtered|
  {
    if n == 0 then 0 else PlanTotal(s, n - 1) + s.floodTargets[n - 1] + s.known[n - 1] - s.filtered[n - 1]
  }

  predicate Quiescent(s: Pipe) {
    forall t :: 0 <= t < |s.fwd| ==> s.fwd[t].Outside?
  }

  lemma {:induction false} TotalsUpTo(net: Net, s: Pipe, n: nat)
    requires Balanced(net, s) && Quiescent(s) && n <= |s.fwd|
    ensures TxTotal(s.stats, n) == IntoAll(s.log, n) && PlanTotal(s, n) == FromAll(s.log, n)
  {
    if n > 0 {
      TotalsUpTo(net, s, n - 1);
      assert PlanBalance(s, n - 1) && TxBalance(s, n - 1);
    }
  }

  /** Conservation: when nobody is inside forward, each port's received frames are its
      dropped, flooded and known-unicast frames; and over all ports the frames sent and
      the failed writes are the flood targets and the unicasts not filtered. */
  lemma Conservation(net: Net, s: Pipe)
    requires Inv(net, s) && Balanced(net, s) && Quiescent(s)
    ensures forall p :: 0 <= p < |s.fwd| ==>
              s.stats[p].rxFrames == s.stats[p].forwardDrop + s.stats[p].flooded + s.known[p]
    ensures TxTotal(s.stats, |s.stats|) == PlanTotal(s, |s.fwd|)
  {
    forall p | 0 <= p < |s.fwd|
      ensures s.stats[p].rxFrames == s.stats[p].forwardDrop + s.stats[p].flooded + s.known[p]
    {
      assert RxBalance(s, p);
    }
    forall i | 0 <= i < |s.log|
      ensures s.log[i].src < |s.fwd| && s.log[i].dst < |s.fwd|
    {
      assert WriteOk(net, s.log[i]);
    }
    LogTotals(s.log, |s.fwd|);
    TotalsUpTo(net, s, |s.fwd|);
  }

  // ---- two plain ports ----

  predicate TwoPlain(net: Net) {
    |net.ports| == 2 && net.ports[0].role.Plain? && net.ports[1].role.Plain?
  }

  /** Between two plain ports every flood has exactly one target. */
  predicate OneTarget(s: Pipe) {
    |s.stats| == |s.floodTargets| && forall p :: 0 <= p < |s.stats| ==> s.floodTargets[p] == s.stats[p].flooded
  }

  lemma OneTargetStep(net: Net, s: Pipe, a: Action)
    requires TwoPlain(net) && Inv(net, s) && OneTarget(s) && Enabled(net, s, a)
    ensures OneTarget(Apply(net, s, a))
  {
    if a.Flood? {
      assert FwdOk(net, a.t, s.fwd[a.t], s.sys.pcs[a.t]);
      OneOther(net, s.fwd[a.t].job, a.t);
    }
    FloodsCounted(net, s, a);
  }

  lemma OneOther(net: Net, job: Job, t: nat)
    requires TwoPlain(net) && JobOk(net, t, job.frame, job.a)
    ensures |Targets(net.ports, Route.Flood, job.a.vid, t)| == 1
  {
    assert job.a.vid == 0;
    TwoMembers(net);
    assert Without([0, 1][1..], t) == if t == 1 then [] else [1];
  }

  /** Only a flood moves the number of floods and of their targets. */
  lemma FloodsCounted(net: Net, s: Pipe, a: Action)
    requires Enabled(net, s, a) && OneTarget(s)
    requires a.Flood? ==> |Targets(net.ports, Route.Flood, s.fwd[a.t].job.a.vid, a.t)| == 1
    ensures OneTarget(Apply(net, s, a))
  {
  }

  lemma TwoMembers(net: Net)
    requires TwoPlain(net)
    ensures Members(net.ports, 0) == [0, 1]
  {
    assert MembersUpTo(net.ports, 1, 0) == MembersUpTo(net.ports, 0, 0) + [0];
  }

  lemma {:induction false} CrossOver(net: Net, log: seq<Write>)
    requires |net.ports| == 2 && forall i :: 0 <= i < |log| ==> WriteOk(net, log[i])
    ensures Into(log, 1, true) + Into(log, 1, false) == From(log, 0)
    ensures Into(log, 0, true) + Into(log, 0, false) == From(log, 1)
  {
    if log != [] {
      CrossOver(net, log[..|log| - 1]);
      assert WriteOk(net, log[|log| - 1]);
    }
  }

  /** Two plain ports: what one sent or failed to send is what the other received, less
      its dropped frames and those filtered by split horizon. */
  lemma TwoPortConservation(net: Net, s: Pipe, p: nat)
    requires TwoPlain(net) && Inv(net, s) && Balanced(net, s) && OneTarget(s) && Quiescent(s) && p < 2
    ensures s.stats[1 - p].txFrames + s.stats[1 - p].txDrop
         == s.stats[p].rxFrames - s.stats[p].forwardDrop - s.filtered[p]
  {
    CrossOver(net, s.log);
    assert RxBalance(s, p) && PlanBalance(s, p) && TxBalance(s, 1 - p);
  }
}
