/**
 How many steps forward has left at most, if it is not kept waiting.
 */
module ForwardRanks {
  import opened Wire
  import opened Config
  import opened Forwarding
  import opened Pipeline
  import opened FdbRanks
  import F = FdbSteps

  /** Steps left inside forward, on a switch of n ports. */
  function FwdRank(f: Fwd, pc: F.Pc, n: nat): nat {
    match f
    case Outside => 0
    case Entered(_) => 5 * n + 22
    case Deciding(_) => 5 * n + 21
    case Dropping => 1
    case Stamping(_, _) => 5 * n + 20
    case Learning(_) => 5 * n + 12 + CallRank(pc)
    case Routing(_) => 5 * n + 11
    case Looking(_) => 5 * n + 6 + CallRank(pc)
    case Flooding(_) => 5 * n + 5
    case Sending(_, todo) => 5 * |todo| + 4
    case Writing(_, todo) => 5 * |todo| + 3
    case Wrote(_, todo, _) => 5 * |todo| + 2
    case Tallying(_, todo, _) => 5 * |todo| + 1
  }

  /** A set of ports has no more elements than there are ports. */
  lemma {:induction false} IncreasingIsShort(s: seq<nat>, n: nat)
    requires StrictlyIncreasing(s) && forall i :: 0 <= i < |s| ==> s[i] < n
    ensures |s| <= n
  {
    if s != [] {
      IncreasingIsShort(s[..|s| - 1], s[|s| - 1]);
    }
  }

  lemma FloodIsShort(ports: seq<PortSpec>, vid: uint16, t: nat)
    ensures |Targets(ports, Route.Flood, vid, t)| <= |ports|
  {
    var ms := Members(ports, vid);
    MembersExact(ports, |ports|, vid);
    WithoutExact(ms, t);
    assert forall i :: 0 <= i < |Without(ms, t)| ==> Without(ms, t)[i] in Without(ms, t);
    IncreasingIsShort(Without(ms, t), |ports|);
  }

  predicate UpToRouting(a: Action) {
    a.CountRx? || a.Decide? || a.Drop? || a.Stamp? || a.Learned? || a.StartLookup? || a.Looked?
  }

  lemma AdmissionDrops(net: Net, s: Pipe, a: Action)
    requires Enabled(net, s, a) && Actor(s, a) < |s.fwd| && (a.CountRx? || a.Decide? || a.Drop?)
    ensures var s' := Apply(net, s, a);
            var t := Actor(s, a);
            && Shaped(net, s')
            && FwdRank(s'.fwd[t], s'.sys.pcs[t], |s.fwd|) < FwdRank(s.fwd[t], s.sys.pcs[t], |s.fwd|)
  {
  }

  lemma CallingDrops(net: Net, s: Pipe, a: Action)
    requires Enabled(net, s, a) && Actor(s, a) < |s.fwd| && (a.Stamp? || a.Learned? || a.StartLookup? || a.Looked?)
    ensures var s' := Apply(net, s, a);
            var t := Actor(s, a);
            && Shaped(net, s')
            && FwdRank(s'.fwd[t], s'.sys.pcs[t], |s.fwd|) < FwdRank(s.fwd[t], s.sys.pcs[t], |s.fwd|)
  {
  }

  lemma RoutingDrops(net: Net, s: Pipe, a: Action)
    requires Enabled(net, s, a) && Actor(s, a) < |s.fwd| && UpToRouting(a)
    ensures var s' := Apply(net, s, a);
            var t := Actor(s, a);
            && Shaped(net, s')
            && FwdRank(s'.fwd[t], s'.sys.pcs[t], |s.fwd|) < FwdRank(s.fwd[t], s.sys.pcs[t], |s.fwd|)
  {
    if a.CountRx? || a.Decide? || a.Drop? {
      AdmissionDrops(net, s, a);
    } else {
      CallingDrops(net, s, a);
    }
  }

  lemma SendingDrops(net: Net, s: Pipe, a: Action)
    requires Enabled(net, s, a) && Actor(s, a) < |s.fwd| && !UpToRouting(a) && !a.OnTable? && !a.Enter?
    ensures var s' := Apply(net, s, a);
            var t := Actor(s, a);
            && Shaped(net, s')
            && FwdRank(s'.fwd[t], s'.sys.pcs[t], |s.fwd|) < FwdRank(s.fwd[t], s.sys.pcs[t], |s.fwd|)
  {
    if a.Flood? {
      FloodIsShort(net.ports, s.fwd[a.t].job.a.vid, a.t);
    }
  }
}
