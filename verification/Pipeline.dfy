/**
 Forwarding under concurrency: every port's receive goroutine runs forward on its own
 frames, all share the learning table, and the ageing goroutine reaps. Each counter
 update, each step on the table and each write is a step of its own.

 Locks on handles and shutdown are the subject of module Lifecycle; module SwitchSteps
 puts the two together.
 */
module Pipeline {
  import opened Wrappers
  import opened Wire
  import opened Config
  import opened Forwarding
  import opened Stats
  import F = FdbSteps

  /** A frame on its way: the bytes, their classification, and the time it was stamped. */
  datatype Job = Job(frame: Bytes, a: Admitted, now: int)

  /** Where a receive goroutine is inside forward. `todo` lists the ports still to write
      to, the current one first. */
  datatype Fwd =
    | Outside
    | Entered(frame: Bytes)
    | Deciding(frame: Bytes)
    | Dropping
    | Stamping(frame: Bytes, a: Admitted)
    | Learning(job: Job)
    | Routing(job: Job)
    | Looking(job: Job)
    | Flooding(job: Job)
    | Sending(job: Job, todo: seq<nat>)
    | Writing(job: Job, todo: seq<nat>)
    | Wrote(job: Job, todo: seq<nat>, ok: bool)
    | Tallying(job: Job, todo: seq<nat>, ok: bool)

  /** A finished write: of which port's frame, to which port, and how it went. */
  datatype Write = Write(src: nat, job: Job, dst: nat, ok: bool)

  /** A frame that was routed, and the ports it has been written to so far. */
  datatype Trip = Trip(job: Job, route: Route, sent: seq<nat>)

  /** The state. Goroutine t of the table serves port t; the last one is the ageing loop.
      `known`, `filtered` and `floodTargets` are history: for each port, its frames to
      known destinations, those of them filtered by split horizon, and the targets of
      its floods. `trips` is the history of its routed frames, `log` that of writes. */
  datatype Pipe = Pipe(
    sys: F.System, fwd: seq<Fwd>, stats: seq<PortStats>,
    known: seq<nat>, filtered: seq<nat>, floodTargets: seq<nat>,
    trips: seq<seq<Trip>>, log: seq<Write>)

  function Init(net: Net, ageing: int): Pipe {
    var n := |net.ports|;
    Pipe(F.Init(n + 1, ageing), seq(n, i => Outside), seq(n, i => ZERO),
         seq(n, i => 0), seq(n, i => 0), seq(n, i => 0), seq(n, i => []), [])
  }

  datatype Action =
    | Enter(t: nat, frame: Bytes)
    | CountRx(t: nat)
    | Decide(t: nat)
    | Drop(t: nat)
    | Stamp(t: nat, now: int)
    | OnTable(t: nat, pick: Key)
    | Learned(t: nat)
    | StartLookup(t: nat)
    | Looked(t: nat)
    | Flood(t: nat)
    | Begin(t: nat)
    | End(t: nat, ok: bool)
    | Release(t: nat)
    | Tally(t: nat)
    | Leave(t: nat)
    | GcBegin(now: int)
    | GcOnTable(pick: Key)
    | SetAgeing(d: int)

  predicate Shaped(net: Net, s: Pipe) {
    var n := |net.ports|;
    n == |s.fwd| == |s.stats| == |s.known| == |s.filtered| == |s.floodTargets| == |s.trips| && |s.sys.pcs| == n + 1
  }

  predicate Enabled(net: Net, s: Pipe, a: Action) {
    && Shaped(net, s)
    && match a
       case Enter(t, _) => t < |s.fwd| && s.fwd[t].Outside?
       case CountRx(t) => t < |s.fwd| && s.fwd[t].Entered?
       case Decide(t) => t < |s.fwd| && s.fwd[t].Deciding?
       case Drop(t) => t < |s.fwd| && s.fwd[t].Dropping?
       case Stamp(t, _) => t < |s.fwd| && s.fwd[t].Stamping? && s.sys.pcs[t].Finished()
       case OnTable(t, pick) => t < |s.fwd| && (s.fwd[t].Learning? || s.fwd[t].Looking?) && F.Enabled(s.sys, F.Do(t, pick))
       case Learned(t) => t < |s.fwd| && s.fwd[t].Learning? && s.sys.pcs[t].LearnDone?
       case StartLookup(t) => t < |s.fwd| && s.fwd[t].Routing? && s.sys.pcs[t].Finished()
       case Looked(t) => t < |s.fwd| && s.fwd[t].Looking? && s.sys.pcs[t].LookupDone?
       case Flood(t) => t < |s.fwd| && s.fwd[t].Flooding?
       case Begin(t) => t < |s.fwd| && s.fwd[t].Sending? && s.fwd[t].todo != []
       case End(t, _) => t < |s.fwd| && s.fwd[t].Writing?
       case Release(t) => t < |s.fwd| && s.fwd[t].Wrote?
       case Tally(t) => t < |s.fwd| && s.fwd[t].Tallying? && s.fwd[t].todo != [] && s.fwd[t].todo[0] < |s.stats|
       case Leave(t) => t < |s.fwd| && s.fwd[t].Sending? && s.fwd[t].todo == []
       case GcBegin(_) => s.sys.pcs[|s.fwd|].Finished()
       case GcOnTable(pick) => F.Enabled(s.sys, F.Do(|s.fwd|, pick))
       case SetAgeing(_) => true
  }

  function To(s: Pipe, t: nat, f: Fwd): Pipe
    requires t < |s.fwd|
  {
    s.(fwd := s.fwd[t := f])
  }

  function Bump(c: PortStats, pkt: Bytes, ok: bool): PortStats {
    if ok then c.(txFrames := c.txFrames + 1, txBytes := c.txBytes + |pkt|) else c.(txDrop := c.txDrop + 1)
  }

  /** The last of the trips has reached one more port. */
  function Onward(trips: seq<Trip>, dst: nat): seq<Trip> {
    if trips == [] then []
    else
      var last := trips[|trips| - 1];
      trips[..|trips| - 1] + [last.(sent := last.sent + [dst])]
  }

  function Apply(net: Net, s: Pipe, a: Action): Pipe
    requires Enabled(net, s, a)
  {
    match a
    case Enter(t, frame) => To(s, t, Entered(frame))
    case CountRx(t) =>
      var frame := s.fwd[t].frame;
      To(s.(stats := s.stats[t := s.stats[t].(rxFrames := s.stats[t].rxFrames + 1, rxBytes := s.stats[t].rxBytes + |frame|)]),
         t, Deciding(frame))
    case Decide(t) =>
      (match Admit(net.ports[t], s.fwd[t].frame)
       case None => To(s, t, Dropping)
       case Some(a) => To(s, t, Stamping(s.fwd[t].frame, a)))
    case Drop(t) =>
      To(s.(stats := s.stats[t := s.stats[t].(forwardDrop := s.stats[t].forwardDrop + 1)]), t, Outside)
    case Stamp(t, now) =>
      var job := Job(s.fwd[t].frame, s.fwd[t].a, now);
      if IsUnicast(job.a.view.src) then
        var l := F.Lesson(Key(job.a.vid, job.a.view.src), t, now);
        To(s.(sys := F.Apply(s.sys, F.Enter(t, F.Learn(l)))), t, Learning(job))
      else
        To(s, t, Routing(job))
    case OnTable(t, pick) => s.(sys := F.Apply(s.sys, F.Do(t, pick)))
    case Learned(t) => To(s, t, Routing(s.fwd[t].job))
    case StartLookup(t) =>
      var job := s.fwd[t].job;
      if IsUnicast(job.a.view.dst) then
        To(s.(sys := F.Apply(s.sys, F.Enter(t, F.Lookup(Key(job.a.vid, job.a.view.dst), job.now)))), t, Looking(job))
      else
        To(s, t, Flooding(job))
    case Looked(t) =>
      var job := s.fwd[t].job;
      (match s.sys.pcs[t].out
       case None => To(s, t, Flooding(job))
       case Some(out) =>
         var s := s.(known := s.known[t := s.known[t] + 1], trips := s.trips[t := s.trips[t] + [Trip(job, Known(out), [])]]);
         if out == t then To(s.(filtered := s.filtered[t := s.filtered[t] + 1]), t, Sending(job, []))
         else To(s, t, Sending(job, [out])))
    case Flood(t) =>
      var job := s.fwd[t].job;
      var todo := Targets(net.ports, Route.Flood, job.a.vid, t);
      To(s.(stats := s.stats[t := s.stats[t].(flooded := s.stats[t].flooded + 1)],
            floodTargets := s.floodTargets[t := s.floodTargets[t] + |todo|],
            trips := s.trips[t := s.trips[t] + [Trip(job, Route.Flood, [])]]), t, Sending(job, todo))
    case Begin(t) => To(s, t, Writing(s.fwd[t].job, s.fwd[t].todo))
    case End(t, ok) => To(s, t, Wrote(s.fwd[t].job, s.fwd[t].todo, ok))
    case Release(t) => To(s, t, Tallying(s.fwd[t].job, s.fwd[t].todo, s.fwd[t].ok))
    case Tally(t) =>
      var Tallying(job, todo, ok) := s.fwd[t];
      var pkt := EmissionFor(net, job.a, job.frame, todo[0]).pkt;
      To(s.(stats := s.stats[todo[0] := Bump(s.stats[todo[0]], pkt, ok)], log := s.log + [Write(t, job, todo[0], ok)],
            trips := s.trips[t := Onward(s.trips[t], todo[0])]),
         t, Sending(job, todo[1..]))
    case Leave(t) => To(s, t, Outside)
    case GcBegin(now) => s.(sys := F.Apply(s.sys, F.Enter(|s.fwd|, F.Reap(now))))
    case GcOnTable(pick) => s.(sys := F.Apply(s.sys, F.Do(|s.fwd|, pick)))
    case SetAgeing(d) => s.(sys := F.Apply(s.sys, F.SetAgeing(d)))
  }

  /** The step on the learning table that an action takes, if any. */
  function TableAction(s: Pipe, a: Action): Option<F.Action> {
    match a
    case Stamp(t, now) =>
      if t < |s.fwd| && s.fwd[t].Stamping? && IsUnicast(s.fwd[t].a.view.src) then
        Some(F.Enter(t, F.Learn(F.Lesson(Key(s.fwd[t].a.vid, s.fwd[t].a.view.src), t, now))))
      else None
    case OnTable(t, pick) => Some(F.Do(t, pick))
    case StartLookup(t) =>
      if t < |s.fwd| && s.fwd[t].Routing? && IsUnicast(s.fwd[t].job.a.view.dst) then
        Some(F.Enter(t, F.Lookup(Key(s.fwd[t].job.a.vid, s.fwd[t].job.a.view.dst), s.fwd[t].job.now)))
      else None
    case GcBegin(now) => Some(F.Enter(|s.fwd|, F.Reap(now)))
    case GcOnTable(pick) => Some(F.Do(|s.fwd|, pick))
    case SetAgeing(d) => Some(F.SetAgeing(d))
    case _ => None
  }

  /** Counters only grow. */
  predicate NoLess(c: PortStats, d: PortStats) {
    && c.rxFrames <= d.rxFrames && c.rxBytes <= d.rxBytes && c.txFrames <= d.txFrames && c.txBytes <= d.txBytes
    && c.flooded <= d.flooded && c.forwardDrop <= d.forwardDrop && c.txDrop <= d.txDrop
  }

  lemma CountersGrow(net: Net, s: Pipe, a: Action)
    requires Enabled(net, s, a)
    ensures |Apply(net, s, a).stats| == |s.stats|
    ensures forall p :: 0 <= p < |s.stats| ==> NoLess(s.stats[p], Apply(net, s, a).stats[p])
  {
  }

  /** On the table every action is one of the table's own steps, or nothing. */
  lemma TableFollows(net: Net, s: Pipe, a: Action)
    requires Enabled(net, s, a)
    ensures var f := TableAction(s, a);
            if f.None? then Apply(net, s, a).sys == s.sys
            else F.Enabled(s.sys, f.value) && Apply(net, s, a).sys == F.Apply(s.sys, f.value)
  {
  }

  // ---- isolation ----

  /** Ports are taught for VLANs they are members of. */
  predicate TaughtOk(net: Net, s: Pipe) {
    forall l :: l in s.sys.taught ==> MemberPort(net, l.port, l.key.vid)
  }

  predicate MemberPort(net: Net, p: nat, vid: uint16) {
    p < |net.ports| && net.ports[p].Has(vid)
  }

  predicate JobOk(net: Net, t: nat, frame: Bytes, a: Admitted) {
    t < |net.ports| && Admit(net.ports[t], frame) == Some(a)
  }

  predicate TodoOk(net: Net, t: nat, vid: uint16, todo: seq<nat>) {
    forall i :: 0 <= i < |todo| ==> MemberPort(net, todo[i], vid) && todo[i] != t
  }

  predicate FwdOk(net: Net, t: nat, f: Fwd, pc: F.Pc) {
    match f
    case Outside => pc.Finished()
    case Entered(_) => pc.Finished()
    case Deciding(_) => pc.Finished()
    case Dropping => pc.Finished()
    case Stamping(frame, a) => pc.Finished() && JobOk(net, t, frame, a)
    case Learning(job) => (pc.Learning() || pc.LearnDone?) && JobOk(net, t, job.frame, job.a)
    case Routing(job) => pc.Finished() && JobOk(net, t, job.frame, job.a)
    case Looking(job) => pc.LooksUp(Key(job.a.vid, job.a.view.dst)) && JobOk(net, t, job.frame, job.a)
    case Flooding(job) => pc.Finished() && JobOk(net, t, job.frame, job.a)
    case Sending(job, todo) => pc.Finished() && JobOk(net, t, job.frame, job.a) && TodoOk(net, t, job.a.vid, todo)
    case Writing(job, todo) => pc.Finished() && JobOk(net, t, job.frame, job.a) && TodoOk(net, t, job.a.vid, todo) && todo != []
    case Wrote(job, todo, _) => pc.Finished() && JobOk(net, t, job.frame, job.a) && TodoOk(net, t, job.a.vid, todo) && todo != []
    case Tallying(job, todo, _) => pc.Finished() && JobOk(net, t, job.frame, job.a) && TodoOk(net, t, job.a.vid, todo) && todo != []
  }

  /** A write went to a member of the frame's VLAN, not to the port it came from. */
  predicate WriteOk(net: Net, w: Write) {
    JobOk(net, w.src, w.job.frame, w.job.a) && MemberPort(net, w.dst, w.job.a.vid) && w.dst != w.src
  }

  ghost predicate Inv(net: Net, s: Pipe) {
    && Shaped(net, s)
    && F.Inv(s.sys)
    && TaughtOk(net, s)
    && (forall t :: 0 <= t < |s.fwd| ==> FwdOk(net, t, s.fwd[t], s.sys.pcs[t]))
    && (forall i :: 0 <= i < |s.log| ==> WriteOk(net, s.log[i]))
    && GcOk(s.sys.pcs[|s.fwd|])
  }

  /** The ageing loop only reaps. */
  predicate GcOk(pc: F.Pc) {
    pc.Idle? || pc.Reaping() || pc.ReapDone?
  }

  lemma InitInv(net: Net, ageing: int)
    ensures Inv(net, Init(net, ageing))
  {
    F.InitInv(|net.ports| + 1, ageing);
  }

  /** Every entry, reachable or orphaned, names a member of the VLAN of its key, and so
      does every answer of a lookup. */
  lemma EntriesNameMembers(net: Net, s: Pipe)
    requires F.Inv(s.sys) && TaughtOk(net, s)
    ensures forall e :: 0 <= e < |s.sys.heap| ==> MemberPort(net, s.sys.heap[e].port, s.sys.keyOf[e].vid)
    ensures forall t :: 0 <= t < |s.sys.pcs| && s.sys.pcs[t].LookupDone? && s.sys.pcs[t].out.Some? ==>
              MemberPort(net, s.sys.pcs[t].out.value, s.sys.pcs[t].k.vid)
  {
    forall e | 0 <= e < |s.sys.heap|
      ensures MemberPort(net, s.sys.heap[e].port, s.sys.keyOf[e].vid)
    {
      assert F.Lineage(s.sys, e);
    }
    forall t | 0 <= t < |s.sys.pcs| && s.sys.pcs[t].LookupDone? && s.sys.pcs[t].out.Some?
      ensures MemberPort(net, s.sys.pcs[t].out.value, s.sys.pcs[t].k.vid)
    {
      assert F.AnswerOk(s.sys, s.sys.pcs[t]);
    }
  }

  /** The receive goroutine an action belongs to; |fwd| is the ageing loop. */
  function Actor(s: Pipe, a: Action): nat {
    match a
    case Enter(t, _) => t
    case CountRx(t) => t
    case Decide(t) => t
    case Drop(t) => t
    case Stamp(t, _) => t
    case OnTable(t, _) => t
    case Learned(t) => t
    case StartLookup(t) => t
    case Looked(t) => t
    case Flood(t) => t
    case Begin(t) => t
    case End(t, _) => t
    case Release(t) => t
    case Tally(t) => t
    case Leave(t) => t
    case _ => |s.fwd|
  }

  /** A step on the table leaves the other goroutines where they are. */
  lemma TableOthersStay(s: F.System, a: F.Action)
    requires F.Enabled(s, a)
    ensures var s' := F.Apply(s, a);
            |s'.pcs| == |s.pcs| && forall u :: 0 <= u < |s.pcs| && (a.SetAgeing? || u != a.t) ==> s'.pcs[u] == s.pcs[u]
  {
  }

  /** So does every action. */
  lemma OthersStay(net: Net, s: Pipe, a: Action)
    requires Enabled(net, s, a)
    ensures var s' := Apply(net, s, a);
            && Shaped(net, s')
            && (forall u :: 0 <= u < |s.fwd| && u != Actor(s, a) ==> s'.fwd[u] == s.fwd[u])
            && (forall u :: 0 <= u <= |s.fwd| && u != Actor(s, a) ==> s'.sys.pcs[u] == s.sys.pcs[u])
  {
    TableFollows(net, s, a);
    if TableAction(s, a).Some? {
      TableOthersStay(s.sys, TableAction(s, a).value);
    }
  }

  lemma TaughtStep(net: Net, s: Pipe, a: Action)
    requires Inv(net, s) && Enabled(net, s, a)
    ensures TaughtOk(net, Apply(net, s, a))
  {
    TableFollows(net, s, a);
    var f := TableAction(s, a);
    if f.Some? && f.value.Enter? && f.value.call.Learn? {
      assert FwdOk(net, a.t, s.fwd[a.t], s.sys.pcs[a.t]);
      assert Apply(net, s, a).sys.taught == s.sys.taught + {f.value.call.l};
    } else {
      assert Apply(net, s, a).sys.taught == s.sys.taught;
    }
  }

  /** A goroutine in a Learn call stays in it until it is done. */
  lemma LearnGoesOn(s: F.System, t: nat, pick: Key)
    requires F.Enabled(s, F.Do(t, pick)) && s.pcs[t].Learning()
    ensures var pc := F.Apply(s, F.Do(t, pick)).pcs[t];
            pc.Learning() || pc.LearnDone?
  {
  }

  lemma LookupGoesOn(s: F.System, t: nat, pick: Key, k: Key)
    requires F.Enabled(s, F.Do(t, pick)) && s.pcs[t].LooksUp(k)
    ensures F.Apply(s, F.Do(t, pick)).pcs[t].LooksUp(k)
  {
  }

  lemma ReapGoesOn(s: F.System, t: nat, pick: Key)
    requires F.Enabled(s, F.Do(t, pick)) && GcOk(s.pcs[t])
    ensures GcOk(F.Apply(s, F.Do(t, pick)).pcs[t])
  {
  }

  lemma OnTableStep(net: Net, s: Pipe, t: nat, pick: Key)
    requires Inv(net, s) && Enabled(net, s, OnTable(t, pick))
    ensures var s' := Apply(net, s, OnTable(t, pick));
            FwdOk(net, t, s'.fwd[t], s'.sys.pcs[t])
  {
    assert FwdOk(net, t, s.fwd[t], s.sys.pcs[t]);
    if s.fwd[t].Learning? {
      LearnGoesOn(s.sys, t, pick);
    } else {
      LookupGoesOn(s.sys, t, pick, Key(s.fwd[t].job.a.vid, s.fwd[t].job.a.view.dst));
    }
  }

  lemma LookedStep(net: Net, s: Pipe, t: nat)
    requires Inv(net, s) && Enabled(net, s, Looked(t))
    ensures var s' := Apply(net, s, Looked(t));
            FwdOk(net, t, s'.fwd[t], s'.sys.pcs[t])
  {
    assert FwdOk(net, t, s.fwd[t], s.sys.pcs[t]);
    EntriesNameMembers(net, s);
  }

  lemma ActorStep(net: Net, s: Pipe, a: Action)
    requires Inv(net, s) && Enabled(net, s, a) && Actor(s, a) < |s.fwd|
    ensures var t := Actor(s, a);
            var s' := Apply(net, s, a);
            Shaped(net, s') && FwdOk(net, t, s'.fwd[t], s'.sys.pcs[t])
  {
    var t := Actor(s, a);
    assert FwdOk(net, t, s.fwd[t], s.sys.pcs[t]);
    if a.OnTable? {
      OnTableStep(net, s, t, a.pick);
    } else if a.Looked? {
      LookedStep(net, s, t);
    } else {
      PlainStep(net, s, a, t);
    }
  }

  lemma PlainStep(net: Net, s: Pipe, a: Action, t: nat)
    requires Enabled(net, s, a) && t == Actor(s, a) < |s.fwd| && !a.OnTable? && !a.Looked?
    requires FwdOk(net, t, s.fwd[t], s.sys.pcs[t])
    ensures var s' := Apply(net, s, a);
            Shaped(net, s') && FwdOk(net, t, s'.fwd[t], s'.sys.pcs[t])
  {
    if a.Flood? {
      FloodTargets(net, s.fwd[t].job.a.vid, t);
    }
    if a.Flood? || a.Begin? || a.End? || a.Release? || a.Tally? || a.Leave? {
      SendStep(net, s, a, t);
    } else {
      RouteStep(net, s, a, t);
    }
  }

  lemma RouteStep(net: Net, s: Pipe, a: Action, t: nat)
    requires Enabled(net, s, a) && t == Actor(s, a) < |s.fwd| && FwdOk(net, t, s.fwd[t], s.sys.pcs[t])
    requires a.Enter? || a.CountRx? || a.Decide? || a.Drop? || a.Stamp? || a.Learned? || a.StartLookup?
    ensures var s' := Apply(net, s, a);
            Shaped(net, s') && FwdOk(net, t, s'.fwd[t], s'.sys.pcs[t])
  {
  }

  lemma SendStep(net: Net, s: Pipe, a: Action, t: nat)
    requires Enabled(net, s, a) && t == Actor(s, a) < |s.fwd| && FwdOk(net, t, s.fwd[t], s.sys.pcs[t])
    requires a.Begin? || a.End? || a.Release? || a.Tally? || a.Leave?
             || (a.Flood? && TodoOk(net, t, s.fwd[t].job.a.vid, Targets(net.ports, Route.Flood, s.fwd[t].job.a.vid, t)))
    ensures var s' := Apply(net, s, a);
            Shaped(net, s') && FwdOk(net, t, s'.fwd[t], s'.sys.pcs[t])
  {
  }

  lemma FloodTargets(net: Net, vid: uint16, t: nat)
    ensures TodoOk(net, t, vid, Targets(net.ports, Route.Flood, vid, t))
  {
    var ms := Members(net.ports, vid);
    MembersExact(net.ports, |net.ports|, vid);
    WithoutExact(ms, t);
    assert forall i :: 0 <= i < |Without(ms, t)| ==> Without(ms, t)[i] in Without(ms, t);
  }

  lemma LogStep(net: Net, s: Pipe, a: Action)
    requires Inv(net, s) && Enabled(net, s, a)
    ensures var log := Apply(net, s, a).log;
            forall i :: 0 <= i < |log| ==> WriteOk(net, log[i])
  {
    if a.Tally? {
      assert FwdOk(net, a.t, s.fwd[a.t], s.sys.pcs[a.t]);
    }
  }

  lemma GcStep(net: Net, s: Pipe, a: Action)
    requires Inv(net, s) && Enabled(net, s, a)
    ensures |Apply(net, s, a).sys.pcs| == |s.fwd| + 1 && GcOk(Apply(net, s, a).sys.pcs[|s.fwd|])
  {
    OthersStay(net, s, a);
    if a.GcOnTable? {
      ReapGoesOn(s.sys, |s.fwd|, a.pick);
    }
  }

  /** Every step of every interleaving keeps the invariant. */
  lemma InvStep(net: Net, s: Pipe, a: Action)
    requires Inv(net, s) && Enabled(net, s, a)
    ensures Inv(net, Apply(net, s, a))
  {
    var s' := Apply(net, s, a);
    TableFollows(net, s, a);
    if TableAction(s, a).Some? {
      F.InvStep(s.sys, TableAction(s, a).value);
    }
    OthersStay(net, s, a);
    TaughtStep(net, s, a);
    LogStep(net, s, a);
    GcStep(net, s, a);
    forall t | 0 <= t < |s'.fwd|
      ensures FwdOk(net, t, s'.fwd[t], s'.sys.pcs[t])
    {
      if t == Actor(s, a) {
        ActorStep(net, s, a);
      } else {
        assert FwdOk(net, t, s.fwd[t], s.sys.pcs[t]);
      }
    }
  }
}
