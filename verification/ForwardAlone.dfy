/**
 Forwarding step by step, undisturbed, is forwarding at one go: a receive goroutine that
 moves alone from the arrival of a frame to the end of forward leaves the table, the
 counters and the writes that one event of the sequential specification prescribes. So
 the step machine of module Pipeline and the engine of module Switching are the same
 switch. The other goroutines may be anywhere, as long as they do not move.
 */
module ForwardAlone {
  import opened Wrappers
  import opened Wire
  import opened Forwarding
  import opened Pipeline
  import S = Switching
  import F = FdbSteps
  import C = FdbAlone
  import R = FdbRanks
  import opened ForwardRanks

  /** The table and the ageing time of the switch, as the specification sees them. */
  function StateOf(s: Pipe): State
    requires F.TableOk(s.sys)
  {
    State(C.Contents(s.sys), s.sys.ageing)
  }

  /** A logged write, as the engine's specification sees it. */
  function AttemptOf(net: Net, w: Write): S.Attempt {
    S.Attempt(EmissionFor(net, w.job.a, w.job.frame, w.dst), w.ok)
  }

  /** The writes since the log had length n. */
  function Since(net: Net, log: seq<Write>, n: nat): (sent: seq<S.Attempt>)
    requires n <= |log|
    ensures |sent| == |log| - n
    ensures forall i :: 0 <= i < |sent| ==> sent[i] == AttemptOf(net, log[n + i])
  {
    seq(|log| - n, i requires 0 <= i < |log| - n => AttemptOf(net, log[n + i]))
  }

  /** The frame under way: where it came in, its bytes, and the time it is stamped with. */
  datatype Passage = Passage(t: nat, frame: Bytes, now: int)

  /** The job that the frame becomes, if it is admitted. */
  predicate IsJob(net: Net, p: Passage, job: Job) {
    p.t < |net.ports| && Admit(net.ports[p.t], p.frame) == Some(job.a) && job.frame == p.frame && job.now == p.now
  }

  /** Nothing was learned or written yet. */
  predicate Untouched(s0: Pipe, s: Pipe)
    requires F.TableOk(s0.sys) && F.TableOk(s.sys)
  {
    StateOf(s) == StateOf(s0) && s.log == s0.log
  }

  predicate Received(s0: Pipe, p: Passage, s: Pipe) {
    p.t < |s0.stats| && s.stats == S.CountRx(s0.stats, p.t, p.frame)
  }

  /** The state once the source is learned. */
  function TaughtState(s0: Pipe, p: Passage, job: Job): State
    requires F.TableOk(s0.sys)
  {
    StateOf(s0).(table := Forwarding.Learned(StateOf(s0).table, job.a, p.t, p.now))
  }

  /** The source was learned, and nothing was written yet. */
  predicate Taught(s0: Pipe, p: Passage, job: Job, s: Pipe)
    requires F.TableOk(s0.sys) && F.TableOk(s.sys)
  {
    && StateOf(s) == TaughtState(s0, p, job)
    && s.log == s0.log && Received(s0, p, s)
  }

  function RouteOf(s0: Pipe, p: Passage, job: Job): Route
    requires F.TableOk(s0.sys)
  {
    Choose(TaughtState(s0, p, job).table, s0.sys.ageing, job.a, p.now)
  }

  /** The frame is on its way out, to the ports still to write to. */
  predicate OnTheWay(net: Net, s0: Pipe, p: Passage, job: Job, todo: seq<nat>, s: Pipe)
    requires F.TableOk(s0.sys) && F.TableOk(s.sys)
  {
    var route := RouteOf(s0, p, job);
    && StateOf(s) == TaughtState(s0, p, job)
    && |s0.log| <= |s.log|
    && p.t < |s0.stats|
    && var sent, c := Since(net, s.log, |s0.log|), S.CountRx(s0.stats, p.t, p.frame);
    && s.stats == S.CountWrites(if route.Flood? then S.CountFlood(c, p.t) else c, sent)
    && S.Emitted(sent) + EmissionsFor(net, job.a, p.frame, todo)
       == EmissionsFor(net, job.a, p.frame, Targets(net.ports, route, job.a.vid, p.t))
  }

  /** Forward is over: all is as one event of the specification leaves it. */
  predicate AsOneEvent(net: Net, s0: Pipe, p: Passage, s: Pipe)
    requires F.TableOk(s0.sys) && F.TableOk(s.sys)
  {
    && Secure(net.ports, StateOf(s0).table)
    && p.t < |net.ports| == |s0.stats|
    && |s0.log| <= |s.log|
    && var sent := Since(net, s.log, |s0.log|);
    && (StateOf(s), S.Emitted(sent)) == Step(net, StateOf(s0), Rx(p.t, p.frame, p.now))
    && s.stats == S.CountFrame(s0.stats, net, StateOf(s0), p.t, p.frame, p.now, sent)
  }

  /** How far the frame has come. */
  predicate Reached(net: Net, s0: Pipe, p: Passage, s: Pipe)
    requires F.TableOk(s0.sys) && F.TableOk(s.sys) && p.t < |s.fwd| && p.t < |s.sys.pcs|
  {
    var pc := s.sys.pcs[p.t];
    match s.fwd[p.t]
    case Entered(f) => f == p.frame && Untouched(s0, s) && s.stats == s0.stats
    case Deciding(f) => f == p.frame && Untouched(s0, s) && Received(s0, p, s)
    case Dropping => Untouched(s0, s) && Received(s0, p, s) && p.t < |net.ports| && Admit(net.ports[p.t], p.frame).None?
    case Stamping(f, a) => IsJob(net, p, Job(f, a, p.now)) && Untouched(s0, s) && Received(s0, p, s)
    case Learning(job) =>
      && IsJob(net, p, job) && IsUnicast(job.a.view.src)
      && C.Current(s.sys, pc) && C.Outcome(s.sys, pc) == TaughtState(s0, p, job).table
      && s.sys.ageing == s0.sys.ageing && s.log == s0.log && Received(s0, p, s)
    case Routing(job) => IsJob(net, p, job) && Taught(s0, p, job, s)
    case Looking(job) =>
      && IsJob(net, p, job) && IsUnicast(job.a.view.dst) && Taught(s0, p, job, s)
      && C.Current(s.sys, pc) && pc.LooksUp(Key(job.a.vid, job.a.view.dst))
      && C.Answer(s.sys, pc) == LookupTable(StateOf(s).table, s.sys.ageing, Key(job.a.vid, job.a.view.dst), p.now)
    case Flooding(job) => IsJob(net, p, job) && Taught(s0, p, job, s) && RouteOf(s0, p, job).Flood?
    case Sending(job, todo) => IsJob(net, p, job) && OnTheWay(net, s0, p, job, todo, s)
    case Writing(job, todo) => IsJob(net, p, job) && OnTheWay(net, s0, p, job, todo, s)
    case Wrote(job, todo, _) => IsJob(net, p, job) && OnTheWay(net, s0, p, job, todo, s)
    case Tallying(job, todo, _) => IsJob(net, p, job) && OnTheWay(net, s0, p, job, todo, s)
    case Outside => AsOneEvent(net, s0, p, s)
  }

  /** An action of the goroutine that handles the frame, short of taking on another. */
  predicate OfPassage(s: Pipe, p: Passage, a: Action) {
    Actor(s, a) == p.t < |s.fwd| && !a.Enter? && (a.Stamp? ==> a.now == p.now)
  }

  /** The goroutine is about to act. */
  ghost predicate Ready(net: Net, s0: Pipe, p: Passage, s: Pipe, a: Action) {
    && F.TableOk(s0.sys) && Secure(net.ports, StateOf(s0).table) && |s0.stats| == |net.ports|
    && F.TableOk(s.sys) && Enabled(net, s, a) && OfPassage(s, p, a) && Reached(net, s0, p, s)
  }

  ghost predicate Arrives(net: Net, s0: Pipe, p: Passage, s: Pipe)
    requires F.TableOk(s0.sys)
  {
    F.TableOk(s.sys) && Shaped(net, s) && p.t < |s.fwd| && Reached(net, s0, p, s)
  }

  lemma ReadingSteps(net: Net, s0: Pipe, p: Passage, s: Pipe, a: Action)
    requires Ready(net, s0, p, s, a) && (a.CountRx? || a.Decide?)
    ensures Arrives(net, s0, p, Apply(net, s, a))
  {
  }

  lemma DropStep(net: Net, s0: Pipe, p: Passage, s: Pipe, a: Action)
    requires Ready(net, s0, p, s, a) && a.Drop?
    ensures Arrives(net, s0, p, Apply(net, s, a))
  {
    S.FrameDropped(s0.stats, net, StateOf(s0), p.t, p.frame, p.now);
    assert Since(net, s.log, |s0.log|) == [];
  }

  lemma StampMoves(net: Net, s: Pipe, t: nat, now: int)
    requires Enabled(net, s, Stamp(t, now)) && F.TableOk(s.sys)
    ensures var s' := Apply(net, s, Stamp(t, now));
            var job := Job(s.fwd[t].frame, s.fwd[t].a, now);
            && F.TableOk(s'.sys) && StateOf(s') == StateOf(s) && s'.stats == s.stats && s'.log == s.log && Shaped(net, s')
            && if IsUnicast(job.a.view.src) then
                 && s'.fwd[t] == Learning(job)
                 && s'.sys.pcs[t] == F.LearnRead(F.Lesson(Key(job.a.vid, job.a.view.src), t, now))
               else s'.fwd[t] == Routing(job)
  {
    assert C.Contents(Apply(net, s, Stamp(t, now)).sys) == C.Contents(s.sys);
  }

  lemma LessonBegun(net: Net, s0: Pipe, p: Passage, job: Job, s: Pipe, s': Pipe)
    requires F.TableOk(s0.sys) && F.TableOk(s.sys) && F.TableOk(s'.sys)
    requires IsJob(net, p, job) && Untouched(s0, s) && Received(s0, p, s)
    requires StateOf(s') == StateOf(s) && s'.stats == s.stats && s'.log == s.log
    requires p.t < |s'.fwd| && p.t < |s'.sys.pcs|
    requires if IsUnicast(job.a.view.src) then
               && s'.fwd[p.t] == Learning(job)
               && s'.sys.pcs[p.t] == F.LearnRead(F.Lesson(Key(job.a.vid, job.a.view.src), p.t, p.now))
             else s'.fwd[p.t] == Routing(job)
    ensures Reached(net, s0, p, s')
  {
  }

  lemma StampStep(net: Net, s0: Pipe, p: Passage, s: Pipe, a: Action)
    requires Ready(net, s0, p, s, a) && a.Stamp?
    ensures Arrives(net, s0, p, Apply(net, s, a))
  {
    StampMoves(net, s, p.t, p.now);
    LessonBegun(net, s0, p, Job(p.frame, s.fwd[p.t].a, p.now), s, Apply(net, s, a));
  }

  /** The call on the table keeps its course, and so does the frame. */
  lemma CallGoesOn(net: Net, s0: Pipe, p: Passage, s: Pipe, s': Pipe)
    requires F.TableOk(s0.sys) && F.TableOk(s.sys) && p.t < |s.fwd| && p.t < |s.sys.pcs| && Reached(net, s0, p, s)
    requires s.fwd[p.t].Learning? || s.fwd[p.t].Looking?
    requires s'.fwd == s.fwd && s'.stats == s.stats && s'.log == s.log && C.KeepsCourse(s.sys, p.t, s'.sys)
    requires s.fwd[p.t].Looking? ==>
               && s'.sys.pcs[p.t].LooksUp(Key(s.fwd[p.t].job.a.vid, s.fwd[p.t].job.a.view.dst))
               && s'.sys.table == s.sys.table && s'.sys.heap == s.sys.heap
    ensures Reached(net, s0, p, s')
  {
  }

  lemma TableMoves(net: Net, s: Pipe, t: nat, pick: Key)
    requires F.Inv(s.sys) && Enabled(net, s, OnTable(t, pick)) && C.Current(s.sys, s.sys.pcs[t])
    requires s.fwd[t].Looking? ==> s.sys.pcs[t].LooksUp(Key(s.fwd[t].job.a.vid, s.fwd[t].job.a.view.dst))
    ensures var s' := Apply(net, s, OnTable(t, pick));
            && s'.fwd == s.fwd && s'.stats == s.stats && s'.log == s.log && Shaped(net, s')
            && C.KeepsCourse(s.sys, t, s'.sys)
            && (s.fwd[t].Looking? ==>
                  && s'.sys.pcs[t].LooksUp(Key(s.fwd[t].job.a.vid, s.fwd[t].job.a.view.dst))
                  && s'.sys.table == s.sys.table && s'.sys.heap == s.sys.heap)
  {
    C.StepKeepsCourse(s.sys, t, pick);
    C.OnlyMoverMoves(s.sys, t, pick);
    if s.fwd[t].Looking? {
      LookupGoesOn(s.sys, t, pick, Key(s.fwd[t].job.a.vid, s.fwd[t].job.a.view.dst));
      LookupChangesNothing(s.sys, t, pick);
    }
  }

  lemma TableStep(net: Net, s0: Pipe, p: Passage, s: Pipe, a: Action)
    requires Ready(net, s0, p, s, a) && a.OnTable? && F.Inv(s.sys)
    ensures Arrives(net, s0, p, Apply(net, s, a))
  {
    TableMoves(net, s, p.t, a.pick);
    CallGoesOn(net, s0, p, s, Apply(net, s, a));
  }

  lemma LookupChangesNothing(s: F.System, t: nat, pick: Key)
    requires F.Enabled(s, F.Do(t, pick)) && s.pcs[t].Seeking()
    ensures var s' := F.Apply(s, F.Do(t, pick));
            s'.table == s.table && s'.heap == s.heap
  {
  }

  lemma LearnedMoves(net: Net, s: Pipe, t: nat)
    requires Enabled(net, s, Action.Learned(t))
    ensures var s' := Apply(net, s, Action.Learned(t));
            && s'.sys == s.sys && s'.stats == s.stats && s'.log == s.log && Shaped(net, s')
            && s'.fwd[t] == Routing(s.fwd[t].job)
  {
  }

  lemma LessonTaken(net: Net, s0: Pipe, p: Passage, s: Pipe, s': Pipe)
    requires F.TableOk(s0.sys) && F.TableOk(s.sys) && p.t < |s.fwd| && p.t < |s.sys.pcs| && Reached(net, s0, p, s)
    requires s.fwd[p.t].Learning? && s.sys.pcs[p.t].LearnDone?
    requires s'.sys == s.sys && s'.stats == s.stats && s'.log == s.log
    requires p.t < |s'.fwd| && s'.fwd[p.t] == Routing(s.fwd[p.t].job)
    ensures Reached(net, s0, p, s')
  {
  }

  lemma LearnedStep(net: Net, s0: Pipe, p: Passage, s: Pipe, a: Action)
    requires Ready(net, s0, p, s, a) && a.Learned?
    ensures Arrives(net, s0, p, Apply(net, s, a))
  {
    LearnedMoves(net, s, p.t);
    LessonTaken(net, s0, p, s, Apply(net, s, a));
  }

  lemma LookupMoves(net: Net, s: Pipe, t: nat)
    requires Enabled(net, s, StartLookup(t)) && F.TableOk(s.sys)
    ensures var s' := Apply(net, s, StartLookup(t));
            var job := s.fwd[t].job;
            && F.TableOk(s'.sys) && StateOf(s') == StateOf(s) && s'.stats == s.stats && s'.log == s.log && Shaped(net, s')
            && if IsUnicast(job.a.view.dst) then
                 && s'.fwd[t] == Looking(job)
                 && s'.sys.pcs[t] == F.LookupRead(Key(job.a.vid, job.a.view.dst), job.now)
               else s'.fwd[t] == Flooding(job)
  {
    assert C.Contents(Apply(net, s, StartLookup(t)).sys) == C.Contents(s.sys);
  }

  lemma QuestionAsked(net: Net, s0: Pipe, p: Passage, job: Job, s: Pipe, s': Pipe)
    requires F.TableOk(s0.sys) && F.TableOk(s.sys) && F.TableOk(s'.sys)
    requires IsJob(net, p, job) && Taught(s0, p, job, s)
    requires StateOf(s') == StateOf(s) && s'.stats == s.stats && s'.log == s.log
    requires p.t < |s'.fwd| && p.t < |s'.sys.pcs|
    requires if IsUnicast(job.a.view.dst) then
               && s'.fwd[p.t] == Looking(job)
               && s'.sys.pcs[p.t] == F.LookupRead(Key(job.a.vid, job.a.view.dst), job.now)
             else s'.fwd[p.t] == Flooding(job)
    ensures Reached(net, s0, p, s')
  {
  }

  lemma LookupStep(net: Net, s0: Pipe, p: Passage, s: Pipe, a: Action)
    requires Ready(net, s0, p, s, a) && a.StartLookup?
    ensures Arrives(net, s0, p, Apply(net, s, a))
  {
    LookupMoves(net, s, p.t);
    QuestionAsked(net, s0, p, s.fwd[p.t].job, s, Apply(net, s, a));
  }

  /** Nothing is written yet: the way out starts here. */
  lemma SetsOut(net: Net, s0: Pipe, p: Passage, job: Job, todo: seq<nat>, s: Pipe)
    requires F.TableOk(s0.sys) && F.TableOk(s.sys)
    requires StateOf(s) == TaughtState(s0, p, job) && s.log == s0.log
    requires p.t < |s0.stats| && var c := S.CountRx(s0.stats, p.t, p.frame);
             s.stats == if RouteOf(s0, p, job).Flood? then S.CountFlood(c, p.t) else c
    requires todo == Targets(net.ports, RouteOf(s0, p, job), job.a.vid, p.t)
    ensures OnTheWay(net, s0, p, job, todo, s)
  {
    assert Since(net, s.log, |s0.log|) == [];
    assert S.Emitted([]) == [];
  }

  /** The route is what the lookup answers. */
  lemma RouteIsAnswer(s0: Pipe, p: Passage, job: Job, s: Pipe)
    requires F.TableOk(s0.sys) && F.TableOk(s.sys) && Taught(s0, p, job, s) && IsUnicast(job.a.view.dst)
    ensures RouteOf(s0, p, job)
         == match LookupTable(StateOf(s).table, s.sys.ageing, Key(job.a.vid, job.a.view.dst), p.now)
            case Some(out) => Known(out)
            case None => Route.Flood
  {
  }

  lemma LookedMoves(net: Net, s: Pipe, t: nat)
    requires Enabled(net, s, Looked(t))
    ensures var s' := Apply(net, s, Looked(t));
            && s'.sys == s.sys && s'.stats == s.stats && s'.log == s.log && Shaped(net, s')
            && s'.fwd[t] == match s.sys.pcs[t].out
                            case None => Flooding(s.fwd[t].job)
                            case Some(out) => Sending(s.fwd[t].job, if out == t then [] else [out])
  {
  }

  lemma AnswerTaken(net: Net, s0: Pipe, p: Passage, job: Job, s: Pipe, s': Pipe)
    requires F.TableOk(s0.sys) && F.TableOk(s.sys) && p.t < |s.sys.pcs|
    requires IsJob(net, p, job) && IsUnicast(job.a.view.dst) && Taught(s0, p, job, s)
    requires s.sys.pcs[p.t].LookupDone?
    requires s.sys.pcs[p.t].out == LookupTable(StateOf(s).table, s.sys.ageing, Key(job.a.vid, job.a.view.dst), p.now)
    requires s'.sys == s.sys && s'.stats == s.stats && s'.log == s.log && p.t < |s'.fwd|
    requires s'.fwd[p.t] == match s.sys.pcs[p.t].out
                            case None => Flooding(job)
                            case Some(out) => Sending(job, if out == p.t then [] else [out])
    ensures Reached(net, s0, p, s')
  {
    RouteIsAnswer(s0, p, job, s);
    if s.sys.pcs[p.t].out.Some? {
      SetsOut(net, s0, p, job, s'.fwd[p.t].todo, s');
    }
  }

  lemma LookedStep(net: Net, s0: Pipe, p: Passage, s: Pipe, a: Action)
    requires Ready(net, s0, p, s, a) && a.Looked?
    ensures Arrives(net, s0, p, Apply(net, s, a))
  {
    LookedMoves(net, s, p.t);
    AnswerTaken(net, s0, p, s.fwd[p.t].job, s, Apply(net, s, a));
  }

  lemma FloodMoves(net: Net, s: Pipe, t: nat)
    requires Enabled(net, s, Action.Flood(t))
    ensures var s' := Apply(net, s, Action.Flood(t));
            var job := s.fwd[t].job;
            && s'.sys == s.sys && s'.stats == S.CountFlood(s.stats, t) && s'.log == s.log && Shaped(net, s')
            && s'.fwd[t] == Sending(job, Targets(net.ports, Route.Flood, job.a.vid, t))
  {
  }

  lemma FloodStep(net: Net, s0: Pipe, p: Passage, s: Pipe, a: Action)
    requires Ready(net, s0, p, s, a) && a.Flood?
    ensures Arrives(net, s0, p, Apply(net, s, a))
  {
    var s' := Apply(net, s, a);
    var job := s.fwd[p.t].job;
    FloodMoves(net, s, p.t);
    SetsOut(net, s0, p, job, Targets(net.ports, Route.Flood, job.a.vid, p.t), s');
    WritesOn(net, s0, p, job, Targets(net.ports, Route.Flood, job.a.vid, p.t), s');
  }

  // ---- writing ----

  /** What goes for all points of a write. */
  predicate OnWrite(f: Fwd, job: Job, todo: seq<nat>) {
    (f.Sending? || f.Writing? || f.Wrote? || f.Tallying?) && f.job == job && f.todo == todo
  }

  lemma WasOnTheWay(net: Net, s0: Pipe, p: Passage, job: Job, todo: seq<nat>, s: Pipe)
    requires F.TableOk(s0.sys) && F.TableOk(s.sys) && p.t < |s.fwd| && p.t < |s.sys.pcs|
    requires OnWrite(s.fwd[p.t], job, todo) && Reached(net, s0, p, s)
    ensures IsJob(net, p, job) && OnTheWay(net, s0, p, job, todo, s)
  {
  }

  lemma WritesOn(net: Net, s0: Pipe, p: Passage, job: Job, todo: seq<nat>, s: Pipe)
    requires F.TableOk(s0.sys) && F.TableOk(s.sys) && p.t < |s.fwd| && p.t < |s.sys.pcs|
    requires OnWrite(s.fwd[p.t], job, todo) && IsJob(net, p, job) && OnTheWay(net, s0, p, job, todo, s)
    ensures Reached(net, s0, p, s)
  {
  }

  lemma StillOnTheWay(net: Net, s0: Pipe, p: Passage, job: Job, todo: seq<nat>, s: Pipe, s': Pipe)
    requires F.TableOk(s0.sys) && F.TableOk(s.sys) && OnTheWay(net, s0, p, job, todo, s)
    requires s'.sys == s.sys && s'.stats == s.stats && s'.log == s.log
    ensures OnTheWay(net, s0, p, job, todo, s')
  {
  }

  lemma WriteMoves(net: Net, s: Pipe, a: Action, t: nat)
    requires Enabled(net, s, a) && Actor(s, a) == t < |s.fwd| && (a.Begin? || a.End? || a.Release?)
    ensures var s' := Apply(net, s, a);
            && s'.sys == s.sys && s'.stats == s.stats && s'.log == s.log && Shaped(net, s')
            && OnWrite(s.fwd[t], s.fwd[t].job, s.fwd[t].todo) && OnWrite(s'.fwd[t], s.fwd[t].job, s.fwd[t].todo)
  {
  }

  lemma WritingSteps(net: Net, s0: Pipe, p: Passage, s: Pipe, a: Action)
    requires Ready(net, s0, p, s, a) && (a.Begin? || a.End? || a.Release?)
    ensures Arrives(net, s0, p, Apply(net, s, a))
  {
    var s' := Apply(net, s, a);
    WriteMoves(net, s, a, p.t);
    var job, todo := s.fwd[p.t].job, s.fwd[p.t].todo;
    WasOnTheWay(net, s0, p, job, todo, s);
    StillOnTheWay(net, s0, p, job, todo, s, s');
    WritesOn(net, s0, p, job, todo, s');
  }

  lemma OneMoreSince(net: Net, log: seq<Write>, n: nat, w: Write)
    requires n <= |log|
    ensures Since(net, log + [w], n) == Since(net, log, n) + [AttemptOf(net, w)]
  {
  }

  lemma Shift(es: seq<Emission>, e: Emission, more: seq<Emission>)
    ensures (es + [e]) + more == es + ([e] + more)
  {
  }

  /** One more frame sent, one less to send. */
  lemma OneMoreSent(net: Net, a: Admitted, frame: Bytes, sent: seq<S.Attempt>, at: S.Attempt, todo: seq<nat>)
    requires todo != [] && at.emission == EmissionFor(net, a, frame, todo[0])
    ensures S.Emitted(sent + [at]) + EmissionsFor(net, a, frame, todo[1..])
         == S.Emitted(sent) + EmissionsFor(net, a, frame, todo)
  {
    S.OneMore([], sent, at);
    Shift(S.Emitted(sent), at.emission, EmissionsFor(net, a, frame, todo[1..]));
  }

  /** A write is counted the same way by both. */
  lemma TallyOnTheWay(net: Net, s0: Pipe, p: Passage, job: Job, todo: seq<nat>, ok: bool, s: Pipe, s': Pipe)
    requires F.TableOk(s0.sys) && F.TableOk(s.sys)
    requires job.frame == p.frame && OnTheWay(net, s0, p, job, todo, s)
    requires todo != [] && s'.sys == s.sys
    requires s'.log == s.log + [Write(p.t, job, todo[0], ok)]
    requires s'.stats == S.CountWrite(s.stats, AttemptOf(net, Write(p.t, job, todo[0], ok)))
    ensures OnTheWay(net, s0, p, job, todo[1..], s')
  {
    var at := AttemptOf(net, Write(p.t, job, todo[0], ok));
    var sent := Since(net, s.log, |s0.log|);
    OneMoreSince(net, s.log, |s0.log|, Write(p.t, job, todo[0], ok));
    OneMoreSent(net, job.a, p.frame, sent, at, todo);
    var c := S.CountRx(s0.stats, p.t, p.frame);
    S.OneMore(if RouteOf(s0, p, job).Flood? then S.CountFlood(c, p.t) else c, sent, at);
  }

  lemma TallyMoves(net: Net, s: Pipe, t: nat)
    requires Enabled(net, s, Tally(t))
    ensures var s' := Apply(net, s, Tally(t));
            var Tallying(job, todo, ok) := s.fwd[t];
            && s'.sys == s.sys && Shaped(net, s') && s'.fwd[t] == Sending(job, todo[1..])
            && s'.log == s.log + [Write(t, job, todo[0], ok)]
            && s'.stats == S.CountWrite(s.stats, AttemptOf(net, Write(t, job, todo[0], ok)))
  {
  }

  lemma TallyStep(net: Net, s0: Pipe, p: Passage, s: Pipe, a: Action)
    requires Ready(net, s0, p, s, a) && a.Tally?
    ensures Arrives(net, s0, p, Apply(net, s, a))
  {
    var s' := Apply(net, s, a);
    var Tallying(job, todo, ok) := s.fwd[p.t];
    TallyMoves(net, s, p.t);
    WasOnTheWay(net, s0, p, job, todo, s);
    TallyOnTheWay(net, s0, p, job, todo, ok, s, s');
    WritesOn(net, s0, p, job, todo[1..], s');
  }

  lemma LeaveMoves(net: Net, s: Pipe, t: nat)
    requires Enabled(net, s, Leave(t))
    ensures var s' := Apply(net, s, Leave(t));
            && s'.sys == s.sys && s'.stats == s.stats && s'.log == s.log && Shaped(net, s')
            && s.fwd[t] == Sending(s.fwd[t].job, []) && s'.fwd[t] == Outside
  {
  }

  lemma AllWritten(net: Net, s0: Pipe, p: Passage, job: Job, s: Pipe)
    requires F.TableOk(s0.sys) && F.TableOk(s.sys) && Secure(net.ports, StateOf(s0).table)
    requires IsJob(net, p, job) && OnTheWay(net, s0, p, job, [], s) && |s0.stats| == |net.ports|
    ensures AsOneEvent(net, s0, p, s)
  {
    var sent := Since(net, s.log, |s0.log|);
    S.FrameAdmitted(s0.stats, net, StateOf(s0), p.t, job.a, p.frame, p.now, sent);
    assert S.Emitted(sent) + [] == S.Emitted(sent);
  }

  lemma LeaveStep(net: Net, s0: Pipe, p: Passage, s: Pipe, a: Action)
    requires Ready(net, s0, p, s, a) && a.Leave?
    ensures Arrives(net, s0, p, Apply(net, s, a))
  {
    var s', job := Apply(net, s, a), s.fwd[p.t].job;
    LeaveMoves(net, s, p.t);
    WasOnTheWay(net, s0, p, job, [], s);
    StillOnTheWay(net, s0, p, job, [], s, s');
    AllWritten(net, s0, p, job, s');
  }

  lemma SendStep(net: Net, s0: Pipe, p: Passage, s: Pipe, a: Action)
    requires Ready(net, s0, p, s, a) && (a.Begin? || a.End? || a.Release? || a.Tally? || a.Leave?)
    ensures Arrives(net, s0, p, Apply(net, s, a))
  {
    if a.Tally? {
      TallyStep(net, s0, p, s, a);
    } else if a.Leave? {
      LeaveStep(net, s0, p, s, a);
    } else {
      WritingSteps(net, s0, p, s, a);
    }
  }

  lemma PassageStep(net: Net, s0: Pipe, p: Passage, s: Pipe, a: Action)
    requires Ready(net, s0, p, s, a) && F.Inv(s.sys)
    ensures Arrives(net, s0, p, Apply(net, s, a))
  {
    if a.CountRx? || a.Decide? {
      ReadingSteps(net, s0, p, s, a);
    } else if a.Drop? {
      DropStep(net, s0, p, s, a);
    } else if a.Stamp? {
      StampStep(net, s0, p, s, a);
    } else if a.OnTable? {
      TableStep(net, s0, p, s, a);
    } else if a.Learned? {
      LearnedStep(net, s0, p, s, a);
    } else if a.StartLookup? {
      LookupStep(net, s0, p, s, a);
    } else if a.Looked? {
      LookedStep(net, s0, p, s, a);
    } else if a.Flood? {
      FloodStep(net, s0, p, s, a);
    } else {
      SendStep(net, s0, p, s, a);
    }
  }

  /** Executing a list of actions, all of them of the frame's goroutine. */
  predicate Alone(net: Net, s: Pipe, p: Passage, acts: seq<Action>, s': Pipe)
    decreases |acts|
  {
    if acts == [] then s == s'
    else Enabled(net, s, acts[0]) && OfPassage(s, p, acts[0]) && Alone(net, Apply(net, s, acts[0]), p, acts[1..], s')
  }

  lemma TableIsSecure(net: Net, s: Pipe)
    requires F.Inv(s.sys) && TaughtOk(net, s)
    ensures Secure(net.ports, C.Contents(s.sys))
  {
    EntriesNameMembers(net, s);
  }

  lemma {:induction false} AloneReaches(net: Net, s0: Pipe, p: Passage, s: Pipe, acts: seq<Action>, s': Pipe)
    requires Inv(net, s0) && Inv(net, s) && p.t < |s.fwd| && Reached(net, s0, p, s) && Alone(net, s, p, acts, s')
    ensures F.TableOk(s'.sys) && Shaped(net, s') && Reached(net, s0, p, s')
    decreases |acts|
  {
    if acts != [] {
      TableIsSecure(net, s0);
      PassageStep(net, s0, p, s, acts[0]);
      InvStep(net, s, acts[0]);
      AloneReaches(net, s0, p, Apply(net, s, acts[0]), acts[1..], s');
    }
  }

  /** Forward, step by step and undisturbed, is one event of the specification: the same
      table, the same writes in the same order, the same counters. */
  lemma ForwardIsOneEvent(net: Net, s0: Pipe, p: Passage, acts: seq<Action>, s': Pipe)
    requires Inv(net, s0) && Enabled(net, s0, Enter(p.t, p.frame))
    requires Alone(net, Apply(net, s0, Enter(p.t, p.frame)), p, acts, s')
    requires p.t < |s'.fwd| && s'.fwd[p.t].Outside?
    ensures F.TableOk(s0.sys) && F.TableOk(s'.sys) && AsOneEvent(net, s0, p, s')
  {
    InvStep(net, s0, Enter(p.t, p.frame));
    AloneReaches(net, s0, p, Apply(net, s0, Enter(p.t, p.frame)), acts, s');
  }

  // ---- such runs exist ----

  /** A goroutine inside forward can move, if no other holds the table's write lock. */
  lemma NextAction(net: Net, p: Passage, s: Pipe) returns (a: Action)
    requires Inv(net, s) && p.t < |s.fwd| && !s.fwd[p.t].Outside? && C.Free(s.sys, p.t)
    ensures Enabled(net, s, a) && OfPassage(s, p, a)
  {
    var t, pc := p.t, s.sys.pcs[p.t];
    assert FwdOk(net, t, s.fwd[t], pc);
    match s.fwd[t] {
      case Entered(_) => a := CountRx(t);
      case Deciding(_) => a := Decide(t);
      case Dropping => a := Drop(t);
      case Stamping(_, _) => a := Stamp(t, p.now);
      case Learning(_) => a := NextOnTable(net, p, s);
      case Routing(_) => a := StartLookup(t);
      case Looking(_) => a := NextOnTable(net, p, s);
      case Flooding(_) => a := Action.Flood(t);
      case Sending(_, todo) => a := if todo == [] then Leave(t) else Begin(t);
      case Writing(_, _) => a := End(t, true);
      case Wrote(_, _, _) => a := Release(t);
      case Tallying(job, todo, _) =>
        assert MemberPort(net, todo[0], job.a.vid);
        a := Tally(t);
    }
  }

  lemma NextOnTable(net: Net, p: Passage, s: Pipe) returns (a: Action)
    requires Inv(net, s) && p.t < |s.fwd| && (s.fwd[p.t].Learning? || s.fwd[p.t].Looking?) && C.Free(s.sys, p.t)
    ensures Enabled(net, s, a) && OfPassage(s, p, a)
  {
    var pc := s.sys.pcs[p.t];
    assert FwdOk(net, p.t, s.fwd[p.t], pc);
    if pc.Finished() {
      a := if pc.LearnDone? then Action.Learned(p.t) else Looked(p.t);
    } else {
      var pick := C.CanMove(s.sys, p.t);
      a := OnTable(p.t, pick);
    }
  }

  lemma RankDrops(net: Net, s: Pipe, a: Action)
    requires Inv(net, s) && Enabled(net, s, a) && Actor(s, a) < |s.fwd| && !a.Enter?
    ensures var s' := Apply(net, s, a);
            var t := Actor(s, a);
            && Shaped(net, s')
            && FwdRank(s'.fwd[t], s'.sys.pcs[t], |s.fwd|) < FwdRank(s.fwd[t], s.sys.pcs[t], |s.fwd|)
  {
    if a.OnTable? {
      OthersStay(net, s, a);
      assert FwdOk(net, a.t, s.fwd[a.t], s.sys.pcs[a.t]);
      R.CallDecreases(s.sys, a.t, a.pick);
    } else if UpToRouting(a) {
      RoutingDrops(net, s, a);
    } else {
      SendingDrops(net, s, a);
    }
  }

  lemma StaysFree(net: Net, s: Pipe, a: Action)
    requires Enabled(net, s, a) && Actor(s, a) < |s.fwd| && C.Free(s.sys, Actor(s, a))
    ensures C.Free(Apply(net, s, a).sys, Actor(s, a))
  {
    TableFollows(net, s, a);
    if a.OnTable? {
      C.OnlyMoverMoves(s.sys, a.t, a.pick);
    }
  }

  lemma {:induction false} PassageEnds(net: Net, p: Passage, s: Pipe) returns (acts: seq<Action>, s': Pipe)
    requires Inv(net, s) && p.t < |s.fwd| && C.Free(s.sys, p.t)
    ensures Alone(net, s, p, acts, s') && p.t < |s'.fwd| && s'.fwd[p.t].Outside?
    decreases FwdRank(s.fwd[p.t], s.sys.pcs[p.t], |s.fwd|)
  {
    if s.fwd[p.t].Outside? {
      acts, s' := [], s;
    } else {
      var a := NextAction(net, p, s);
      InvStep(net, s, a);
      RankDrops(net, s, a);
      StaysFree(net, s, a);
      var rest;
      rest, s' := PassageEnds(net, p, Apply(net, s, a));
      acts := [a] + rest;
      assert acts[1..] == rest;
    }
  }

  /** Every frame can be forwarded undisturbed, whatever the others are in the middle of, if
      nobody holds the table's write lock: and then all is as after one event. */
  lemma ForwardEnds(net: Net, s0: Pipe, p: Passage) returns (acts: seq<Action>, s': Pipe)
    requires Inv(net, s0) && Enabled(net, s0, Enter(p.t, p.frame)) && s0.sys.writer.None?
    ensures Alone(net, Apply(net, s0, Enter(p.t, p.frame)), p, acts, s')
    ensures p.t < |s'.fwd| && s'.fwd[p.t].Outside?
    ensures F.TableOk(s0.sys) && F.TableOk(s'.sys) && AsOneEvent(net, s0, p, s')
  {
    InvStep(net, s0, Enter(p.t, p.frame));
    StaysFree(net, s0, Enter(p.t, p.frame));
    acts, s' := PassageEnds(net, p, Apply(net, s0, Enter(p.t, p.frame)));
    ForwardIsOneEvent(net, s0, p, acts, s');
  }
}
