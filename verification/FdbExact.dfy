/**
 Two things one might expect of the learning table, and exactly when they hold: that a
 key just learned is in the map, and that an entry pairs the port and the time of one
 and the same Learn call.
 */
module FdbExact {
  import opened Forwarding
  import opened FdbSteps
  import opened FdbAlone
  import G = FdbGuarantees

  // ---- reachable states ----

  /** Reachable from the empty table by n goroutines. */
  ghost predicate Reachable(n: nat, ageing: int, s: System) {
    exists run :: G.IsRun(n, ageing, run) && run[|run| - 1] == s
  }

  /** The ageing time is left alone. */
  predicate Steady(run: seq<System>, ageing: int) {
    forall i :: 0 <= i < |run| ==> run[i].ageing == ageing
  }

  ghost predicate SteadilyReachable(n: nat, ageing: int, s: System) {
    exists run :: G.IsRun(n, ageing, run) && run[|run| - 1] == s && Steady(run, ageing)
  }

  lemma ReachableInv(n: nat, ageing: int, s: System)
    requires Reachable(n, ageing, s)
    ensures Inv(s)
  {
    var run :| G.IsRun(n, ageing, run) && run[|run| - 1] == s;
    G.RunKeepsInv(n, ageing, run, |run| - 1);
  }

  lemma SteadyIsReachable(n: nat, ageing: int, s: System)
    requires SteadilyReachable(n, ageing, s)
    ensures Reachable(n, ageing, s) && s.ageing == ageing
  {
  }

  lemma StartReachable(n: nat, ageing: int)
    ensures SteadilyReachable(n, ageing, Init(n, ageing))
  {
    var run := [Init(n, ageing)];
    assert G.IsRun(n, ageing, run) && run[|run| - 1] == Init(n, ageing) && Steady(run, ageing);
  }

  lemma OneStep(n: nat, ageing: int, s: System, a: Action)
    requires SteadilyReachable(n, ageing, s) && Enabled(s, a) && !a.SetAgeing?
    ensures SteadilyReachable(n, ageing, Apply(s, a))
  {
    var run :| G.IsRun(n, ageing, run) && run[|run| - 1] == s && Steady(run, ageing);
    NextState(n, ageing, run, s, a);
  }

  lemma AgeingStays(s: System, a: Action)
    requires Enabled(s, a) && !a.SetAgeing?
    ensures Apply(s, a).ageing == s.ageing
  {
  }

  lemma NextState(n: nat, ageing: int, run: seq<System>, s: System, a: Action)
    requires G.IsRun(n, ageing, run) && run[|run| - 1] == s && Steady(run, ageing) && Enabled(s, a) && !a.SetAgeing?
    ensures SteadilyReachable(n, ageing, Apply(s, a))
  {
    var s' := Apply(s, a);
    var longer := run + [s'];
    AgeingStays(s, a);
    assert Next(s, s');
    forall i | 0 <= i < |longer| - 1
      ensures G.StepAt(longer, i)
    {
      assert i < |run| - 1 ==> G.StepAt(run, i);
    }
    assert G.IsRun(n, ageing, longer) && longer[|longer| - 1] == s' && Steady(longer, ageing);
  }

  lemma {:induction false} MoreSteps(n: nat, ageing: int, s: System, t: nat, acts: seq<Action>, s': System)
    requires SteadilyReachable(n, ageing, s) && Leads(s, acts, s') && OnlyMoves(acts, t)
    ensures SteadilyReachable(n, ageing, s')
    decreases |acts|
  {
    if acts != [] {
      OneStep(n, ageing, s, acts[0]);
      MoreSteps(n, ageing, Apply(s, acts[0]), t, acts[1..], s');
    }
  }

  /** A whole call of one goroutine, undisturbed. */
  lemma WholeCall(n: nat, ageing: int, s: System, t: nat, call: Call) returns (acts: seq<Action>, s': System)
    requires SteadilyReachable(n, ageing, s) && Enabled(s, Enter(t, call)) && s.writer.None?
    ensures SteadilyReachable(n, ageing, s') && s'.writer.None?
    ensures RunsAlone(s, t, call, acts, s')
    ensures |s'.pcs| == |s.pcs| && forall u :: 0 <= u < |s.pcs| && u != t ==> s'.pcs[u] == s.pcs[u]
    ensures s'.taught == (if call.Learn? then s.taught + {call.l} else s.taught) && s'.ageing == s.ageing
  {
    SteadyIsReachable(n, ageing, s);
    ReachableInv(n, ageing, s);
    acts, s' := CallEnds(s, t, call);
    OneStep(n, ageing, s, Enter(t, call));
    MoreSteps(n, ageing, Apply(s, Enter(t, call)), t, acts, s');
    OnlyMoverMovesOn(Apply(s, Enter(t, call)), t, acts, s');
  }

  // ---- a goroutine about to use what it has read ----

  /** Goroutine 0 has taught k from port p at time 1 and is about to refresh its entry. */
  ghost predicate Poised(n: nat, ageing: int, k: Key, p: nat, s: System) {
    && SteadilyReachable(n, ageing, s) && s.writer.None? && s.ageing == ageing
    && 1 < n == |s.pcs| && (forall t :: 0 < t < n ==> s.pcs[t].Finished())
    && s.pcs[0].LearnRefresh? && s.pcs[0].l == Lesson(k, p, 5)
    && TableOk(s) && Contents(s) == map[k := Rec(p, 1)] && k in s.table && s.pcs[0].e == s.table[k]
    && s.taught == {Lesson(k, p, 1), Lesson(k, p, 5)}
  }

  lemma FirstLesson(n: nat, ageing: int, k: Key, p: nat) returns (s: System)
    requires 0 < n
    ensures SteadilyReachable(n, ageing, s) && s.writer.None? && s.ageing == ageing
    ensures |s.pcs| == n && s.pcs[0].Finished() && forall t :: 0 < t < n ==> s.pcs[t].Idle?
    ensures TableOk(s) && Contents(s) == map[k := Rec(p, 1)] && s.taught == {Lesson(k, p, 1)}
  {
    var s0, l := Init(n, ageing), Lesson(k, p, 1);
    StartReachable(n, ageing);
    var acts;
    acts, s := WholeCall(n, ageing, s0, 0, Learn(l));
    LearnAlone(s0, 0, l, acts, s);
    assert Contents(s0) == map[];
  }

  /** Goroutine 0 enters Learn, reads the map, and compares the ports. */
  lemma ReadsAndCompares(n: nat, ageing: int, s: System, l: Lesson) returns (s': System)
    requires SteadilyReachable(n, ageing, s) && s.writer.None? && TableOk(s) && l.key in s.table
    requires 0 < |s.pcs| && s.pcs[0].Finished()
    ensures SteadilyReachable(n, ageing, s')
    ensures var e, mark := s.table[l.key], |s.deleted|;
            s' == s.(pcs := s.pcs[0 := if s.heap[e].port == l.port then LearnRefresh(l, e, mark) else LearnLock(l, mark)],
                     taught := s.taught + {l})
  {
    OneStep(n, ageing, s, Enter(0, Learn(l)));
    var s1 := Apply(s, Enter(0, Learn(l)));
    OneStep(n, ageing, s1, Do(0, l.key));
    var s2 := Apply(s1, Do(0, l.key));
    assert s2 == s1.(pcs := s.pcs[0 := LearnCompare(l, s.table[l.key], |s.deleted|)]);
    OneStep(n, ageing, s2, Do(0, l.key));
    s' := Apply(s2, Do(0, l.key));
  }

  lemma GetPoised(n: nat, ageing: int, k: Key, p: nat) returns (s: System)
    requires 1 < n
    ensures Poised(n, ageing, k, p, s)
  {
    var s1 := FirstLesson(n, ageing, k, p);
    assert k in Contents(s1) && Contents(s1)[k] == Rec(p, 1);
    s := ReadsAndCompares(n, ageing, s1, Lesson(k, p, 5));
    assert Contents(s) == Contents(s1);
  }

  // ---- alone at the table ----

  predicate PairedAt(s: System, e: Ref)
    requires |s.keyOf| == |s.heap| && e < |s.heap|
  {
    Lesson(s.keyOf[e], s.heap[e].port, s.heap[e].seen) in s.taught
  }

  /** What one goroutine alone keeps: what it has read is still so, and entries are paired
      but for the one it is writing. */
  predicate Solo(s: System) {
    && |s.pcs| <= 1 && TableOk(s)
    && (|s.pcs| == 1 ==> Current(s, s.pcs[0]))
    && forall e :: 0 <= e < |s.heap| ==>
         PairedAt(s, e) || (|s.pcs| == 1 && s.pcs[0].LearnWriteSeen? && s.pcs[0].e == e)
  }

  lemma SoloPaired(s: System, pick: Key, e: Ref)
    requires Inv(s) && Solo(s) && Enabled(s, Do(0, pick)) && e < |Apply(s, Do(0, pick)).heap|
    ensures var s' := Apply(s, Do(0, pick));
            && TableOk(s') && |s'.pcs| == 1
            && (PairedAt(s', e) || (s'.pcs[0].LearnWriteSeen? && s'.pcs[0].e == e))
  {
    TableStep(s, Do(0, pick));
    assert PcOk(s, s.pcs[0]);
    if s.pcs[0].Learning() {
      var l := s.pcs[0].l;
      assert l == Lesson(l.key, l.port, l.now);
    }
    assert e < |s.heap| ==> PairedAt(s, e) || (s.pcs[0].LearnWriteSeen? && s.pcs[0].e == e);
  }

  lemma SoloStep(s: System, a: Action)
    requires Inv(s) && Solo(s) && Enabled(s, a)
    ensures Solo(Apply(s, a))
  {
    if a.Do? {
      var s' := Apply(s, a);
      TableStep(s, a);
      StepKeepsCourse(s, 0, a.pick);
      OnlyMoverMoves(s, 0, a.pick);
      forall e | 0 <= e < |s'.heap|
        ensures PairedAt(s', e) || (s'.pcs[0].LearnWriteSeen? && s'.pcs[0].e == e)
      {
        SoloPaired(s, a.pick, e);
      }
    } else {
      assert forall e :: 0 <= e < |s.heap| ==> PairedAt(s, e) ==> PairedAt(Apply(s, a), e);
    }
  }

  lemma SoloNext(s: System, s': System)
    requires Inv(s) && Solo(s) && Next(s, s')
    ensures Solo(s')
  {
    var a :| Enabled(s, a) && s' == Apply(s, a);
    SoloStep(s, a);
  }

  lemma {:induction false} SoloRun(n: nat, ageing: int, run: seq<System>, i: nat)
    requires n < 2 && G.IsRun(n, ageing, run) && i < |run|
    ensures Solo(run[i])
  {
    if i > 0 {
      SoloRun(n, ageing, run, i - 1);
      G.RunKeepsInv(n, ageing, run, i - 1);
      assert G.StepAt(run, i - 1);
      SoloNext(run[i - 1], run[i]);
    }
  }

  lemma SoloReachable(n: nat, ageing: int, s: System)
    requires n < 2 && Reachable(n, ageing, s)
    ensures Inv(s) && Solo(s)
  {
    ReachableInv(n, ageing, s);
    var run :| G.IsRun(n, ageing, run) && run[|run| - 1] == s;
    SoloRun(n, ageing, run, |run| - 1);
  }

  // ---- is a key just learned in the map? ----

  /** Every step from here that ends a Learn call leaves the call's key in the map. */
  ghost predicate KeepsLessons(s: System) {
    forall t: nat, pick :: Enabled(s, Do(t, pick)) && Apply(s, Do(t, pick)).pcs[t].LearnDone? ==>
      Apply(s, Do(t, pick)).pcs[t].l.key in Apply(s, Do(t, pick)).table
  }

  /** No reap has got past its first look at the ageing time. */
  predicate NeverReaps(s: System) {
    && s.ageing == 0 && s.deleted == []
    && forall t :: 0 <= t < |s.pcs| ==> !s.pcs[t].ReapLock? && !s.pcs[t].ReapScan? && !s.pcs[t].ReapDelete?
  }

  lemma NeverReapsStep(s: System, a: Action)
    requires NeverReaps(s) && Enabled(s, a) && !a.SetAgeing?
    ensures NeverReaps(Apply(s, a))
  {
  }

  lemma NeverReapsNext(s: System, s': System)
    requires NeverReaps(s) && Next(s, s') && s'.ageing == 0
    ensures NeverReaps(s')
  {
    var a :| Enabled(s, a) && s' == Apply(s, a);
    if !a.SetAgeing? {
      NeverReapsStep(s, a);
    }
  }

  lemma {:induction false} NeverReapsRun(n: nat, run: seq<System>, i: nat)
    requires G.IsRun(n, 0, run) && Steady(run, 0) && i < |run|
    ensures NeverReaps(run[i])
  {
    if i > 0 {
      NeverReapsRun(n, run, i - 1);
      assert G.StepAt(run, i - 1);
      NeverReapsNext(run[i - 1], run[i]);
    }
  }

  lemma WithoutReapsKept(s: System)
    requires Inv(s) && NeverReaps(s)
    ensures KeepsLessons(s)
  {
    forall t: nat, pick | Enabled(s, Do(t, pick)) && Apply(s, Do(t, pick)).pcs[t].LearnDone?
      ensures Apply(s, Do(t, pick)).pcs[t].l.key in Apply(s, Do(t, pick)).table
    {
      NeverReapsStep(s, Do(t, pick));
      G.LearnEnds(s, t, pick);
    }
  }

  lemma AloneKept(s: System)
    requires Inv(s) && Solo(s)
    ensures KeepsLessons(s)
  {
    forall t: nat, pick | Enabled(s, Do(t, pick)) && Apply(s, Do(t, pick)).pcs[t].LearnDone?
      ensures Apply(s, Do(t, pick)).pcs[t].l.key in Apply(s, Do(t, pick)).table
    {
      G.LearnEnds(s, t, pick);
    }
  }

  /** A Learn that ends without its key: goroutine 0 has found the entry, goroutine 1 reaps
      it, and goroutine 0 refreshes the orphan. */
  lemma LostLesson(n: nat, ageing: int) returns (s: System)
    requires 1 < n && ageing != 0
    ensures SteadilyReachable(n, ageing, s) && !KeepsLessons(s)
  {
    var k, now := Key(1, [2, 0, 0, 0, 0, 1]), ageing + 2;
    var s1 := GetPoised(n, ageing, k, 0);
    var acts;
    acts, s := WholeCall(n, ageing, s1, 1, Call.Reap(now));
    ReapAlone(s1, 1, now, acts, s);
    assert Expired(Contents(s1)[k], ageing, now);
    assert k !in Contents(s);
    SteadyIsReachable(n, ageing, s);
    ReachableInv(n, ageing, s);
    assert s.pcs[0] == s1.pcs[0] && PcOk(s, s.pcs[0]);
    assert Enabled(s, Do(0, k)) && Apply(s, Do(0, k)).pcs[0].LearnDone?;
  }

  /** With the ageing time never changed, every Learn ends with its key in the map if and
      only if entries never age or there is no second goroutine. */
  lemma LessonsKeptIff(n: nat, ageing: int)
    ensures (forall s :: SteadilyReachable(n, ageing, s) ==> KeepsLessons(s)) <==> ageing == 0 || n < 2
  {
    if ageing == 0 || n < 2 {
      forall s | SteadilyReachable(n, ageing, s)
        ensures KeepsLessons(s)
      {
        SteadyIsReachable(n, ageing, s);
        ReachableInv(n, ageing, s);
        if n < 2 {
          SoloReachable(n, ageing, s);
          AloneKept(s);
        } else {
          var run :| G.IsRun(n, ageing, run) && run[|run| - 1] == s && Steady(run, ageing);
          NeverReapsRun(n, run, |run| - 1);
          WithoutReapsKept(s);
        }
      }
    } else {
      var s := LostLesson(n, ageing);
    }
  }

  // ---- does an entry pair one call's port and time? ----

  /** Where stations may be: a key and the port it is taught from. */
  type Places = iset<(Key, nat)>

  predicate TeachesOnly(s: System, places: Places) {
    forall l :: l in s.taught ==> (l.key, l.port) in places
  }

  /** No station is in two places. */
  ghost predicate OnePortEach(places: Places) {
    forall k, p, q :: (k, p) in places && (k, q) in places ==> p == q
  }

  /** Every entry, reachable or orphaned, has the port and the time of one call. */
  predicate Paired(s: System) {
    && |s.keyOf| == |s.heap|
    && forall e :: 0 <= e < |s.heap| ==> PairedAt(s, e)
  }

  predicate AtRest(s: System) {
    forall t :: 0 <= t < |s.pcs| ==> s.pcs[t].Finished()
  }

  lemma OnePortPaired(s: System, places: Places)
    requires Inv(s) && TeachesOnly(s, places) && OnePortEach(places)
    ensures Paired(s)
  {
    forall e | 0 <= e < |s.heap|
      ensures PairedAt(s, e)
    {
      assert Lineage(s, e);
      var now :| Lesson(s.keyOf[e], s.heap[e].port, now) in s.taught;
      var port: nat :| Lesson(s.keyOf[e], port, s.heap[e].seen) in s.taught;
      assert (s.keyOf[e], s.heap[e].port) in places && (s.keyOf[e], port) in places;
    }
  }

  /** The station moves to port q: goroutine 1 learns it there at time 7. */
  lemma Moves(n: nat, ageing: int, k: Key, p: nat, q: nat, s: System) returns (s': System)
    requires Poised(n, ageing, k, p, s)
    ensures SteadilyReachable(n, ageing, s') && TableOk(s') && s'.table == s.table
    ensures |s'.pcs| == n && s'.pcs[0] == s.pcs[0] && forall t :: 0 < t < n ==> s'.pcs[t].Finished()
    ensures Contents(s') == map[k := Rec(q, 7)] && s'.taught == s.taught + {Lesson(k, q, 7)}
  {
    var l := Lesson(k, q, 7);
    var acts;
    acts, s' := WholeCall(n, ageing, s, 1, Learn(l));
    LearnAlone(s, 1, l, acts, s');
    KnownKeyAlone(s, 1, l, acts, s');
  }

  /** Goroutine 0 is about to refresh the entry of a station at port p; goroutine 1 learns it
      at port q at time 7; and the entry ends up pairing port q with time 5. */
  lemma MixedEntry(n: nat, ageing: int, k: Key, p: nat, q: nat) returns (s: System)
    requires 1 < n && p != q
    ensures SteadilyReachable(n, ageing, s) && !Paired(s)
    ensures forall l :: l in s.taught ==> l.key == k && (l.port == p || l.port == q)
    ensures AtRest(s)
  {
    var s1 := GetPoised(n, ageing, k, p);
    var s2 := Moves(n, ageing, k, p, q, s1);
    var e := s2.table[k];
    assert k in Contents(s2) && s2.heap[e].port == q;
    OneStep(n, ageing, s2, Do(0, k));
    s := Apply(s2, Do(0, k));
    assert s.heap[e] == Entry(q, 5) && s.keyOf[e] == k && !PairedAt(s, e);
  }

  /** Taught from the given places only, all entries are paired whenever nobody is in a call,
      if and only if no station is in two places or there is no second goroutine. */
  lemma EntriesPairedIff(n: nat, places: Places)
    ensures (forall ageing, s :: Reachable(n, ageing, s) && TeachesOnly(s, places) && AtRest(s) ==> Paired(s))
            <==> n < 2 || OnePortEach(places)
  {
    if n < 2 || OnePortEach(places) {
      forall ageing, s | Reachable(n, ageing, s) && TeachesOnly(s, places) && AtRest(s)
        ensures Paired(s)
      {
        ReachableInv(n, ageing, s);
        if n < 2 {
          SoloReachable(n, ageing, s);
        } else {
          OnePortPaired(s, places);
        }
      }
    } else {
      var k, p, q :| (k, p) in places && (k, q) in places && p != q;
      var s := MixedEntry(n, 0, k, p, q);
      SteadyIsReachable(n, 0, s);
    }
  }

  /** In the middle of a call even one goroutine mixes an entry, while it writes. */
  lemma HalfWritten(n: nat, ageing: int, k: Key, p: nat, q: nat) returns (s: System)
    requires 0 < n && p != q
    ensures SteadilyReachable(n, ageing, s) && !Paired(s)
    ensures forall l :: l in s.taught ==> l.key == k && (l.port == p || l.port == q)
  {
    var s1 := FirstLesson(n, ageing, k, p);
    assert k in Contents(s1) && Contents(s1)[k] == Rec(p, 1);
    var l, e := Lesson(k, q, 7), s1.table[k];
    var s2 := ReadsAndCompares(n, ageing, s1, l);
    OneStep(n, ageing, s2, Do(0, k));
    var s3 := Apply(s2, Do(0, k));
    assert s3.pcs[0] == LearnWritePort(l, e, |s1.deleted|);
    OneStep(n, ageing, s3, Do(0, k));
    s := Apply(s3, Do(0, k));
    assert s.heap[e] == Entry(q, 1) && s.keyOf[e] == k && !PairedAt(s, e);
  }

  /** In every state: if and only if no station is in two places or there is nobody to teach. */
  lemma EntriesAlwaysPairedIff(n: nat, places: Places)
    ensures (forall ageing, s :: Reachable(n, ageing, s) && TeachesOnly(s, places) ==> Paired(s))
            <==> n == 0 || OnePortEach(places)
  {
    if n == 0 || OnePortEach(places) {
      forall ageing, s | Reachable(n, ageing, s) && TeachesOnly(s, places)
        ensures Paired(s)
      {
        ReachableInv(n, ageing, s);
        if n == 0 {
          var run :| G.IsRun(n, ageing, run) && run[|run| - 1] == s;
          NobodyMoves(ageing, run, |run| - 1);
        } else {
          OnePortPaired(s, places);
        }
      }
    } else {
      var k, p, q :| (k, p) in places && (k, q) in places && p != q;
      var s := HalfWritten(n, 0, k, p, q);
      SteadyIsReachable(n, 0, s);
    }
  }

  lemma {:induction false} NobodyMoves(ageing: int, run: seq<System>, i: nat)
    requires G.IsRun(0, ageing, run) && i < |run|
    ensures run[i].pcs == [] && run[i].heap == [] && run[i].keyOf == []
  {
    if i > 0 {
      NobodyMoves(ageing, run, i - 1);
      assert G.StepAt(run, i - 1);
    }
  }
}
