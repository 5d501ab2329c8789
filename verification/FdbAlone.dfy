/**
 A call on the learning table that runs undisturbed, step by step, does what the
 sequential specification says: this ties the steps of module FdbSteps to the table of
 module Forwarding. Other goroutines may be anywhere, but for the write lock, as long
 as they do not move.
 */
module FdbAlone {
  import opened Wrappers
  import opened Forwarding
  import opened FdbSteps
  import opened FdbRanks

  /** The map and the entries, as the sequential specification sees them. */
  function Contents(s: System): Table
    requires TableOk(s)
  {
    map k | k in s.table :: Rec(s.heap[s.table[k]].port, s.heap[s.table[k]].seen)
  }

  /** The table without its expired entries, of those among the given keys. */
  function Swept(t: Table, todo: set<Key>, age: int, now: int): Table {
    map k | k in t && !(k in todo && Expired(t[k], age, now)) :: t[k]
  }

  /** The table that a call will have left behind when it ends. */
  function Outcome(s: System, pc: Pc): Table
    requires TableOk(s)
  {
    var t := Contents(s);
    if pc.Learning() then t[pc.l.key := Rec(pc.l.port, pc.l.now)]
    else match pc
         case ReapAge(now) => ReapTable(t, s.ageing, now)
         case ReapLock(now, age) => ReapTable(t, age, now)
         case ReapScan(now, age, todo) => Swept(t, todo, age, now)
         case ReapDelete(now, age, todo, _, _) => Swept(t, todo, age, now)
         case _ => t
  }

  /** The answer that a lookup will give. */
  function Answer(s: System, pc: Pc): Option<nat>
    requires TableOk(s)
  {
    match pc
    case LookupRead(k, now) => LookupTable(Contents(s), s.ageing, k, now)
    case LookupAge(k, now, _) => LookupTable(Contents(s), s.ageing, k, now)
    case LookupSeen(k, now, _, age) => LookupTable(Contents(s), age, k, now)
    case LookupPort(k, now, _) => LookupTable(Contents(s), 0, k, now)
    case LookupDone(_, out) => out
    case _ => None
  }

  /** What the call has read is still so. */
  predicate Current(s: System, pc: Pc)
    requires TableOk(s)
  {
    match pc
    case LearnCompare(l, e, _) => l.key in s.table && s.table[l.key] == e
    case LearnRefresh(l, e, _) => l.key in s.table && s.table[l.key] == e && s.heap[e].port == l.port
    case LearnWriteSeen(l, e, _) => l.key in s.table && s.table[l.key] == e && s.heap[e].port == l.port
    case LookupAge(k, _, e) => k in s.table && s.table[k] == e
    case LookupSeen(k, _, e, age) => k in s.table && s.table[k] == e && age > 0
    case LookupPort(k, _, e) => k in s.table && s.table[k] == e
    case ReapDelete(now, age, _, victim, _) => victim in s.table && Expired(Contents(s)[victim], age, now)
    case _ => true
  }

  /** What is left to do is the same before and after a step. */
  ghost predicate KeepsCourse(s: System, t: nat, s': System)
    requires t < |s.pcs| && TableOk(s)
  {
    && t < |s'.pcs| && TableOk(s') && s'.ageing == s.ageing
    && Current(s', s'.pcs[t])
    && Outcome(s', s'.pcs[t]) == Outcome(s, s.pcs[t])
    && Answer(s', s'.pcs[t]) == Answer(s, s.pcs[t])
  }

  /** The steps of Learn that only read. */
  lemma LearnReads(s: System, t: nat, pick: Key)
    requires Inv(s) && Enabled(s, Do(t, pick)) && Current(s, s.pcs[t])
    requires s.pcs[t].LearnRead? || s.pcs[t].LearnCompare? || s.pcs[t].LearnLock?
    ensures KeepsCourse(s, t, Apply(s, Do(t, pick)))
  {
    assert Contents(Apply(s, Do(t, pick))) == Contents(s);
  }

  /** Writing to the entry of one key leaves the other keys as they are. */
  lemma EntryWritten(s: System, s': System, k: Key)
    requires TableOk(s) && s'.table == s.table && s'.keyOf == s.keyOf && |s'.heap| == |s.heap| && k in s.table
    requires s'.heap == s.heap[s.table[k] := s'.heap[s.table[k]]]
    ensures TableOk(s')
    ensures Contents(s') == Contents(s)[k := Rec(s'.heap[s.table[k]].port, s'.heap[s.table[k]].seen)]
  {
  }

  lemma LearnWrites(s: System, t: nat, pick: Key)
    requires Inv(s) && Enabled(s, Do(t, pick)) && Current(s, s.pcs[t])
    requires s.pcs[t].LearnRefresh? || s.pcs[t].LearnWritePort? || s.pcs[t].LearnWriteSeen?
    ensures KeepsCourse(s, t, Apply(s, Do(t, pick)))
  {
    assert PcOk(s, s.pcs[t]);
    EntryWritten(s, Apply(s, Do(t, pick)), s.pcs[t].l.key);
  }

  lemma LearnInserts(s: System, t: nat, pick: Key)
    requires Inv(s) && Enabled(s, Do(t, pick)) && s.pcs[t].LearnInsert?
    ensures KeepsCourse(s, t, Apply(s, Do(t, pick)))
  {
    TableStep(s, Do(t, pick));
  }

  lemma LookupReads(s: System, t: nat, pick: Key)
    requires Inv(s) && Enabled(s, Do(t, pick)) && Current(s, s.pcs[t])
    requires s.pcs[t].Seeking()
    ensures KeepsCourse(s, t, Apply(s, Do(t, pick)))
  {
    assert Contents(Apply(s, Do(t, pick))) == Contents(s);
  }

  lemma ReapScans(s: System, t: nat, pick: Key)
    requires Inv(s) && Enabled(s, Do(t, pick)) && s.pcs[t].ReapScan?
    ensures KeepsCourse(s, t, Apply(s, Do(t, pick)))
  {
    assert Contents(Apply(s, Do(t, pick))) == Contents(s);
  }

  lemma ReapDeletes(s: System, t: nat, pick: Key)
    requires Inv(s) && Enabled(s, Do(t, pick)) && Current(s, s.pcs[t]) && s.pcs[t].ReapDelete?
    ensures KeepsCourse(s, t, Apply(s, Do(t, pick)))
  {
    assert Contents(Apply(s, Do(t, pick))) == Contents(s) - {s.pcs[t].victim};
  }

  lemma ReapStarts(s: System, t: nat, pick: Key)
    requires Inv(s) && Enabled(s, Do(t, pick)) && (s.pcs[t].ReapAge? || s.pcs[t].ReapLock?)
    ensures KeepsCourse(s, t, Apply(s, Do(t, pick)))
  {
    assert PcOk(s, s.pcs[t]);
    assert Contents(Apply(s, Do(t, pick))) == Contents(s);
  }

  lemma StepKeepsCourse(s: System, t: nat, pick: Key)
    requires Inv(s) && Enabled(s, Do(t, pick)) && Current(s, s.pcs[t])
    ensures KeepsCourse(s, t, Apply(s, Do(t, pick)))
  {
    var pc := s.pcs[t];
    if pc.LearnRead? || pc.LearnCompare? || pc.LearnLock? {
      LearnReads(s, t, pick);
    } else if pc.LearnInsert? {
      LearnInserts(s, t, pick);
    } else if pc.Learning() {
      LearnWrites(s, t, pick);
    } else if pc.Seeking() {
      LookupReads(s, t, pick);
    } else if pc.ReapScan? {
      ReapScans(s, t, pick);
    } else if pc.ReapDelete? {
      ReapDeletes(s, t, pick);
    } else {
      ReapStarts(s, t, pick);
    }
  }

  /** Executing a list of actions from one state leads to another. */
  predicate Leads(s: System, acts: seq<Action>, s': System)
    decreases |acts|
  {
    if acts == [] then s == s' else Enabled(s, acts[0]) && Leads(Apply(s, acts[0]), acts[1..], s')
  }

  /** Only goroutine t moves. */
  predicate OnlyMoves(acts: seq<Action>, t: nat) {
    forall i :: 0 <= i < |acts| ==> acts[i].Do? && acts[i].t == t
  }

  lemma {:induction false} CallKeepsCourse(s: System, t: nat, acts: seq<Action>, s': System)
    requires Inv(s) && t < |s.pcs| && Current(s, s.pcs[t]) && Leads(s, acts, s') && OnlyMoves(acts, t)
    ensures KeepsCourse(s, t, s')
    decreases |acts|
  {
    if acts != [] {
      assert acts[0] == Do(t, acts[0].pick);
      StepKeepsCourse(s, t, acts[0].pick);
      InvStep(s, acts[0]);
      CallKeepsCourse(Apply(s, acts[0]), t, acts[1..], s');
    }
  }

  /** A call that runs undisturbed from start to end. */
  ghost predicate RunsAlone(s: System, t: nat, call: Call, acts: seq<Action>, s': System) {
    && Inv(s) && Enabled(s, Enter(t, call))
    && Leads(Apply(s, Enter(t, call)), acts, s') && OnlyMoves(acts, t)
    && t < |s'.pcs| && s'.pcs[t].Finished()
  }

  lemma EnteredCall(s: System, t: nat, call: Call, acts: seq<Action>, s': System)
    requires RunsAlone(s, t, call, acts, s')
    ensures TableOk(s) && KeepsCourse(Apply(s, Enter(t, call)), t, s')
    ensures Contents(Apply(s, Enter(t, call))) == Contents(s)
  {
    InvStep(s, Enter(t, call));
    CallKeepsCourse(Apply(s, Enter(t, call)), t, acts, s');
  }

  /** Learn, undisturbed, records the port and the time, and changes nothing else. */
  lemma LearnAlone(s: System, t: nat, l: Lesson, acts: seq<Action>, s': System)
    requires RunsAlone(s, t, Learn(l), acts, s')
    ensures TableOk(s) && TableOk(s') && Contents(s') == Contents(s)[l.key := Rec(l.port, l.now)]
  {
    EnteredCall(s, t, Learn(l), acts, s');
  }

  /** Reap, undisturbed, deletes exactly what the specification says. */
  lemma ReapAlone(s: System, t: nat, now: int, acts: seq<Action>, s': System)
    requires RunsAlone(s, t, Call.Reap(now), acts, s')
    ensures TableOk(s) && TableOk(s') && Contents(s') == ReapTable(Contents(s), s.ageing, now)
  {
    EnteredCall(s, t, Call.Reap(now), acts, s');
  }

  /** Lookup, undisturbed, gives the answer of the specification, and changes nothing. */
  lemma LookupAlone(s: System, t: nat, k: Key, now: int, acts: seq<Action>, s': System)
    requires RunsAlone(s, t, Lookup(k, now), acts, s')
    ensures TableOk(s) && TableOk(s') && Contents(s') == Contents(s)
    ensures s'.pcs[t] == LookupDone(k, LookupTable(Contents(s), s.ageing, k, now))
  {
    EnteredCall(s, t, Lookup(k, now), acts, s');
    StillLooking(Apply(s, Enter(t, Lookup(k, now))), t, k, acts, s');
  }

  lemma {:induction false} StillLooking(s: System, t: nat, k: Key, acts: seq<Action>, s': System)
    requires t < |s.pcs| && s.pcs[t].LooksUp(k) && Leads(s, acts, s') && OnlyMoves(acts, t)
    ensures t < |s'.pcs| && s'.pcs[t].LooksUp(k)
    decreases |acts|
  {
    if acts != [] {
      StillLooking(Apply(s, acts[0]), t, k, acts[1..], s');
    }
  }

  // ---- such runs exist ----

  /** No other goroutine holds the write lock. */
  predicate Free(s: System, t: nat) {
    s.writer.None? || s.writer == Some(t)
  }

  lemma OnlyMoverMoves(s: System, t: nat, pick: Key)
    requires Enabled(s, Do(t, pick))
    ensures var s' := Apply(s, Do(t, pick));
            && |s'.pcs| == |s.pcs| && (forall u :: 0 <= u < |s.pcs| && u != t ==> s'.pcs[u] == s.pcs[u])
            && s'.taught == s.taught && s'.ageing == s.ageing
            && (Free(s, t) ==> Free(s', t))
  {
  }

  /** What a list of steps of one goroutine leaves as it is. */
  lemma {:induction false} OnlyMoverMovesOn(s: System, t: nat, acts: seq<Action>, s': System)
    requires Leads(s, acts, s') && OnlyMoves(acts, t)
    ensures |s'.pcs| == |s.pcs| && forall u :: 0 <= u < |s.pcs| && u != t ==> s'.pcs[u] == s.pcs[u]
    ensures s'.taught == s.taught && s'.ageing == s.ageing
    decreases |acts|
  {
    if acts != [] {
      assert acts[0] == Do(t, acts[0].pick);
      OnlyMoverMoves(s, t, acts[0].pick);
      OnlyMoverMovesOn(Apply(s, acts[0]), t, acts[1..], s');
    }
  }

  /** A goroutine in a call can move, if no other holds the write lock. */
  lemma CanMove(s: System, t: nat) returns (pick: Key)
    requires Inv(s) && t < |s.pcs| && !s.pcs[t].Finished() && Free(s, t)
    ensures Enabled(s, Do(t, pick))
  {
    assert PcOk(s, s.pcs[t]);
    if s.pcs[t].ReapScan? && s.pcs[t].todo != {} {
      pick :| pick in s.pcs[t].todo;
    } else {
      pick := Key(0, [0, 0, 0, 0, 0, 0]);
    }
  }

  function Left(s: System, t: nat): nat
    requires t < |s.pcs|
  {
    CallRank(s.pcs[t]) + ReapRank(s.pcs[t], |s.table|)
  }

  lemma LeftDecreases(s: System, t: nat, pick: Key)
    requires Inv(s) && Enabled(s, Do(t, pick))
    ensures |Apply(s, Do(t, pick)).pcs| == |s.pcs| && Left(Apply(s, Do(t, pick)), t) < Left(s, t)
  {
    OnlyMoverMoves(s, t, pick);
    assert PcOk(s, s.pcs[t]);
    if s.pcs[t].Reaping() {
      ReapLeftDecreases(s, t, pick);
    } else {
      CallLeftDecreases(s, t, pick);
    }
  }

  lemma ReapLeftDecreases(s: System, t: nat, pick: Key)
    requires TableOk(s) && Enabled(s, Do(t, pick)) && s.pcs[t].Reaping() && PcOk(s, s.pcs[t])
    ensures |Apply(s, Do(t, pick)).pcs| == |s.pcs| && Left(Apply(s, Do(t, pick)), t) < Left(s, t)
  {
    ReapDecreases(s, t, pick);
    StaysReaping(s, t, pick);
    OnlyMoverMoves(s, t, pick);
  }

  lemma CallLeftDecreases(s: System, t: nat, pick: Key)
    requires Enabled(s, Do(t, pick)) && !s.pcs[t].Reaping()
    ensures |Apply(s, Do(t, pick)).pcs| == |s.pcs| && Left(Apply(s, Do(t, pick)), t) < Left(s, t)
  {
    CallDecreases(s, t, pick);
    StaysInCall(s, t, pick);
    OnlyMoverMoves(s, t, pick);
  }

  lemma StaysReaping(s: System, t: nat, pick: Key)
    requires Enabled(s, Do(t, pick)) && s.pcs[t].Reaping()
    ensures var pc := Apply(s, Do(t, pick)).pcs[t];
            pc.Reaping() || pc.ReapDone?
  {
  }

  lemma StaysInCall(s: System, t: nat, pick: Key)
    requires Enabled(s, Do(t, pick)) && !s.pcs[t].Reaping()
    ensures var pc := Apply(s, Do(t, pick)).pcs[t];
            pc.Learning() || pc.Seeking() || pc.LearnDone? || pc.LookupDone?
  {
  }

  /** Whatever the others are in the middle of, a call that is left alone comes to its end,
      if none of them holds the write lock. */
  lemma {:induction false} Finishes(s: System, t: nat) returns (acts: seq<Action>, s': System)
    requires Inv(s) && t < |s.pcs| && Free(s, t)
    ensures Leads(s, acts, s') && OnlyMoves(acts, t) && Inv(s')
    ensures t < |s'.pcs| && s'.pcs[t].Finished() && s'.writer.None?
    decreases Left(s, t)
  {
    if s.pcs[t].Finished() {
      acts, s' := [], s;
    } else {
      var pick := CanMove(s, t);
      var a := Do(t, pick);
      InvStep(s, a);
      OnlyMoverMoves(s, t, pick);
      LeftDecreases(s, t, pick);
      var rest;
      rest, s' := Finishes(Apply(s, a), t);
      acts := [a] + rest;
      assert acts[1..] == rest;
    }
  }

  /** Every call can run undisturbed from start to end, if nobody holds the write lock. */
  lemma CallEnds(s: System, t: nat, call: Call) returns (acts: seq<Action>, s': System)
    requires Inv(s) && Enabled(s, Enter(t, call)) && s.writer.None?
    ensures RunsAlone(s, t, call, acts, s')
    ensures Inv(s') && s'.writer.None?
  {
    InvStep(s, Enter(t, call));
    acts, s' := Finishes(Apply(s, Enter(t, call)), t);
  }

  /** Learning a key that is in the map changes its entry only. */
  lemma {:induction false} KnownKeyKeepsMap(s: System, t: nat, acts: seq<Action>, s': System)
    requires Inv(s) && t < |s.pcs| && Leads(s, acts, s') && OnlyMoves(acts, t)
    requires s.pcs[t].LearnDone? || (s.pcs[t].Learning() && s.pcs[t].l.key in s.table)
    ensures s'.table == s.table && s'.keyOf == s.keyOf
    decreases |acts|
  {
    if acts != [] {
      assert acts[0] == Do(t, acts[0].pick);
      assert PcOk(s, s.pcs[t]);
      InvStep(s, acts[0]);
      KnownKeyStep(s, t, acts[0].pick);
      KnownKeyKeepsMap(Apply(s, acts[0]), t, acts[1..], s');
    }
  }

  lemma KnownKeyStep(s: System, t: nat, pick: Key)
    requires Enabled(s, Do(t, pick)) && s.pcs[t].Learning() && s.pcs[t].l.key in s.table && !s.pcs[t].LearnInsert?
    ensures var s' := Apply(s, Do(t, pick));
            && |s'.pcs| == |s.pcs| && s'.table == s.table && s'.keyOf == s.keyOf
            && (s'.pcs[t].LearnDone? || (s'.pcs[t].Learning() && s'.pcs[t].l == s.pcs[t].l))
  {
  }

  lemma KnownKeyAlone(s: System, t: nat, l: Lesson, acts: seq<Action>, s': System)
    requires RunsAlone(s, t, Learn(l), acts, s') && l.key in s.table
    ensures s'.table == s.table
  {
    InvStep(s, Enter(t, Learn(l)));
    KnownKeyKeepsMap(Apply(s, Enter(t, Learn(l))), t, acts, s');
  }
}
