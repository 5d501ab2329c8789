/**
 The learning table under concurrency. Any number of goroutines call Learn, Lookup and
 reap; each call is split where it releases the lock, or touches an entry without it.

 Entries live on a heap that only grows: an entry that reap deleted from the map stays,
 orphaned, for the goroutines that still hold it. Loads and stores of one word are
 single steps. A section under the read lock is one step, taken when no writer holds
 the lock. What nobody can observe in between is merged with the step before it.
 */
module FdbSteps {
  import opened Wrappers
  import opened Forwarding

  type Ref = nat

  datatype Entry = Entry(port: nat, seen: int)

  /** The arguments of a Learn call. */
  datatype Lesson = Lesson(key: Key, port: nat, now: int)

  /** A deletion by reap: the key, the timestamp it had read, and the arguments. */
  datatype Deletion = Deletion(key: Key, seen: int, age: int, now: int)

  /** Where a goroutine is. Of the calls that hold the write lock, `e` is the entry the
      map held for the key. `mark` is the length of the deletion log at the read. */
  datatype Pc =
    | Idle
    | LearnRead(l: Lesson)
    | LearnCompare(l: Lesson, e: Ref, mark: nat)
    | LearnRefresh(l: Lesson, e: Ref, mark: nat)
    | LearnLock(l: Lesson, mark: nat)
    | LearnWritePort(l: Lesson, e: Ref, mark: nat)
    | LearnWriteSeen(l: Lesson, e: Ref, mark: nat)
    | LearnInsert(l: Lesson, mark: nat)
    | LearnDone(l: Lesson, mark: nat)
    | LookupRead(k: Key, now: int)
    | LookupAge(k: Key, now: int, e: Ref)
    | LookupSeen(k: Key, now: int, e: Ref, age: int)
    | LookupPort(k: Key, now: int, e: Ref)
    | LookupDone(k: Key, out: Option<nat>)
    | ReapAge(now: int)
    | ReapLock(now: int, age: int)
    | ReapScan(now: int, age: int, todo: set<Key>)
    | ReapDelete(now: int, age: int, todo: set<Key>, victim: Key, seen: int)
    | ReapDone
  {
    predicate HoldsLock() {
      LearnWritePort? || LearnWriteSeen? || LearnInsert? || ReapScan? || ReapDelete?
    }

    predicate Finished() {
      Idle? || LearnDone? || LookupDone? || ReapDone?
    }

    predicate Learning() {
      LearnRead? || LearnCompare? || LearnRefresh? || LearnLock? || LearnWritePort? || LearnWriteSeen? || LearnInsert?
    }

    predicate Seeking() {
      LookupRead? || LookupAge? || LookupSeen? || LookupPort?
    }

    /** In, or at the end of, a Lookup of this key. */
    predicate LooksUp(key: Key) {
      (Seeking() || LookupDone?) && k == key
    }

    predicate Reaping() {
      ReapAge? || ReapLock? || ReapScan? || ReapDelete?
    }
  }

  /** The shared state, the program counters, and the history: which key each entry was
      made for, all Learn calls so far, and all deletions so far. */
  datatype System = System(
    table: map<Key, Ref>, heap: seq<Entry>, ageing: int, writer: Option<nat>, pcs: seq<Pc>,
    keyOf: seq<Key>, taught: set<Lesson>, deleted: seq<Deletion>)

  function Init(goroutines: nat, ageing: int): System {
    System(map[], [], ageing, None, seq(goroutines, i => Idle), [], {}, [])
  }

  datatype Call = Learn(l: Lesson) | Lookup(k: Key, now: int) | Reap(now: int)

  /** One step: a goroutine that is not in a call enters one, a goroutine in a call
      moves on (`pick` is the key the reap loop visits next), or the ageing is set. */
  datatype Action = Enter(t: nat, call: Call) | Do(t: nat, pick: Key) | SetAgeing(d: int)

  function At(s: System, t: nat, pc: Pc): System
    requires t < |s.pcs|
  {
    s.(pcs := s.pcs[t := pc])
  }

  predicate Enabled(s: System, a: Action) {
    match a
    case SetAgeing(_) => true
    case Enter(t, _) => t < |s.pcs| && s.pcs[t].Finished()
    case Do(t, pick) =>
      t < |s.pcs| && !s.pcs[t].Finished() && RefsExist(s, s.pcs[t]) && match s.pcs[t]
        case LearnRead(_) => s.writer.None?
        case LearnLock(_, _) => s.writer.None?
        case LookupRead(_, _) => s.writer.None?
        case ReapLock(_, _) => s.writer.None?
        case ReapScan(_, _, todo) => todo == {} || pick in todo
        case _ => true
  }

  predicate HasRef(pc: Pc) {
    || pc.LearnCompare? || pc.LearnRefresh? || pc.LearnWritePort? || pc.LearnWriteSeen?
    || pc.LookupAge? || pc.LookupSeen? || pc.LookupPort?
  }

  /** The entries a call refers to exist: so by the invariant below. */
  predicate RefsExist(s: System, pc: Pc) {
    && (HasRef(pc) ==> pc.e < |s.heap|)
    && (pc.ReapScan? ==> pc.todo <= s.table.Keys)
    && (forall k :: k in s.table ==> s.table[k] < |s.heap|)
  }

  function Apply(s: System, a: Action): System
    requires Enabled(s, a)
  {
    match a
    case SetAgeing(d) => s.(ageing := d)
    case Enter(t, Learn(l)) => At(s.(taught := s.taught + {l}), t, LearnRead(l))
    case Enter(t, Lookup(k, now)) => At(s, t, LookupRead(k, now))
    case Enter(t, Reap(now)) => At(s, t, ReapAge(now))
    case Do(t, pick) =>
      match s.pcs[t]
      case LearnRead(l) =>
        var mark := |s.deleted|;
        At(s, t, if l.key in s.table then LearnCompare(l, s.table[l.key], mark) else LearnLock(l, mark))
      case LearnCompare(l, e, mark) =>
        At(s, t, if s.heap[e].port == l.port then LearnRefresh(l, e, mark) else LearnLock(l, mark))
      case LearnRefresh(l, e, mark) =>
        At(s.(heap := s.heap[e := s.heap[e].(seen := l.now)]), t, LearnDone(l, mark))
      case LearnLock(l, mark) =>
        At(s.(writer := Some(t)), t,
           if l.key in s.table then LearnWritePort(l, s.table[l.key], mark) else LearnInsert(l, mark))
      case LearnWritePort(l, e, mark) =>
        At(s.(heap := s.heap[e := s.heap[e].(port := l.port)]), t, LearnWriteSeen(l, e, mark))
      case LearnWriteSeen(l, e, mark) =>
        At(s.(heap := s.heap[e := s.heap[e].(seen := l.now)], writer := None), t, LearnDone(l, mark))
      case LearnInsert(l, mark) =>
        At(s.(table := s.table[l.key := |s.heap|], heap := s.heap + [Entry(l.port, l.now)],
              keyOf := s.keyOf + [l.key], writer := None), t, LearnDone(l, mark))
      case LookupRead(k, now) =>
        At(s, t, if k in s.table then LookupAge(k, now, s.table[k]) else LookupDone(k, None))
      case LookupAge(k, now, e) =>
        At(s, t, if s.ageing > 0 then LookupSeen(k, now, e, s.ageing) else LookupPort(k, now, e))
      case LookupSeen(k, now, e, age) =>
        At(s, t, if now - s.heap[e].seen > age then LookupDone(k, None) else LookupPort(k, now, e))
      case LookupPort(k, now, e) => At(s, t, LookupDone(k, Some(s.heap[e].port)))
      case ReapAge(now) => At(s, t, if s.ageing == 0 then ReapDone else ReapLock(now, s.ageing))
      case ReapLock(now, age) => At(s.(writer := Some(t)), t, ReapScan(now, age, s.table.Keys))
      case ReapScan(now, age, todo) =>
        if todo == {} then At(s.(writer := None), t, ReapDone)
        else
          var seen := s.heap[s.table[pick]].seen;
          At(s, t, if now - seen > age then ReapDelete(now, age, todo, pick, seen) else ReapScan(now, age, todo - {pick}))
      case ReapDelete(now, age, todo, victim, seen) =>
        At(s.(table := s.table - {victim}, deleted := s.deleted + [Deletion(victim, seen, age, now)]), t,
           ReapScan(now, age, todo - {victim}))
      case _ => s
  }

  ghost predicate Next(s: System, s': System) {
    exists a :: Enabled(s, a) && s' == Apply(s, a)
  }

  // ---- the invariant ----

  /** The entry's port was taught for its key, and so was its timestamp: not
      necessarily by the same call. */
  ghost predicate Lineage(s: System, e: Ref)
    requires e < |s.heap| && e < |s.keyOf|
  {
    && (exists now :: Lesson(s.keyOf[e], s.heap[e].port, now) in s.taught)
    && (exists port :: Lesson(s.keyOf[e], port, s.heap[e].seen) in s.taught)
  }

  predicate TableOk(s: System) {
    && |s.keyOf| == |s.heap|
    && forall k :: k in s.table ==> s.table[k] < |s.heap| && s.keyOf[s.table[k]] == k
  }

  predicate LockOk(s: System) {
    && (forall t :: 0 <= t < |s.pcs| && s.pcs[t].HoldsLock() ==> s.writer == Some(t))
    && (s.writer.Some? ==> s.writer.value < |s.pcs| && s.pcs[s.writer.value].HoldsLock())
  }

  /** What a goroutine in the middle of a call may rely on, whatever the others do. */
  predicate PcOk(s: System, pc: Pc)
    requires |s.keyOf| == |s.heap|
  {
    match pc
    case LearnRead(l) => l in s.taught
    case LearnCompare(l, e, mark) => l in s.taught && RefOk(s, e, l.key) && StillThere(s, l.key, mark)
    case LearnRefresh(l, e, mark) => l in s.taught && RefOk(s, e, l.key) && StillThere(s, l.key, mark)
    case LearnLock(l, mark) => l in s.taught
    case LearnWritePort(l, e, _) => l in s.taught && RefOk(s, e, l.key) && l.key in s.table && s.table[l.key] == e
    case LearnWriteSeen(l, e, _) => l in s.taught && RefOk(s, e, l.key) && l.key in s.table && s.table[l.key] == e
    case LearnInsert(l, _) => l in s.taught && l.key !in s.table
    case LookupAge(k, _, e) => RefOk(s, e, k)
    case LookupSeen(k, _, e, _) => RefOk(s, e, k)
    case LookupPort(k, _, e) => RefOk(s, e, k)
    case ReapLock(_, age) => age != 0
    case ReapScan(_, age, todo) => age != 0 && todo <= s.table.Keys
    case ReapDelete(now, age, todo, victim, seen) =>
      todo <= s.table.Keys && victim in todo && Justified(Deletion(victim, seen, age, now))
    case _ => true
  }

  predicate RefOk(s: System, e: Ref, k: Key)
    requires |s.keyOf| == |s.heap|
  {
    e < |s.heap| && s.keyOf[e] == k
  }

  /** The key is in the map, or reap deleted it since the log had length `mark`. */
  predicate StillThere(s: System, k: Key, mark: nat) {
    mark <= |s.deleted| && (k in s.table || DeletedSince(s, k, mark))
  }

  predicate DeletedSince(s: System, k: Key, mark: nat) {
    exists i :: mark <= i < |s.deleted| && s.deleted[i].key == k
  }

  /** A lookup only answers with a port that was taught for the key. */
  ghost predicate AnswerOk(s: System, pc: Pc) {
    pc.LookupDone? && pc.out.Some? ==> exists now :: Lesson(pc.k, pc.out.value, now) in s.taught
  }

  /** Reap deletes what was older than the ageing time when it looked. */
  predicate Justified(d: Deletion) {
    d.age != 0 && d.now - d.seen > d.age
  }

  ghost predicate Inv(s: System) {
    && TableOk(s)
    && LockOk(s)
    && (forall e :: 0 <= e < |s.heap| ==> Lineage(s, e))
    && (forall t :: 0 <= t < |s.pcs| ==> PcOk(s, s.pcs[t]) && AnswerOk(s, s.pcs[t]))
    && (forall i :: 0 <= i < |s.deleted| ==> Justified(s.deleted[i]))
  }

  lemma InitInv(goroutines: nat, ageing: int)
    ensures Inv(Init(goroutines, ageing))
  {
  }

  // ---- preservation ----

  /** What every step guarantees: entries keep their keys, Learn calls and deletions are
      only added, and a key leaves the map only with a deletion. */
  predicate Evolves(s: System, s': System) {
    && |s.keyOf| <= |s'.keyOf| == |s'.heap|
    && (forall e :: 0 <= e < |s.keyOf| ==> s'.keyOf[e] == s.keyOf[e])
    && s.taught <= s'.taught
    && |s.deleted| <= |s'.deleted|
    && (forall i :: 0 <= i < |s.deleted| ==> s'.deleted[i] == s.deleted[i])
    && (forall k :: k in s.table ==> StillThere(s', k, |s.deleted|))
  }

  lemma StepEvolves(s: System, a: Action)
    requires Inv(s) && Enabled(s, a)
    ensures Evolves(s, Apply(s, a))
    ensures !(a.Do? && s.pcs[a.t].HoldsLock()) ==> Apply(s, a).table == s.table
  {
    var s' := Apply(s, a);
    if a.Do? && s.pcs[a.t].ReapDelete? {
      assert s'.deleted[|s.deleted|].key == s.pcs[a.t].victim;
    }
  }

  lemma PcStable(s: System, s': System, pc: Pc)
    requires |s.keyOf| == |s.heap| && PcOk(s, pc) && AnswerOk(s, pc) && Evolves(s, s')
    requires pc.HoldsLock() ==> s'.table == s.table
    ensures PcOk(s', pc) && AnswerOk(s', pc)
  {
    if pc.LearnCompare? || pc.LearnRefresh? {
      StillThereStable(s, s', pc.l.key, pc.mark);
    }
    if pc.LookupDone? && pc.out.Some? {
      var now :| Lesson(pc.k, pc.out.value, now) in s.taught;
      assert Lesson(pc.k, pc.out.value, now) in s'.taught;
    }
  }

  lemma StillThereStable(s: System, s': System, k: Key, mark: nat)
    requires StillThere(s, k, mark) && Evolves(s, s')
    ensures StillThere(s', k, mark)
  {
    if k in s.table {
      assert StillThere(s', k, |s.deleted|);
    } else {
      var i :| mark <= i < |s.deleted| && s.deleted[i].key == k;
      assert s'.deleted[i].key == k;
    }
  }

  lemma LineageFrom(s: System, e: Ref, now: int, port: nat)
    requires e < |s.heap| && e < |s.keyOf|
    requires Lesson(s.keyOf[e], s.heap[e].port, now) in s.taught
    requires Lesson(s.keyOf[e], port, s.heap[e].seen) in s.taught
    ensures Lineage(s, e)
  {
  }

  /** The write of a port or a timestamp to the call's entry. */
  lemma LineageWritten(s: System, a: Action, e: Ref)
    requires Inv(s) && Enabled(s, a) && a.Do? && e < |s.heap|
    requires s.pcs[a.t].LearnRefresh? || s.pcs[a.t].LearnWritePort? || s.pcs[a.t].LearnWriteSeen?
    ensures |Apply(s, a).keyOf| == |Apply(s, a).heap| == |s.heap| && Lineage(Apply(s, a), e)
  {
    var s' := Apply(s, a);
    var l := s.pcs[a.t].l;
    assert PcOk(s, s.pcs[a.t]) && Lineage(s, e);
    var now :| Lesson(s.keyOf[e], s.heap[e].port, now) in s.taught;
    var port :| Lesson(s.keyOf[e], port, s.heap[e].seen) in s.taught;
    if s.pcs[a.t].e != e {
      LineageFrom(s', e, now, port);
    } else if s.pcs[a.t].LearnWritePort? {
      assert l == Lesson(s.keyOf[e], l.port, l.now);
      LineageFrom(s', e, l.now, port);
    } else {
      assert l == Lesson(s.keyOf[e], l.port, l.now);
      LineageFrom(s', e, now, l.port);
    }
  }

  lemma LineageStep(s: System, a: Action, e: Ref)
    requires Inv(s) && Enabled(s, a) && e < |Apply(s, a).heap|
    ensures |Apply(s, a).keyOf| == |Apply(s, a).heap| && Lineage(Apply(s, a), e)
  {
    var s' := Apply(s, a);
    if a.Do? && (s.pcs[a.t].LearnRefresh? || s.pcs[a.t].LearnWritePort? || s.pcs[a.t].LearnWriteSeen?) {
      LineageWritten(s, a, e);
    } else if e < |s.heap| {
      assert Lineage(s, e);
      var now :| Lesson(s.keyOf[e], s.heap[e].port, now) in s.taught;
      var port :| Lesson(s.keyOf[e], port, s.heap[e].seen) in s.taught;
      LineageFrom(s', e, now, port);
    } else {
      var l := s.pcs[a.t].l;
      assert PcOk(s, s.pcs[a.t]) && l == Lesson(l.key, l.port, l.now);
      LineageFrom(s', e, l.now, l.port);
    }
  }

  lemma SelfOk(s: System, a: Action)
    requires Inv(s) && Enabled(s, a) && !a.SetAgeing?
    ensures var s' := Apply(s, a);
            |s'.keyOf| == |s'.heap| && PcOk(s', s'.pcs[a.t]) && AnswerOk(s', s'.pcs[a.t])
  {
    if a.Do? {
      assert PcOk(s, s.pcs[a.t]);
      if s.pcs[a.t].Learning() {
        LearnerOk(s, a.t, a.pick);
      } else if s.pcs[a.t].Seeking() {
        SeekerOk(s, a.t, a.pick);
      } else {
        ReaperOk(s, a.t, a.pick);
      }
    }
  }

  lemma LearnerOk(s: System, t: nat, pick: Key)
    requires TableOk(s) && Enabled(s, Do(t, pick)) && s.pcs[t].Learning() && PcOk(s, s.pcs[t])
    ensures var s' := Apply(s, Do(t, pick));
            |s'.keyOf| == |s'.heap| && PcOk(s', s'.pcs[t]) && AnswerOk(s', s'.pcs[t])
  {
    var s' := Apply(s, Do(t, pick));
    if s.pcs[t].LearnCompare? && !(s.pcs[t].l.key in s.table) {
      var i :| s.pcs[t].mark <= i < |s.deleted| && s.deleted[i].key == s.pcs[t].l.key;
      assert s'.deleted[i].key == s.pcs[t].l.key;
    }
  }

  lemma SeekerOk(s: System, t: nat, pick: Key)
    requires TableOk(s) && Enabled(s, Do(t, pick)) && s.pcs[t].Seeking() && PcOk(s, s.pcs[t])
    requires forall e :: 0 <= e < |s.heap| ==> Lineage(s, e)
    ensures var s' := Apply(s, Do(t, pick));
            |s'.keyOf| == |s'.heap| && PcOk(s', s'.pcs[t]) && AnswerOk(s', s'.pcs[t])
  {
    if s.pcs[t].LookupPort? {
      assert Lineage(s, s.pcs[t].e);
    }
  }

  lemma ReaperOk(s: System, t: nat, pick: Key)
    requires TableOk(s) && Enabled(s, Do(t, pick)) && s.pcs[t].Reaping() && PcOk(s, s.pcs[t])
    ensures var s' := Apply(s, Do(t, pick));
            |s'.keyOf| == |s'.heap| && PcOk(s', s'.pcs[t]) && AnswerOk(s', s'.pcs[t])
  {
  }

  lemma LockStep(s: System, a: Action)
    requires Inv(s) && Enabled(s, a)
    ensures LockOk(Apply(s, a))
  {
    if a.Do? && s.pcs[a.t].HoldsLock() {
      HolderStep(s, a.t, a.pick);
    } else {
      OthersLockStep(s, a);
    }
  }

  lemma HolderStep(s: System, t: nat, pick: Key)
    requires LockOk(s) && Enabled(s, Do(t, pick)) && s.pcs[t].HoldsLock()
    ensures LockOk(Apply(s, Do(t, pick)))
  {
    assert s.writer == Some(t);
  }

  lemma OthersLockStep(s: System, a: Action)
    requires LockOk(s) && Enabled(s, a) && !(a.Do? && s.pcs[a.t].HoldsLock())
    ensures LockOk(Apply(s, a))
  {
  }

  lemma TableStep(s: System, a: Action)
    requires Inv(s) && Enabled(s, a)
    ensures TableOk(Apply(s, a))
  {
  }

  /** Every step of every interleaving keeps the invariant. */
  lemma InvStep(s: System, a: Action)
    requires Inv(s) && Enabled(s, a)
    ensures Inv(Apply(s, a))
  {
    var s' := Apply(s, a);
    LockStep(s, a);
    TableStep(s, a);
    StepEvolves(s, a);
    forall e | 0 <= e < |s'.heap|
      ensures Lineage(s', e)
    {
      LineageStep(s, a, e);
    }
    forall t | 0 <= t < |s'.pcs|
      ensures PcOk(s', s'.pcs[t]) && AnswerOk(s', s'.pcs[t])
    {
      if !a.SetAgeing? && a.t == t {
        SelfOk(s, a);
      } else {
        assert s'.pcs[t] == s.pcs[t];
        PcStable(s, s', s.pcs[t]);
      }
    }
    DeletionsStep(s, a);
  }

  lemma DeletionsStep(s: System, a: Action)
    requires Inv(s) && Enabled(s, a)
    ensures var d := Apply(s, a).deleted;
            forall i :: 0 <= i < |d| ==> Justified(d[i])
  {
    if a.Do? {
      assert PcOk(s, s.pcs[a.t]);
    }
  }
}
