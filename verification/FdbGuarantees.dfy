/**
 What the learning table guarantees in every run of every number of goroutines.
 */
module FdbGuarantees {
  import opened Wrappers
  import opened Forwarding
  import opened FdbSteps

  ghost predicate StepAt(run: seq<System>, i: nat) {
    i + 1 < |run| && Next(run[i], run[i + 1])
  }

  /** A run of n goroutines from the empty table, as the states it passes through. */
  ghost predicate IsRun(n: nat, ageing: int, run: seq<System>) {
    && run != []
    && run[0] == Init(n, ageing)
    && forall i :: 0 <= i < |run| - 1 ==> StepAt(run, i)
  }

  /** Every state of every run satisfies the invariant: in particular, every entry,
      reachable or orphaned, has a port and a timestamp that were taught for its key. */
  lemma {:induction false} RunKeepsInv(n: nat, ageing: int, run: seq<System>, i: nat)
    requires IsRun(n, ageing, run) && i < |run|
    ensures Inv(run[i])
  {
    if i == 0 {
      InitInv(n, ageing);
    } else {
      RunKeepsInv(n, ageing, run, i - 1);
      assert StepAt(run, i - 1);
      InvStays(run[i - 1], run[i]);
    }
  }

  lemma InvStays(s: System, s': System)
    requires Inv(s) && Next(s, s')
    ensures Inv(s')
  {
    var a :| Enabled(s, a) && s' == Apply(s, a);
    InvStep(s, a);
  }

  lemma NextStillThere(s: System, s': System, k: Key, mark: nat)
    requires Inv(s) && Next(s, s') && StillThere(s, k, mark)
    ensures StillThere(s', k, mark)
  {
    var a :| Enabled(s, a) && s' == Apply(s, a);
    StepEvolves(s, a);
    StillThereStable(s, s', k, mark);
  }

  lemma {:induction false} RunEvolves(n: nat, ageing: int, run: seq<System>, i: nat, j: nat, k: Key)
    requires IsRun(n, ageing, run) && i <= j < |run| && k in run[i].table
    ensures StillThere(run[j], k, |run[i].deleted|)
  {
    if i < j {
      RunEvolves(n, ageing, run, i, j - 1, k);
      RunKeepsInv(n, ageing, run, j - 1);
      assert StepAt(run, j - 1);
      NextStillThere(run[j - 1], run[j], k, |run[i].deleted|);
    }
  }

  /** A key that was in the map and is not any more was deleted in between by a reap that
      had read a timestamp older than the ageing time it had loaded. */
  lemma LossesAreExpiries(n: nat, ageing: int, run: seq<System>, i: nat, j: nat, k: Key)
    requires IsRun(n, ageing, run) && i <= j < |run| && k in run[i].table && k !in run[j].table
    ensures exists d :: |run[i].deleted| <= d < |run[j].deleted|
                        && run[j].deleted[d].key == k && Justified(run[j].deleted[d])
  {
    RunEvolves(n, ageing, run, i, j, k);
    RunKeepsInv(n, ageing, run, j);
    var d :| |run[i].deleted| <= d < |run[j].deleted| && run[j].deleted[d].key == k;
    assert Justified(run[j].deleted[d]);
  }

  /** When a Learn call ends, its key is in the map, unless a reap deleted it after that
      call read the map: possible on the path without the lock only. With the lock, the
      entry is the call's own. */
  lemma LearnEnds(s: System, t: nat, pick: Key)
    requires Inv(s) && Enabled(s, Do(t, pick)) && Apply(s, Do(t, pick)).pcs[t].LearnDone?
    ensures var s' := Apply(s, Do(t, pick));
            var LearnDone(l, mark) := s'.pcs[t];
            && (l.key !in s'.table ==> s.pcs[t].LearnRefresh? && DeletedSince(s', l.key, mark))
            && (!s.pcs[t].LearnRefresh? ==>
                  s'.table[l.key] < |s'.heap| && s'.heap[s'.table[l.key]].seen == l.now)
            && l in s'.taught
  {
    assert PcOk(s, s.pcs[t]);
    StepEvolves(s, Do(t, pick));
    if s.pcs[t].LearnRefresh? {
      StillThereStable(s, Apply(s, Do(t, pick)), s.pcs[t].l.key, s.pcs[t].mark);
    }
  }

  // ---- what a lookup answers ----

  /** The port the map holds for a key. */
  predicate Holds(s: System, k: Key, port: nat) {
    k in s.table && s.table[k] < |s.heap| && s.heap[s.table[k]].port == port
  }

  /** The port of an entry changes only while the entry is in the map. */
  lemma PortStep(s: System, s': System, e: Ref)
    requires Inv(s) && Next(s, s') && e < |s.heap|
    ensures && e < |s.keyOf| <= |s'.keyOf| == |s'.heap| && s'.keyOf[e] == s.keyOf[e]
            && (s'.heap[e].port == s.heap[e].port || Holds(s', s.keyOf[e], s'.heap[e].port))
  {
    var a :| Enabled(s, a) && s' == Apply(s, a);
    TableStep(s, a);
    if a.Do? {
      assert PcOk(s, s.pcs[a.t]);
    }
  }

  /** Whatever port an entry that was in the map has later, orphaned or not, the map has
      held that port for its key in between. */
  lemma {:induction false} PortWasHeld(n: nat, ageing: int, run: seq<System>, i: nat, m: nat, k: Key) returns (j: nat)
    requires IsRun(n, ageing, run) && i <= m < |run|
    requires Inv(run[i]) && k in run[i].table
    ensures run[i].table[k] < |run[m].heap| == |run[m].keyOf| && run[m].keyOf[run[i].table[k]] == k
    ensures i <= j <= m && Holds(run[j], k, run[m].heap[run[i].table[k]].port)
  {
    var e := run[i].table[k];
    if i == m {
      j := i;
    } else {
      j := PortWasHeld(n, ageing, run, i, m - 1, k);
      RunKeepsInv(n, ageing, run, m - 1);
      assert StepAt(run, m - 1);
      PortStep(run[m - 1], run[m], e);
      if run[m].heap[e].port != run[m - 1].heap[e].port {
        j := m;
      }
    }
  }

  /** Past its read of the map, on its way with the entry e. */
  predicate Carries(pc: Pc, k: Key, e: Ref) {
    (pc.LookupAge? || pc.LookupSeen? || pc.LookupPort?) && pc.k == k && pc.e == e
  }

  lemma ReadStep(s: System, s': System, t: nat)
    requires Next(s, s') && t < |s.pcs| && t < |s'.pcs| && s.pcs[t].LookupRead? && !s'.pcs[t].LookupRead?
    ensures var k := s.pcs[t].k;
            if k in s.table then Carries(s'.pcs[t], k, s.table[k]) else s'.pcs[t] == LookupDone(k, None)
  {
  }

  lemma CarryStep(s: System, s': System, t: nat, k: Key, e: Ref)
    requires Next(s, s') && t < |s.pcs| && t < |s'.pcs| && Carries(s.pcs[t], k, e)
    ensures var pc := s'.pcs[t];
            || Carries(pc, k, e)
            || pc == LookupDone(k, None)
            || (e < |s.heap| && pc == LookupDone(k, Some(s.heap[e].port)))
  {
    var a :| Enabled(s, a) && s' == Apply(s, a);
    if a.SetAgeing? || a.t != t {
      OthersWait(s, a, t);
    }
  }

  lemma OthersWait(s: System, a: Action, t: nat)
    requires Enabled(s, a) && t < |s.pcs| && (a.SetAgeing? || a.t != t)
    ensures Apply(s, a).pcs[t] == s.pcs[t]
  {
  }

  /** Goroutine t is in one Lookup of k: at i it is about to read the map, then it reads it,
      and at m it has its answer. */
  predicate IsLookup(run: seq<System>, i: nat, m: nat, t: nat, k: Key) {
    && i < m < |run| && (forall j :: i <= j <= m ==> t < |run[j].pcs|)
    && run[i].pcs[t].LookupRead? && run[i].pcs[t].k == k
    && (forall j :: i < j < m ==> run[j].pcs[t].Seeking() && !run[j].pcs[t].LookupRead?)
    && run[m].pcs[t].LookupDone?
  }

  lemma {:induction false} LookupCarries(n: nat, ageing: int, run: seq<System>, i: nat, m: nat, t: nat, k: Key, j: nat)
    requires IsRun(n, ageing, run) && IsLookup(run, i, m, t, k) && i < j < m
    ensures k in run[i].table && Carries(run[j].pcs[t], k, run[i].table[k])
  {
    assert StepAt(run, j - 1);
    if j == i + 1 {
      ReadStep(run[i], run[i + 1], t);
    } else {
      LookupCarries(n, ageing, run, i, m, t, k, j - 1);
      CarryStep(run[j - 1], run[j], t, k, run[i].table[k]);
    }
  }

  lemma LookupEnds(s: System, s': System, t: nat, k: Key, e: Ref)
    requires Next(s, s') && t < |s.pcs| && t < |s'.pcs| && Carries(s.pcs[t], k, e)
    requires s'.pcs[t].LookupDone? && s'.pcs[t].out.Some?
    ensures e < |s.heap| && s'.pcs[t] == LookupDone(k, Some(s.heap[e].port))
  {
    CarryStep(s, s', t, k, e);
  }

  /** A Lookup that ends with its read has found nothing. */
  lemma NoEntry(s: System, s': System, t: nat)
    requires Next(s, s') && t < |s.pcs| && t < |s'.pcs| && s.pcs[t].LookupRead? && s'.pcs[t].LookupDone?
    ensures s'.pcs[t].out.None?
  {
    ReadStep(s, s', t);
  }

  /** Whatever happens meanwhile, the port that a Lookup answers is one that the map held for
      the key at some moment between the call's read of the map and its end. */
  lemma AnswerWasHeld(n: nat, ageing: int, run: seq<System>, i: nat, m: nat, t: nat, k: Key)
    requires IsRun(n, ageing, run) && IsLookup(run, i, m, t, k) && run[m].pcs[t].out.Some?
    ensures run[m].pcs[t].k == k && exists j :: i <= j < m && Holds(run[j], k, run[m].pcs[t].out.value)
  {
    assert StepAt(run, m - 1);
    if m > i + 1 {
      LookupCarries(n, ageing, run, i, m, t, k, m - 1);
      RunKeepsInv(n, ageing, run, i);
      var j := PortWasHeld(n, ageing, run, i, m - 1, k);
      LookupEnds(run[m - 1], run[m], t, k, run[i].table[k]);
    } else {
      NoEntry(run[i], run[m], t);
    }
  }
}
