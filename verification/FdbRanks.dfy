/**
 How many steps a call on the learning table has left at most, if it is not kept waiting.
 */
module FdbRanks {
  import opened Forwarding
  import opened FdbSteps

  /** Steps left in a Learn or Lookup call. Inserting a key costs a waiting reap two more
      steps, and so is paid for. */
  function CallRank(pc: Pc): nat {
    match pc
    case LearnRead(_) => 7
    case LearnCompare(_, _, _) => 6
    case LearnLock(_, _) => 5
    case LearnInsert(_, _) => 4
    case LearnWritePort(_, _, _) => 2
    case LearnWriteSeen(_, _, _) => 1
    case LearnRefresh(_, _, _) => 1
    case LookupRead(_, _) => 4
    case LookupAge(_, _, _) => 3
    case LookupSeen(_, _, _, _) => 2
    case LookupPort(_, _, _) => 1
    case _ => 0
  }

  /** Steps left in a reap, of a table with the given number of keys. */
  function ReapRank(pc: Pc, keys: nat): nat {
    match pc
    case ReapAge(_) => 2 * keys + 3
    case ReapLock(_, _) => 2 * keys + 2
    case ReapScan(_, _, todo) => 2 * |todo| + 1
    case ReapDelete(_, _, todo, _, _) => 2 * |todo|
    case _ => 0
  }

  /** A step of a receive goroutine on the table lowers its rank, by three at least if it
      adds a key. */
  lemma CallDecreases(s: System, t: nat, pick: Key)
    requires Enabled(s, Do(t, pick)) && CallRank(s.pcs[t]) > 0
    ensures var s' := Apply(s, Do(t, pick));
            && CallRank(s'.pcs[t]) < CallRank(s.pcs[t])
            && (s'.table != s.table ==> CallRank(s'.pcs[t]) + 3 <= CallRank(s.pcs[t]))
            && |s'.table| <= |s.table| + if s'.table == s.table then 0 else 1
  {
  }

  lemma ScanDecreases(s: System, t: nat, pick: Key)
    requires Enabled(s, Do(t, pick)) && s.pcs[t].ReapScan?
    ensures var s' := Apply(s, Do(t, pick));
            ReapRank(s'.pcs[t], |s'.table|) < ReapRank(s.pcs[t], |s.table|)
  {
    if s.pcs[t].todo != {} {
      OneLess(s.pcs[t].todo, pick);
    }
  }

  lemma DeleteDecreases(s: System, t: nat, pick: Key)
    requires Enabled(s, Do(t, pick)) && s.pcs[t].ReapDelete? && s.pcs[t].victim in s.pcs[t].todo
    ensures var s' := Apply(s, Do(t, pick));
            ReapRank(s'.pcs[t], |s'.table|) < ReapRank(s.pcs[t], |s.table|)
  {
    OneLess(s.pcs[t].todo, s.pcs[t].victim);
  }

  lemma StartDecreases(s: System, t: nat, pick: Key)
    requires Enabled(s, Do(t, pick)) && (s.pcs[t].ReapAge? || s.pcs[t].ReapLock?)
    ensures var s' := Apply(s, Do(t, pick));
            ReapRank(s'.pcs[t], |s'.table|) < ReapRank(s.pcs[t], |s.table|)
  {
    assert |s.table.Keys| == |s.table|;
  }

  /** A step of a reap lowers its rank. */
  lemma ReapDecreases(s: System, t: nat, pick: Key)
    requires Enabled(s, Do(t, pick)) && s.pcs[t].Reaping() && TableOk(s) && PcOk(s, s.pcs[t])
    ensures var s' := Apply(s, Do(t, pick));
            ReapRank(s'.pcs[t], |s'.table|) < ReapRank(s.pcs[t], |s.table|)
  {
    if s.pcs[t].ReapScan? {
      ScanDecreases(s, t, pick);
    } else if s.pcs[t].ReapDelete? {
      DeleteDecreases(s, t, pick);
    } else {
      StartDecreases(s, t, pick);
    }
  }

  lemma OneLess(todo: set<Key>, k: Key)
    requires k in todo
    ensures |todo - {k}| == |todo| - 1
  {
  }
}
