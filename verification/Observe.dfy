/**
 The management view of a running switch: snapshots of the counters, the rates computed
 from two of them, and the listing of the learning table.
 */
module Observe {
  import opened Stats
  import opened Forwarding
  import P = Pipeline
  import S = SwitchSteps

  // ---- counters over time ----

  /** The counters of all ports at successive moments; they only grow. */
  predicate Growing(times: seq<seq<PortStats>>, ports: nat) {
    && (forall i :: 0 <= i < |times| ==> |times[i]| == ports)
    && (forall i, j, p :: 0 <= i <= j < |times| && 0 <= p < ports ==> P.NoLess(times[i][p], times[j][p]))
  }

  function CountersOf(run: seq<S.World>): (times: seq<seq<PortStats>>)
    ensures |times| == |run| && forall i :: 0 <= i < |run| ==> times[i] == run[i].pipe.stats
  {
    seq(|run|, i requires 0 <= i < |run| => run[i].pipe.stats)
  }

  lemma RunShape(net: Net, run: seq<S.World>, i: nat)
    requires S.IsRun(net, run) && i < |run|
    ensures |run[i].pipe.stats| == |net.ports|
  {
    S.RunKeepsInv(net, run, i);
  }

  predicate Sized(run: seq<S.World>, ports: nat) {
    forall i :: 0 <= i < |run| ==> |run[i].pipe.stats| == ports
  }

  lemma {:induction false} RunNoLess(net: Net, run: seq<S.World>, i: nat, j: nat, p: nat)
    requires S.IsRun(net, run) && Sized(run, |net.ports|) && i <= j < |run| && p < |net.ports|
    ensures P.NoLess(run[i].pipe.stats[p], run[j].pipe.stats[p])
  {
    if i < j {
      RunNoLess(net, run, i, j - 1, p);
      assert S.StepAt(net, run, j - 1);
      OneStep(net, run[j - 1], run[j], p);
    }
  }

  lemma OneStep(net: Net, w: S.World, w': S.World, p: nat)
    requires S.Next(net, w, w') && p < |w.pipe.stats|
    ensures |w'.pipe.stats| == |w.pipe.stats| && P.NoLess(w.pipe.stats[p], w'.pipe.stats[p])
  {
    var a :| S.Enabled(net, w, a) && w' == S.Apply(net, w, a);
    if a.pipe.Some? {
      P.CountersGrow(net, w.pipe, a.pipe.value);
    }
  }

  /** In every run of the switch every counter only grows. */
  lemma CountersOnlyGrow(net: Net, run: seq<S.World>)
    requires S.IsRun(net, run)
    ensures Growing(CountersOf(run), |net.ports|)
  {
    var times := CountersOf(run);
    forall i | 0 <= i < |run|
      ensures |run[i].pipe.stats| == |net.ports|
    {
      RunShape(net, run, i);
    }
    forall i, j, p | 0 <= i <= j < |times| && 0 <= p < |net.ports|
      ensures P.NoLess(times[i][p], times[j][p])
    {
      RunNoLess(net, run, i, j, p);
    }
  }

  // ---- snapshots ----

  datatype Snapshot = Snapshot(name: string, stats: PortStats)

  /** Time passes between any two loads. */
  method Later(now: nat, end: nat) returns (t: nat)
    requires now <= end
    ensures now <= t <= end
  {
    t :| now <= t <= end;
  }

  /** These rows are the ports in order, and each value is one that the port's counter had
      between two moments, in the sense that it lies between its values at both. */
  predicate Observes(names: seq<string>, times: seq<seq<PortStats>>, start: nat, end: nat, out: seq<Snapshot>) {
    && start < |times| && end < |times| && |out| == |names| == |times[start]| == |times[end]|
    && forall p :: 0 <= p < |names| ==>
         && out[p].name == names[p]
         && P.NoLess(times[start][p], out[p].stats) && P.NoLess(out[p].stats, times[end][p])
  }

  /** StatsSnapshot loads the counters one by one while the switch runs on. Each loaded
      value is one the counter had between the start and the end of the call. */
  method StatsSnapshot(names: seq<string>, times: seq<seq<PortStats>>, start: nat)
    returns (out: seq<Snapshot>, end: nat)
    requires start < |times| && Growing(times, |names|)
    ensures start <= end < |times| && Observes(names, times, start, end, out)
  {
    out, end := [], start;
    for p := 0 to |names|
      invariant start <= end < |times| && |out| == p
      invariant forall q :: 0 <= q < p ==>
                  && out[q].name == names[q]
                  && P.NoLess(times[start][q], out[q].stats) && P.NoLess(out[q].stats, times[end][q])
    {
      var before := end;
      var last := |times| - 1;
      end := Later(end, last);
      var rxFrames := times[end][p].rxFrames;
      var t1 := end;
      end := Later(end, last);
      var rxBytes := times[end][p].rxBytes;
      var t2 := end;
      end := Later(end, last);
      var txFrames := times[end][p].txFrames;
      var t3 := end;
      end := Later(end, last);
      var txBytes := times[end][p].txBytes;
      var t4 := end;
      end := Later(end, last);
      var flooded := times[end][p].flooded;
      var t5 := end;
      end := Later(end, last);
      var forwardDrop := times[end][p].forwardDrop;
      var t6 := end;
      end := Later(end, last);
      var txDrop := times[end][p].txDrop;
      var s := PortStats(rxFrames, rxBytes, txFrames, txBytes, flooded, forwardDrop, txDrop);
      Within(times, |names|, p, start, [t1, t2, t3, t4, t5, t6, end], s);
      forall q | 0 <= q < p
        ensures P.NoLess(out[q].stats, times[end][q])
      {
        assert P.NoLess(times[before][q], times[end][q]);
      }
      out := out + [Snapshot(names[p], s)];
    }
  }

  lemma Within(times: seq<seq<PortStats>>, ports: nat, p: nat, start: nat, t: seq<nat>, s: PortStats)
    requires Growing(times, ports) && p < ports && |t| == 7 && start <= t[0] && t[6] < |times|
    requires t[0] <= t[1] <= t[2] <= t[3] <= t[4] <= t[5] <= t[6]
    requires s == PortStats(times[t[0]][p].rxFrames, times[t[1]][p].rxBytes, times[t[2]][p].txFrames,
                            times[t[3]][p].txBytes, times[t[4]][p].flooded, times[t[5]][p].forwardDrop, times[t[6]][p].txDrop)
    ensures P.NoLess(times[start][p], s) && P.NoLess(s, times[t[6]][p])
  {
    forall i | 0 <= i < 7
      ensures P.NoLess(times[start][p], times[t[i]][p]) && P.NoLess(times[t[i]][p], times[t[6]][p])
    {
    }
  }

  /** Of two snapshots of one run of the switch, the second taken after the first, the first
      is nowhere above the second. */
  lemma SnapshotsOrdered(net: Net, run: seq<S.World>, names: seq<string>,
                         start: nat, end: nat, out: seq<Snapshot>, start': nat, end': nat, out': seq<Snapshot>)
    requires S.IsRun(net, run) && |names| == |net.ports| && end <= start'
    requires start <= end < |run| && Observes(names, CountersOf(run), start, end, out)
    requires start' <= end' < |run| && Observes(names, CountersOf(run), start', end', out')
    ensures forall p :: 0 <= p < |names| ==>
              out[p].name == out'[p].name && P.NoLess(out[p].stats, out'[p].stats)
  {
    CountersOnlyGrow(net, run);
    var times := CountersOf(run);
    forall p | 0 <= p < |names|
      ensures P.NoLess(out[p].stats, out'[p].stats)
    {
      assert P.NoLess(times[end][p], times[start'][p]);
    }
  }

  // ---- rates ----

  /** Counters that went backwards read as no traffic. */
  function PerSec(now: nat, prev: nat, elapsed: real): real
    requires elapsed > 0.0
  {
    if now < prev then 0.0 else (now - prev) as real / elapsed
  }

  datatype Rate = Rate(name: string, rxFrames: real, rxBytes: real, txFrames: real, txBytes: real, forwardDrop: real, txDrop: real)

  function RateOf(name: string, now: PortStats, prev: PortStats, elapsed: real): Rate
    requires elapsed > 0.0
  {
    Rate(name,
         PerSec(now.rxFrames, prev.rxFrames, elapsed), PerSec(now.rxBytes, prev.rxBytes, elapsed),
         PerSec(now.txFrames, prev.txFrames, elapsed), PerSec(now.txBytes, prev.txBytes, elapsed),
         PerSec(now.forwardDrop, prev.forwardDrop, elapsed), PerSec(now.txDrop, prev.txDrop, elapsed))
  }

  /** The last row of that name; a port that is not there counts from zero. */
  function Named(rows: seq<Snapshot>, name: string): PortStats {
    if rows == [] then ZERO
    else if rows[|rows| - 1].name == name then rows[|rows| - 1].stats
    else Named(rows[..|rows| - 1], name)
  }

  function Window(elapsed: real): (w: real)
    ensures w > 0.0
    ensures elapsed > 0.0 ==> w == elapsed
  {
    if elapsed <= 0.0 then 1.0 else elapsed
  }

  method RenderRate(first: seq<Snapshot>, second: seq<Snapshot>, elapsed: real) returns (rows: seq<Rate>)
    ensures |rows| == |second|
    ensures forall i :: 0 <= i < |second| ==>
              rows[i] == RateOf(second[i].name, second[i].stats, Named(first, second[i].name), Window(elapsed))
  {
    var window := if elapsed <= 0.0 then 1.0 else elapsed;
    var prev: map<string, PortStats> := map[];
    for i := 0 to |first|
      invariant forall name :: (if name in prev then prev[name] else ZERO) == Named(first[..i], name)
    {
      assert first[..i + 1][..i] == first[..i];
      prev := prev[first[i].name := first[i].stats];
    }
    assert first[..|first|] == first;
    rows := [];
    for i := 0 to |second|
      invariant |rows| == i
      invariant forall j :: 0 <= j < i ==>
                  rows[j] == RateOf(second[j].name, second[j].stats, Named(first, second[j].name), window)
    {
      var p := if second[i].name in prev then prev[second[i].name] else ZERO;
      rows := rows + [RateOf(second[i].name, second[i].stats, p, window)];
    }
  }

  predicate Distinct(rows: seq<Snapshot>) {
    forall i, j :: 0 <= i < j < |rows| ==> rows[i].name != rows[j].name
  }

  lemma {:induction false} NamedFinds(rows: seq<Snapshot>, i: nat)
    requires Distinct(rows) && i < |rows|
    ensures Named(rows, rows[i].name) == rows[i].stats
  {
    if i < |rows| - 1 {
      NamedFinds(rows[..|rows| - 1], i);
    }
  }

  /** Two snapshots of the same ports, one after the other: each port is paired with
      itself and no rate is clamped, so that rate times window is exactly what the port
      counted in between. */
  lemma RatesAreDeltas(first: seq<Snapshot>, second: seq<Snapshot>, elapsed: real, i: nat)
    requires |first| == |second| && Distinct(first) && i < |first|
    requires first[i].name == second[i].name && P.NoLess(first[i].stats, second[i].stats)
    ensures var w := Window(elapsed);
            var r := RateOf(second[i].name, second[i].stats, Named(first, second[i].name), w);
            && r.rxFrames * w == (second[i].stats.rxFrames - first[i].stats.rxFrames) as real
            && r.rxBytes * w == (second[i].stats.rxBytes - first[i].stats.rxBytes) as real
            && r.txFrames * w == (second[i].stats.txFrames - first[i].stats.txFrames) as real
            && r.txBytes * w == (second[i].stats.txBytes - first[i].stats.txBytes) as real
            && r.forwardDrop * w == (second[i].stats.forwardDrop - first[i].stats.forwardDrop) as real
            && r.txDrop * w == (second[i].stats.txDrop - first[i].stats.txDrop) as real
  {
    NamedFinds(first, i);
    var w := Window(elapsed);
    var now, prev := second[i].stats, first[i].stats;
    Unscale(now.rxFrames, prev.rxFrames, w);
    Unscale(now.rxBytes, prev.rxBytes, w);
    Unscale(now.txFrames, prev.txFrames, w);
    Unscale(now.txBytes, prev.txBytes, w);
    Unscale(now.forwardDrop, prev.forwardDrop, w);
    Unscale(now.txDrop, prev.txDrop, w);
  }

  /** A counter that went backwards reads as no traffic. */
  lemma BackwardsIsZero(now: nat, prev: nat, w: real)
    requires now < prev && w > 0.0
    ensures PerSec(now, prev, w) == 0.0
  {
  }

  /** A port that was not there before counts from zero; of several rows of one name, the last
      counts. */
  lemma {:induction false} NamedIsLast(rows: seq<Snapshot>, name: string)
    ensures (forall i :: 0 <= i < |rows| ==> rows[i].name != name) ==> Named(rows, name) == PortStats(0, 0, 0, 0, 0, 0, 0)
    ensures forall i :: 0 <= i < |rows| && rows[i].name == name && (forall j :: i < j < |rows| ==> rows[j].name != name) ==>
              Named(rows, name) == rows[i].stats
  {
    if rows != [] {
      NamedIsLast(rows[..|rows| - 1], name);
    }
  }

  lemma Unscale(now: nat, prev: nat, w: real)
    requires prev <= now && w > 0.0
    ensures PerSec(now, prev, w) * w == (now - prev) as real
  {
  }

  /** Rate times window is at least what the port counted between the two snapshots (from
      b to c), and at most what it counted from the first's start to the second's end. */
  predicate RateFits(r: Rate, w: real, a: PortStats, b: PortStats, c: PortStats, d: PortStats) {
    && (c.rxFrames - b.rxFrames) as real <= r.rxFrames * w <= (d.rxFrames - a.rxFrames) as real
    && (c.rxBytes - b.rxBytes) as real <= r.rxBytes * w <= (d.rxBytes - a.rxBytes) as real
    && (c.txFrames - b.txFrames) as real <= r.txFrames * w <= (d.txFrames - a.txFrames) as real
    && (c.txBytes - b.txBytes) as real <= r.txBytes * w <= (d.txBytes - a.txBytes) as real
    && (c.forwardDrop - b.forwardDrop) as real <= r.forwardDrop * w <= (d.forwardDrop - a.forwardDrop) as real
    && (c.txDrop - b.txDrop) as real <= r.txDrop * w <= (d.txDrop - a.txDrop) as real
  }

  lemma DeltasFit(first: seq<Snapshot>, second: seq<Snapshot>, elapsed: real, i: nat,
                  a: PortStats, b: PortStats, c: PortStats, d: PortStats)
    requires |first| == |second| && Distinct(first) && i < |first| && first[i].name == second[i].name
    requires P.NoLess(a, first[i].stats) && P.NoLess(first[i].stats, b) && P.NoLess(b, c)
    requires P.NoLess(c, second[i].stats) && P.NoLess(second[i].stats, d)
    ensures var w := Window(elapsed);
            RateFits(RateOf(second[i].name, second[i].stats, Named(first, second[i].name), w), w, a, b, c, d)
  {
    RatesAreDeltas(first, second, elapsed, i);
  }

  /** The live rates: two snapshots of the running switch, and one row for each port, in
      order, whose rates are true to the counters of that port. */
  method ShowRate(names: seq<string>, times: seq<seq<PortStats>>, start: nat, elapsed: real)
    returns (rows: seq<Rate>, firstEnd: nat, secondStart: nat, end: nat)
    requires start < |times| && Growing(times, |names|)
    requires forall i, j :: 0 <= i < j < |names| ==> names[i] != names[j]
    ensures start <= firstEnd <= secondStart <= end < |times| && |rows| == |names|
    ensures forall p :: 0 <= p < |names| ==>
              && rows[p].name == names[p]
              && RateFits(rows[p], Window(elapsed), times[start][p], times[firstEnd][p], times[secondStart][p], times[end][p])
  {
    var first, second;
    first, firstEnd := StatsSnapshot(names, times, start);
    secondStart := Later(firstEnd, |times| - 1);
    second, end := StatsSnapshot(names, times, secondStart);
    rows := RenderRate(first, second, elapsed);
    forall p | 0 <= p < |names|
      ensures rows[p].name == names[p]
      ensures RateFits(rows[p], Window(elapsed), times[start][p], times[firstEnd][p], times[secondStart][p], times[end][p])
    {
      DeltasFit(first, second, elapsed, p, times[start][p], times[firstEnd][p], times[secondStart][p], times[end][p]);
    }
  }

  // ---- the order of the listing ----

  predicate Below(s: string, t: string) {
    if t == "" then false
    else if s == "" then true
    else s[0] < t[0] || (s[0] == t[0] && Below(s[1..], t[1..]))
  }

  /** Below is the order of dictionaries: the texts agree up to some place, where the first
      ends or has the smaller character. */
  lemma {:induction false} BelowMeans(s: string, t: string)
    ensures Below(s, t) <==> exists i :: DiffersAt(s, t, i)
    decreases |s|
  {
    if s != "" && t != "" {
      BelowMeans(s[1..], t[1..]);
      if s[0] == t[0] {
        if i :| DiffersAt(s[1..], t[1..], i) {
          assert s[..i + 1] == [s[0]] + s[1..][..i] && t[..i + 1] == [t[0]] + t[1..][..i];
          assert DiffersAt(s, t, i + 1);
        }
        if i :| DiffersAt(s, t, i) {
          assert i > 0 && s[1..][..i - 1] == s[..i][1..] && t[1..][..i - 1] == t[..i][1..];
          assert DiffersAt(s[1..], t[1..], i - 1);
        }
      } else {
        assert DiffersAt(s, t, 0) <==> s[0] < t[0];
        assert forall i :: i > 0 && DiffersAt(s, t, i) ==> s[..i][0] == t[..i][0];
      }
    } else {
      assert DiffersAt(s, t, 0) <==> s == "" && t != "";
    }
  }

  predicate DiffersAt(s: string, t: string, i: int) {
    && 0 <= i <= |s| && i < |t| && s[..i] == t[..i]
    && (i == |s| || s[i] < t[i])
  }

  /** The order of the listing: by VLAN, then by the text of the address. */
  predicate Before(a: FDBEntry, b: FDBEntry) {
    if a.vid != b.vid then a.vid < b.vid else Below(a.mac, b.mac)
  }

  predicate Ordered(rows: seq<FDBEntry>) {
    forall i, j :: 0 <= i < j < |rows| ==> !Before(rows[j], rows[i])
  }

  /** No two rows are for the same address of the same VLAN. */
  predicate Unrepeated(rows: seq<FDBEntry>) {
    forall i, j :: 0 <= i < j < |rows| ==> (rows[i].vid, rows[i].mac) != (rows[j].vid, rows[j].mac)
  }

  lemma {:induction false} BelowIsTotal(s: string, t: string)
    ensures s == t || Below(s, t) || Below(t, s)
    ensures !(Below(s, t) && Below(t, s)) && !Below(s, s)
    decreases |s|
  {
    if s != "" && t != "" {
      BelowIsTotal(s[1..], t[1..]);
      BelowIsTotal(s[1..], s[1..]);
      assert s == [s[0]] + s[1..] && t == [t[0]] + t[1..];
    } else if s != "" {
      BelowIsTotal(s[1..], s[1..]);
    }
  }

  /** The rows of a snapshot are unrepeated: different keys show as different rows. */
  lemma RowsUnrepeated(keys: seq<Key>, rows: seq<FDBEntry>)
    requires |rows| == |keys| && forall i, j :: 0 <= i < j < |keys| ==> keys[i] != keys[j]
    requires forall i :: 0 <= i < |rows| ==> rows[i].vid == keys[i].vid && rows[i].mac == MacText(keys[i].mac)
    ensures Unrepeated(rows)
  {
    forall i, j | 0 <= i < j < |rows|
      ensures (rows[i].vid, rows[i].mac) != (rows[j].vid, rows[j].mac)
    {
      if rows[i].mac == rows[j].mac {
        MacTextInjective(keys[i].mac, keys[j].mac);
      }
    }
  }

  lemma FirstIsLeast(a: seq<FDBEntry>, b: seq<FDBEntry>)
    requires Ordered(a) && Ordered(b) && Unrepeated(a) && multiset(a) == multiset(b) && a != []
    ensures b != [] && a[0] == b[0]
  {
    assert a[0] in multiset(b) && b != [];
    assert b[0] in multiset(a);
    var i :| 0 <= i < |b| && b[i] == a[0];
    var j :| 0 <= j < |a| && a[j] == b[0];
    if i != 0 && j != 0 {
      assert !Before(b[i], b[0]) && !Before(a[j], a[0]);
      BelowIsTotal(a[0].mac, b[0].mac);
    }
  }

  lemma Tail(rows: seq<FDBEntry>)
    requires Ordered(rows) && rows != []
    ensures Ordered(rows[1..])
    ensures Unrepeated(rows) ==> Unrepeated(rows[1..])
    ensures multiset(rows[1..]) == multiset(rows) - multiset{rows[0]}
  {
    assert rows == [rows[0]] + rows[1..];
  }

  /** The listing does not depend on the order the table was walked in: sorted, the same
      rows are the same listing. */
  lemma {:induction false} ListingIsUnique(a: seq<FDBEntry>, b: seq<FDBEntry>)
    requires Ordered(a) && Ordered(b) && Unrepeated(a) && multiset(a) == multiset(b)
    ensures a == b
  {
    if a == [] {
      assert |multiset(b)| == |b|;
    } else {
      FirstIsLeast(a, b);
      Tail(a);
      Tail(b);
      ListingIsUnique(a[1..], b[1..]);
      assert a == [a[0]] + a[1..] && b == [b[0]] + b[1..];
    }
  }
}
