/**
 The forwarding engine as an object: construction from a configuration, and the
 handling of one received frame. Handles are an oracle for whether a write succeeds.
 */
module Switching {
  import opened Wrappers
  import opened Wire
  import opened Config
  import opened Forwarding
  import opened Fdb
  import opened Stats

  /** A port as construction leaves it. Its counters are element `idx` of the engine's. */
  datatype Port = Port(idx: nat, name: string, spec: PortSpec, trunkVIDs: seq<uint16>)

  function PortOf(i: nat, c: PortConfig): Port {
    Port(i, c.name, SpecOf(c), if SpecOf(c).role.Trunk? then c.trunk else [])
  }

  function PortsUpTo(cfg: seq<PortConfig>, n: nat): (ports: seq<Port>)
    requires n <= |cfg|
    ensures |ports| == n && forall i :: 0 <= i < n ==> ports[i] == PortOf(i, cfg[i])
  {
    seq(n, i requires 0 <= i < n => PortOf(i, cfg[i]))
  }

  /** One write to a handle, and whether it succeeded. */
  datatype Attempt = Attempt(emission: Emission, ok: bool)

  function Emitted(sent: seq<Attempt>): seq<Emission> {
    seq(|sent|, i requires 0 <= i < |sent| => sent[i].emission)
  }

  // ---- counters ----

  type Counters = seq<PortStats>

  function CountRx(c: Counters, p: nat, frame: Bytes): Counters
    requires p < |c|
  {
    c[p := c[p].(rxFrames := c[p].rxFrames + 1, rxBytes := c[p].rxBytes + |frame|)]
  }

  function CountDrop(c: Counters, p: nat): Counters
    requires p < |c|
  {
    c[p := c[p].(forwardDrop := c[p].forwardDrop + 1)]
  }

  function CountFlood(c: Counters, p: nat): Counters
    requires p < |c|
  {
    c[p := c[p].(flooded := c[p].flooded + 1)]
  }

  function CountWrite(c: Counters, at: Attempt): Counters {
    var q := at.emission.port;
    if q >= |c| then c
    else if at.ok then
      c[q := c[q].(txFrames := c[q].txFrames + 1, txBytes := c[q].txBytes + |at.emission.pkt|)]
    else
      c[q := c[q].(txDrop := c[q].txDrop + 1)]
  }

  function CountWrites(c: Counters, sent: seq<Attempt>): (r: Counters)
    ensures |r| == |c|
  {
    if sent == [] then c else CountWrite(CountWrites(c, sent[..|sent| - 1]), sent[|sent| - 1])
  }

  /** The count of what becomes of a frame: dropped, flooded, or neither. */
  function CountRoute(c: Counters, net: Net, s: State, p: nat, frame: Bytes, now: int): Counters
    requires p < |c| && p < |net.ports|
  {
    match Admit(net.ports[p], frame)
    case None => CountDrop(c, p)
    case Some(a) =>
      if Choose(Learned(s.table, a, p, now), s.ageing, a, now).Flood? then CountFlood(c, p) else c
  }

  /** The counters after one frame: received, routed, and one count for every write. */
  function CountFrame(c: Counters, net: Net, s: State, p: nat, frame: Bytes, now: int, sent: seq<Attempt>): Counters
    requires p < |c| && p < |net.ports|
  {
    CountWrites(CountRoute(CountRx(c, p, frame), net, s, p, frame, now), sent)
  }

  // ---- the engine ----

  /** The list a map of lists holds for a key; a missing key reads as empty. */
  function ListAt(m: map<uint16, seq<nat>>, vid: uint16): seq<nat> {
    if vid in m then m[vid] else []
  }

  class Engine {
    const ports: seq<Port>
    const stats: array<PortStats>
    const fdb: FDB
    const vidMembers: map<uint16, seq<nat>>
    const vlanAware: bool
    const minLen: nat
    ghost const cfg: seq<PortConfig>

    constructor (ports: seq<Port>, vidMembers: map<uint16, seq<nat>>, vlanAware: bool, minLen: nat, ghost cfg: seq<PortConfig>)
      ensures this.ports == ports && this.vidMembers == vidMembers && this.vlanAware == vlanAware
      ensures this.minLen == minLen && this.cfg == cfg
      ensures fresh(fdb) && fdb.Valid() && fdb.contents == map[] && fdb.ageing == 0
      ensures fresh(stats) && stats[..] == seq(|ports|, i => ZERO)
    {
      this.ports, this.vidMembers, this.vlanAware, this.minLen, this.cfg := ports, vidMembers, vlanAware, minLen, cfg;
      fdb := new FDB();
      stats := new PortStats[|ports|](i => ZERO);
    }

    ghost function Net(): Net {
      Forwarding.Net(SpecsOf(cfg), minLen)
    }

    ghost function State(): State
      reads fdb
    {
      Forwarding.State(fdb.contents, fdb.ageing)
    }

    /** The ports mirror the configuration, position by position, with a counter each. */
    ghost predicate Mirrors() {
      ports == PortsUpTo(cfg, |cfg|) && stats.Length == |cfg|
    }

    /** What construction establishes, once and for all: in particular, the lists are the
        members. */
    ghost predicate Wired() {
      && WellFormed(cfg, |cfg|)
      && Mirrors()
      && (forall v :: ListAt(vidMembers, v) == Members(SpecsOf(cfg), v))
      && vlanAware == !SpecOf(cfg[0]).role.Plain?
    }

    /** What every call keeps: the table names members only. */
    ghost predicate Valid()
      reads fdb, fdb.table.Values
    {
      fdb.Valid() && Secure(SpecsOf(cfg), fdb.contents)
    }

    // ---- receiving a frame ----

    method AddReceived(p: nat, frame: Bytes)
      requires Mirrors() && p < |ports|
      modifies stats
      ensures State() == old(State()) && stats[..] == CountRx(old(stats[..]), p, frame)
      ensures Valid() == old(Valid()) && fdb.table == old(fdb.table)
    {
      stats[p] := stats[p].(rxFrames := stats[p].rxFrames + 1, rxBytes := stats[p].rxBytes + |frame|);
    }

    method AddDropped(p: nat)
      requires Mirrors() && p < |ports|
      modifies stats
      ensures State() == old(State()) && stats[..] == CountDrop(old(stats[..]), p)
      ensures Valid() == old(Valid()) && fdb.table == old(fdb.table)
    {
      stats[p] := stats[p].(forwardDrop := stats[p].forwardDrop + 1);
    }

    method AddFlooded(p: nat)
      requires Mirrors() && p < |ports|
      modifies stats
      ensures State() == old(State()) && stats[..] == CountFlood(old(stats[..]), p)
    {
      stats[p] := stats[p].(flooded := stats[p].flooded + 1);
    }

    method WritePacketData(out: nat, pkt: Bytes) returns (ok: bool) {
      ok := *;
    }

    method Emit(out: nat, a: Admitted, frame: Bytes) returns (at: Attempt)
      requires Mirrors() && out < |ports|
      modifies stats
      ensures State() == old(State())
      ensures at.emission == EmissionFor(Net(), a, frame, out)
      ensures stats[..] == CountWrite(old(stats[..]), at)
    {
      var pkt;
      var outWantsTag := ports[out].spec.role == Trunk;
      var hasTag := a.view.tag.Some?;
      if outWantsTag == hasTag {
        pkt := frame;
      } else if outWantsTag {
        pkt := BuildTagged(a.view.dst, a.view.src, a.vid, a.view.innerType, a.view.payload, minLen);
      } else {
        pkt := BuildUntagged(a.view.dst, a.view.src, a.view.innerType, a.view.payload, minLen);
      }
      var ok := WritePacketData(out, pkt);
      at := Attempt(Emission(out, pkt), ok);
      if !ok {
        stats[out] := stats[out].(txDrop := stats[out].txDrop + 1);
        return;
      }
      stats[out] := stats[out].(txFrames := stats[out].txFrames + 1, txBytes := stats[out].txBytes + |pkt|);
    }

    /** Split horizon: a known destination behind the ingress port gets nothing. */
    method SendKnown(out: nat, p: nat, a: Admitted, frame: Bytes) returns (sent: seq<Attempt>)
      requires Mirrors() && out < |ports|
      modifies stats
      ensures State() == old(State())
      ensures Emitted(sent) == EmissionsFor(Net(), a, frame, Targets(Net().ports, Known(out), a.vid, p))
      ensures stats[..] == CountWrites(old(stats[..]), sent)
    {
      sent := [];
      if out != p {
        ghost var before := stats[..];
        var at := Emit(out, a, frame);
        OneMore(before, sent, at);
        sent := sent + [at];
      }
    }

    /** Flooding: one write for every member but the ingress port. */
    method SendFlood(p: nat, a: Admitted, frame: Bytes) returns (sent: seq<Attempt>)
      requires Wired() && p < |ports|
      modifies stats
      ensures State() == old(State())
      ensures Emitted(sent) == EmissionsFor(Net(), a, frame, Targets(Net().ports, Flood, a.vid, p))
      ensures stats[..] == CountWrites(CountFlood(old(stats[..]), p), sent)
    {
      AddFlooded(p);
      var list := if a.vid in vidMembers then vidMembers[a.vid] else [];
      assert list == ListAt(vidMembers, a.vid);
      MembersInRange(Net().ports, a.vid);
      sent := SendToOthers(list, p, a, frame);
    }

    method SendToOthers(list: seq<nat>, p: nat, a: Admitted, frame: Bytes) returns (sent: seq<Attempt>)
      requires Mirrors() && forall i :: 0 <= i < |list| ==> list[i] < |ports|
      modifies stats
      ensures State() == old(State())
      ensures Emitted(sent) == EmissionsFor(Net(), a, frame, Without(list, p))
      ensures stats[..] == CountWrites(old(stats[..]), sent)
    {
      sent := [];
      ghost var net, before, outs := Net(), stats[..], Without(list, p);
      var i := 0;
      while i < |list|
        invariant 0 <= i <= |list|
        invariant State() == old(State())
        invariant StartsWith(sent, net, a, frame, outs) && Without(list[i..], p) == outs[|sent|..]
        invariant stats[..] == CountWrites(before, sent)
      {
        Peel(list, i, p, outs, |sent|);
        var idx := list[i];
        if idx != p {
          var at := Emit(idx, a, frame);
          OneMore(before, sent, at);
          sent := sent + [at];
        }
        i := i + 1;
      }
      SameEmissions(sent, net, a, frame, outs);
    }

    /** After learning, forwarding looks the destination up, and sends the frame to its
        port or floods it. */
    method Deliver(p: nat, a: Admitted, frame: Bytes, now: int) returns (sent: seq<Attempt>, ghost route: Route)
      requires Wired() && Valid() && p < |ports|
      modifies stats
      ensures State() == old(State())
      ensures route == old(Choose(State().table, State().ageing, a, now))
      ensures Emitted(sent) == EmissionsFor(Net(), a, frame, Targets(Net().ports, route, a.vid, p))
      ensures stats[..] == CountWrites(if route.Flood? then CountFlood(old(stats[..]), p) else old(stats[..]), sent)
    {
      route := Choose(fdb.contents, fdb.ageing, a, now);
      if IsUnicast(a.view.dst) {
        var out := fdb.Lookup(a.vid, a.view.dst, now);
        if out.Some? {
          sent := SendKnown(out.value, p, a, frame);
          return;
        }
      }
      sent := SendFlood(p, a, frame);
    }

    /** Learning: multicast sources are not learned. */
    method LearnSource(p: nat, a: Admitted, now: int)
      requires Wired() && Valid() && p < |ports| && ports[p].spec.Has(a.vid)
      modifies fdb`table, fdb`contents, fdb.table.Values
      ensures Valid() && fresh(fdb.table.Values - old(fdb.table.Values))
      ensures fdb.contents == Learned(old(fdb.contents), a, p, now)
    {
      LearnedIsSecure(Net().ports, fdb.contents, a, p, now);
      if IsUnicast(a.view.src) {
        fdb.Learn(a.vid, a.view.src, p, now);
      }
    }

    /** The admitted half of forwarding: learn, then deliver. */
    method Relay(p: nat, a: Admitted, frame: Bytes, now: int) returns (sent: seq<Attempt>, ghost route: Route)
      requires Wired() && Valid() && p < |ports| && ports[p].spec.Has(a.vid)
      modifies fdb`table, fdb`contents, fdb.table.Values, stats
      ensures Valid() && fresh(fdb.table.Values - old(fdb.table.Values)) && fdb.ageing == old(fdb.ageing)
      ensures fdb.contents == Learned(old(fdb.contents), a, p, now)
      ensures route == Choose(fdb.contents, fdb.ageing, a, now)
      ensures Emitted(sent) == EmissionsFor(Net(), a, frame, Targets(Net().ports, route, a.vid, p))
      ensures stats[..] == CountWrites(if route.Flood? then CountFlood(old(stats[..]), p) else old(stats[..]), sent)
    {
      LearnSource(p, a, now);
      assert stats[..] == old(stats[..]);
      sent, route := Deliver(p, a, frame, now);
    }

    /** Decoding and classification. */
    method Receive(p: nat, frame: Bytes) returns (a: Option<Admitted>)
      requires Wired() && p < |ports|
      ensures a == Admit(Net().ports[p], frame)
    {
      var view := Decode(frame);
      if view.None? {
        return None;
      }
      var vid := ports[p].spec.Classify(view.value.tag);
      if vid.None? {
        return None;
      }
      return Some(Admitted(vid.value, view.value));
    }

    /** Forward handles one received frame: it learns where the source is, and sends the
        frame on. The new state, the frames sent and the counters are those of the
        specification, and the table keeps naming members only. */
    method Forward(p: nat, frame: Bytes, now: int) returns (sent: seq<Attempt>)
      requires Wired() && Valid() && p < |ports|
      modifies fdb`table, fdb`contents, fdb.table.Values, stats
      ensures Valid() && fresh(fdb.table.Values - old(fdb.table.Values))
      ensures State() == Step(Net(), old(State()), Rx(p, frame, now)).0
      ensures Emitted(sent) == Step(Net(), old(State()), Rx(p, frame, now)).1
      ensures stats[..] == CountFrame(old(stats[..]), Net(), old(State()), p, frame, now, sent)
    {
      ghost var c, s := stats[..], State();
      AddReceived(p, frame);
      var a := Receive(p, frame);
      if a.None? {
        AddDropped(p);
        FrameDropped(c, Net(), s, p, frame, now);
        return [];
      }
      ghost var route;
      sent, route := Relay(p, a.value, frame, now);
      FrameAdmitted(c, Net(), s, p, a.value, frame, now, sent);
    }

    /** The row of one table entry. */
    ghost function Row(k: Key, r: Rec, now: int): FDBEntry {
      FDBEntry(k.vid, MacText(k.mac), if r.port < |ports| then ports[r.port].name else "", now - r.seen)
    }

    /** A row names the VLAN, the address and the age of an entry, and the configured name of
        its port. */
    lemma RowMeans(k: Key, r: Rec, now: int)
      requires Mirrors() && r.port < |cfg|
      ensures Row(k, r, now) == FDBEntry(k.vid, MacText(k.mac), cfg[r.port].name, now - r.seen)
    {
    }

    /** The listing of a table: a row for each key. */
    ghost predicate Lists(out: seq<FDBEntry>, keys: seq<Key>, t: Table, now: int) {
      && |out| == |keys| && (forall k :: k in keys <==> k in t)
      && forall i :: 0 <= i < |out| ==> out[i] == Row(keys[i], t[keys[i]], now)
    }

    lemma ListsAll(out: seq<FDBEntry>, keys: seq<Key>, t: Table, now: int)
      requires Lists(out, keys, t, now)
      requires forall i, j :: 0 <= i < j < |keys| ==> keys[i] != keys[j]
      ensures |out| == |t| && forall k :: k in t ==> Row(k, t[k], now) in out
    {
      OnceEach(keys, t.Keys);
      forall k | k in t
        ensures Row(k, t[k], now) in out
      {
        var i :| 0 <= i < |keys| && keys[i] == k;
        assert out[i] == Row(k, t[k], now);
      }
    }

    /** FDBSnapshot lists every table entry once, in no particular order: `keys` says which
        row is whose. The ports it names by index exist. */
    method FDBSnapshot(now: int) returns (out: seq<FDBEntry>, ghost keys: seq<Key>)
      requires Wired() && Valid()
      ensures |out| == |keys| == |fdb.contents| && (forall k :: k in keys <==> k in fdb.contents)
      ensures forall i, j :: 0 <= i < j < |keys| ==> keys[i] != keys[j]
      ensures forall i :: 0 <= i < |out| ==>
                var r := fdb.contents[keys[i]];
                && r.port < |cfg|
                && out[i] == FDBEntry(keys[i].vid, MacText(keys[i].mac), cfg[r.port].name, now - r.seen)
      ensures forall k :: k in fdb.contents ==> Row(k, fdb.contents[k], now) in out
    {
      out, keys := Rows(now);
      ghost var t := fdb.contents;
      ListsAll(out, keys, t, now);
      forall i | 0 <= i < |out|
        ensures t[keys[i]].port < |cfg|
        ensures out[i] == FDBEntry(keys[i].vid, MacText(keys[i].mac), cfg[t[keys[i]].port].name, now - t[keys[i]].seen)
      {
        RowMeans(keys[i], t[keys[i]], now);
      }
    }

    method Rows(now: int) returns (out: seq<FDBEntry>, ghost keys: seq<Key>)
      requires fdb.Valid() && forall k :: k in fdb.contents ==> fdb.contents[k].port < |ports|
      ensures |out| == |keys| && (forall k :: k in keys <==> k in fdb.contents)
      ensures forall i, j :: 0 <= i < j < |keys| ==> keys[i] != keys[j]
      ensures forall i :: 0 <= i < |out| ==> out[i] == Row(keys[i], fdb.contents[keys[i]], now)
    {
      out, keys := [], [];
      var todo := fdb.table.Keys;
      while todo != {}
        invariant todo <= fdb.table.Keys && |out| == |keys|
        invariant forall k :: k in keys <==> k in fdb.contents && k !in todo
        invariant forall i, j :: 0 <= i < j < |keys| ==> keys[i] != keys[j]
        invariant forall i :: 0 <= i < |out| ==> out[i] == Row(keys[i], fdb.contents[keys[i]], now)
        decreases todo
      {
        var k :| k in todo;
        var e := fdb.table[k];
        assert k !in keys;
        out := out + [FDBEntry(k.vid, MacText(k.mac), ports[e.portIdx].name, now - e.seenAt)];
        keys := keys + [k];
        todo := todo - {k};
      }
    }

    method Reap(now: int)
      requires Wired() && Valid()
      modifies fdb`table, fdb`contents
      ensures Valid() && fdb.table.Values <= old(fdb.table.Values)
      ensures (State(), []) == Step(Net(), old(State()), Event.Reap(now))
    {
      fdb.Reap(now);
    }

    method SetAgeing(d: int)
      requires Wired() && Valid()
      modifies fdb`ageing
      ensures Valid()
      ensures (State(), []) == Step(Net(), old(State()), Event.SetAgeing(d))
    {
      fdb.SetAgeing(d);
    }
  }

  /** A list of each element of a set once is as long as the set. */
  lemma {:induction false} OnceEach(keys: seq<Key>, all: set<Key>)
    requires forall k :: k in keys <==> k in all
    requires forall i, j :: 0 <= i < j < |keys| ==> keys[i] != keys[j]
    ensures |keys| == |all|
  {
    if keys != [] {
      var k, rest := keys[0], keys[1..];
      assert keys == [k] + rest;
      OnceEach(rest, all - {k});
    }
  }

  lemma OneMore(c: Counters, sent: seq<Attempt>, at: Attempt)
    ensures CountWrites(c, sent + [at]) == CountWrite(CountWrites(c, sent), at)
    ensures Emitted(sent + [at]) == Emitted(sent) + [at.emission]
  {
    assert (sent + [at])[..|sent|] == sent;
  }

  lemma LearnedIsSecure(ports: seq<PortSpec>, t: Table, a: Admitted, p: nat, now: int)
    requires Secure(ports, t) && p < |ports| && ports[p].Has(a.vid)
    ensures Secure(ports, Learned(t, a, p, now))
  {
  }

  lemma FrameDropped(c: Counters, net: Net, s: State, p: nat, frame: Bytes, now: int)
    requires p < |c| && p < |net.ports| && Secure(net.ports, s.table) && Admit(net.ports[p], frame).None?
    ensures Step(net, s, Rx(p, frame, now)) == (s, Emitted([]))
    ensures CountFrame(c, net, s, p, frame, now, []) == CountDrop(CountRx(c, p, frame), p)
  {
    assert Emitted([]) == [];
  }

  lemma FrameAdmitted(c: Counters, net: Net, s: State, p: nat, a: Admitted, frame: Bytes, now: int, sent: seq<Attempt>)
    requires p < |c| && p < |net.ports| && Secure(net.ports, s.table) && Admit(net.ports[p], frame) == Some(a)
    ensures var t := Learned(s.table, a, p, now);
            var route := Choose(t, s.ageing, a, now);
            var r := CountRx(c, p, frame);
            && Step(net, s, Rx(p, frame, now))
               == (s.(table := t), EmissionsFor(net, a, frame, Targets(net.ports, route, a.vid, p)))
            && CountFrame(c, net, s, p, frame, now, sent) == CountWrites(if route.Flood? then CountFlood(r, p) else r, sent)
  {
  }

  /** The writes so far are those of a frame to the first of the given ports, in order. */
  predicate StartsWith(sent: seq<Attempt>, net: Net, a: Admitted, frame: Bytes, outs: seq<nat>) {
    && |sent| <= |outs|
    && forall i :: 0 <= i < |sent| ==> sent[i].emission == EmissionFor(net, a, frame, outs[i])
  }

  lemma SameEmissions(sent: seq<Attempt>, net: Net, a: Admitted, frame: Bytes, outs: seq<nat>)
    requires StartsWith(sent, net, a, frame, outs) && |sent| == |outs|
    ensures Emitted(sent) == EmissionsFor(net, a, frame, outs)
  {
  }

  /** One turn of the flood loop: entry i is skipped or is the next target. */
  lemma Peel(list: seq<nat>, i: nat, p: nat, outs: seq<nat>, n: nat)
    requires i < |list| && n <= |outs| && Without(list[i..], p) == outs[n..]
    ensures list[i] == p ==> Without(list[i + 1..], p) == outs[n..]
    ensures list[i] != p ==> n < |outs| && outs[n] == list[i] && Without(list[i + 1..], p) == outs[n + 1..]
  {
    assert list[i..][1..] == list[i + 1..];
    if list[i] != p {
      assert outs[n..][0] == list[i] && outs[n..][1..] == outs[n + 1..];
    }
  }

  lemma MembersInRange(ports: seq<PortSpec>, vid: uint16)
    ensures forall i :: 0 <= i < |Members(ports, vid)| ==> Members(ports, vid)[i] < |ports|
  {
    var s := Members(ports, vid);
    MembersExact(ports, |ports|, vid);
    assert forall i :: 0 <= i < |s| ==> s[i] in s;
  }
}
