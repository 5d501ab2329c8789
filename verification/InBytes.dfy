/**
 One event of the switch in terms of the configuration and of bytes alone: when a frame is
 accepted, what is learned, where the frame goes, what leaves byte for byte, and how the
 counters move.
 */
module InBytes {
  import opened Wrappers
  import opened Wire
  import opened Config
  import opened Forwarding
  import opened Stats
  import S = Switching

  // ---- ingress ----

  /** A port with this configuration takes the frame into this VLAN. */
  predicate Accepts(c: PortConfig, frame: Bytes, vid: uint16) {
    && 14 <= |frame|
    && if c.trunk != [] then HasTag(frame) && vid == VidOf(frame) && vid in c.trunk
       else if c.accessVID != 0 then !HasTag(frame) && vid == c.accessVID
       else vid == 0
  }

  /** A frame is admitted to a VLAN exactly if the port accepts it there; its addresses are
      its first twelve bytes. */
  lemma AdmittedIff(c: PortConfig, frame: Bytes, vid: uint16)
    ensures var a := Admit(SpecOf(c), frame);
            && (a.Some? && a.value.vid == vid <==> Accepts(c, frame, vid))
            && (a.Some? ==> Decode(frame) == Some(a.value.view) && 14 <= |frame|
                            && a.value.view.dst == frame[..6] && a.value.view.src == frame[6..12])
  {
    DecodeBytes(frame);
    if 14 <= |frame| {
      ClassifyMeans(c, Decode(frame).value.tag, vid);
    }
  }

  /** A frame that no VLAN accepts is dropped. */
  lemma DroppedIff(c: PortConfig, frame: Bytes)
    ensures Admit(SpecOf(c), frame).None? <==> forall vid :: !Accepts(c, frame, vid)
  {
    forall vid
      ensures Accepts(c, frame, vid) ==> Admit(SpecOf(c), frame).Some?
    {
      AdmittedIff(c, frame, vid);
    }
    var a := Admit(SpecOf(c), frame);
    if a.Some? {
      AdmittedIff(c, frame, a.value.vid);
    }
  }

  // ---- learning ----

  /** The key of the station with the address at some place in the frame. */
  function KeyAt(frame: Bytes, at: nat, vid: uint16): Key
    requires at + 6 <= |frame|
  {
    Key(vid, frame[at..at + 6])
  }

  /** The table after a frame: a source whose first byte is even is known from now on at this
      port and time; a group address, odd, is not learned. */
  function TaughtBy(t: Table, frame: Bytes, vid: uint16, p: nat, now: int): Table
    requires 14 <= |frame|
  {
    if frame[6] % 2 == 1 then t else t[KeyAt(frame, 6, vid) := Rec(p, now)]
  }

  // ---- routing ----

  /** The table knows where the destination is: an even first byte, and an entry that is not
      older than the ageing time, if that is positive. */
  predicate KnowsWhere(t: Table, ageing: int, frame: Bytes, vid: uint16, now: int)
    requires 14 <= |frame|
  {
    var k := KeyAt(frame, 0, vid);
    frame[0] % 2 == 0 && k in t && (ageing <= 0 || now - t[k].seen <= ageing)
  }

  /** Where the frame goes: to the port of the known destination, unless it came from there;
      otherwise to each other port that is configured for the VLAN, once and in order. */
  ghost predicate GoesTo(cfg: seq<PortConfig>, t: Table, ageing: int, frame: Bytes, vid: uint16, p: nat, now: int, ports: seq<nat>)
    requires 14 <= |frame|
  {
    if KnowsWhere(t, ageing, frame, vid, now) then
      var out := t[KeyAt(frame, 0, vid)].port;
      ports == if out == p then [] else [out]
    else
      StrictlyIncreasing(ports) && forall q :: q in ports <==> 0 <= q < |cfg| && ConfiguredFor(cfg[q], vid) && q != p
  }

  function Ports(es: seq<Emission>): seq<nat> {
    seq(|es|, i requires 0 <= i < |es| => es[i].port)
  }

  /** What leaves: a trunk sends tagged frames, the others untagged ones. */
  predicate LeavesAs(cfg: seq<PortConfig>, frame: Bytes, vid: uint16, minLen: nat, e: Emission)
    requires 14 <= |frame|
  {
    e.port < |cfg| && e.pkt == Rewritten(cfg[e.port].trunk != [], frame, vid, minLen)
  }

  function NetOf(cfg: seq<PortConfig>, minLen: nat): Net {
    Net(SpecsOf(cfg), minLen)
  }

  lemma Teaches(t: Table, a: Admitted, frame: Bytes, p: nat, now: int)
    requires 14 <= |frame| && a.view.src == frame[6..12]
    ensures Learned(t, a, p, now) == TaughtBy(t, frame, a.vid, p, now)
  {
    assert a.view.src[0] == frame[6];
  }

  lemma Chooses(t: Table, ageing: int, a: Admitted, frame: Bytes, now: int)
    requires 14 <= |frame| && a.view.dst == frame[..6]
    ensures KnowsWhere(t, ageing, frame, a.vid, now) ==>
              KeyAt(frame, 0, a.vid) in t && Choose(t, ageing, a, now) == Known(t[KeyAt(frame, 0, a.vid)].port)
    ensures !KnowsWhere(t, ageing, frame, a.vid, now) ==> Choose(t, ageing, a, now) == Flood
  {
    assert a.view.dst[0] == frame[0];
  }

  lemma Floods(cfg: seq<PortConfig>, vid: uint16, p: nat)
    ensures var outs := Targets(SpecsOf(cfg), Flood, vid, p);
            StrictlyIncreasing(outs) && forall q :: q in outs <==> 0 <= q < |cfg| && ConfiguredFor(cfg[q], vid) && q != p
  {
    MembersMean(cfg, vid);
    WithoutExact(Members(SpecsOf(cfg), vid), p);
  }

  lemma Leaves(cfg: seq<PortConfig>, minLen: nat, a: Admitted, frame: Bytes, out: nat)
    requires Decode(frame) == Some(a.view) && 14 <= |frame| && out < |cfg|
    ensures EmissionFor(NetOf(cfg, minLen), a, frame, out).port == out
    ensures LeavesAs(cfg, frame, a.vid, minLen, EmissionFor(NetOf(cfg, minLen), a, frame, out))
  {
    SpecMeans(cfg[out]);
    EgressBytes(cfg[out].trunk != [], frame, a.view, a.vid, minLen);
  }

  /** One frame, in terms of the configuration and of bytes: what the table and the ageing
      time are afterwards, where the frame goes, and what leaves. A frame that is not accepted
      changes nothing and goes nowhere. */
  lemma StepInBytes(cfg: seq<PortConfig>, minLen: nat, s: State, p: nat, frame: Bytes, now: int)
    requires p < |cfg| && Secure(SpecsOf(cfg), s.table)
    ensures var r := Step(NetOf(cfg, minLen), s, Rx(p, frame, now));
            && ((forall vid :: !Accepts(cfg[p], frame, vid)) ==> r == (s, []))
            && forall vid :: Accepts(cfg[p], frame, vid) ==>
                 && r.0 == State(TaughtBy(s.table, frame, vid, p, now), s.ageing)
                 && GoesTo(cfg, r.0.table, s.ageing, frame, vid, p, now, Ports(r.1))
                 && forall i :: 0 <= i < |r.1| ==> LeavesAs(cfg, frame, vid, minLen, r.1[i])
  {
    DroppedIff(cfg[p], frame);
    forall vid | Accepts(cfg[p], frame, vid)
      ensures var r := Step(NetOf(cfg, minLen), s, Rx(p, frame, now));
              && r.0 == State(TaughtBy(s.table, frame, vid, p, now), s.ageing)
              && GoesTo(cfg, r.0.table, s.ageing, frame, vid, p, now, Ports(r.1))
              && forall i :: 0 <= i < |r.1| ==> LeavesAs(cfg, frame, vid, minLen, r.1[i])
    {
      AdmittedIff(cfg[p], frame, vid);
      AcceptedStep(cfg, minLen, s, p, frame, now, Admit(SpecOf(cfg[p]), frame).value);
    }
  }

  lemma AcceptedStep(cfg: seq<PortConfig>, minLen: nat, s: State, p: nat, frame: Bytes, now: int, a: Admitted)
    requires p < |cfg| && Secure(SpecsOf(cfg), s.table) && 14 <= |frame|
    requires Admit(SpecOf(cfg[p]), frame) == Some(a) && Decode(frame) == Some(a.view)
    requires a.view.dst == frame[..6] && a.view.src == frame[6..12]
    ensures var r := Step(NetOf(cfg, minLen), s, Rx(p, frame, now));
            && r.0 == State(TaughtBy(s.table, frame, a.vid, p, now), s.ageing)
            && GoesTo(cfg, r.0.table, s.ageing, frame, a.vid, p, now, Ports(r.1))
            && forall i :: 0 <= i < |r.1| ==> LeavesAs(cfg, frame, a.vid, minLen, r.1[i])
  {
    var net := NetOf(cfg, minLen);
    var t := Learned(s.table, a, p, now);
    var outs := Targets(net.ports, Choose(t, s.ageing, a, now), a.vid, p);
    var r := Step(net, s, Rx(p, frame, now));
    assert r == (State(t, s.ageing), EmissionsFor(net, a, frame, outs));
    Teaches(s.table, a, frame, p, now);
    GoesThere(cfg, t, s.ageing, a, frame, p, now);
    TargetsExact(net.ports, t, s.ageing, a, p, now);
    AllLeave(cfg, minLen, a, frame, outs);
  }

  lemma GoesThere(cfg: seq<PortConfig>, t: Table, ageing: int, a: Admitted, frame: Bytes, p: nat, now: int)
    requires 14 <= |frame| && a.view.dst == frame[..6]
    ensures GoesTo(cfg, t, ageing, frame, a.vid, p, now, Targets(SpecsOf(cfg), Choose(t, ageing, a, now), a.vid, p))
  {
    Chooses(t, ageing, a, frame, now);
    Floods(cfg, a.vid, p);
  }

  lemma AllLeave(cfg: seq<PortConfig>, minLen: nat, a: Admitted, frame: Bytes, outs: seq<nat>)
    requires Decode(frame) == Some(a.view) && 14 <= |frame| && forall i :: 0 <= i < |outs| ==> outs[i] < |cfg|
    ensures var es := EmissionsFor(NetOf(cfg, minLen), a, frame, outs);
            Ports(es) == outs && forall i :: 0 <= i < |es| ==> LeavesAs(cfg, frame, a.vid, minLen, es[i])
  {
    forall i | 0 <= i < |outs|
      ensures EmissionFor(NetOf(cfg, minLen), a, frame, outs[i]).port == outs[i]
      ensures LeavesAs(cfg, frame, a.vid, minLen, EmissionFor(NetOf(cfg, minLen), a, frame, outs[i]))
    {
      Leaves(cfg, minLen, a, frame, outs[i]);
    }
  }

  /** Reap leaves the entries that are not older than the ageing time, or all if that is
      zero, whatever its sign; SetAgeing sets the time; neither sends anything. */
  lemma QuietSteps(net: Net, s: State, now: int, d: int, k: Key)
    requires Secure(net.ports, s.table)
    ensures var r := Step(net, s, Reap(now));
            && r.1 == [] && r.0.ageing == s.ageing
            && (k in r.0.table <==> k in s.table && (s.ageing == 0 || now - s.table[k].seen <= s.ageing))
            && (k in r.0.table ==> r.0.table[k] == s.table[k])
    ensures Step(net, s, SetAgeing(d)) == (State(s.table, d), [])
  {
  }

  // ---- counting ----

  /** The writes to a port that succeeded, their bytes, and those that failed. */
  function Written(sent: seq<S.Attempt>, q: nat): nat {
    if sent == [] then 0
    else Written(sent[..|sent| - 1], q) + var at := sent[|sent| - 1]; if at.emission.port == q && at.ok then 1 else 0
  }

  function WrittenBytes(sent: seq<S.Attempt>, q: nat): nat {
    if sent == [] then 0
    else WrittenBytes(sent[..|sent| - 1], q)
         + var at := sent[|sent| - 1]; if at.emission.port == q && at.ok then |at.emission.pkt| else 0
  }

  function Lost(sent: seq<S.Attempt>, q: nat): nat {
    if sent == [] then 0
    else Lost(sent[..|sent| - 1], q) + var at := sent[|sent| - 1]; if at.emission.port == q && !at.ok then 1 else 0
  }

  lemma {:induction false} WritesCount(c: S.Counters, sent: seq<S.Attempt>, q: nat)
    requires q < |c|
    ensures S.CountWrites(c, sent)[q]
         == c[q].(txFrames := c[q].txFrames + Written(sent, q), txBytes := c[q].txBytes + WrittenBytes(sent, q),
                  txDrop := c[q].txDrop + Lost(sent, q))
  {
    if sent != [] {
      WritesCount(c, sent[..|sent| - 1], q);
    }
  }

  /** The frame is accepted into this VLAN, and the table does not know where it is to go. */
  predicate FloodedIn(c: PortConfig, s: State, p: nat, frame: Bytes, now: int, vid: uint16) {
    && Accepts(c, frame, vid)
    && !KnowsWhere(TaughtBy(s.table, frame, vid, p, now), s.ageing, frame, vid, now)
  }

  ghost predicate Flooded(c: PortConfig, s: State, p: nat, frame: Bytes, now: int) {
    exists vid :: FloodedIn(c, s, p, frame, now, vid)
  }

  ghost predicate Accepted(c: PortConfig, frame: Bytes) {
    exists vid :: Accepts(c, frame, vid)
  }

  /** How one frame moves the counters of any port: the ingress port has one more frame
      received, with its bytes, and one more dropped or flooded if it was; and each port has
      as many frames sent, bytes sent and failed writes as there were. */
  lemma FrameCounts(cfg: seq<PortConfig>, minLen: nat, c: S.Counters, s: State, p: nat, frame: Bytes, now: int,
                    sent: seq<S.Attempt>, q: nat)
    requires p < |cfg| == |c| && q < |cfg|
    ensures S.CountFrame(c, NetOf(cfg, minLen), s, p, frame, now, sent)[q]
         == PortStats(c[q].rxFrames + (if q == p then 1 else 0),
                      c[q].rxBytes + (if q == p then |frame| else 0),
                      c[q].txFrames + Written(sent, q),
                      c[q].txBytes + WrittenBytes(sent, q),
                      c[q].flooded + (if q == p && Flooded(cfg[p], s, p, frame, now) then 1 else 0),
                      c[q].forwardDrop + (if q == p && !Accepted(cfg[p], frame) then 1 else 0),
                      c[q].txDrop + Lost(sent, q))
  {
    var net := NetOf(cfg, minLen);
    WritesCount(S.CountRoute(S.CountRx(c, p, frame), net, s, p, frame, now), sent, q);
    DroppedIff(cfg[p], frame);
    var a := Admit(SpecOf(cfg[p]), frame);
    if a.Some? {
      AdmittedIff(cfg[p], frame, a.value.vid);
      Teaches(s.table, a.value, frame, p, now);
      Chooses(Learned(s.table, a.value, p, now), s.ageing, a.value, frame, now);
      forall vid
        ensures Accepts(cfg[p], frame, vid) <==> vid == a.value.vid
      {
        AdmittedIff(cfg[p], frame, vid);
      }
      assert Accepts(cfg[p], frame, a.value.vid);
      assert Flooded(cfg[p], s, p, frame, now) <==> FloodedIn(cfg[p], s, p, frame, now, a.value.vid);
    }
  }
}
