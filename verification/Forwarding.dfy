/**
 The forwarding decision as a function of the switch, its learning table and one
 event: what the sequential engine and its learning table are proved against.
 */
module Forwarding {
  import opened Wrappers
  import opened Wire
  import opened Config

  /** A switch: its ports, and the length serialized frames are padded to. */
  datatype Net = Net(ports: seq<PortSpec>, minLen: nat)

  datatype Key = Key(vid: uint16, mac: Mac)

  datatype Rec = Rec(port: nat, seen: int)

  type Table = map<Key, Rec>

  // ---- the learning table ----

  predicate Expired(r: Rec, ageing: int, now: int) {
    now - r.seen > ageing
  }

  /** Lookup treats entries older than a positive ageing time as misses. */
  function LookupTable(t: Table, ageing: int, k: Key, now: int): Option<nat> {
    if k !in t || (ageing > 0 && Expired(t[k], ageing, now)) then None else Some(t[k].port)
  }

  /** Reap deletes the entries older than the ageing time, unless that is zero: of a
      non-negative ageing time it leaves exactly what a lookup would still find. */
  function ReapTable(t: Table, ageing: int, now: int): (r: Table)
    ensures ageing >= 0 ==> forall k :: k in r <==> LookupTable(t, ageing, k, now).Some?
    ensures forall k :: k in r ==> k in t && r[k] == t[k]
  {
    if ageing == 0 then t else map k | k in t && !Expired(t[k], ageing, now) :: t[k]
  }

  // ---- one frame ----

  /** A frame that was decoded and classified. */
  datatype Admitted = Admitted(vid: uint16, view: View)

  function Admit(p: PortSpec, frame: Bytes): (a: Option<Admitted>)
    ensures a.Some? ==> p.Has(a.value.vid)
    ensures a.Some? && p.role.Trunk? ==> a.value.view.tag == Some(a.value.vid)
    ensures a.Some? && p.role.Access? ==> a.value.view.tag == None
  {
    match Decode(frame)
    case None => None
    case Some(v) =>
      match p.Classify(v.tag)
      case None => None
      case Some(vid) => Some(Admitted(vid, v))
  }

  /** The failing family of the egress theorem is inhabited: a 16-byte frame, admitted by an
      access port of VLAN 10, leaves a trunk with a tag that puts it into VLAN 20 there. */
  lemma TornTagExample()
    ensures var mac: Mac := [2, 0, 0, 0, 0, 1];
            var raw := Header(mac, mac, DOT1Q) + [0, 20];
            var access, trunk := PortSpec(Access, 10, {}), PortSpec(Trunk, 0, {10, 20});
            && |raw| == 16
            && Decode(raw).Some?
            && Admit(access, raw) == Some(Admitted(10, Decode(raw).value))
            && Decode(Egress(true, Decode(raw).value, raw, 10, 60)).Some?
            && trunk.Classify(Decode(Egress(true, Decode(raw).value, raw, 10, 60)).value.tag) == Some(20)
  {
    var mac: Mac := [2, 0, 0, 0, 0, 1];
    var raw := Header(mac, mac, DOT1Q) + [0, 20];
    DecodeHeader(mac, mac, DOT1Q, [0, 20]);
    var v := View(mac, mac, None, DOT1Q, [0, 20]);
    assert DecodeTags(v) == v;
    TornEgress(true, raw, v, 10, 60);
    var p := Pad([0, 20], 42);
    assert p[0] == 0 && p[1] == 20 && p[2] == 0 && p[3] == 0;
  }

  function Learned(t: Table, a: Admitted, port: nat, now: int): Table {
    if IsUnicast(a.view.src) then t[Key(a.vid, a.view.src) := Rec(port, now)] else t
  }

  datatype Route = Known(out: nat) | Flood

  function Choose(t: Table, ageing: int, a: Admitted, now: int): Route {
    if !IsUnicast(a.view.dst) then Flood
    else match LookupTable(t, ageing, Key(a.vid, a.view.dst), now)
         case Some(out) => Known(out)
         case None => Flood
  }

  function Without(s: seq<nat>, p: nat): (r: seq<nat>) {
    if s == [] then [] else (if s[0] == p then [] else [s[0]]) + Without(s[1..], p)
  }

  /** The ports a frame goes out: never the one it came in. */
  function Targets(ports: seq<PortSpec>, route: Route, vid: uint16, ingress: nat): seq<nat> {
    match route
    case Known(out) => if out == ingress then [] else [out]
    case Flood => Without(Members(ports, vid), ingress)
  }

  datatype Emission = Emission(port: nat, pkt: Bytes)

  /** The frame as it goes out a port. Ports that do not exist stand for ports that do
      not tag; the isolation invariant says there are none. */
  function EmissionFor(net: Net, a: Admitted, frame: Bytes, out: nat): Emission {
    Emission(out, Egress(out < |net.ports| && net.ports[out].role.Trunk?, a.view, frame, a.vid, net.minLen))
  }

  function EmissionsFor(net: Net, a: Admitted, frame: Bytes, outs: seq<nat>): (es: seq<Emission>)
    ensures |es| == |outs|
    ensures forall i :: 0 <= i < |outs| ==> es[i] == EmissionFor(net, a, frame, outs[i])
  {
    if outs == [] then [] else [EmissionFor(net, a, frame, outs[0])] + EmissionsFor(net, a, frame, outs[1..])
  }

  // ---- the isolation invariant ----

  /** Every learned port exists and is a member of the VLAN it was learned for. */
  predicate Secure(ports: seq<PortSpec>, t: Table) {
    forall k :: k in t ==> t[k].port < |ports| && ports[t[k].port].Has(k.vid)
  }

  lemma {:induction false} WithoutExact(s: seq<nat>, p: nat)
    requires StrictlyIncreasing(s)
    ensures StrictlyIncreasing(Without(s, p))
    ensures forall i :: i in Without(s, p) <==> i in s && i != p
  {
    if s != [] {
      WithoutExact(s[1..], p);
      var w := Without(s[1..], p);
      forall j | 0 <= j < |w|
        ensures s[0] < w[j]
      {
        assert w[j] in w;
      }
    }
  }

  /** Where a frame may go: only to existing members of its VLAN other than its
      ingress port, each at most once; a flood reaches every other member. */
  lemma TargetsExact(ports: seq<PortSpec>, t: Table, ageing: int, a: Admitted, ingress: nat, now: int)
    requires Secure(ports, t)
    ensures var route := Choose(t, ageing, a, now);
            var outs := Targets(ports, route, a.vid, ingress);
            && StrictlyIncreasing(outs)
            && (forall i :: 0 <= i < |outs| ==>
                  outs[i] < |ports| && ports[outs[i]].Has(a.vid) && outs[i] != ingress)
            && (route.Flood? ==> forall i :: 0 <= i < |ports| && ports[i].Has(a.vid) && i != ingress ==> i in outs)
  {
    MembersExact(ports, |ports|, a.vid);
    WithoutExact(Members(ports, a.vid), ingress);
    var outs := Targets(ports, Choose(t, ageing, a, now), a.vid, ingress);
    assert forall i :: 0 <= i < |outs| ==> outs[i] in outs;
  }

  // ---- events ----

  datatype State = State(table: Table, ageing: int)

  datatype Event =
    | Rx(port: nat, frame: Bytes, now: int)
    | Reap(now: int)
    | SetAgeing(d: int)

  predicate ValidEvent(net: Net, e: Event) {
    e.Rx? ==> e.port < |net.ports|
  }

  /** One event on a quiet switch: the new table, and the frames sent, in order. */
  function Step(net: Net, s: State, e: Event): (r: (State, seq<Emission>))
    requires ValidEvent(net, e) && Secure(net.ports, s.table)
    ensures Secure(net.ports, r.0.table)
  {
    match e
    case Reap(now) => (s.(table := ReapTable(s.table, s.ageing, now)), [])
    case SetAgeing(d) => (s.(ageing := d), [])
    case Rx(p, frame, now) =>
      match Admit(net.ports[p], frame)
      case None => (s, [])
      case Some(a) =>
        var t := Learned(s.table, a, p, now);
        var outs := Targets(net.ports, Choose(t, s.ageing, a, now), a.vid, p);
        (s.(table := t), EmissionsFor(net, a, frame, outs))
  }
}
