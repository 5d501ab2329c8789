/**
 Port configuration: roles, the classification of ingress frames to VLANs, and the
 membership lists that flooding uses.
 */
module Config {
  import opened Wrappers
  import opened Wire

  datatype PortConfig = PortConfig(name: string, accessVID: uint16, trunk: seq<uint16>)

  datatype Role = Plain | Access | Trunk

  function RoleOf(accessVID: uint16, trunk: seq<uint16>): Role {
    if |trunk| > 0 then Trunk
    else if accessVID != 0 then Access
    else Plain
  }

  /** What the forwarding decision needs of a port. */
  datatype PortSpec = PortSpec(role: Role, pvid: uint16, allow: set<uint16>) {

    /** The VLAN of a frame with this tag, or None when the tag is illegal for the role. */
    function Classify(tag: Option<uint16>): Option<uint16> {
      match role
      case Plain => Some(0)
      case Access => if tag.Some? then None else Some(pvid)
      case Trunk => if tag.Some? && tag.value in allow then tag else None
    }

    predicate Has(vid: uint16) {
      match role
      case Plain => vid == 0
      case Access => vid == pvid
      case Trunk => vid in allow
    }
  }

  function SpecOf(c: PortConfig): PortSpec {
    var role := RoleOf(c.accessVID, c.trunk);
    PortSpec(role,
             if role == Access then c.accessVID else 0,
             if role == Trunk then set v | v in c.trunk else {})
  }

  function SpecsOf(cfg: seq<PortConfig>): (specs: seq<PortSpec>)
    ensures |specs| == |cfg|
    ensures forall i :: 0 <= i < |cfg| ==> specs[i] == SpecOf(cfg[i])
  {
    seq(|cfg|, i requires 0 <= i < |cfg| => SpecOf(cfg[i]))
  }

  /** The VLANs a port is configured for: those of its trunk list, or its access VID, or
      zero if it has neither. */
  predicate ConfiguredFor(c: PortConfig, vid: uint16) {
    if c.trunk != [] then vid in c.trunk else vid == c.accessVID
  }

  /** What a port's role and membership are, in terms of its configuration. */
  lemma SpecMeans(c: PortConfig)
    ensures SpecOf(c).role.Trunk? <==> c.trunk != []
    ensures SpecOf(c).role.Access? <==> c.trunk == [] && c.accessVID != 0
    ensures SpecOf(c).role.Plain? <==> c.trunk == [] && c.accessVID == 0
    ensures forall v :: SpecOf(c).Has(v) <==> ConfiguredFor(c, v)
  {
  }

  /** Which frames a port takes into which VLAN, in terms of its configuration and of the
      tag: a plain port takes all into zero, an access port untagged ones into its VID, a
      trunk those tagged with a VID of its list into that VLAN. */
  lemma ClassifyMeans(c: PortConfig, tag: Option<uint16>, vid: uint16)
    ensures SpecOf(c).Classify(tag) == Some(vid)
            <==> if c.trunk != [] then tag == Some(vid) && vid in c.trunk
                 else if c.accessVID != 0 then tag == None && vid == c.accessVID
                 else vid == 0
  {
  }

  // ---- membership ----

  /** The members of a VLAN among the first n ports, in port order. */
  function MembersUpTo(ports: seq<PortSpec>, n: nat, vid: uint16): seq<nat>
    requires n <= |ports|
  {
    if n == 0 then []
    else MembersUpTo(ports, n - 1, vid) + if ports[n - 1].Has(vid) then [n - 1] else []
  }

  function Members(ports: seq<PortSpec>, vid: uint16): seq<nat> {
    MembersUpTo(ports, |ports|, vid)
  }

  predicate StrictlyIncreasing(s: seq<nat>) {
    forall i, j :: 0 <= i < j < |s| ==> s[i] < s[j]
  }

  /** Appending a larger number keeps a list strictly increasing. */
  lemma Append(s: seq<nat>, x: nat)
    requires StrictlyIncreasing(s) && forall i :: i in s ==> i < x
    ensures StrictlyIncreasing(s + [x])
    ensures forall i :: i in s + [x] <==> i in s || i == x
  {
    assert forall j :: 0 <= j < |s| ==> s[j] in s;
  }

  /** A membership list holds each member once, in order, and nothing else. */
  lemma {:induction false} MembersExact(ports: seq<PortSpec>, n: nat, vid: uint16)
    requires n <= |ports|
    ensures StrictlyIncreasing(MembersUpTo(ports, n, vid))
    ensures forall i :: i in MembersUpTo(ports, n, vid) <==> 0 <= i < n && ports[i].Has(vid)
  {
    if n > 0 {
      MembersExact(ports, n - 1, vid);
      Append(MembersUpTo(ports, n - 1, vid), n - 1);
    }
  }

  /** A port is a member of a VLAN exactly when some tag state classifies to it. */
  lemma MemberIffClassified(p: PortSpec, vid: uint16)
    ensures p.Has(vid) <==> exists tag :: p.Classify(tag) == Some(vid)
  {
    if p.Has(vid) {
      assert p.Classify(if p.role.Trunk? then Some(vid) else None) == Some(vid);
    }
  }

  /** A port is a member of a VLAN exactly when some frame on the wire classifies to
      it, but for trunk VIDs that do not fit the 12 bits of a tag: those are listed
      as members although no frame reaches them. */
  lemma MemberIffReachable(p: PortSpec, vid: uint16)
    ensures (p.Has(vid) && (p.role.Trunk? ==> vid < 0x1000))
            <==> exists f :: Decode(f).Some? && p.Classify(Decode(f).value.tag) == Some(vid)
  {
    var mac: Mac := [2, 0, 0, 0, 0, 1];
    if p.Has(vid) && (p.role.Trunk? ==> vid < 0x1000) {
      var f := if p.role.Trunk? then BuildTagged(mac, mac, vid, 0x0800, [], 0)
               else BuildUntagged(mac, mac, 0x0800, [], 0);
      if p.role.Trunk? {
        DecodeTagged(mac, mac, vid, 0x0800, [], 0);
      } else {
        DecodeUntagged(mac, mac, 0x0800, [], 0);
      }
      assert Decode(f).Some? && p.Classify(Decode(f).value.tag) == Some(vid);
    }
  }

  /** Re-classification: a frame that left a member port with the tag its role wants is
      classified back to the same VLAN by a peer port of that role that is a member too, if
      and only if its payload did not announce a tag that it was too short for; or, on
      trunks, if what the padding makes of that tag happens to show the same VID. */
  lemma Reclassified(out: PortSpec, peer: PortSpec, raw: Bytes, v: View, vid: uint16, minLen: nat)
    requires Decode(raw) == Some(v)
    requires out.role.Trunk? ==> if v.tag.Some? then v.tag.value == vid else vid < 0x1000
    requires out.role == peer.role && !out.role.Plain? && peer.Has(vid)
    ensures TornTag(out.role.Trunk?, v, minLen) ==> |v.payload| < TAG <= Room(out.role.Trunk?, minLen)
    ensures var d := Decode(Egress(out.role.Trunk?, v, raw, vid, minLen));
            && d.Some?
            && (peer.Classify(d.value.tag) == Some(vid)
                <==> (TornTag(out.role.Trunk?, v, minLen) ==>
                        out.role.Trunk? && TornVid(v.payload, Room(true, minLen)) == vid))
  {
    EgressCorrect(out.role.Trunk?, raw, v, vid, minLen);
    if TornTag(out.role.Trunk?, v, minLen) {
      TornEgress(out.role.Trunk?, raw, v, vid, minLen);
    }
  }

  /** A list of the ports configured for a VLAN: each of them once, in order. */
  ghost predicate ListsMembers(list: seq<nat>, cfg: seq<PortConfig>, vid: uint16) {
    && StrictlyIncreasing(list)
    && forall i :: i in list <==> 0 <= i < |cfg| && ConfiguredFor(cfg[i], vid)
  }

  lemma MembersMean(cfg: seq<PortConfig>, vid: uint16)
    ensures ListsMembers(Members(SpecsOf(cfg), vid), cfg, vid)
  {
    MembersExact(SpecsOf(cfg), |cfg|, vid);
    forall i | 0 <= i < |cfg|
      ensures SpecsOf(cfg)[i].Has(vid) <==> ConfiguredFor(cfg[i], vid)
    {
      SpecMeans(cfg[i]);
    }
  }

  // ---- which configurations are accepted ----

  datatype ConfigError =
    | CountMismatch
    | NoPorts
    | EmptyName(port: nat)
    | DuplicateName(name: string)
    | BothRoles(name: string)
    | MixedRoles

  /** The port has no VLAN configuration. */
  predicate IsPlain(c: PortConfig) {
    c.trunk == [] && c.accessVID == 0
  }

  predicate Mixed(cfg: seq<PortConfig>) {
    && (exists i :: 0 <= i < |cfg| && IsPlain(cfg[i]))
    && (exists i :: 0 <= i < |cfg| && !IsPlain(cfg[i]))
  }

  /** The configurations that make a switch: as many handles as ports and at least
      one, distinct non-empty names, one role a port, and all ports plain or none. */
  predicate WellFormed(cfg: seq<PortConfig>, handles: nat) {
    && |cfg| == handles
    && 0 < |cfg|
    && (forall i :: 0 <= i < |cfg| ==> cfg[i].name != "")
    && (forall i, j :: 0 <= i < j < |cfg| ==> cfg[i].name != cfg[j].name)
    && (forall i :: 0 <= i < |cfg| ==> cfg[i].accessVID == 0 || cfg[i].trunk == [])
    && !Mixed(cfg)
  }

  /** What is wrong with port i, given the ports before it. */
  function FaultAt(cfg: seq<PortConfig>, i: nat): Option<ConfigError>
    requires i < |cfg|
  {
    if cfg[i].name == "" then Some(EmptyName(i))
    else if exists j :: 0 <= j < i && cfg[j].name == cfg[i].name then Some(DuplicateName(cfg[i].name))
    else if cfg[i].accessVID != 0 && |cfg[i].trunk| > 0 then Some(BothRoles(cfg[i].name))
    else None
  }

  predicate FaultFree(cfg: seq<PortConfig>, n: nat)
    requires n <= |cfg|
  {
    forall i :: 0 <= i < n ==> FaultAt(cfg, i) == None
  }

  /** The error to report: counts first, then the first faulty port, then the mix. */
  predicate Reports(cfg: seq<PortConfig>, handles: nat, e: ConfigError) {
    if |cfg| != handles then e == CountMismatch
    else if |cfg| == 0 then e == NoPorts
    else if FaultFree(cfg, |cfg|) then e == MixedRoles && Mixed(cfg)
    else exists i :: 0 <= i < |cfg| && FaultFree(cfg, i) && FaultAt(cfg, i) == Some(e)
  }

  lemma FaultFreeMeans(cfg: seq<PortConfig>)
    ensures FaultFree(cfg, |cfg|) <==>
            && (forall i :: 0 <= i < |cfg| ==> cfg[i].name != "")
            && (forall i, j :: 0 <= i < j < |cfg| ==> cfg[i].name != cfg[j].name)
            && (forall i :: 0 <= i < |cfg| ==> cfg[i].accessVID == 0 || cfg[i].trunk == [])
  {
    if FaultFree(cfg, |cfg|) {
      forall i, j | 0 <= i < j < |cfg|
        ensures cfg[i].name != cfg[j].name
      {
        assert FaultAt(cfg, j) == None;
      }
      forall i | 0 <= i < |cfg|
        ensures cfg[i].name != "" && (cfg[i].accessVID == 0 || cfg[i].trunk == [])
      {
        assert FaultAt(cfg, i) == None;
      }
    }
  }

  /** A reported error is a fault of the configuration. */
  predicate Fits(cfg: seq<PortConfig>, handles: nat, e: ConfigError) {
    match e
    case CountMismatch => |cfg| != handles
    case NoPorts => |cfg| == handles == 0
    case EmptyName(i) => i < |cfg| && cfg[i].name == ""
    case DuplicateName(name) => exists i, j :: 0 <= i < j < |cfg| && cfg[i].name == cfg[j].name == name
    case BothRoles(name) => exists i :: 0 <= i < |cfg| && cfg[i].name == name && cfg[i].accessVID != 0 && cfg[i].trunk != []
    case MixedRoles => Mixed(cfg)
  }

  lemma ReportsFit(cfg: seq<PortConfig>, handles: nat, e: ConfigError)
    requires Reports(cfg, handles, e)
    ensures Fits(cfg, handles, e)
  {
    if |cfg| == handles && |cfg| > 0 && !FaultFree(cfg, |cfg|) {
      var i :| 0 <= i < |cfg| && FaultFree(cfg, i) && FaultAt(cfg, i) == Some(e);
      if e.DuplicateName? {
        var j :| 0 <= j < i && cfg[j].name == cfg[i].name;
      }
    }
  }
}
