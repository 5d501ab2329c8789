/**
 Building an engine from a configuration: which configurations are accepted, what the
 error is otherwise, and the membership lists, whatever order the trunk sets are read in.
 */
module Construction {
  import opened Wrappers
  import opened Wire
  import opened Config
  import opened Forwarding
  import opened Stats
  import opened Switching

  predicate HasPlain(cfg: seq<PortConfig>, n: nat)
    requires n <= |cfg|
  {
    exists i :: 0 <= i < n && IsPlain(cfg[i])
  }

  predicate HasVlan(cfg: seq<PortConfig>, n: nat)
    requires n <= |cfg|
  {
    exists i :: 0 <= i < n && !IsPlain(cfg[i])
  }

  /** The first loop: one port for each configuration, or the first fault. */
  method BuildPorts(cfg: seq<PortConfig>)
    returns (r: Result<seq<Port>, ConfigError>, anyPlain: bool, anyVlan: bool)
    ensures r.Success? ==> r.value == PortsUpTo(cfg, |cfg|) && FaultFree(cfg, |cfg|)
    ensures r.Success? ==> anyPlain == HasPlain(cfg, |cfg|) && anyVlan == HasVlan(cfg, |cfg|)
    ensures r.Failure? ==> exists i :: 0 <= i < |cfg| && FaultFree(cfg, i) && FaultAt(cfg, i) == Some(r.error)
  {
    var ports, seen := [], {};
    anyPlain, anyVlan := false, false;
    for i := 0 to |cfg|
      invariant ports == PortsUpTo(cfg, i)
      invariant seen == set j | 0 <= j < i :: cfg[j].name
      invariant FaultFree(cfg, i)
      invariant anyPlain == HasPlain(cfg, i) && anyVlan == HasVlan(cfg, i)
    {
      var c := cfg[i];
      if c.name == "" {
        assert FaultAt(cfg, i) == Some(EmptyName(i));
        return Failure(EmptyName(i)), anyPlain, anyVlan;
      }
      if c.name in seen {
        assert FaultAt(cfg, i) == Some(DuplicateName(c.name));
        return Failure(DuplicateName(c.name)), anyPlain, anyVlan;
      }
      seen := seen + {c.name};
      if c.accessVID != 0 && |c.trunk| > 0 {
        assert FaultAt(cfg, i) == Some(BothRoles(c.name));
        return Failure(BothRoles(c.name)), anyPlain, anyVlan;
      }
      match RoleOf(c.accessVID, c.trunk) {
        case Plain => anyPlain := true;
        case Access => anyVlan := true;
        case Trunk => anyVlan := true;
      }
      ports := ports + [PortOf(i, c)];
    }
    r := Success(ports);
  }

  /** Appending to the list of one VLAN. */
  function Join(m: map<uint16, seq<nat>>, vid: uint16, idx: nat): (r: map<uint16, seq<nat>>)
    ensures forall v :: ListAt(r, v) == ListAt(m, v) + if v == vid then [idx] else []
  {
    m[vid := ListAt(m, vid) + [idx]]
  }

  /** The inner loop: a trunk's set of VIDs is read in any order. */
  method JoinAll(m: map<uint16, seq<nat>>, vids: set<uint16>, idx: nat) returns (r: map<uint16, seq<nat>>)
    ensures forall v :: ListAt(r, v) == ListAt(m, v) + if v in vids then [idx] else []
  {
    r := m;
    var todo := vids;
    while todo != {}
      invariant todo <= vids
      invariant forall v :: v in todo || v !in vids ==> ListAt(r, v) == ListAt(m, v)
      invariant forall v :: v in vids && v !in todo ==> ListAt(r, v) == ListAt(m, v) + [idx]
      decreases todo
    {
      var v :| v in todo;
      r := Join(r, v, idx);
      todo := todo - {v};
    }
  }

  method JoinPort(m: map<uint16, seq<nat>>, p: PortSpec, idx: nat) returns (r: map<uint16, seq<nat>>)
    ensures forall v :: ListAt(r, v) == ListAt(m, v) + if p.Has(v) then [idx] else []
  {
    match p.role {
      case Plain => r := Join(m, 0, idx);
      case Access => r := Join(m, p.pvid, idx);
      case Trunk => r := JoinAll(m, p.allow, idx);
    }
  }

  /** The second loop: the membership lists. */
  method BuildMembers(ports: seq<PortSpec>) returns (m: map<uint16, seq<nat>>)
    ensures forall v :: ListAt(m, v) == Members(ports, v)
  {
    m := map[];
    for i := 0 to |ports|
      invariant forall v :: ListAt(m, v) == MembersUpTo(ports, i, v)
    {
      ghost var before := m;
      m := JoinPort(m, ports[i], i);
      NextMembers(ports, i, before, m);
    }
  }

  lemma NextMembers(ports: seq<PortSpec>, i: nat, before: map<uint16, seq<nat>>, m: map<uint16, seq<nat>>)
    requires i < |ports| && forall v :: ListAt(before, v) == MembersUpTo(ports, i, v)
    requires forall v :: ListAt(m, v) == ListAt(before, v) + if ports[i].Has(v) then [i] else []
    ensures forall v :: ListAt(m, v) == MembersUpTo(ports, i + 1, v)
  {
    forall v
      ensures ListAt(m, v) == MembersUpTo(ports, i + 1, v)
    {
      assert ListAt(before, v) == MembersUpTo(ports, i, v);
    }
  }

  /** The engine's ports and lists, in terms of the configuration: port i has the name, the
      VIDs and the memberships of configuration i, the list of a VLAN has each port configured
      for it once, in order, and the engine knows VLANs exactly if some port does. */
  ghost predicate Follows(e: Engine, cfg: seq<PortConfig>) {
    && |e.ports| == |cfg|
    && (forall i :: 0 <= i < |cfg| ==>
          && e.ports[i].idx == i && e.ports[i].name == cfg[i].name && e.ports[i].trunkVIDs == cfg[i].trunk
          && (e.ports[i].spec.role.Trunk? <==> cfg[i].trunk != [])
          && (e.ports[i].spec.role.Plain? <==> IsPlain(cfg[i]))
          && (forall v :: e.ports[i].spec.Has(v) <==> ConfiguredFor(cfg[i], v)))
    && (forall v :: ListsMembers(ListAt(e.vidMembers, v), cfg, v))
    && (e.vlanAware <==> exists i :: 0 <= i < |cfg| && !IsPlain(cfg[i]))
  }

  lemma WiredFollows(e: Engine, cfg: seq<PortConfig>)
    requires e.cfg == cfg && e.Wired()
    ensures Follows(e, cfg)
  {
    forall i | 0 <= i < |cfg|
      ensures e.ports[i] == PortOf(i, cfg[i])
      ensures e.ports[i].spec.role.Trunk? <==> cfg[i].trunk != []
      ensures e.ports[i].spec.role.Plain? <==> IsPlain(cfg[i])
      ensures forall v :: e.ports[i].spec.Has(v) <==> ConfiguredFor(cfg[i], v)
    {
      SpecMeans(cfg[i]);
    }
    forall v
      ensures ListsMembers(ListAt(e.vidMembers, v), cfg, v)
    {
      MembersMean(cfg, v);
    }
    assert e.vlanAware == !IsPlain(cfg[0]);
  }

  /** NewEngine accepts exactly the well-formed configurations, reports the first fault
      of the others, and builds an engine that indexes its ports safely ever after. */
  method NewEngine(cfg: seq<PortConfig>, handles: nat, minLen: nat) returns (r: Result<Engine, ConfigError>)
    ensures r.Success? <==> WellFormed(cfg, handles)
    ensures r.Failure? ==> Reports(cfg, handles, r.error) && Fits(cfg, handles, r.error)
    ensures r.Success? ==> Follows(r.value, cfg)
    ensures r.Success? ==> var e := r.value;
              && fresh(e) && fresh(e.fdb) && fresh(e.stats)
              && e.cfg == cfg && e.minLen == minLen
              && e.Wired() && e.Valid()
              && e.State() == Forwarding.State(map[], 0) && e.stats[..] == seq(|cfg|, i => ZERO)
  {
    FaultFreeMeans(cfg);
    ErrorsFit(cfg, handles);
    if |cfg| != handles {
      return Failure(CountMismatch);
    }
    if |cfg| == 0 {
      return Failure(NoPorts);
    }
    var built, anyPlain, anyVlan := BuildPorts(cfg);
    if built.Failure? {
      return Failure(built.error);
    }
    if anyVlan && anyPlain {
      return Failure(MixedRoles);
    }
    var ports := built.value;
    var specs := seq(|ports|, i requires 0 <= i < |ports| => ports[i].spec);
    assert specs == SpecsOf(cfg);
    var members := BuildMembers(specs);
    var e := new Engine(ports, members, anyVlan, minLen, cfg);
    r := Success(e);
    WiredFollows(e, cfg);
  }

  lemma ErrorsFit(cfg: seq<PortConfig>, handles: nat)
    ensures forall e :: Reports(cfg, handles, e) ==> Fits(cfg, handles, e)
  {
    forall e | Reports(cfg, handles, e)
      ensures Fits(cfg, handles, e)
    {
      ReportsFit(cfg, handles, e);
    }
  }
}
