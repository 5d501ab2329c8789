/**
 Delivery under every interleaving: to which ports a frame is written, and how often.
 */
module Deliveries {
  import opened Config
  import opened Forwarding
  import opened Pipeline

  /** The ports a trip is to reach. */
  function Plan(net: Net, t: nat, trip: Trip): seq<nat> {
    Targets(net.ports, trip.route, trip.job.a.vid, t)
  }

  /** A frame of port t, admitted there, and routed to a member if to a known port. */
  predicate TripOk(net: Net, t: nat, trip: Trip) {
    && JobOk(net, t, trip.job.frame, trip.job.a)
    && (trip.route.Known? ==> MemberPort(net, trip.route.out, trip.job.a.vid))
  }

  predicate Ended(net: Net, t: nat, trip: Trip) {
    TripOk(net, t, trip) && trip.sent == Plan(net, t, trip)
  }

  predicate AllEnded(net: Net, t: nat, trips: seq<Trip>) {
    forall i :: 0 <= i < |trips| ==> Ended(net, t, trips[i])
  }

  predicate Underway(f: Fwd) {
    f.Sending? || f.Writing? || f.Wrote? || f.Tallying?
  }

  /** The trip on its way: what it has reached and what it has still to reach is the plan. */
  predicate OnPlan(net: Net, t: nat, f: Fwd, trip: Trip) {
    Underway(f) && trip.job == f.job && TripOk(net, t, trip) && trip.sent + f.todo == Plan(net, t, trip)
  }

  /** All trips of a goroutine have ended but the one on its way. */
  predicate Delivers(net: Net, t: nat, f: Fwd, trips: seq<Trip>) {
    if Underway(f) then
      && trips != []
      && AllEnded(net, t, trips[..|trips| - 1])
      && OnPlan(net, t, f, trips[|trips| - 1])
    else
      AllEnded(net, t, trips)
  }

  // ---- the log ----

  /** Where the writes of one port's frames went, in order. */
  function DstsFrom(log: seq<Write>, t: nat): seq<nat> {
    if log == [] then []
    else DstsFrom(log[..|log| - 1], t) + if log[|log| - 1].src == t then [log[|log| - 1].dst] else []
  }

  function AllSent(trips: seq<Trip>): seq<nat> {
    if trips == [] then [] else AllSent(trips[..|trips| - 1]) + trips[|trips| - 1].sent
  }

  predicate Logged(s: Pipe, t: nat)
    requires t < |s.trips|
  {
    DstsFrom(s.log, t) == AllSent(s.trips[t])
  }

  predicate Delivering(net: Net, s: Pipe) {
    && Shaped(net, s)
    && forall t :: 0 <= t < |s.fwd| ==> Delivers(net, t, s.fwd[t], s.trips[t]) && Logged(s, t)
  }

  lemma InitDelivering(net: Net, ageing: int)
    ensures Delivering(net, Init(net, ageing))
  {
  }

  // ---- one goroutine ----

  /** A frame is routed: a new trip begins. */
  lemma Departs(net: Net, t: nat, f: Fwd, trips: seq<Trip>, trip: Trip, todo: seq<nat>)
    requires Delivers(net, t, f, trips) && !Underway(f)
    requires TripOk(net, t, trip) && trip.sent == [] && todo == Plan(net, t, trip)
    ensures Delivers(net, t, Sending(trip.job, todo), trips + [trip])
    ensures AllSent(trips + [trip]) == AllSent(trips)
  {
    var more := trips + [trip];
    assert more[..|more| - 1] == trips;
    assert trip.sent + todo == todo;
  }

  /** A write is tallied: the trip has reached one more port. */
  lemma Advances(net: Net, t: nat, f: Fwd, trips: seq<Trip>)
    requires Delivers(net, t, f, trips) && Underway(f) && f.todo != []
    ensures Delivers(net, t, Sending(f.job, f.todo[1..]), Onward(trips, f.todo[0]))
    ensures AllSent(Onward(trips, f.todo[0])) == AllSent(trips) + [f.todo[0]]
  {
    OnwardParts(trips, f.todo[0]);
    StaysOnPlan(net, t, f, trips[|trips| - 1]);
  }

  lemma StaysOnPlan(net: Net, t: nat, f: Fwd, trip: Trip)
    requires OnPlan(net, t, f, trip) && f.todo != []
    ensures OnPlan(net, t, Sending(f.job, f.todo[1..]), trip.(sent := trip.sent + [f.todo[0]]))
  {
    Shift(trip.sent, f.todo);
  }

  lemma Shift(sent: seq<nat>, todo: seq<nat>)
    requires todo != []
    ensures (sent + [todo[0]]) + todo[1..] == sent + todo
  {
  }

  lemma OnwardParts(trips: seq<Trip>, dst: nat)
    requires trips != []
    ensures var last, more := trips[|trips| - 1], Onward(trips, dst);
            && |more| == |trips| && more[|trips| - 1] == last.(sent := last.sent + [dst])
            && more[..|trips| - 1] == trips[..|trips| - 1]
            && AllSent(more) == AllSent(trips) + [dst]
  {
    var last, more := trips[|trips| - 1], Onward(trips, dst);
    assert more[..|more| - 1] == trips[..|trips| - 1];
    assert AllSent(trips[..|trips| - 1]) + (last.sent + [dst]) == AllSent(trips) + [dst];
  }

  /** Nothing is left to write: the trip has ended. */
  lemma Returns(net: Net, t: nat, f: Fwd, trips: seq<Trip>)
    requires Delivers(net, t, f, trips) && Underway(f) && f.todo == []
    ensures Delivers(net, t, Outside, trips)
  {
    var last := trips[|trips| - 1];
    assert last.sent + [] == last.sent;
    forall i | 0 <= i < |trips|
      ensures Ended(net, t, trips[i])
    {
      assert i < |trips| - 1 ==> Ended(net, t, trips[..|trips| - 1][i]);
    }
  }

  /** Anything else leaves the trips alone. */
  lemma Stays(net: Net, t: nat, f: Fwd, f': Fwd, trips: seq<Trip>)
    requires Delivers(net, t, f, trips) && (Underway(f) <==> Underway(f'))
    requires Underway(f) ==> f'.job == f.job && f'.todo == f.todo
    ensures Delivers(net, t, f', trips)
  {
  }

  // ---- all together ----

  predicate Routes(s: Pipe, a: Action) {
    a.Flood? || (a.Looked? && a.t < |s.sys.pcs| && s.sys.pcs[a.t].LookupDone? && s.sys.pcs[a.t].out.Some?)
  }

  /** What an action does to the trips and to the log. */
  lemma TripsMove(net: Net, s: Pipe, a: Action)
    requires Enabled(net, s, a)
    ensures var s' := Apply(net, s, a);
            && Shaped(net, s')
            && (forall u :: 0 <= u < |s.fwd| && u != Actor(s, a) ==> s'.trips[u] == s.trips[u])
            && (!a.Tally? ==> s'.log == s.log)
            && (!a.Tally? && !Routes(s, a) ==> s'.trips == s.trips)
  {
    OthersStay(net, s, a);
  }

  lemma RoutesMove(net: Net, s: Pipe, a: Action)
    requires Enabled(net, s, a) && Routes(s, a)
    ensures var s' := Apply(net, s, a);
            var t := a.t;
            var trip := Trip(s.fwd[t].job, if a.Flood? then Route.Flood else Known(s.sys.pcs[t].out.value), []);
            && !Underway(s.fwd[t])
            && s'.trips[t] == s.trips[t] + [trip] && s'.fwd[t] == Sending(trip.job, Plan(net, t, trip))
  {
  }

  lemma RoutesStep(net: Net, s: Pipe, a: Action)
    requires Inv(net, s) && Enabled(net, s, a) && Routes(s, a) && Delivering(net, s)
    ensures var s' := Apply(net, s, a);
            Shaped(net, s') && Delivers(net, a.t, s'.fwd[a.t], s'.trips[a.t]) && Logged(s', a.t)
  {
    var t := a.t;
    TripsMove(net, s, a);
    RoutesMove(net, s, a);
    EntriesNameMembers(net, s);
    assert FwdOk(net, t, s.fwd[t], s.sys.pcs[t]) && Delivers(net, t, s.fwd[t], s.trips[t]) && Logged(s, t);
    var trip := Trip(s.fwd[t].job, if a.Flood? then Route.Flood else Known(s.sys.pcs[t].out.value), []);
    Departs(net, t, s.fwd[t], s.trips[t], trip, Plan(net, t, trip));
  }

  lemma TallyMove(net: Net, s: Pipe, t: nat)
    requires Enabled(net, s, Tally(t))
    ensures var s' := Apply(net, s, Tally(t));
            var Tallying(job, todo, ok) := s.fwd[t];
            && s'.fwd[t] == Sending(job, todo[1..]) && s'.trips[t] == Onward(s.trips[t], todo[0])
            && s'.log == s.log + [Write(t, job, todo[0], ok)]
  {
  }

  lemma LogGrows(log: seq<Write>, w: Write, t: nat)
    ensures DstsFrom(log + [w], t) == DstsFrom(log, t) + if w.src == t then [w.dst] else []
  {
    assert (log + [w])[..|log|] == log;
  }

  lemma TallyStep(net: Net, s: Pipe, t: nat)
    requires Enabled(net, s, Tally(t)) && Delivering(net, s)
    ensures Delivering(net, Apply(net, s, Tally(t)))
  {
    var s' := Apply(net, s, Tally(t));
    var Tallying(job, todo, ok) := s.fwd[t];
    TripsMove(net, s, Tally(t));
    OthersStay(net, s, Tally(t));
    TallyMove(net, s, t);
    Advances(net, t, s.fwd[t], s.trips[t]);
    forall u | 0 <= u < |s.fwd|
      ensures Delivers(net, u, s'.fwd[u], s'.trips[u]) && Logged(s', u)
    {
      assert Delivers(net, u, s.fwd[u], s.trips[u]) && Logged(s, u);
      LogGrows(s.log, Write(t, job, todo[0], ok), u);
    }
  }

  /** An action that neither routes nor tallies keeps what is still to be written. */
  lemma RestMove(net: Net, s: Pipe, a: Action)
    requires Enabled(net, s, a) && Actor(s, a) < |s.fwd| && !Routes(s, a) && !a.Tally?
    ensures var f, f' := s.fwd[Actor(s, a)], Apply(net, s, a).fwd[Actor(s, a)];
            if a.Leave? then f' == Outside && Underway(f) && f.todo == []
            else && (Underway(f) <==> Underway(f'))
                 && (Underway(f) ==> f'.job == f.job && f'.todo == f.todo)
  {
  }

  lemma RestStep(net: Net, s: Pipe, a: Action)
    requires Enabled(net, s, a) && Actor(s, a) < |s.fwd| && !Routes(s, a) && !a.Tally? && Delivering(net, s)
    ensures var s' := Apply(net, s, a);
            var t := Actor(s, a);
            Shaped(net, s') && Delivers(net, t, s'.fwd[t], s'.trips[t]) && Logged(s', t)
  {
    var s', t := Apply(net, s, a), Actor(s, a);
    TripsMove(net, s, a);
    RestMove(net, s, a);
    assert Delivers(net, t, s.fwd[t], s.trips[t]) && Logged(s, t);
    if a.Leave? {
      Returns(net, t, s.fwd[t], s.trips[t]);
    } else {
      Stays(net, t, s.fwd[t], s'.fwd[t], s.trips[t]);
    }
  }

  lemma DeliveringStep(net: Net, s: Pipe, a: Action)
    requires Inv(net, s) && Enabled(net, s, a) && Delivering(net, s)
    ensures Delivering(net, Apply(net, s, a))
  {
    if a.Tally? {
      TallyStep(net, s, a.t);
    } else {
      var s' := Apply(net, s, a);
      TripsMove(net, s, a);
      OthersStay(net, s, a);
      forall u | 0 <= u < |s.fwd|
        ensures Delivers(net, u, s'.fwd[u], s'.trips[u]) && Logged(s', u)
      {
        assert Delivers(net, u, s.fwd[u], s.trips[u]) && Logged(s, u);
        if u == Actor(s, a) {
          if Routes(s, a) {
            RoutesStep(net, s, a);
          } else {
            RestStep(net, s, a);
          }
        }
      }
    }
  }

  // ---- what it means ----

  /** A plan has existing members other than the ingress port, each once; that of a flood has
      all of them, and that of a known port at most that one. */
  lemma PlanExact(net: Net, t: nat, trip: Trip)
    requires TripOk(net, t, trip)
    ensures var plan := Plan(net, t, trip);
            && StrictlyIncreasing(plan)
            && (forall i :: 0 <= i < |plan| ==> MemberPort(net, plan[i], trip.job.a.vid) && plan[i] != t)
            && (trip.route.Flood? ==>
                  forall q :: 0 <= q < |net.ports| && net.ports[q].Has(trip.job.a.vid) && q != t ==> q in plan)
            && (trip.route.Known? ==> plan == if trip.route.out == t then [] else [trip.route.out])
  {
    var ms := Members(net.ports, trip.job.a.vid);
    MembersExact(net.ports, |net.ports|, trip.job.a.vid);
    WithoutExact(ms, t);
    assert forall i :: 0 <= i < |Without(ms, t)| ==> Without(ms, t)[i] in Without(ms, t);
  }

  /** Every routed frame has been written to a beginning of its plan, and all of it unless its
      goroutine is still on the way; and those are the writes of the log. */
  lemma TripsFollowPlans(net: Net, s: Pipe, t: nat, i: nat)
    requires Delivering(net, s) && t < |s.fwd| && i < |s.trips[t]|
    ensures TripOk(net, t, s.trips[t][i]) && s.trips[t][i].sent <= Plan(net, t, s.trips[t][i])
    ensures i < |s.trips[t]| - 1 || !Underway(s.fwd[t]) ==> s.trips[t][i].sent == Plan(net, t, s.trips[t][i])
    ensures DstsFrom(s.log, t) == AllSent(s.trips[t])
  {
    var trips := s.trips[t];
    assert Delivers(net, t, s.fwd[t], trips) && Logged(s, t);
    if Underway(s.fwd[t]) && i < |trips| - 1 {
      assert Ended(net, t, trips[..|trips| - 1][i]);
    }
  }
}
