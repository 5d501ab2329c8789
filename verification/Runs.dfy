/**
 Whole runs of the switch, one event at a time: what a run sends is a function of the
 history of frames alone, reaping is invisible, and the VLANs do not interfere.
 */
module Runs {
  import opened Wrappers
  import opened Wire
  import opened Config
  import opened Forwarding

  /** A history of events, the latest last. */
  datatype History = Start | Then(past: History, last: Event)

  predicate Valid(net: Net, h: History) {
    h.Then? ==> Valid(net, h.past) && ValidEvent(net, h.last)
  }

  predicate Occurs(h: History, e: Event) {
    h.Then? && (h.last == e || Occurs(h.past, e))
  }

  /** The state after a history. */
  function Final(net: Net, s0: State, h: History): (s: State)
    requires Valid(net, h) && Secure(net.ports, s0.table)
    ensures Secure(net.ports, s.table)
  {
    if h.Start? then s0 else Step(net, Final(net, s0, h.past), h.last).0
  }

  /** What the last event of a history sends. */
  function Sent(net: Net, s0: State, h: History): seq<Emission>
    requires h.Then? && Valid(net, h) && Secure(net.ports, s0.table)
  {
    Step(net, Final(net, s0, h.past), h.last).1
  }

  const EMPTY: Table := map[]

  // ---- the table-free reference ----

  /** The frame of this event, if it is one that teaches where k is, and where. */
  function Lesson(net: Net, e: Event, k: Key): (r: Option<Rec>)
    requires ValidEvent(net, e)
  {
    if e.Rx? then
      match Admit(net.ports[e.port], e.frame)
      case None => None
      case Some(a) =>
        if IsUnicast(a.view.src) && k == Key(a.vid, a.view.src) then Some(Rec(e.port, e.now)) else None
    else None
  }

  /** The latest frame from k in the history: its ingress port and its time. */
  function LatestLesson(net: Net, h: History, k: Key): Option<Rec>
    requires Valid(net, h)
  {
    if h.Start? then None
    else if Lesson(net, h.last, k).Some? then Lesson(net, h.last, k)
    else LatestLesson(net, h.past, k)
  }

  function AgeingAfter(h: History, a0: int): int {
    if h.Start? then a0
    else if h.last.SetAgeing? then h.last.d
    else AgeingAfter(h.past, a0)
  }

  /** What the last frame of a history must send, with no table: unicast to the port
      of the latest frame from its destination in its VLAN, unless that frame is older
      than the ageing time; otherwise a flood. Nothing goes back out the ingress port. */
  function Reference(net: Net, h: History, a0: int): seq<Emission>
    requires h.Then? && Valid(net, h)
  {
    match h.last
    case Reap(_) => []
    case SetAgeing(_) => []
    case Rx(p, frame, now) =>
      match Admit(net.ports[p], frame)
      case None => []
      case Some(a) =>
        var owner := LatestLesson(net, h, Key(a.vid, a.view.dst));
        var ageing := AgeingAfter(h, a0);
        var current := owner.Some? && (ageing <= 0 || now - owner.value.seen <= ageing);
        if IsUnicast(a.view.dst) && current then
          if owner.value.port == p then [] else EmissionsFor(net, a, frame, [owner.value.port])
        else
          EmissionsFor(net, a, frame, Without(Members(net.ports, a.vid), p))
  }

  // ---- time and ageing ----

  /** The time of the latest timed event. */
  function Clock(h: History): Option<int> {
    if h.Start? then None
    else if h.last.SetAgeing? then Clock(h.past)
    else Some(h.last.now)
  }

  /** Time does not run backwards. */
  predicate Timely(h: History) {
    h.Start? || (Timely(h.past)
                  && (!h.last.SetAgeing? && Clock(h.past).Some? ==> Clock(h.past).value <= h.last.now))
  }

  /** What a reap at ageing time a deletes, a lookup at ageing time b has expired too. Zero
      means that reap deletes nothing. */
  predicate Lowers(a: int, b: int) {
    a == 0 || 0 < b <= a
  }

  /** The ageing times under which reaps ran. */
  function ReapAgeings(h: History, a0: int): set<int> {
    if h.Start? then {}
    else ReapAgeings(h.past, a0) + if h.last.Reap? then {AgeingAfter(h.past, a0)} else {}
  }

  /** No reap so far can be noticed under the ageing time now in force. */
  predicate Settled(h: History, a0: int) {
    forall a :: a in ReapAgeings(h, a0) ==> Lowers(a, AgeingAfter(h, a0))
  }

  /** So at every frame. */
  predicate SettledAtFrames(h: History, a0: int) {
    h.Start? || (SettledAtFrames(h.past, a0) && (h.last.Rx? ==> Settled(h, a0)))
  }

  // ---- refinement ----

  /** How the table relates to the history: what it holds is the latest lesson, and what
      it misses was never taught, or had expired by the clock when some reap ran. */
  ghost predicate Tracks(net: Net, s: State, h: History, a0: int)
    requires Valid(net, h)
  {
    && s.ageing == AgeingAfter(h, a0)
    && forall k :: Tracked(s, LatestLesson(net, h, k), Clock(h), ReapAgeings(h, a0), k)
  }

  predicate Tracked(s: State, lesson: Option<Rec>, clock: Option<int>, ageings: set<int>, k: Key) {
    if k in s.table then lesson == Some(s.table[k])
    else lesson.Some? ==> clock.Some? && exists a :: a in ageings && a != 0 && Expired(lesson.value, a, clock.value)
  }

  lemma {:induction false} TableTracksHistory(net: Net, h: History, a0: int)
    requires Valid(net, h) && Timely(h)
    ensures Tracks(net, Final(net, State(EMPTY, a0), h), h, a0)
  {
    if h.Then? {
      TableTracksHistory(net, h.past, a0);
      forall k
        ensures Tracked(Final(net, State(EMPTY, a0), h), LatestLesson(net, h, k), Clock(h), ReapAgeings(h, a0), k)
      {
        TracksStep(net, Final(net, State(EMPTY, a0), h.past), h, a0, k);
      }
    }
  }

  lemma TracksStep(net: Net, s: State, h: History, a0: int, k: Key)
    requires h.Then? && Valid(net, h) && Timely(h) && Secure(net.ports, s.table) && s.ageing == AgeingAfter(h.past, a0)
    requires Tracked(s, LatestLesson(net, h.past, k), Clock(h.past), ReapAgeings(h.past, a0), k)
    ensures Tracked(Step(net, s, h.last).0, LatestLesson(net, h, k), Clock(h), ReapAgeings(h, a0), k)
  {
    var s' := Step(net, s, h.last).0;
    var lesson := LatestLesson(net, h, k);
    if k !in s'.table && lesson.Some? {
      if k in s.table {
        assert s.ageing in ReapAgeings(h, a0) && Expired(lesson.value, s.ageing, h.last.now);
      } else {
        var a :| a in ReapAgeings(h.past, a0) && a != 0 && Expired(lesson.value, a, Clock(h.past).value);
        assert a in ReapAgeings(h, a0) && Expired(lesson.value, a, Clock(h).value);
      }
    }
  }

  /** Refinement: on every history with time running forward, a frame at which no past reap
      can be noticed makes the switch send exactly what the table-free reference says. */
  lemma RefinesReference(net: Net, h: History, a0: int)
    requires h.Then? && Valid(net, h) && Timely(h) && Settled(h, a0)
    ensures Sent(net, State(EMPTY, a0), h) == Reference(net, h, a0)
  {
    if h.last.Rx? && Admit(net.ports[h.last.port], h.last.frame).Some? {
      var Rx(p, frame, now) := h.last;
      var a := Admit(net.ports[p], frame).value;
      var s := Final(net, State(EMPTY, a0), h);
      var k := Key(a.vid, a.view.dst);
      assert Tracked(s, LatestLesson(net, h, k), Some(now), ReapAgeings(h, a0), k) && s.ageing == AgeingAfter(h, a0) by {
        TableTracksHistory(net, h, a0);
      }
      SameAnswer(s, LatestLesson(net, h, k), ReapAgeings(h, a0), k, now);
    }
  }

  /** A lookup in a table that tracks the history finds the latest lesson, if it is current. */
  lemma SameAnswer(s: State, lesson: Option<Rec>, ageings: set<int>, k: Key, now: int)
    requires Tracked(s, lesson, Some(now), ageings, k) && forall a :: a in ageings ==> Lowers(a, s.ageing)
    ensures LookupTable(s.table, s.ageing, k, now)
         == if lesson.Some? && (s.ageing <= 0 || now - lesson.value.seen <= s.ageing) then Some(lesson.value.port) else None
  {
  }

  /** The reference's owner is the freshest lesson: it was taught by a frame of the
      history, and no frame from k is fresher, whether or not it has expired. */
  lemma {:induction false} LatestLessonIsFreshest(net: Net, h: History, k: Key, e: Event)
    requires Valid(net, h) && Timely(h) && Occurs(h, e) && ValidEvent(net, e) && Lesson(net, e, k).Some?
    ensures var l := LatestLesson(net, h, k);
            && l.Some? && Clock(h).Some?
            && Lesson(net, e, k).value.seen <= l.value.seen <= Clock(h).value
            && exists e' :: Occurs(h, e') && ValidEvent(net, e') && Lesson(net, e', k) == l
  {
    ClockBounds(h, e);
    if Lesson(net, h.last, k).Some? {
      assert Occurs(h, h.last);
    } else {
      LatestLessonIsFreshest(net, h.past, k, e);
      assert Timely(h.past);
      var e' :| Occurs(h.past, e') && ValidEvent(net, e') && Lesson(net, e', k) == LatestLesson(net, h.past, k);
      assert Occurs(h, e');
    }
  }

  lemma {:induction false} ClockBounds(h: History, e: Event)
    requires Timely(h) && Occurs(h, e) && !e.SetAgeing?
    ensures Clock(h).Some? && e.now <= Clock(h).value
  {
    if h.last != e {
      ClockBounds(h.past, e);
    }
  }

  // ---- reaping ----

  /** When reaping is invisible: with ageing a when reap runs and b at the lookup, no
      lookup at the same time or later can tell whether reap ran, exactly if a is zero or b is positive and
      not above a. In particular it is visible when a is negative, and when ageing is raised. */
  lemma ReapInvisibleIff(a: int, b: int)
    ensures (forall t: Table, k: Key, now: int, later: int | now <= later ::
               LookupTable(ReapTable(t, a, now), b, k, later) == LookupTable(t, b, k, later))
            <==> Lowers(a, b)
  {
    if !Lowers(a, b) {
      var k := Key(1, [2, 0, 0, 0, 0, 1]);
      var t: Table := map[k := Rec(0, 0)];
      var now := Max(a + 1, 0);
      assert k !in ReapTable(t, a, now);
      assert LookupTable(ReapTable(t, a, now), b, k, now) != LookupTable(t, b, k, now);
    }
  }

  function WithoutReaps(h: History): History
  {
    match h
    case Start => Start
    case Then(past, e) => if e.Reap? then WithoutReaps(past) else Then(WithoutReaps(past), e)
  }

  /** Removing the reaps keeps what the reference reads of a history. */
  lemma {:induction false} ReapsDoNotTeach(net: Net, h: History, a0: int)
    requires Valid(net, h) && Timely(h)
    ensures var r := WithoutReaps(h);
            && Valid(net, r) && Timely(r) && AgeingAfter(r, a0) == AgeingAfter(h, a0) && ReapAgeings(r, a0) == {}
            && (Clock(r).Some? ==> Clock(h).Some? && Clock(r).value <= Clock(h).value)
            && forall k :: LatestLesson(net, r, k) == LatestLesson(net, h, k)
  {
    if h.Then? {
      ReapsDoNotTeach(net, h.past, a0);
      var r := WithoutReaps(h);
      forall k
        ensures LatestLesson(net, r, k) == LatestLesson(net, h, k)
      {
        assert LatestLesson(net, WithoutReaps(h.past), k) == LatestLesson(net, h.past, k);
      }
    }
  }

  /** The history of one frame at ageing time b, after reaps at the given ageing times. */
  ghost predicate FrameAfterReaps(net: Net, h: History, a0: int, ageings: set<int>, b: int) {
    && h.Then? && h.last.Rx? && Valid(net, h) && Timely(h)
    && ReapAgeings(h, a0) <= ageings && AgeingAfter(h, a0) == b
  }

  /** The condition of the refinement is exact: given the ageing times under which reaps may
      run, and that at a frame, all such histories obey the reference if and only if no
      such reap can be noticed. */
  lemma RefinesReferenceIff(ageings: set<int>, b: int)
    ensures (forall net: Net, h: History, a0: int | FrameAfterReaps(net, h, a0, ageings, b) ::
               Sent(net, State(EMPTY, a0), h) == Reference(net, h, a0))
            <==> (forall a :: a in ageings ==> Lowers(a, b))
  {
    if forall a :: a in ageings ==> Lowers(a, b) {
      forall net: Net, h: History, a0: int | FrameAfterReaps(net, h, a0, ageings, b)
        ensures Sent(net, State(EMPTY, a0), h) == Reference(net, h, a0)
      {
        RefinesReference(net, h, a0);
      }
    } else {
      var a :| a in ageings && !Lowers(a, b);
      var net, h := NoticedReap(a, b);
      assert FrameAfterReaps(net, h, a, ageings, b);
    }
  }

  const PLAIN := PortSpec(Plain, 0, {})
  const THREE_PORTS := Net([PLAIN, PLAIN, PLAIN], 0)

  /** An untagged frame without payload. */
  function Bare(dst: Mac, src: Mac): Bytes {
    BuildUntagged(dst, src, 0x0800, [], 0)
  }

  lemma BareAdmitted(dst: Mac, src: Mac, p: nat)
    requires p < 3
    ensures Admit(THREE_PORTS.ports[p], Bare(dst, src)) == Some(Admitted(0, View(dst, src, None, 0x0800, [])))
  {
    DecodeUntagged(dst, src, 0x0800, [], 0);
  }

  const M: Mac := [2, 0, 0, 0, 0, 1]
  const N: Mac := [2, 0, 0, 0, 0, 2]

  /** Station M speaks on port 0 at time 0, and reap runs at time t under ageing time a. */
  function Forgotten(t: int): History {
    Then(Then(Start, Rx(0, Bare(N, M), 0)), Reap(t))
  }

  /** Then the ageing time is set to b, and N sends a frame to M from port 1. */
  function Noticing(t: int, b: int): History {
    Then(Then(Forgotten(t), SetAgeing(b)), Rx(1, Bare(M, N), t))
  }

  lemma NoticingIsHistory(a: int, b: int, t: nat)
    ensures FrameAfterReaps(THREE_PORTS, Noticing(t, b), a, {a}, b)
    ensures Valid(THREE_PORTS, Forgotten(t))
    ensures LatestLesson(THREE_PORTS, Noticing(t, b), Key(0, M)) == Some(Rec(0, 0))
  {
    var h1 := Then(Start, Rx(0, Bare(N, M), 0));
    var h3 := Then(Forgotten(t), SetAgeing(b));
    assert |THREE_PORTS.ports| == 3 && Valid(THREE_PORTS, Start) && Timely(Start) && ReapAgeings(Start, a) == {};
    assert Valid(THREE_PORTS, h1) && Timely(h1) && Clock(h1) == Some(0) && ReapAgeings(h1, a) == {};
    assert AgeingAfter(Start, a) == AgeingAfter(h1, a) == a;
    assert Valid(THREE_PORTS, Forgotten(t)) && Timely(Forgotten(t)) && ReapAgeings(Forgotten(t), a) == {a};
    assert Valid(THREE_PORTS, h3) && Timely(h3) && Clock(h3) == Some(t) && ReapAgeings(h3, a) == {a};
    BareAdmitted(N, M, 0);
    BareAdmitted(M, N, 1);
    assert M[5] != N[5];
    assert LatestLesson(THREE_PORTS, h1, Key(0, M)) == Some(Rec(0, 0));
    assert LatestLesson(THREE_PORTS, h3, Key(0, M)) == Some(Rec(0, 0));
  }

  lemma ForgottenIsEmpty(a: int, t: nat)
    requires a != 0 && t > a && Valid(THREE_PORTS, Forgotten(t))
    ensures Final(THREE_PORTS, State(EMPTY, a), Forgotten(t)) == State(EMPTY, a)
  {
    var h1 := Then(Start, Rx(0, Bare(N, M), 0));
    assert Valid(THREE_PORTS, h1) && Valid(THREE_PORTS, Start);
    BareAdmitted(N, M, 0);
    assert Final(THREE_PORTS, State(EMPTY, a), Start) == State(EMPTY, a);
    var s := Final(THREE_PORTS, State(EMPTY, a), h1);
    assert s == State(map[Key(0, M) := Rec(0, 0)], a);
    assert ReapTable(s.table, a, t) == EMPTY;
  }

  /** A reap at ageing time a that a frame at ageing time b notices: the frame to M floods,
      although M is still current. */
  lemma NoticedReap(a: int, b: int) returns (net: Net, h: History)
    requires !Lowers(a, b)
    ensures FrameAfterReaps(net, h, a, {a}, b) && Sent(net, State(EMPTY, a), h) != Reference(net, h, a)
  {
    var t := Max(a + 1, 0);
    net, h := THREE_PORTS, Noticing(t, b);
    NoticingIsHistory(a, b, t);
    ForgottenIsEmpty(a, t);
    BareAdmitted(M, N, 1);
    ThreeMembers();
    assert M[5] != N[5];
    assert Final(net, State(EMPTY, a), h.past) == State(EMPTY, b);
    assert |Sent(net, State(EMPTY, a), h)| == 2;
    assert |Reference(net, h, a)| == 1;
  }

  lemma ThreeMembers()
    ensures Members(THREE_PORTS.ports, 0) == [0, 1, 2] && Without([0, 1, 2], 1) == [0, 2]
  {
    var ports := THREE_PORTS.ports;
    assert MembersUpTo(ports, 1, 0) == MembersUpTo(ports, 0, 0) + [0];
    assert MembersUpTo(ports, 2, 0) == MembersUpTo(ports, 1, 0) + [1];
    assert MembersUpTo(ports, 3, 0) == MembersUpTo(ports, 2, 0) + [2];
    assert [0, 1, 2][1..] == [1, 2] && [1, 2][1..] == [2];
    assert Without([2], 1) == [2];
  }

  /** What every frame of a history sends, in order. */
  function Traffic(net: Net, s0: State, h: History): seq<seq<Emission>>
    requires Valid(net, h) && Secure(net.ports, s0.table)
  {
    if h.Start? then []
    else Traffic(net, s0, h.past) + if h.last.Rx? then [Sent(net, s0, h)] else []
  }

  /** Lazy expiry equals deletion: a history sends what it would send without its reaps,
      so that reaps may be inserted and removed anywhere, as long as no frame comes at an
      ageing time that would let it notice them. */
  lemma {:induction false} ReapsAreInvisible(net: Net, h: History, a0: int)
    requires Valid(net, h) && Timely(h) && SettledAtFrames(h, a0)
    ensures var r := WithoutReaps(h);
            Valid(net, r) && Traffic(net, State(EMPTY, a0), h) == Traffic(net, State(EMPTY, a0), r)
  {
    ReapsDoNotTeach(net, h, a0);
    if h.Then? {
      ReapsAreInvisible(net, h.past, a0);
      if h.last.Rx? {
        RefinesReference(net, h, a0);
        RefinesReference(net, WithoutReaps(h), a0);
        SameReferenceWithoutReaps(net, h, a0);
      }
    }
  }

  lemma SameReferenceWithoutReaps(net: Net, h: History, a0: int)
    requires h.Then? && Valid(net, h) && Timely(h) && h.last.Rx?
    ensures Valid(net, WithoutReaps(h)) && Reference(net, h, a0) == Reference(net, WithoutReaps(h), a0)
  {
    ReapsDoNotTeach(net, h, a0);
    if Admit(net.ports[h.last.port], h.last.frame).Some? {
      var a := Admit(net.ports[h.last.port], h.last.frame).value;
      SameReference(net, h, WithoutReaps(h), a0, Key(a.vid, a.view.dst));
    }
  }

  lemma SameReference(net: Net, h: History, h': History, a0: int, k: Key)
    requires h.Then? && Valid(net, h) && h'.Then? && Valid(net, h') && h.last == h'.last && h.last.Rx?
    requires var a := Admit(net.ports[h.last.port], h.last.frame); a.Some? && k == Key(a.value.vid, a.value.view.dst)
    requires AgeingAfter(h, a0) == AgeingAfter(h', a0) && LatestLesson(net, h, k) == LatestLesson(net, h', k)
    ensures Reference(net, h, a0) == Reference(net, h', a0)
  {
  }

  // ---- VLAN non-interference ----

  predicate InVlan(net: Net, e: Event, vid: uint16)
    requires ValidEvent(net, e)
  {
    e.Rx? && Admit(net.ports[e.port], e.frame).Some? && Admit(net.ports[e.port], e.frame).value.vid == vid
  }

  /** The history with every frame of another VLAN, and every dropped frame, deleted. */
  function OnlyVlan(net: Net, h: History, vid: uint16): (r: History)
    requires Valid(net, h)
    ensures Valid(net, r)
  {
    match h
    case Start => Start
    case Then(past, e) =>
      if e.Rx? && !InVlan(net, e, vid) then OnlyVlan(net, past, vid) else Then(OnlyVlan(net, past, vid), e)
  }

  /** What the frames of one VLAN send, frame by frame. */
  function VlanTraffic(net: Net, s0: State, h: History, vid: uint16): seq<seq<Emission>>
    requires Valid(net, h) && Secure(net.ports, s0.table)
  {
    if h.Start? then []
    else VlanTraffic(net, s0, h.past, vid) + if InVlan(net, h.last, vid) then [Sent(net, s0, h)] else []
  }

  /** The part of a table that belongs to one VLAN. */
  function Slice(t: Table, vid: uint16): Table {
    map k | k in t && k.vid == vid :: t[k]
  }

  predicate Agree(s: State, s': State, vid: uint16) {
    s.ageing == s'.ageing && Slice(s.table, vid) == Slice(s'.table, vid)
  }

  lemma SameLookup(t: Table, t': Table, vid: uint16, mac: Mac, ageing: int, now: int)
    requires Slice(t, vid) == Slice(t', vid)
    ensures LookupTable(t, ageing, Key(vid, mac), now) == LookupTable(t', ageing, Key(vid, mac), now)
  {
    var k := Key(vid, mac);
    assert k in t <==> k in Slice(t, vid);
    assert k in t' <==> k in Slice(t', vid);
    assert k in t ==> t[k] == Slice(t, vid)[k];
    assert k in t' ==> t'[k] == Slice(t', vid)[k];
  }

  lemma SliceUpdate(t: Table, k: Key, r: Rec, vid: uint16)
    ensures Slice(t[k := r], vid) == if k.vid == vid then Slice(t, vid)[k := r] else Slice(t, vid)
  {
  }

  lemma SliceReap(t: Table, ageing: int, now: int, vid: uint16)
    ensures Slice(ReapTable(t, ageing, now), vid) == ReapTable(Slice(t, vid), ageing, now)
  {
  }

  /** An event does the same to one VLAN whatever the table holds for the others. */
  lemma StepOnSlice(net: Net, s: State, s': State, e: Event, vid: uint16)
    requires ValidEvent(net, e) && Secure(net.ports, s.table) && Secure(net.ports, s'.table)
    requires Agree(s, s', vid)
    ensures Agree(Step(net, s, e).0, Step(net, s', e).0, vid)
    ensures InVlan(net, e, vid) ==> Step(net, s, e).1 == Step(net, s', e).1
    ensures e.Rx? && !InVlan(net, e, vid) ==> Agree(Step(net, s, e).0, s', vid)
  {
    match e {
      case SetAgeing(_) =>
      case Reap(now) =>
        SliceReap(s.table, s.ageing, now, vid);
        SliceReap(s'.table, s'.ageing, now, vid);
      case Rx(p, frame, now) =>
        match Admit(net.ports[p], frame) {
          case None =>
          case Some(a) =>
            SliceUpdate(s.table, Key(a.vid, a.view.src), Rec(p, now), vid);
            SliceUpdate(s'.table, Key(a.vid, a.view.src), Rec(p, now), vid);
            if a.vid == vid {
              SameLookup(Learned(s.table, a, p, now), Learned(s'.table, a, p, now), vid, a.view.dst, s.ageing, now);
            }
        }
    }
  }

  /** Non-interference: deleting every frame that is not of a VLAN changes neither what
      the frames of that VLAN send nor what the table holds for it. No condition on
      time or ageing. */
  lemma {:induction false} VlansDoNotInterfere(net: Net, s0: State, h: History, vid: uint16)
    requires Valid(net, h) && Secure(net.ports, s0.table)
    ensures var r := OnlyVlan(net, h, vid);
            && VlanTraffic(net, s0, h, vid) == VlanTraffic(net, s0, r, vid)
            && Agree(Final(net, s0, h), Final(net, s0, r), vid)
  {
    if h.Start? {
    } else {
      VlansDoNotInterfere(net, s0, h.past, vid);
      StepOnSlice(net, Final(net, s0, h.past), Final(net, s0, OnlyVlan(net, h.past, vid)), h.last, vid);
    }
  }

  /** The switch is the disjoint union of its VLANs: started empty, the table after a
      history of one VLAN alone is the slice of the whole table for that VLAN. */
  lemma {:induction false} VlanAloneIsSlice(net: Net, h: History, a0: int, vid: uint16)
    requires Valid(net, h)
    ensures Final(net, State(EMPTY, a0), OnlyVlan(net, h, vid)).table
         == Slice(Final(net, State(EMPTY, a0), h).table, vid)
  {
    var r := OnlyVlan(net, h, vid);
    VlansDoNotInterfere(net, State(EMPTY, a0), h, vid);
    OneVlanOnly(net, h, a0, vid);
    var t := Final(net, State(EMPTY, a0), r).table;
    assert Slice(t, vid) == t;
  }

  lemma {:induction false} OneVlanOnly(net: Net, h: History, a0: int, vid: uint16)
    requires Valid(net, h)
    ensures forall k :: k in Final(net, State(EMPTY, a0), OnlyVlan(net, h, vid)).table ==> k.vid == vid
  {
    if h.Then? {
      OneVlanOnly(net, h.past, a0, vid);
    }
  }

  // ---- isolation ----

  /** In every run, from an empty table, a frame of a VLAN is sent to existing members
      of that VLAN only, never out its ingress port, and at most once a port. */
  lemma RunsAreIsolated(net: Net, h: History, a0: int)
    requires h.Then? && Valid(net, h)
    ensures var sent := Sent(net, State(EMPTY, a0), h);
            && (forall i :: 0 <= i < |sent| ==>
                  && h.last.Rx? && sent[i].port < |net.ports| && sent[i].port != h.last.port
                  && Admit(net.ports[h.last.port], h.last.frame).Some?
                  && net.ports[sent[i].port].Has(Admit(net.ports[h.last.port], h.last.frame).value.vid))
            && (forall i, j :: 0 <= i < j < |sent| ==> sent[i].port != sent[j].port)
  {
    if h.last.Rx? {
      var Rx(p, frame, now) := h.last;
      var a := Admit(net.ports[p], frame);
      if a.Some? {
        var s := Final(net, State(EMPTY, a0), h.past);
        TargetsExact(net.ports, Learned(s.table, a.value, p, now), s.ageing, a.value, p, now);
      }
    }
  }
}
