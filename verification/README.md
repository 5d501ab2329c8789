# The vibe-switch forwarding engine, modelled and proved

vibe-switch is a user-space Ethernet switch: it learns where addresses are, sends known
unicast to one port, floods the rest, keeps VLANs apart, and adds and removes 802.1Q tags.
This project models it in three layers and proves what each promises.

1. **One call at a time.** `Switching.Engine` is the engine as an object, over `Fdb.FDB`, a
   table whose entries live on the heap and are updated in place. `Forward`, `Reap` and
   `SetAgeing` are proved equal to `Forwarding.Step`, a function on values, and its counters to
   `CountFrame`. `Construction.NewEngine` accepts exactly the well-formed configurations.
   Module `Runs` is about whole histories of such steps: they send what a reference without
   any table prescribes, reaps are invisible, and VLANs do not interfere. `InBytes` says what
   one step does in terms of the configuration and of bytes alone.
2. **Every interleaving.** `FdbSteps` splits Learn, Lookup and reap where they release the lock
   or touch an entry without it; entries that reap deleted stay on the heap for the goroutines
   that still hold them. `Pipeline` splits forward, port by port, over that table. `Lifecycle` is
   Start, any number of concurrent Stop calls, the receive loops, the ageing loop, the write
   locks and the handles. `SwitchSteps` puts them together, and states safety, isolation,
   egress, delivery and conservation for every run; `Shutdown` proves that it does not get stuck, and
   `FairRuns` that shutdown ends in every fair run. `FdbExact` says exactly when two things
   hold that one might expect of the table. `FdbAlone` and `ForwardAlone` connect this layer
   to the first: a call, or a whole forward, that is not interleaved with others does exactly
   what the sequential specification says, and can always come to its end.
   `Service` proves what the running switch can always do, so that none of this holds of a
   switch that does nothing.
3. **Frames and text.** `Wire` is the byte-level codec with its egress and many-hop theorems;
   `Probe` the harness's own builder and parser; `PortSpecs` the command line's port syntax
   and its printer; `Observe` snapshots, rates and the table listing; `Pacing` the paced sender.

`dafny verify dfyconfig.toml` checks all of it.

## Where the code and its description differ

The model follows the code.

- *Plain ports are described as transparent* (`internal/goswitch/vlan.go:13`), but a tagged frame
  leaves a plain port without its tag: `Wire.VerbatimIffUntagged` says that exactly the untagged
  frames pass byte for byte.
- *A frame whose type announces a tag that it is too short to hold* counts as untagged. When such a
  frame is rebuilt and padded, the padding completes the announced tag, and the frame leaves with a
  tag it should not have, possibly one of another VLAN (`Forwarding.TornTagExample`). `Wire.EgressCorrect`
  gives the exact condition, `TornTag`, as an if-and-only-if, and `Config.Reclassified` what a peer makes of
  such a frame.
- *Reap and lazy expiry agree* only while ageing is not negative and is not raised between a reap and
  a later frame: Lookup reads a negative ageing time as "never", reap does not.
  `Runs.ReapInvisibleIff` is exact for one table: reap with ageing `a` is invisible to every later
  lookup with ageing `b` if and only if `a == 0` or `0 < b <= a`. `Runs.RefinesReferenceIff` is exact
  for whole runs: given the ageing times at which reaps may have run and the one at a frame, all such
  runs obey the reference at that frame if and only if each pair satisfies this.
- *Trunk VIDs of 4096 and above* are accepted by NewEngine and listed as members, though no tag
  carries them: `Config.MemberIffReachable` excludes exactly those. The command line cannot produce
  them (`PortSpecs.FlagVidsFitTags`).
- *A table entry need not pair a port and a time of one Learn call*: each of the two was taught for that
  key, and that is enough for isolation. `FdbExact.EntriesPairedIff` is exact: whenever nobody is in a
  call all entries are paired if and only if no station is taught from two ports or there is only one
  goroutine. While calls are under way the second escape is gone (`FdbExact.EntriesAlwaysPairedIff`).
- *Learn may end without its key in the table*: `FdbExact.LostLesson` is such a run, and
  `FdbExact.LessonsKeptIff` is exact: with the ageing time left alone, every Learn ends with its key in
  the table if and only if the ageing time is zero or there is only one goroutine.
- *The receive loops leave within one poll timeout* (`internal/goswitch/engine.go:156`), but Stop waits for the
  ageing loop too, whose select may choose its timer although done is closed. `FairRuns.TimerMayWinForever` is a run
  of a one-port switch in which the receive loop leaves at once and no possible step is ignored forever, and that
  never ends for this reason. `FairRuns.ShutsDownIff` is exact: a run that ignores no possible step forever shuts
  down if and only if its select does not overlook done forever.

## Model

| member | source | states |
|---|---|---|
| `Construction.NewEngine` | internal/goswitch/engine.go:84-140 | Succeeds exactly for well-formed configurations (as many handles as ports, at least one, distinct non-empty names, no port both access and trunk, no mix of plain and VLAN ports); otherwise reports the first fault in the code's order, which is a fault the configuration has. Of the engine built, in terms of the configuration alone: port i has index, name and VIDs of configuration i; the list of every VLAN v is the ascending list of exactly the positions whose trunk lists v, or that have no trunk and the access VID v, zero standing for neither; it knows VLANs exactly if some port is not plain; the table is empty and the counters are zero. |
| `Construction.BuildPorts` | internal/goswitch/engine.go:92-121 | The first loop: one port for each configuration, in order, or the first fault, with all earlier ports free of faults; and whether plain and VLAN ports occur. |
| `Config.SpecMeans` | internal/goswitch/engine.go:105-119 | The role and the memberships of a port in terms of its configuration: a trunk exactly if its list is not empty, access exactly if the list is empty and the VID is not zero, and a member of exactly the VIDs of the list, or of the access VID. |
| `Construction.BuildMembers` | internal/goswitch/engine.go:127-138 | The second loop: every VLAN's list is the ascending list of its members. |
| `Construction.JoinAll` | internal/goswitch/engine.go:134-136 | Whatever order a trunk's set of VIDs is read in, its port is appended once to the list of each VID in the set and to no other. |
| `Config.MembersExact` | internal/goswitch/engine.go:127-138 | A membership list is strictly increasing and holds exactly the member ports, even if a trunk repeats a VID. |
| `Config.MemberIffClassified` | internal/goswitch/vlan.go:43-62 | A port is a member of a VLAN if and only if some tag state classifies to it. |
| `Config.ClassifyMeans` | internal/goswitch/vlan.go:41-62 | Which tags a port takes into which VLAN, in terms of its configuration: plain ports all into zero, access ports none but untagged frames into their VID, trunks exactly the VIDs of their list. |
| `Config.MemberIffReachable` | internal/goswitch/engine.go:127-138 | A port is listed for a VLAN and the VID fits a tag (if a trunk) if and only if some frame on the wire, as bytes, classifies to that VLAN there. |
| `Config.Reclassified` | internal/goswitch/vlan.go:43-62 | A frame emitted on an access or trunk port is classified back to the same VLAN by a peer port of that role that is a member, if and only if not TornTag; or, on trunks, if the VID that the padded torn tag shows is that VLAN's. Where a tag is built its VID must fit 12 bits. |
| `Config.FaultFreeMeans` | internal/goswitch/engine.go:94-104 | Checking port by port against the names seen so far is the same as: names non-empty, pairwise distinct, one role a port. |
| `Fdb.FDB.Learn` | internal/goswitch/fdb.go:35-52 | In place, by either path: the table becomes the old one with this key mapped to this port and time. |
| `Fdb.FDB.Lookup` | internal/goswitch/fdb.go:56-67 | Answers the port of the key's entry, or nothing if there is none or it is older than a positive ageing time. |
| `Fdb.FDB.Reap` | internal/goswitch/fdb.go:70-82 | Whatever order the map is walked in: leaves the table without the entries older than the ageing time, and all of it if that is zero. |
| `Forwarding.ReapTable` | internal/goswitch/fdb.go:70-82 | For ageing >= 0 the keys left are exactly those a lookup at that time still finds, with their entries unchanged. |
| `Switching.Engine.Forward` | internal/goswitch/engine.go:190-252 | One received frame: the new table and ageing, the frames written in order, and all counters of all ports are those of the specification; the table keeps naming members only. |
| `Switching.Engine.Receive` | internal/goswitch/engine.go:194-224 | A frame is admitted, with its VLAN and view, exactly if it decodes and its tag is legal for the port's role. |
| `Switching.Engine.Relay` | internal/goswitch/engine.go:226-251 | Learning comes before the lookup, so that the frame itself counts as the latest lesson. |
| `Switching.Engine.LearnSource` | internal/goswitch/engine.go:226-231 | Multicast sources are not learned; what is learned names a member. |
| `Switching.Engine.Deliver` | internal/goswitch/engine.go:233-251 | Known unicast goes to its port, everything else floods; the flood counter moves only on a flood. |
| `Switching.Engine.SendKnown` | internal/goswitch/engine.go:236-240 | Split horizon: nothing to the ingress port; otherwise one write, although membership is not checked here. |
| `Switching.Engine.SendFlood` | internal/goswitch/engine.go:244-251 | One write for each member other than the ingress port, in order. |
| `Switching.Engine.Emit` | internal/goswitch/engine.go:255-280 | One write of the frame with the tag of the port's role, counted as sent or as dropped. |
| `Switching.Engine.Reap` | internal/goswitch/engine.go:175-187 | What the ageing loop does at a tick is the reap event of the specification. |
| `Switching.Engine.SetAgeing` | internal/goswitch/engine.go:169-173 | Changes the ageing time and nothing else. |
| `Switching.Engine.FDBSnapshot` | internal/goswitch/stats.go:59-74 | Lists every table entry exactly once: as many rows as entries, and for each the VLAN, the address text, the configured name of its port, which exists, and the age. |
| `Forwarding.Admit` | internal/goswitch/vlan.go:43-62 | The VLAN a frame is admitted to has the ingress port as a member; a trunk frame carries that VLAN's tag, an access frame none. |
| `Forwarding.Step` | internal/goswitch/engine.go:190-252 | Every event keeps the invariant that each learned port exists and is a member of the VLAN it was learned for. |
| `InBytes.StepInBytes` | internal/goswitch/engine.go:190-252 | One frame on a configured switch, in terms of the configuration and of bytes: not accepted, it changes nothing and goes nowhere; accepted into v, an even first source byte is learned with port and time and an odd one is not; an even first destination byte with a current entry goes to that port, unless it came from there; everything else goes to exactly the other ports configured for v, once and in order; and what leaves is the frame as Rewritten says. |
| `InBytes.AdmittedIff` | internal/goswitch/vlan.go:41-62 | When a frame is admitted, and where: a plain port takes every frame of 14 bytes into zero, an access port those without a tag into its VID, a trunk those whose last tag's VID is listed into that VLAN; the addresses are the first twelve bytes. |
| `InBytes.QuietSteps` | internal/goswitch/engine.go:169-187 | A reap keeps exactly the entries that are not older than the ageing time, or all if it is zero, whatever its sign; setting the ageing time sets it; neither sends anything. |
| `InBytes.FrameCounts` | internal/goswitch/engine.go:189-280 | How one frame moves all seven counters of any port: received frames and bytes, dropped and flooded on the ingress port; frames and bytes sent and failed writes on each port as many as there were. |
| `Forwarding.TargetsExact` | internal/goswitch/engine.go:233-251 | Under that invariant the targets of a frame are existing members other than the ingress port, each once; a flood has all of them. |
| `Runs.RefinesReference` | internal/goswitch/engine.go:220-251 | On every history with time running forward, a frame at which no past reap can be noticed sends what a function of the history alone prescribes: to the ingress port of the latest unexpired frame from its destination in its VLAN (itself included), nothing if that is its own port, otherwise a flood. Ageing may be negative, raised and lowered. |
| `Runs.RefinesReferenceIff` | internal/goswitch/fdb.go:56-82 | That condition is exact: for any set of ageing times at which reaps may have run and any ageing time at the frame, all such histories obey the reference if and only if each such reap is unnoticeable there (it ran at zero, or the frame's ageing time is positive and not above the reap's). |
| `Runs.NoticedReap` | internal/goswitch/fdb.go:56-82 | For every other pair of ageing times, a history of three ports whose last frame floods although its destination is current. |
| `Runs.TableTracksHistory` | internal/goswitch/fdb.go:35-82 | The simulation behind it, on every history with time running forward: each table entry is the latest lesson for its key, and each missing key was never taught or had expired, by the ageing time of some reap, when that reap ran. |
| `Runs.LatestLessonIsFreshest` | internal/goswitch/fdb.go:35-52 | The latest lesson is the freshest one of the history, and comes from a frame of it. |
| `Runs.ReapInvisibleIff` | internal/goswitch/fdb.go:56-82 | Reap with ageing a is invisible to all lookups with ageing b, then or later, if and only if a is zero or 0 < b <= a. |
| `Runs.ReapsAreInvisible` | internal/goswitch/engine.go:175-187 | Deleting all reaps from a history changes nothing that any frame sends, if no frame comes at an ageing time that would let it notice an earlier reap. |
| `Runs.ReapsDoNotTeach` | internal/goswitch/fdb.go:70-82 | A history without its reaps has the same lessons, ageing and order of time. |
| `Runs.VlansDoNotInterfere` | internal/goswitch/engine.go:190-252 | Deleting every frame not of VLAN v from any history, with no condition on time or ageing, leaves what the frames of v send unchanged, in bytes and order, and the table's part for v too. |
| `Runs.VlanAloneIsSlice` | internal/goswitch/fdb.go:10-13 | The table after a history of one VLAN alone is the slice of the whole table for that VLAN: the switch is a disjoint union. |
| `Runs.StepOnSlice` | internal/goswitch/engine.go:190-252 | One event does the same to a VLAN whatever the table holds for the others. |
| `Runs.RunsAreIsolated` | internal/goswitch/engine.go:226-251 | After every history, a frame of a VLAN goes to existing members of it, never out its ingress port, at most once a port. |
| `Wire.DecodeBytes` | internal/goswitch/engine.go:194-218 | What the decoder reads where: destination, source, all whole tags announced by 81 00, of which the last gives the low twelve bits of its word as VID, then the type and the payload; nothing below 14 bytes. |
| `Wire.EgressBytes` | internal/goswitch/engine.go:254-265 | What leaves, byte for byte: the frame unchanged if and only if its tag state is the wanted one; otherwise with 81 00 and the VID inserted after the addresses, or with all tags cut out, and zeros up to the minimum. |
| `Wire.BuiltBytes` | internal/goswitch/vlan.go:64-85 | The serializers' output, byte for byte. |
| `Wire.EgressCorrect` | internal/goswitch/engine.go:254-265 | The frame written decodes with the wanted tag (the VLAN's on a trunk, none elsewhere), the same addresses and inner type, and the payload followed by zeros only, if and only if not TornTag. A VID must fit 12 bits only where a tag is built. |
| `Wire.TornEgress` | internal/goswitch/vlan.go:64-85 | What a torn frame shows after it was rewritten: the VID of its first two payload bytes, padded with zeros, or zero if its third byte announces one more tag and the padding has room for it. |
| `Wire.VerbatimIffUntagged` | internal/goswitch/engine.go:257-265 | A port that does not tag passes a frame byte for byte if and only if the frame has no tag. |
| `Forwarding.TornTagExample` | internal/goswitch/engine.go:257-265 | A 16-byte frame that an access port of VLAN 10 admits to VLAN 10, and that leaves a trunk so that a trunk classifies it to VLAN 20. |
| `Wire.HopsPreserveContent` | internal/goswitch/vlan.go:64-85 | Any sequence of tagging, untagging and verbatim hops keeps addresses, inner type and payload, pads with zeros only, never beyond the minimum frame however many hops there are, and ends with the tag of the last rewriting hop. |
| `Wire.EgressIsHop` | internal/goswitch/engine.go:255-265 | Each emit is one of those hops, tagging with the VLAN of the frame. |
| `Wire.DecodeTagged` | internal/goswitch/vlan.go:70-77 | Decoding what buildTagged built gives the VID, and then what the inner type and the padded payload decode to. |
| `Wire.DecodeUntagged` | internal/goswitch/vlan.go:80-85 | Decoding what buildUntagged built gives no tag, and then what the type and the padded payload decode to. |
| `FdbSteps.InvStep` | internal/goswitch/fdb.go:35-82 | Every step of every interleaving of Learn, Lookup and reap keeps: entries keep their keys, ports and times were taught for them, locks have one holder, lookups answer with taught ports (FdbGuarantees.AnswerWasHeld says more), deletions were justified. |
| `FdbSteps.LineageStep` | internal/goswitch/fdb.go:35-52 | Every entry, reachable or orphaned, has a port from some Learn of its key, and a time from some Learn of its key. |
| `FdbSteps.StepEvolves` | internal/goswitch/fdb.go:35-82 | History only grows, a key leaves the map only with a logged deletion, and only the holder of the write lock changes the map. |
| `FdbGuarantees.RunKeepsInv` | internal/goswitch/fdb.go:35-82 | All this in every state of every run with any number of goroutines. |
| `FdbGuarantees.LossesAreExpiries` | internal/goswitch/fdb.go:70-82 | A key that left the map between two moments was deleted in between by a reap that had read a time older than the ageing time it had loaded. |
| `FdbGuarantees.AnswerWasHeld` | internal/goswitch/fdb.go:56-67 | In every run, the port that a Lookup answers is one that the map held for its key in some state between the call's read of the map and its end, whatever was learned and reaped meanwhile. |
| `FdbGuarantees.PortWasHeld` | internal/goswitch/fdb.go:35-82 | Whatever port an entry that was in the map has later, orphaned or not, the map has held that port for its key in between. |
| `FdbGuarantees.LearnEnds` | internal/goswitch/fdb.go:35-52 | At the end of a Learn, in any state: its key is absent only on the lock-free path, and only if a reap deleted it after that Learn's read; with the lock the entry has the call's time. |
| `FdbExact.LessonsKeptIff` | internal/goswitch/fdb.go:35-82 | With the ageing time left alone, in all states reachable by n goroutines every Learn that ends has its key in the table, if and only if the ageing time is zero or n < 2. |
| `FdbExact.LostLesson` | internal/goswitch/fdb.go:37-42 | For any other ageing time and two or more goroutines, a reachable state from which a Learn ends without its key: it refreshes an entry that a reap has deleted. |
| `FdbExact.EntriesPairedIff` | internal/goswitch/fdb.go:35-52 | For any set of (key, port) pairs taught: in all reachable states with nobody in a call every entry, reachable or orphaned, has the port and the time of one Learn, if and only if no key has two ports or n < 2. |
| `FdbExact.EntriesAlwaysPairedIff` | internal/goswitch/fdb.go:44-48 | In all reachable states whatsoever: if and only if no key has two ports or n is zero. |
| `FdbExact.MixedEntry` | internal/goswitch/fdb.go:37-42 | For any key, any two ports and any two or more goroutines, a reachable state at rest whose entry pairs one Learn's port with another's time. |
| `FdbAlone.LearnAlone` | internal/goswitch/fdb.go:35-52 | Learn step by step, undisturbed, leaves the old table with this key mapped to this port and time, whatever the others are in the middle of. |
| `FdbAlone.LookupAlone` | internal/goswitch/fdb.go:56-67 | Lookup step by step, undisturbed, gives the specification's answer and changes nothing. |
| `FdbAlone.ReapAlone` | internal/goswitch/fdb.go:70-82 | Reap step by step, undisturbed, leaves the specification's table. |
| `FdbAlone.CallEnds` | internal/goswitch/fdb.go:35-82 | Every call can run undisturbed to its end, whatever the others are in the middle of, if nobody holds the write lock. |
| `Pipeline.InvStep` | internal/goswitch/engine.go:190-280 | Every step of every interleaving of forwards and reaps keeps: ports are taught only for VLANs they are members of, every frame is on its way to members other than its ingress port only, and so was every write. |
| `Pipeline.EntriesNameMembers` | internal/goswitch/engine.go:236-238 | Every entry, reachable or orphaned, and every lookup's answer names a member of its key's VLAN: why the unicast path need not check. |
| `Pipeline.TableFollows` | internal/goswitch/engine.go:226-243 | What an action does to the table is a step of the table's own machine, or nothing. |
| `ForwardAlone.ForwardIsOneEvent` | internal/goswitch/engine.go:190-280 | Forward step by step, undisturbed, is one event of the sequential specification: the same table, the same writes in order, the same counters of all ports. |
| `ForwardAlone.ForwardEnds` | internal/goswitch/engine.go:190-280 | Every frame can be forwarded undisturbed to the end, if nobody holds the table's write lock, and is then forwarded as by that one event. |
| `ForwardAlone.PassageStep` | internal/goswitch/engine.go:190-280 | The invariant behind it, point by point of forward. |
| `Deliveries.DeliveringStep` | internal/goswitch/engine.go:233-251 | Every step keeps, for each port: what a frame on its way has reached and has still to reach is its plan, all earlier frames have ended as planned, and the log is their writes. |
| `Deliveries.PlanExact` | internal/goswitch/engine.go:236-251 | A plan is strictly increasing and has existing members other than the ingress port only; that of a flood has all of them, that of a known port at most that one. |
| `Accounting.BalancedStep` | internal/goswitch/engine.go:189-280 | Every step keeps, for each port: received = dropped + flooded + known + in hand; writes done + pending + filtered = flood targets + known; sent and failed = the writes into it. |
| `Accounting.LogTotals` | internal/goswitch/engine.go:266-279 | Counted by where they came from or where they went, it is the same writes. |
| `Accounting.Conservation` | internal/goswitch/engine.go:189-280 | When nobody is inside forward: received = dropped + flooded + known unicast on each port, and sent + failed writes over all ports = flood targets + known unicasts not filtered. |
| `Accounting.TwoPortConservation` | internal/goswitch/engine.go:269-279 | Two plain ports: sent + failed of one = received - dropped - filtered by split horizon of the other. |
| `Accounting.OneTargetStep` | internal/goswitch/engine.go:244-251 | Between two plain ports every flood has exactly one target. |
| `Lifecycle.InvStep` | internal/goswitch/engine.go:143-187 | Every step of Start, Stop calls, receive loops and ageing loop keeps the wait-group count, the once protocol, the handles' and the locks' state, also when Start races with Stop. |
| `Lifecycle.InvIsSafe` | internal/goswitch/engine.go:153-167 | Nobody reads or writes a closed handle (writes to other ports included), no handle is closed twice or has two writers, the wait group is never negative, once a Stop has returned all handles are closed and nobody is inside, and nobody leaves without a reason. |
| `Lifecycle.WaitEnds` | internal/goswitch/engine.go:158-161 | When the wait group is zero nobody who was started is still there. |
| `Lifecycle.LateStep` | internal/goswitch/afpacket.go:62-79 | After done is closed a receive loop takes on at most one more frame. |
| `Lifecycle.LeavesStep` | internal/goswitch/afpacket.go:62-79 | A receive loop is leaving or gone only if done was closed or a read of its own failed, and always after such a failure; the ageing loop only after done was closed. |
| `Lifecycle.LocksStep` | internal/goswitch/engine.go:266-268 | A write lock is held by exactly the goroutine that is writing to that port. |
| `SwitchSteps.InvStep` | internal/goswitch/engine.go:142-280 | Lives and forwarding together: every step keeps all invariants and their agreement. |
| `SwitchSteps.RunsAreSafe` | internal/goswitch/engine.go:142-280 | In every state of every run: the handle safety above, every write (done or under way) goes to a member of its frame's VLAN other than its ingress port, and each loop takes on at most one frame after done is closed. |
| `SwitchSteps.RunsDeliverOnce` | internal/goswitch/engine.go:233-251 | In every run every routed frame is written at most once to a port, to members other than its ingress port only; once its goroutine is done with it, a flood has reached every other member and a known port its one target; and the log of writes is the writes of these frames, in order. |
| `SwitchSteps.RunsConserveFrames` | internal/goswitch/engine.go:269-279 | Conservation in every run whenever nobody is inside forward. |
| `SwitchSteps.RunsConserveTwoPorts` | internal/goswitch/engine.go:269-279 | The two-port corollary in every run. |
| `SwitchSteps.RunsTagCorrectly` | internal/goswitch/engine.go:254-265 | In every run every write carries a frame that decodes with the tag its port's role wants for the frame's VLAN and with its content, if and only if not TornTag; where a tag is built its VID must fit 12 bits. |
| `Service.RunsWriteBytes` | internal/goswitch/engine.go:226-268 | In every run every write is of a frame its ingress port accepts into the VLAN, to another port configured for that VLAN, and its bytes are those of Rewritten: unchanged if the tag state is the wanted one. |
| `Service.FrameIsServed` | internal/goswitch/afpacket.go:62-79 | From every reachable state with done open and the locks free, every receive loop at its head or in a read can, in steps of its own, take in any frame; it is then back at its head, and table, writes and counters are those of one event of the specification. |
| `Service.EveryPortServes` | internal/goswitch/afpacket.go:62-79 | The same for every run of a configured switch, in terms of the configuration and of bytes: every port serves every frame. |
| `Service.BeginIsPossible` | internal/goswitch/engine.go:266-268 | Inside forward a write can begin whenever nobody holds the lock of that port, whoever holds the locks of others. |
| `Service.ReadMayEnd` | internal/goswitch/afpacket.go:70-76 | A read may time out, and the loop goes on, or fail, and the loop leaves. |
| `Service.TickReaps` | internal/goswitch/engine.go:175-187 | A tick, with the table's lock free, can reap in steps of the ageing loop as one event of the specification with the tick's own time, and nothing else changes. |
| `Service.AgeingIsSet` | internal/goswitch/engine.go:169-173 | At any moment the ageing time can be set, as one event of the specification, and nothing else changes. |
| `Service.StartCompletes` | internal/goswitch/engine.go:142-151 | Start can always be run to its end, and then every goroutine is at the head of its loop. |
| `Service.StopIsHeard` | internal/goswitch/engine.go:158-160 | The first Stop call can always close done in two steps. |
| `Shutdown.StepDecreases` | internal/goswitch/afpacket.go:62-79 | After done is closed every step, but a timer tick or a change of ageing, lowers a non-negative measure. |
| `Shutdown.NoDeadlock` | internal/goswitch/engine.go:158-187 | Until everybody has left and all Stop calls have returned, some such step is possible. |
| `Shutdown.StretchesAreBounded` | internal/goswitch/engine.go:158-187 | However it is scheduled, no more such steps are possible than the measure says. |
| `Shutdown.ShutdownCompletes` | internal/goswitch/engine.go:153-167 | When none is left, every goroutine is gone, every Stop call has returned, and every handle was closed exactly once. |
| `FairRuns.FairRunsShutDown` | internal/goswitch/engine.go:153-187 | In every infinite run in which done is closed, with any ticks and changes of ageing, that neither ignores a possible step forever nor lets select overlook done forever: everybody leaves, every Stop call returns, and every handle is closed exactly once. |
| `FairRuns.ShutsDownIff` | internal/goswitch/engine.go:175-187 | Of the infinite runs in which done is closed and no possible step is ignored forever, exactly those shut down whose select does not overlook done forever. |
| `FairRuns.TimerMayWinForever` | internal/goswitch/engine.go:179-186 | An infinite run of a switch with one plain port, whose configuration is well-formed, that ignores no possible step forever and never shuts down, because the timer wins every select. |
| `PortSpecs.SpecRoundTrip` | cmd/vibe-switch/main.go:81-98 | A non-empty colon-free name and a non-empty list of VIDs in 1..4094, printed as the client prints trunks, parse back to themselves. |
| `PortSpecs.SpecAcceptsExactly` | cmd/vibe-switch/main.go:81-106 | A string is accepted if and only if a non-empty name precedes its first colon and every comma-separated part after it is a VID; the result is that name and one VID for each part. |
| `PortSpecs.SplitNameVIDs` | cmd/vibe-switch/main.go:81-98 | The parser with its loop computes what the specification says, errors included. |
| `PortSpecs.ParseParts` | cmd/vibe-switch/main.go:86-93 | The loop stops with the first part that is not a VID. |
| `PortSpecs.ParseVID` | cmd/vibe-switch/main.go:100-106 | Only numbers in 1..4094 are accepted. |
| `PortSpecs.ParseDecimal` | cmd/vibe-switch/main.go:100-106 | Every VID printed in decimal parses back to itself. |
| `PortSpecs.ParsesIff` | cmd/vibe-switch/main.go:100-106 | A text is the VID n if and only if 1 <= n <= 4094 and it is decimal digits of value n with any white space around them. |
| `PortSpecs.ValueIsPositional` | cmd/vibe-switch/main.go:101 | The value of digits is positional, in base ten. |
| `PortSpecs.NoLeadingZero` | internal/control/client.go:132 | Numbers are printed without leading zeros. |
| `PortSpecs.RenderTrunk` | internal/control/client.go:128-135 | The trunk column is the comma-joined decimals, or a dash. |
| `PortSpecs.TrunkTextMeans` | internal/control/client.go:128-135 | Split at its commas, the printed column is the decimals of the VIDs, in order. |
| `PortSpecs.SplitJoin` | internal/control/client.go:134 | Splitting at a separator undoes joining parts without it. |
| `PortSpecs.Flags.Set` | cmd/vibe-switch/main.go:52-70 | Appends the one configuration the flag means to the shared list, in order, or reports the fault and leaves the list alone. |
| `PortSpecs.AccessFlagMeans` | cmd/vibe-switch/main.go:56-61 | name:text after the access flag is a port with that name and the VID that the text is, or an error if it is none. |
| `PortSpecs.TrunkFlagMeans` | cmd/vibe-switch/main.go:62-67 | After the trunk flag it is a port with that name and the VIDs that the comma-separated parts are, in order, if and only if all of them are VIDs. |
| `PortSpecs.NamesAreNeeded` | cmd/vibe-switch/main.go:52-83 | The plain flag takes the whole text as name; the others refuse a text without a name before a colon. |
| `PortSpecs.BlanksDoNotMatter` | cmd/vibe-switch/main.go:101 | Blanks, tabs and line ends around the VIDs change nothing. |
| `PortSpecs.FlagVidsFitTags` | cmd/vibe-switch/main.go:52-70 | Every VLAN of a port from the command line fits a tag, and is zero exactly on plain ports. |
| `Probe.ProbeRoundTrip` | internal/harness/probe.go:95-147 | For every payload, padding and VID that fits a tag, parsing the built frame recovers addresses, tag (none for VID 0), type, and marker + payload + zeros; it is at least padTo long, is recognised as a test frame, and the switch's decoder reads it the same. |
| `Probe.ParserAgreesIff` | internal/harness/probe.go:131-147 | The harness's parser and the switch's decoder agree on a frame if and only if it has no second tag. |
| `Probe.ParsedBytes` | internal/harness/probe.go:131-147 | What the parser reads where: of several tags the first. |
| `Probe.FrameBytes` | internal/harness/probe.go:95-112 | The built frame, byte for byte: addresses, 81 00 and the VID unless that is zero, 88 B5, DE AD BE EF, the payload, and zeros. |
| `Probe.TestFramesIff` | internal/harness/probe.go:126-128 | A frame counts as a test frame if and only if 88 B5 DE AD BE EF follow its addresses or its first tag. |
| `Probe.ProbeThroughSwitch` | internal/harness/probe.go:95-147 | A probe sent on by the switch for a VLAN is still a probe with the same content, tagged for that VLAN on a trunk and untagged elsewhere. |
| `Probe.Serialize` | internal/harness/probe.go:95-112 | The builder, step by step, builds the specified frame. |
| `Probe.Parse` | internal/harness/probe.go:131-147 | The parser, step by step, reads the first tag. |
| `Observe.CountersOnlyGrow` | internal/goswitch/stats.go:9-19 | In every run no counter of any port ever decreases. |
| `Observe.StatsSnapshot` | internal/goswitch/stats.go:90-105 | Each value, loaded while the switch runs on, lies between the counter's values at the start and at the end of the call. |
| `Observe.SnapshotsOrdered` | internal/goswitch/stats.go:90-105 | Of two snapshots of one run of the switch, the second begun after the first ended, the first is nowhere above the second. |
| `Observe.RatesAreDeltas` | internal/control/client.go:174-202 | Each port is paired with itself, no rate is clamped, and rate times window is exactly what the port counted in between. |
| `Observe.ShowRate` | internal/control/client.go:159-172 | Two snapshots of the running switch give one row for each port, in order, whose rate times window is at least what that port counted between the snapshots and at most what it counted from the start of the first to the end of the second. |
| `Observe.RenderRate` | internal/control/client.go:174-193 | The rows, in order, are the rates against the earlier row of the same name, or against zero. |
| `Observe.NamedFinds` | internal/control/client.go:178-185 | With distinct names the earlier row found is the port's own. |
| `Observe.NamedIsLast` | internal/control/client.go:178-185 | A port that has no earlier row counts from zero; of several rows of one name the last counts. |
| `Observe.ListingIsUnique` | internal/control/client.go:106-112 | Sorted by VLAN and address text, the same rows are the same listing, whatever order the table was walked in. |
| `Observe.BelowMeans` | internal/control/client.go:107-112 | The order of address texts is that of dictionaries. |
| `Observe.RowsUnrepeated` | internal/goswitch/stats.go:59-74 | Different keys show as different rows. |
| `Stats.MacTextInjective` | internal/goswitch/stats.go:64-67 | Different addresses have different texts. |
| `Stats.MacTextReads` | internal/goswitch/stats.go:64-67 | Read back, each pair of hexadecimal digits is its byte, in order, with colons in between. |
| `Pacing.PacedSend` | internal/harness/perf.go:157-173 | Whatever the clock, the writes and the sleeps do: it makes whole bursts of max(1, targetPPS / 1000) writes, at most one for each millisecond begun, counts exactly the writes that succeed, goes on until d has passed, and makes a burst at least if it begins in time. |
| `Pacing.Burst` | internal/harness/perf.go:163-167 | A burst makes as many writes as its size and counts those that succeed. |

## Left out

- Integer widths: counters are unbounded, so that nothing wraps at 2^64; times and ageing are unbounded integers; VIDs and EtherTypes do have 16 bits and tags 12.
- The place of the counters: the engine keeps them in one array with an element for each port, instead of one record inside each port; and the engine's other fields are set once, when construction has computed them, instead of being appended to field by field.
- Serializing by gopacket: modelled from the wire format, with padding to a length that is a parameter. Not modelled: frames whose type field is a length (below 0x0600), tags of type 0x88A8, and the refusal to serialize a VID above 4095. The last is why theorems about a rebuilt tag require its VID to fit 12 bits; they require nothing where no tag is built.
- Priority bits: the decoder drops them and a rebuilt tag has none, as in the code; no theorem speaks of them.
- Stacked tags: decoded as the code does, the last one wins; no theorem says that a stack is preserved, and Wire.HopsPreserveContent is about frames whose last tag is followed by an ordinary type.
- The Go memory model: the unlocked read and write of an entry's port are atomic steps. Sections under the read lock are one step, and steps that nobody can observe are merged with the one before.
- The WaitGroup and the Once are counters and flags that change atomically; Start is called once.
- Lifecycle.InvStep: does not model the panics by which Go's WaitGroup reports misuse. When Start races with Stop, the count may reach zero after some receive loops have come and gone and before Start adds the next; if that Add comes while a Wait is waking up, Go panics ("WaitGroup is reused before previous Wait has returned", or Add called concurrently with Wait). In the model the wait just ends, or goes on; so what is proved of that race is for the executions that do not panic. Without the race the count is positive from Start to the last exit.
- Write locks and table locks have no queue: any waiter may get a free lock.
- Fairness is an assumption of FairRuns.FairRunsShutDown: that reads and writes return, that the scheduler ignores nobody forever, and that select does not overlook a closed done forever. Shutdown.StretchesAreBounded and Shutdown.ShutdownCompletes need none, but are about stretches without ticks.
- The bytes counted by one frame change in the same step as the frames counted; so do a write's counter and the history of writes.
- rxLoop and gcLoop are steps of a state machine, not methods: their loops end only with the switch.
- The order of map iteration is arbitrary in the model, as in the code.
- Wall-clock time is a parameter; where a theorem needs it, it does not run backwards.
- Strings are sequences of characters; trimming, splitting and number parsing are modelled from the behaviour of the Go library. The error texts are reduced to the part at fault, and the check for an empty list of VIDs is absent because splitting never yields one.
- Sorting the table listing: Observe.ListingIsUnique says that any sort gives the same listing; the sort itself is the library's.
- Rates are exact real numbers; humanRate, the column layout, PPS, Mbps, loss and latency metrics are display.
- The unpaced branch of Throughput, warm-up, capture and counting loops.
- PortsSnapshot and ConfigSnapshot copy fields and have nothing to prove.
- AF_PACKET handles, packet filters, offload settings, RPC server and client, the interactive shell, network namespaces, bridges, topologies and scripts: the environment. A handle is only an oracle that returns frames, timeouts and errors.
