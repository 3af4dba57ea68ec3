/** What goes wrong without the hypotheses, and a joiner that waits for ever: states that
    runs really reach. */
module Counterexamples {
  import opened Clocks
  import opened DotVersionVectors
  import opened OrSets
  import opened Histories
  import opened StableTimestamps
  import opened Replicas
  import opened Systems
  import opened Joiners
  import opened Claims
  import opened Exchanges
  import opened Executions
  import opened Coordinators
  import opened Attempts

  /** Some run that meets every hypothesis ends here. */
  ghost predicate Reachable(s: System) {
    exists steps :: IsRun(steps, BOTH) && After(steps) == Some(s)
  }

  lemma InitialReachable()
    ensures Reachable(INITIAL)
  {
    assert IsRun([], BOTH) && After([]) == Some(INITIAL);
  }

  lemma ReachableStep(s: System, step: Step)
    requires Reachable(s) && Enabled(s, step) && Assumed(s, step, BOTH)
    ensures Reachable(Apply(s, step))
  {
    hide Apply, Enabled, Assumed;
    var steps :| IsRun(steps, BOTH) && After(steps) == Some(s);
    var more := steps + [step];
    assert more[..|more| - 1] == steps;
    assert IsRun(more, BOTH) && After(more) == Some(Apply(s, step));
  }

  // ---- joining before anything was committed ----

  function Joined(s: System, p: NodeId, gcReplica: bool): System {
    SetReplica(s, p, Replica(NewCore(p, gcReplica), Active, Idle, s.snapCollected, 0))
  }

  lemma AdoptsNothing(p: NodeId, gcReplica: bool)
    ensures Adopted(NewCore(p, gcReplica), EMPTY_STORE.state) == NewCore(p, gcReplica)
  {
    assert EffectiveMap(FrontierDvv(p, map[])) == map[];
    assert Merged(NewDvv(p), map[]).context == map[];
    assert MergedSet(EMPTY_SET, {}, map[]) == EMPTY_SET;
  }

  /** One read of a joiner that goes on. */
  lemma ReadReachable(s: System, p: NodeId, r: Replica, b: Boot)
    requires Reachable(SetReplica(s, p, r)) && b == BootNext(r.boot, s.store) && !r.boot.Active? && !b.Active?
    ensures Reachable(SetReplica(s, p, r.(boot := b)))
  {
    hide Reachable, BootNext;
    ReachableStep(SetReplica(s, p, r), Bootstrap(p));
    assert Apply(SetReplica(s, p, r), Bootstrap(p)) == SetReplica(s, p, r.(boot := b));
  }

  lemma JoinReachable(s: System, p: NodeId, gcReplica: bool)
    requires Reachable(s) && p !in s.reps && s.store == EMPTY_STORE
    ensures Reachable(Joined(s, p, gcReplica))
  {
    hide Reachable, Adopted, NewCore, Joined;
    var r := Replica(NewCore(p, gcReplica), Registered, Idle, map[], 0);
    ReachableStep(s, Register(p, gcReplica));
    ReadReachable(s, p, r, MetadataRead(0));
    ReadReachable(s, p, r.(boot := MetadataRead(0)), Settled(0));
    AdoptReachable(s, p, gcReplica);
  }

  lemma AdoptReachable(s: System, p: NodeId, gcReplica: bool)
    requires s.store == EMPTY_STORE
    requires Reachable(SetReplica(s, p, Replica(NewCore(p, gcReplica), Settled(0), Idle, map[], 0)))
    ensures Reachable(Joined(s, p, gcReplica))
  {
    hide Reachable, Adopted, NewCore;
    var s3 := SetReplica(s, p, Replica(NewCore(p, gcReplica), Settled(0), Idle, map[], 0));
    AdoptsNothing(p, gcReplica);
    ReachableStep(s3, Bootstrap(p));
    assert Apply(s3, Bootstrap(p)) == Joined(s, p, gcReplica);
  }

  // ---- collecting without interruption ----

  lemma ReadsReachable(s: System, p: NodeId)
    requires Reachable(s) && IsReady(s, p)
    ensures Reachable(AfterReads(s, p))
  {
    hide Reachable;
    var n, prev := Next(s), s.store.metadata.vStable;
    var s1 := SetPhase(s, p, EpochRead(n, prev));
    PhaseTwice(s, p, EpochRead(n, prev), MembersRead(n, prev, s.reps.Keys));
    ReachableStep(s, GcReadEpoch(p));
    ReachableStep(s1, GcReadMembers(p));
  }

  lemma EnteredReachable(s: System, p: NodeId)
    requires Reachable(s) && IsReady(s, p) && Next(s) !in s.store.intents
    ensures Reachable(Entered(s, p))
  {
    hide Reachable;
    var n, prev, all := Next(s), s.store.metadata.vStable, s.reps.Keys;
    ReadsReachable(s, p);
    assert Apply(AfterReads(s, p), GcClaim(p)) == AfterClaim(s, p);
    PhaseTwice(WithIntent(s, p), p, Claimed(n, prev, all), Confirmed(n, prev, all));
    assert Apply(AfterClaim(s, p), GcConfirm(p)) == Entered(s, p);
    hide Apply;
    ReachableStep(AfterReads(s, p), GcClaim(p));
    ReachableStep(AfterClaim(s, p), GcConfirm(p));
  }

  lemma CommittedReachable(u: System, p: NodeId)
    requires Reachable(u) && IsActive(u, p) && u.reps[p].gc.Gathered?
    ensures var u' := Execute(u, Committing(p)); u'.Some? && Reachable(u'.value)
  {
    hide Reachable, Snapshot;
    var u1 := WritingState(u, p);
    var u2 := WritingMetadata(u1, p);
    ReachableStep(u, GcWriteState(p));
    ReachableStep(u1, GcWriteMetadata(p));
    ReachableStep(u2, GcRelease(p));
    ReleasingFrees(u2, p);
    hide Apply, Execute;
    ExecuteFirst(u, GcWriteState(p), [GcWriteMetadata(p), GcRelease(p)]);
    ExecuteFirst(u1, GcWriteMetadata(p), [GcRelease(p)]);
    Execute1(u2, GcRelease(p));
  }

  /** An attempt that goes through, as a run. */
  lemma CollectionReachable(s: System, p: NodeId, listing: seq<NodeId>, order: seq<NodeId>) returns (s': System)
    requires Reachable(s) && IsReady(s, p) && NodesIn(listing) == s.reps.Keys && Next(s) !in s.store.intents
    requires var v := Finding(s.reps[p].core, listing, order, map[]).0;
             !VvLeq(v, s.store.metadata.vStable) && InFlightCovers(s, p, v)
    ensures var a := Attempted(s.reps[p].core, s.store, s.reps.Keys, listing, order, map[]);
            Reachable(s') && a.abort.None? && IsOutcome(s, p, a, s')
  {
    hide Reachable, Finding, VvLeq, Gathering, Execute, Initiated, Snapshot, Join;
    var t := Entered(s, p);
    var u := Gathering(t, p, listing, order);
    EnteredReachable(s, p);
    ReachableStep(t, GcCollect(p, listing, order));
    CollectingDecides(s, p, listing, order);
    EndingSettles(s, p, listing, order);
    CommittedReachable(u, p);
    s' := Execute(u, Committing(p)).value;
  }

  // ---- the in-flight hypothesis ----

  const A1 := Dot("A", 1)
  const A2 := Dot("A", 2)
  const X := Tag("x", A1)

  /** The delta with the add, and the one with the remove. */
  const LATE := CrdtOp("A", "B", Delta({X}, map[], map["A" := 1], A1), None, None, map[])
  const PROMPT := CrdtOp("A", "B", Delta({}, map[A1 := A2], map["A" := 2], A2), None, None, map[])

  const A_ADDED := Core("A", true, Dvv(A1, map[]), SetState({X}, map[]), map[], 0)
  const A_SERVED := A_ADDED.(matrix := map["B" := map[]])
  const A_REMOVED := Core("A", true, Dvv(A2, map["A" := 1]), SetState({}, map[A1 := A2]), map["B" := map[]], 0)
  const A_INFORMED := A_REMOVED.(matrix := map["B" := map["A" := 2]])
  const B_TOLD := Core("B", false, Dvv(Dot("B", 0), map["A" := 2]), SetState({}, map[A1 := A2]), map[], 0)

  predicate Two(s: System, a: Core, b: Core) {
    s.reps.Keys == {"A", "B"} && IsReady(s, "A") && IsReady(s, "B")
    && s.reps["A"].core == a && s.reps["B"].core == b && s.store == EMPTY_STORE
  }

  lemma TwoJoined(bIsGc: bool) returns (s: System)
    ensures Reachable(s) && Two(s, NewCore("A", true), NewCore("B", bIsGc)) && s.net == {} && s.history == map[]
  {
    InitialReachable();
    JoinReachable(INITIAL, "A", true);
    s := Joined(INITIAL, "A", true);
    JoinReachable(s, "B", bIsGc);
    s := Joined(s, "B", bIsGc);
  }

  lemma AddedFacts()
    ensures Operated(NewCore("A", true), Add("x")) == A_ADDED
    ensures Evented(NewDvv("A")).dot == A1
    ensures AfterRequest(A_ADDED, "B", map[]) == A_SERVED
    ensures Respond("A", "B", ReplyTo(A_SERVED, map[], false, {}), map[]) == Some(LATE)
  {
    assert DeltaFor(A_SERVED.orset, A_SERVED.dvv, map[]) == LATE.delta;
  }

  lemma RemovedFacts()
    ensures Operated(A_SERVED, Remove("x")) == A_REMOVED
    ensures EventOf(A_SERVED.orset, Remove("x")) == RemoveEvent({A1})
    ensures AfterRequest(A_REMOVED, "B", map[]) == A_REMOVED
    ensures Respond("A", "B", ReplyTo(A_REMOVED, map[], false, {}), map[]) == Some(PROMPT)
  {
    assert DotsOf(A_SERVED.orset.live, "x") == {A1} by { assert X.dot in DotsOf(A_SERVED.orset.live, "x"); }
    assert DeltaFor(A_REMOVED.orset, A_REMOVED.dvv, map[]) == PROMPT.delta;
  }

  lemma ToldFacts()
    ensures AfterDelta(NewCore("B", false), PROMPT.delta, None) == B_TOLD
    ensures Clock(B_TOLD) == map["A" := 2]
  {
    assert DeltaClock(PROMPT.delta) == map["A" := 2];
    assert Merged(NewDvv("B"), map["A" := 2]).context == map["A" := 2];
  }

  lemma InformedFacts()
    ensures AfterRequest(A_REMOVED, "B", map["A" := 2]) == A_INFORMED
    ensures Respond("A", "B", ReplyTo(A_INFORMED, map["A" := 2], false, {}), map["A" := 2]) == None
  {
    assert Join(map["A" := 2], map[]) == map["A" := 2];
    assert UpdatedMatrix(A_REMOVED.matrix, map["B" := map["A" := 2]]) == A_INFORMED.matrix;
  }

  const SHOPPING := map[A1 := AddEvent("x"), A2 := RemoveEvent({A1})]

  predicate Talking(s: System, a: Core, b: Core, net: set<Envelope>, h: History) {
    Two(s, a, b) && s.net == net && s.history == h
  }

  /** Registered, added, requested, served; the delta stays in flight. */
  lemma AddInFlight(bIsGc: bool) returns (s: System)
    ensures Reachable(s)
    ensures Talking(s, A_SERVED, NewCore("B", bIsGc), {PullRequest("B", "A", map[]), LATE}, map[A1 := AddEvent("x")])
  {
    hide Reachable, Operated, AfterRequest, ReplyTo, Respond, Evented;
    s := TwoJoined(bIsGc);
    AddedFacts();
    ReachableStep(s, Client("A", Add("x")));
    s := Apply(s, Client("A", Add("x")));
    assert Two(s, A_ADDED, NewCore("B", bIsGc)) && s.net == {} && s.history == map[A1 := AddEvent("x")];
    ReachableStep(s, Advertise("B", "A"));
    s := Apply(s, Advertise("B", "A"));
    var ask := PullRequest("B", "A", map[]);
    assert Talking(s, A_ADDED, NewCore("B", bIsGc), {ask}, map[A1 := AddEvent("x")]);
    ReachableStep(s, Serve(ask, false, {}));
    s := Apply(s, Serve(ask, false, {}));
  }

  const ASK := PullRequest("B", "A", map[])
  const TELL := PullRequest("B", "A", map["A" := 2])

  /** Removed and requested again. */
  lemma RemoveOperated() returns (s: System)
    ensures Reachable(s)
    ensures Talking(s, A_REMOVED, NewCore("B", false), {ASK, LATE}, SHOPPING)
  {
    hide Reachable, Operated, Evented, EventOf;
    s := AddInFlight(false);
    RemovedFacts();
    assert Evented(A_SERVED.dvv).dot == A2 by { NextDot(); }
    ReachableStep(s, Client("A", Remove("x")));
    s := Apply(s, Client("A", Remove("x")));
  }

  /** Served and delivered. */
  lemma RemoveDelivered() returns (s: System)
    ensures Reachable(s)
    ensures Talking(s, A_REMOVED, B_TOLD, {ASK, LATE, PROMPT}, SHOPPING)
  {
    hide Reachable, AfterRequest, ReplyTo, Respond, AfterDelta;
    s := RemoveOperated();
    RemovedFacts();
    ToldFacts();
    ReachableStep(s, Serve(ASK, false, {}));
    s := Apply(s, Serve(ASK, false, {}));
    assert Talking(s, A_REMOVED, NewCore("B", false), {ASK, LATE, PROMPT}, SHOPPING);
    ReachableStep(s, Deliver(PROMPT));
    s := Apply(s, Deliver(PROMPT));
  }

  lemma NextDot()
    ensures Evented(A_SERVED.dvv).dot == A2
  {
  }

  /** The responder's clock reaches the GC replica's matrix. */
  lemma RemoveAcknowledged() returns (s: System)
    ensures Reachable(s)
    ensures Talking(s, A_INFORMED, B_TOLD, {ASK, LATE, PROMPT, TELL}, SHOPPING)
  {
    hide Reachable, AfterRequest, ReplyTo, Respond;
    s := RemoveDelivered();
    ToldFacts();
    InformedFacts();
    ReachableStep(s, Advertise("B", "A"));
    s := Apply(s, Advertise("B", "A"));
    assert Talking(s, A_REMOVED, B_TOLD, {ASK, LATE, PROMPT, TELL}, SHOPPING);
    ReachableStep(s, Serve(TELL, false, {}));
    s := Apply(s, Serve(TELL, false, {}));
  }

  lemma MeetOfTwo(node: NodeId, mc: MatrixClock, own: VersionVector)
    requires AllRows(node, ["A", "B"], mc)
    ensures MemberMeet(node, ["A", "B"], mc, own) == Meet(RowOf(node, mc, own, "A"), RowOf(node, mc, own, "B"))
  {
    assert ["A", "B"][..1] == ["A"];
  }

  /** Two members that have both seen `v` find it stable. */
  lemma TwoFind(c: Core, v: VersionVector)
    requires c.gcReplica && Clock(c) == v && v.Keys <= {"A"} && Meet(v, v) == v
    requires (c.id == "A" && c.matrix == map["B" := v]) || (c.id == "B" && c.matrix == map["A" := v])
    ensures Finding(c, ["A", "B"], [], map[]) == (v, {})
  {
    hide MemberMeet, EffectiveMap, Meet;
    assert NodesIn(["A", "B"]) == {"A", "B"} by { assert "A" in ["A", "B"] && "B" in ["A", "B"]; }
    MeetOfTwo(c.id, c.matrix, v);
    assert Obsolete(["A", "B"], c.matrix, map[], v) == {};
  }

  lemma AckFinding()
    ensures Finding(A_INFORMED, ["A", "B"], [], map[]) == (map["A" := 2], {})
    ensures !VvLeq(map["A" := 2], map[])
  {
    hide Finding;
    assert Clock(A_INFORMED) == map["A" := 2];
    assert Meet(map["A" := 2], map["A" := 2]) == map["A" := 2];
    TwoFind(A_INFORMED, map["A" := 2]);
    assert At(map["A" := 2], "A") > At(map[], "A");
  }

  /** The GC replica commits epoch 1; the other replica has not collected yet. */
  lemma RemoveCommitted() returns (s: System)
    ensures Reachable(s) && IsReady(s, "B") && s.reps["B"].core == B_TOLD
    ensures LATE in s.net && s.history == SHOPPING
    ensures s.store.metadata == EpochMetadata(1, map["A" := 2], {})
  {
    hide Reachable, Finding, Snapshot, Initiated, VvLeq;
    var r := RemoveAcknowledged();
    AckFinding();
    s := CollectionReachable(r, "A", ["A", "B"], []);
    assert map["A" := 2] - {} == map["A" := 2];
    assert "B" in s.reps - {"A"};
  }

  const B_FORGOT := B_TOLD.(orset := EMPTY_SET, epoch := 1)

  lemma ForgotFacts()
    ensures Observed(B_TOLD, EpochMetadata(1, map["A" := 2], {})) == B_FORGOT
    ensures X in AfterDelta(B_FORGOT, LATE.delta, None).orset.live
  {
    assert DominatesDot(FrontierDvv("B", map["A" := 2]), A2);
    assert Collected(B_TOLD.orset, FrontierDvv("B", map["A" := 2])) == EMPTY_SET;
    assert B_TOLD.dvv.context - {} == B_TOLD.dvv.context;
  }

  lemma RemoveWasSeen()
    ensures Removed(SHOPPING, Clock(AfterDelta(B_FORGOT, LATE.delta, None)), A1)
  {
    MergeIsMax(B_FORGOT.dvv, DeltaClock(LATE.delta));
    assert Removes(SHOPPING, A2, A1);
    assert At(Clock(B_FORGOT), "A") == 2;
  }

  lemma CollectsThenReceives(s: System)
    requires IsReady(s, "B") && s.reps["B"].core == B_TOLD && LATE in s.net
    requires s.store.metadata == EpochMetadata(1, map["A" := 2], {})
    ensures var s1 := Apply(s, Observe("B"));
            && Enabled(s1, Deliver(LATE)) && s1.reps["B"].core == B_FORGOT && s1.net == s.net && s1.history == s.history
  {
    hide Observed, Join;
    ForgotFacts();
  }

  /** Collecting while an older delta is in flight: the run breaks no other hypothesis,
      and the removed element is back at a replica that has seen the remove. */
  lemma LateDeltaResurrects() returns (s: System)
    ensures Reachable(s) && Enabled(s, Observe("B")) && !InFlightCovers(s, "B", s.store.metadata.vStable)
    ensures var s1 := Apply(s, Observe("B"));
            && Enabled(s1, Deliver(LATE))
            && var s2 := Apply(s1, Deliver(LATE));
               X in s2.reps["B"].core.orset.live && Removed(s2.history, Clock(s2.reps["B"].core), X.dot)
  {
    hide Reachable, Observed, AfterDelta, Removed, Observing;
    s := RemoveCommitted();
    CollectsThenReceives(s);
    ForgotFacts();
    RemoveWasSeen();
    LateIsLate();
  }

  lemma LateIsLate()
    ensures !SeenEnough(map["A" := 2], DeltaClock(LATE.delta))
  {
    assert At(map["A" := 2], "A") > At(DeltaClock(LATE.delta), "A") > At(map[], "A");
  }

  // ---- a joiner that waits for ever ----

  lemma AloneFinding()
    ensures Finding(A_ADDED, ["A"], [], map[]) == (map["A" := 1], {})
    ensures !VvLeq(map["A" := 1], map[])
  {
    assert Clock(A_ADDED) == map["A" := 1];
    assert NodesIn(["A"]) == {"A"} by { assert "A" in ["A"]; }
    assert Obsolete(["A"], map[], map[], map["A" := 1]) == {};
    assert At(map["A" := 1], "A") > At(map[], "A");
  }

  lemma OneOperated() returns (s: System)
    ensures Reachable(s) && s.reps.Keys == {"A"} && IsReady(s, "A") && s.reps["A"].core == A_ADDED
    ensures s.store == EMPTY_STORE && s.net == {}
  {
    hide Reachable, Operated;
    InitialReachable();
    JoinReachable(INITIAL, "A", true);
    s := Joined(INITIAL, "A", true);
    AddedFacts();
    ReachableStep(s, Client("A", Add("x")));
    s := Apply(s, Client("A", Add("x")));
  }

  /** The members are confirmed; then a joiner registers and reads the metadata. */
  lemma JoinerReadsMetadata() returns (s: System)
    ensures Reachable(s) && s.reps.Keys == {"A", "J"} && s.reps["J"].boot == MetadataRead(0)
    ensures IsActive(s, "A") && s.reps["A"].core == A_ADDED && s.reps["A"].gc == Confirmed(1, map[], {"A"})
    ensures s.store == EMPTY_STORE.(intents := map[1 := "A"]) && s.net == {}
  {
    hide Reachable, Adopted;
    s := OneOperated();
    EnteredReachable(s, "A");
    s := Entered(s, "A");
    ReachableStep(s, Register("J", false));
    s := Apply(s, Register("J", false));
    ReachableStep(s, Bootstrap("J"));
    s := Apply(s, Bootstrap("J"));
  }

  lemma AloneCollects(s: System)
    requires IsActive(s, "A") && s.reps["A"].core == A_ADDED && s.reps["A"].gc == Confirmed(1, map[], {"A"})
    requires s.net == {}
    ensures Enabled(s, GcCollect("A", ["A"], [])) && Assumed(s, GcCollect("A", ["A"], []), BOTH)
    ensures var u := Apply(s, GcCollect("A", ["A"], []));
            u.reps["A"].gc.Gathered? && u.reps["A"].gc.n == 1 && u.reps == s.reps["A" := u.reps["A"]]
            && u.store == s.store && IsActive(u, "A")
  {
    hide Finding, VvLeq, Initiated, Join;
    AloneFinding();
    assert NodesIn(["A"]) == {"A"} by { assert "A" in ["A"]; }
  }

  /** The joiner checks the intent only after the release, settles on the epoch it read
      before the commit, and finds the next one stored. */
  lemma JoinerGetsStuck() returns (s: System)
    ensures Reachable(s) && DoomedAt(s, "J") && s.reps["J"].boot == Settled(0)
  {
    hide Reachable, Snapshot, Adopted, Execute, Finding;
    s := JoinerReadsMetadata();
    AloneCollects(s);
    ReachableStep(s, GcCollect("A", ["A"], []));
    s := Apply(s, GcCollect("A", ["A"], []));
    CommittedReachable(s, "A");
    CommittingWrites(s, "A");
    SnapshotEpoch(s.reps["A"].core, 1);
    s := Execute(s, Committing("A")).value;
    ReachableStep(s, Bootstrap("J"));
    s := Apply(s, Bootstrap("J"));
  }

  lemma SnapshotEpoch(c: Core, n: nat)
    ensures Snapshot(c, n).epoch == n
  {
  }

  // ---- the claim hypothesis ----

  const ONE := map["A" := 1]
  const B_GOT := Core("B", true, Dvv(Dot("B", 0), ONE), SetState({X}, map[]), map[], 0)
  const A_READY := A_ADDED.(matrix := map["B" := ONE])
  const B_READY := B_GOT.(matrix := map["A" := ONE])

  lemma GotFacts()
    ensures AfterDelta(NewCore("B", true), LATE.delta, None) == B_GOT
    ensures Clock(B_GOT) == ONE && Clock(A_READY) == ONE
  {
    assert DeltaClock(LATE.delta) == ONE;
    assert Merged(NewDvv("B"), ONE).context == ONE;
  }

  lemma ReadyFacts()
    ensures AfterRequest(A_SERVED, "B", ONE) == A_READY && AfterRequest(B_GOT, "A", ONE) == B_READY
    ensures Respond("A", "B", ReplyTo(A_READY, ONE, false, {}), ONE) == None
    ensures Respond("B", "A", ReplyTo(B_READY, ONE, false, {}), ONE) == None
  {
    assert Join(ONE, map[]) == ONE;
    assert UpdatedMatrix(map["B" := map[]], map["B" := ONE]) == map["B" := ONE];
    assert UpdatedMatrix(map[], map["A" := ONE]) == map["A" := ONE];
  }

  const TOLD_A := PullRequest("B", "A", ONE)
  const TOLD_B := PullRequest("A", "B", ONE)

  /** Both replicas hold each other's row, and nothing is in flight that matters. */
  lemma BothReady() returns (s: System)
    ensures Reachable(s) && Two(s, A_READY, B_READY) && s.net == {ASK, LATE, TOLD_A, TOLD_B}
  {
    hide Reachable, AfterRequest, ReplyTo, Respond, AfterDelta;
    s := AddInFlight(true);
    GotFacts();
    ReachableStep(s, Deliver(LATE));
    s := Apply(s, Deliver(LATE));
    assert Two(s, A_SERVED, B_GOT) && s.net == {ASK, LATE};
    ReachableStep(s, Advertise("B", "A"));
    s := Apply(s, Advertise("B", "A"));
    assert Two(s, A_SERVED, B_GOT) && s.net == {ASK, LATE, TOLD_A};
    s := BothInformed(s);
  }

  lemma BothInformed(s0: System) returns (s: System)
    requires Reachable(s0) && Two(s0, A_SERVED, B_GOT) && s0.net == {ASK, LATE, TOLD_A}
    ensures Reachable(s) && Two(s, A_READY, B_READY) && s.net == {ASK, LATE, TOLD_A, TOLD_B}
  {
    hide Reachable, AfterRequest, ReplyTo, Respond, AfterDelta;
    GotFacts();
    ReadyFacts();
    ReachableStep(s0, Serve(TOLD_A, false, {}));
    s := Apply(s0, Serve(TOLD_A, false, {}));
    assert Two(s, A_READY, B_GOT) && s.net == {ASK, LATE, TOLD_A};
    ReachableStep(s, Advertise("A", "B"));
    s := Apply(s, Advertise("A", "B"));
    assert Two(s, A_READY, B_GOT) && s.net == {ASK, LATE, TOLD_A, TOLD_B};
    ReachableStep(s, Serve(TOLD_B, false, {}));
    s := Apply(s, Serve(TOLD_B, false, {}));
  }

  /** One replica has read the epoch and the members, but not claimed. */
  lemma OneHasRead() returns (s: System)
    ensures Reachable(s) && s.reps.Keys == {"A", "B"} && IsActive(s, "A") && IsReady(s, "B")
    ensures s.reps["A"].core == A_READY && s.reps["B"].core == B_READY
    ensures s.reps["A"].gc == MembersRead(1, map[], {"A", "B"})
    ensures s.store == EMPTY_STORE && s.net == {ASK, LATE, TOLD_A, TOLD_B}
  {
    hide Reachable;
    s := BothReady();
    ReachableStep(s, GcReadEpoch("A"));
    s := Apply(s, GcReadEpoch("A"));
    ReachableStep(s, GcReadMembers("A"));
    s := Apply(s, GcReadMembers("A"));
  }

  lemma BothFind()
    ensures Finding(A_READY, ["A", "B"], [], map[]) == (ONE, {}) == Finding(B_READY, ["A", "B"], [], map[])
    ensures !VvLeq(ONE, map[]) && NodesIn(["A", "B"]) == {"A", "B"}
  {
    hide Finding;
    assert Clock(A_READY) == ONE && Clock(B_READY) == ONE;
    assert NodesIn(["A", "B"]) == {"A", "B"} by { assert "A" in ["A", "B"] && "B" in ["A", "B"]; }
    assert Meet(ONE, ONE) == ONE;
    TwoFind(A_READY, ONE);
    TwoFind(B_READY, ONE);
    assert At(ONE, "A") > At(map[], "A");
  }

  lemma NothingIsLate()
    ensures SeenEnough(ONE, DeltaClock(LATE.delta))
  {
  }

  /** Epoch 1 is committed twice: the second initiator read epoch 0 before the first one
      claimed, and claimed after the first one released. */
  lemma StaleClaimCommitsTwice() returns (s: System)
    ensures Reachable(s) && s.store.metadata.epoch == 1
    ensures Enabled(s, GcClaim("A")) && !ClaimMet(s, GcClaim("A"))
    ensures var w := Execute(s, FromClaim("A", ["A", "B"], [])); w.Some? && w.value.store.metadata.epoch == 1
  {
    hide Reachable, Finding, VvLeq, Execute, NodesIn, Attempted, SeenEnough;
    var r := OneHasRead();
    BothFind();
    NothingIsLate();
    s := CollectionReachable(r, "B", ["A", "B"], []);
    OutcomeLeavesOthers(r, s, ["A", "B"]);
    CommitRaisesEpochIff(s, "A", ["A", "B"], []);
  }

  lemma OutcomeLeavesOthers(r: System, s: System, listing: seq<NodeId>)
    requires r.reps.Keys == {"A", "B"} && r.store == EMPTY_STORE
    requires var a := Attempted(r.reps["B"].core, r.store, r.reps.Keys, listing, [], map[]);
             a.abort.None? && IsOutcome(r, "B", a, s)
    ensures s.reps.Keys == {"A", "B"} && s.reps["A"] == r.reps["A"]
    ensures s.store.metadata.epoch == 1 && s.store.intents == map[]
  {
    hide Finding, VvLeq, Initiated, Snapshot, NodesIn;
    assert s.reps.Keys == (s.reps - {"B"}).Keys + {"B"};
    assert "A" in s.reps - {"B"} && "A" in r.reps - {"B"};
  }

  // ---- the request that is dropped ----

  /** A GC replica that holds an event pulls from one that has seen none. */
  lemma RequestIsDropped() returns (s: System)
    ensures Reachable(s) && IsReady(s, "A") && IsReady(s, "B")
    ensures var a, b := s.reps["A"].core, s.reps["B"].core; var vb := View(true, {});
            && RequestDropped(a, b, vb)
            && forall va :: !Same(Clock(Exchange(a, b, va, vb).1), Join(Clock(a), Clock(b)))
  {
    hide Reachable, Operated, Exchange, Same;
    s := TwoJoined(true);
    AddedFacts();
    ReachableStep(s, Client("A", Add("x")));
    s := Apply(s, Client("A", Add("x")));
    assert Two(s, A_ADDED, NewCore("B", true));
    DroppedFacts();
    forall va ensures !Same(Clock(Exchange(A_ADDED, NewCore("B", true), va, View(true, {})).1),
                            Join(Clock(A_ADDED), Clock(NewCore("B", true)))) {
      DroppedExchange(s, va);
    }
  }

  lemma DroppedFacts()
    ensures RequestDropped(A_ADDED, NewCore("B", true), View(true, {}))
  {
    assert At(Clock(A_ADDED), "A") > At(map[], "A");
  }

  lemma DroppedExchange(s: System, va: View)
    requires Reachable(s) && Two(s, A_ADDED, NewCore("B", true))
    ensures !Same(Clock(Exchange(A_ADDED, NewCore("B", true), va, View(true, {})).1),
                  Join(Clock(A_ADDED), Clock(NewCore("B", true))))
  {
    hide IsRun, IsExecution, Exchange, Same, RequestDropped;
    var steps :| IsRun(steps, BOTH) && After(steps) == Some(s);
    DroppedFacts();
    ExchangeClocksInRuns(steps, "A", "B", va, View(true, {}));
  }
}
