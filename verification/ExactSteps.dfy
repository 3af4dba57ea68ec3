/** Each kind of step keeps every set exact, if no collection leaves a delta unguarded. */
module ExactSteps {
  import opened Clocks
  import opened DotVersionVectors
  import opened OrSets
  import opened Histories
  import opened StableTimestamps
  import opened Replicas
  import opened Systems
  import opened Invariants
  import opened ClockSteps
  import opened Frontiers
  import opened FrontierSteps
  import opened Exactness

  // ---- joining ----

  lemma BlankIsExact(s: System, p: NodeId, gcReplica: bool)
    requires WellFormed(s.history)
    ensures Exact(s.history, Clock(NewCore(p, gcReplica)), EMPTY_SET, map[])
  {
    var v := Clock(NewCore(p, gcReplica));
    assert forall d :: d in s.history ==> !Covers(v, d);
  }

  lemma RegisterKeepsExact(s: System, p: NodeId, gcReplica: bool)
    requires Grounded(s) && SetsExact(s) && p !in s.reps
    ensures SetsExact(Registering(s, p, gcReplica))
  {
    hide ClocksOk, FrontiersOk, SetsExact, Grows, Exact, SnapExact, HistoryOk, StoreOk;
    var s' := Registering(s, p, gcReplica);
    ClocksParts(s);
    RegisterGrows(s, p, gcReplica);
    BlankIsExact(s', p, gcReplica);
    FlightsKept(s, s');
    SnapPart(s);
    GrowsSnapExact(s, s');
    ExactFrame(s, s');
  }

  lemma ExactAtSameClock(h: History, v: VersionVector, w: VersionVector, o: SetState, collected: VersionVector)
    requires Same(v, w) && Exact(h, v, o, collected)
    ensures Exact(h, w, o, collected)
  {
    SameMeaning(h, v, w);
    forall n ensures At(collected, n) <= At(w, n) {
      assert At(collected, n) <= At(v, n) == At(w, n);
    }
  }

  /** A joiner that adopts the snapshot has exactly the snapshot's set. */
  lemma AdoptedIsExact(s: System, p: NodeId)
    requires ClocksOk(s) && SnapExact(s) && p in s.reps && !s.reps[p].boot.Active?
    ensures var c := Adopted(s.reps[p].core, s.store.state); Exact(s.history, Clock(c), c.orset, s.snapCollected)
  {
    hide ClocksOk, Exact, CoreOk, RowsOk, Adopted, Covered, Bounded;
    ClocksAt(s, p);
    ClocksParts(s);
    AdoptedIsSnapshot(s, p, s.reps[p].core);
    var st := s.store.state;
    ExactAtSameClock(s.history, st.initiatorClock, Clock(Adopted(s.reps[p].core, st)),
                     SetState(st.payload.adds, st.payload.tombs), s.snapCollected);
  }

  /** Nothing is in flight to a replica that is still bootstrapping. */
  lemma NoFlightToJoiner(s: System, p: NodeId, m: Envelope)
    requires ClocksOk(s) && p in s.reps && !s.reps[p].boot.Active? && m in s.net && m.CrdtOp?
    ensures m.to != p
  {
    hide ClocksOk, DeltaCovered, Bounded, Leq, RowsOk;
    ClocksOfMsg(s, m);
  }

  lemma AdoptKeepsExact(s: System, p: NodeId)
    requires Grounded(s) && SetsExact(s) && p in s.reps && !s.reps[p].boot.Active?
    requires BootNext(s.reps[p].boot, s.store).Active?
    ensures SetsExact(Bootstrapping(s, p))
  {
    hide ClocksOk, FrontiersOk, SetsExact, Grows, Exact, SnapExact, Adopted, BootNext, SeenEnough, DeltaExact;
    var s' := Bootstrapping(s, p);
    AdoptKeepsClocks(s, p);
    SnapPart(s);
    AdoptedIsExact(s, p);
    assert s'.history == s.history;
    GrowsSnapExact(s, s');
    forall m | m in s'.net && m in s.net && m.CrdtOp?
      ensures m.to in s'.reps && SeenEnough(s'.reps[m.to].collected, DeltaClock(m.delta))
    {
      NoFlightToJoiner(s, p, m);
      FlightAt(s, m);
    }
    ExactFrame(s, s');
  }

  lemma BootstrapKeepsExact(s: System, p: NodeId)
    requires Grounded(s) && SetsExact(s) && p in s.reps && !s.reps[p].boot.Active?
    ensures SetsExact(Bootstrapping(s, p))
  {
    hide ClocksOk, FrontiersOk, SetsExact, Grows, BootNext, Adopted;
    BootstrapKeepsClocks(s, p);
    if BootNext(s.reps[p].boot, s.store).Active? {
      AdoptKeepsExact(s, p);
    } else {
      QuietKeepsExact(s, Bootstrapping(s, p));
    }
  }

  // ---- client operations ----

  lemma OperateIsExact(s: System, p: NodeId, op: Op)
    requires HistoryOk(s) && IsReady(s, p) && CoreOk(s, p, s.reps[p].core) && RepExact(s, s.reps[p])
    ensures var s' := Operating(s, p, op); RepExact(s', s'.reps[p])
  {
    hide Exact, HistoryOk, Covered;
    var s' := Operating(s, p, op);
    var c, c' := s.reps[p].core, s'.reps[p].core;
    var dot := Evented(c.dvv).dot;
    EventAdvancesOwn(c.dvv);
    assert At(Clock(c), p) == Own(s, p);
    FreshDot(s, dot);
    OperationKeepsExact(s.history, Clock(c), Clock(c'), c.orset, s.reps[p].collected, dot, op);
  }

  lemma OperateKeepsExact(s: System, p: NodeId, op: Op)
    requires Grounded(s) && SetsExact(s) && IsReady(s, p)
    ensures SetsExact(Operating(s, p, op))
  {
    hide ClocksOk, FrontiersOk, SetsExact, Grows, SnapExact, RepExact, HistoryOk, StoreOk, CoreOk, RowsOk, Operated;
    var s' := Operating(s, p, op);
    ClocksAt(s, p);
    ClocksParts(s);
    OperateGrows(s, p, op);
    ExactAt(s, p);
    OperateIsExact(s, p, op);
    FlightsKept(s, s');
    SnapPart(s);
    GrowsSnapExact(s, s');
    ExactFrame(s, s');
  }

  // ---- messages ----

  lemma DeliverIsExact(s: System, m: Envelope)
    requires Grounded(s) && SetsExact(s) && m in s.net && m.CrdtOp? && IsReady(s, m.to)
    ensures var r := s.reps[m.to]; var c' := AfterDelta(r.core, m.delta, m.rows);
            Exact(s.history, Clock(c'), c'.orset, r.collected)
  {
    hide ClocksOk, FrontiersOk, SetsExact, RowsOk, Exact, DeltaExact, SeenEnough, MergedSet, UpdatedMatrix, Merged,
         CoreOk, WellFormed, Bounded, Leq, Join, Same;
    var r := s.reps[m.to];
    var c, c' := r.core, AfterDelta(r.core, m.delta, m.rows);
    ExactAt(s, m.to);
    FlightAt(s, m);
    ActiveFacts(s, m.to);
    ClocksOfMsg(s, m);
    DeliverKeepsCore(s, m);
    CoveredSenderIsGuarded(s.history, Clock(c), c.orset, r.collected, m.delta, m.since, s.stable);
    MergeExactIff(s.history, Clock(c), Clock(c'), c.orset, r.collected, m.delta, m.since, s.stable);
  }

  lemma DeliverKeepsExact(s: System, m: Envelope)
    requires Grounded(s) && SetsExact(s) && m in s.net && m.CrdtOp? && IsReady(s, m.to)
    ensures SetsExact(Delivering(s, m))
  {
    hide ClocksOk, FrontiersOk, SetsExact, Grows, SnapExact, Exact, AfterDelta, SeenEnough, DeltaExact, RiddenRequest,
         Clock;
    var s' := Delivering(s, m);
    DeliverKeepsClocks(s, m);
    DeliverIsExact(s, m);
    FlightsKept(s, s');
    SnapPart(s);
    GrowsSnapExact(s, s');
    ExactFrame(s, s');
  }

  /** A reply's delta is exact, and safe for its receiver. */
  lemma ReplyIsExact(s: System, m: Envelope, c: Core, d: Delta)
    requires Grounded(s) && SetsExact(s) && m in s.net && m.PullRequest? && IsReady(s, m.to)
    requires c.dvv == s.reps[m.to].core.dvv && c.orset == s.reps[m.to].core.orset
    requires d == DeltaFor(c.orset, c.dvv, m.knowledge)
    ensures DeltaExact(s.history, d, m.knowledge, s.stable)
    ensures m.origin in s.reps && SeenEnough(s.reps[m.origin].collected, DeltaClock(d))
  {
    hide ClocksOk, FrontiersOk, SetsExact, Exact, CoreOk, RowsOk, WellFormed, Bounded, DeltaFor;
    var r := s.reps[m.to];
    ExactAt(s, m.to);
    ActiveFacts(s, m.to);
    ClocksOfMsg(s, m);
    ActiveFacts(s, m.origin);
    DeltaIsExact(s.history, c.dvv, c.orset, r.collected, m.knowledge);
    DeltaFloor(s.history, d, m.knowledge, r.collected, s.stable);
    LeqTransitive(s.reps[m.origin].collected, s.stable, Clock(c));
    LeqSame(s.reps[m.origin].collected, Clock(c), DeltaClock(d));
  }

  lemma DeltaFloor(h: History, d: Delta, since: VersionVector, a: VersionVector, b: VersionVector)
    requires DeltaExact(h, d, since, a) && Leq(a, b)
    ensures DeltaExact(h, d, since, b)
  {
    forall k | Removed(h, a, k) ensures Removed(h, b, k) { RemovedMonotone(h, a, b, k); }
  }

  lemma LeqSame(a: VersionVector, b: VersionVector, c: VersionVector)
    requires Leq(a, b) && Same(c, b)
    ensures Leq(a, c)
  {
    forall n ensures At(a, n) <= At(c, n) {
      assert At(a, n) <= At(b, n) == At(c, n);
    }
  }

  lemma SentDelta(m: Envelope, c: Core, peerIsGc: bool, peers: set<NodeId>)
    requires m.PullRequest?
    ensures var sent := Respond(m.to, m.origin, ReplyTo(c, m.knowledge, peerIsGc, peers), m.knowledge);
            sent.Some? && sent.value.CrdtOp? ==>
              && sent.value.delta == DeltaFor(c.orset, c.dvv, m.knowledge) && sent.value.to == m.origin
              && sent.value.since == m.knowledge
  {
    hide DeltaFor, ClockDeltaIsEmpty, KnowledgeMatrix;
  }

  lemma ServeKeepsExact(s: System, m: Envelope, peerIsGc: bool, peers: set<NodeId>)
    requires Grounded(s) && SetsExact(s) && m in s.net && m.PullRequest? && IsReady(s, m.to)
    ensures SetsExact(Serving(s, m, peerIsGc, peers))
  {
    hide ClocksOk, FrontiersOk, SetsExact, Grows, SnapExact, SeenEnough, DeltaExact, ReplyTo, Respond, AfterRequest,
         RepExact, DeltaFor;
    var s' := Serving(s, m, peerIsGc, peers);
    var c := AfterRequest(s.reps[m.to].core, m.origin, m.knowledge);
    ServeKeepsClocks(s, m, peerIsGc, peers);
    RequestChangesMatrixOnly(s.reps[m.to].core, m.origin, m.knowledge);
    SentDelta(m, c, peerIsGc, peers);
    ReplyIsExact(s, m, c, DeltaFor(c.orset, c.dvv, m.knowledge));
    FlightsKept(s, s');
    SnapPart(s);
    GrowsSnapExact(s, s');
    ExactFrame(s, s');
  }

  // ---- collecting ----

  lemma SeenEnoughJoin(a: VersionVector, b: VersionVector, c: VersionVector)
    requires SeenEnough(a, c) && SeenEnough(b, c)
    ensures SeenEnough(Join(a, b), c)
  {
    if Leq(a, c) && Leq(b, c) {
      forall n ensures At(Join(a, b), n) <= At(c, n) {
        assert At(a, n) <= At(c, n) && At(b, n) <= At(c, n);
      }
    }
  }

  lemma FrontierIsItself(n: NodeId, v: VersionVector)
    ensures Same(EffectiveMap(FrontierDvv(n, v)), v)
  {
  }

  lemma CollectAt(h: History, v: VersionVector, o: SetState, collected: VersionVector, n: NodeId,
                  frontier: VersionVector)
    requires Exact(h, v, o, collected) && Leq(frontier, v)
    ensures Exact(h, v, Collected(o, FrontierDvv(n, frontier)), Join(collected, frontier))
  {
    var f := FrontierDvv(n, frontier);
    FrontierIsItself(n, frontier);
    forall k ensures At(EffectiveMap(f), k) <= At(v, k) {
      assert At(EffectiveMap(f), k) == At(frontier, k) <= At(v, k);
    }
    CollectKeepsExact(h, v, o, collected, f);
    var a, b := Join(collected, EffectiveMap(f)), Join(collected, frontier);
    assert Same(a, b) by {
      forall k ensures At(a, k) == At(b, k) { assert At(EffectiveMap(f), k) == At(frontier, k); }
    }
    SameMeaning(h, a, b);
    JoinBelow(collected, frontier, v);
  }

  /** A step in which one replica collects under a frontier it has seen. */
  lemma CollectStep(s: System, s': System, p: NodeId, frontier: VersionVector)
    requires Grounded(s) && SetsExact(s) && Grows(s, s') && IsActive(s, p) && p in s'.reps
    requires s'.reps == s.reps[p := s'.reps[p]]
    requires s'.history == s.history && s'.store == s.store && s'.net == s.net && s'.snapCollected == s.snapCollected
    requires var r, r' := s.reps[p], s'.reps[p];
             && r'.collected == Join(r.collected, frontier) && r'.core.dvv == r.core.dvv
             && r'.core.orset == Collected(r.core.orset, FrontierDvv(p, frontier))
    requires Leq(frontier, Clock(s.reps[p].core)) && InFlightCovers(s, p, frontier)
    ensures SetsExact(s')
  {
    hide ClocksOk, FrontiersOk, SetsExact, Grows, Exact, SnapExact, SeenEnough, DeltaExact, Collected, Join, Leq,
         InFlightCovers;
    var r := s.reps[p];
    ExactAt(s, p);
    CollectAt(s.history, Clock(r.core), r.core.orset, r.collected, p, frontier);
    SnapPart(s);
    GrowsSnapExact(s, s');
    forall m | m in s'.net && m in s.net && m.CrdtOp?
      ensures m.to in s'.reps && SeenEnough(s'.reps[m.to].collected, DeltaClock(m.delta))
    {
      FlightAt(s, m);
      if m.to == p { CollectFlight(s, p, frontier, m); }
    }
    ExactFrame(s, s');
  }

  lemma CollectFlight(s: System, p: NodeId, frontier: VersionVector, m: Envelope)
    requires m in s.net && m.CrdtOp? && m.to == p && p in s.reps && InFlightCovers(s, p, frontier)
    requires SeenEnough(s.reps[p].collected, DeltaClock(m.delta))
    ensures SeenEnough(Join(s.reps[p].collected, frontier), DeltaClock(m.delta))
  {
    SeenEnoughJoin(s.reps[p].collected, frontier, DeltaClock(m.delta));
  }

  lemma ObserveKeepsExact(s: System, p: NodeId)
    requires Grounded(s) && SetsExact(s) && IsReady(s, p)
    requires s.store.metadata.epoch > s.reps[p].core.epoch ==> InFlightCovers(s, p, s.store.metadata.vStable)
    ensures SetsExact(Observing(s, p))
  {
    hide ClocksOk, FrontiersOk, SetsExact, Grows, InFlightCovers, CoreOk, RowsOk, Leq, Collected, Join, Forget,
         WellFormed, Bounded;
    var r := s.reps[p];
    if s.store.metadata.epoch > r.core.epoch {
      NobodyStoredObsolete(s);
      ForgetNobody(r.core);
      ObserveKeepsClocks(s, p);
      ActiveFacts(s, p);
      FrontiersParts(s);
      StableAtRest(s);
      LeqTransitive(s.store.metadata.vStable, s.stable, Clock(r.core));
      CoreIdentity(s, p, r.core);
      CollectStep(s, Observing(s, p), p, s.store.metadata.vStable);
    }
  }

  lemma CoreIdentity(s: System, p: NodeId, c: Core)
    requires CoreOk(s, p, c)
    ensures c.id == p == c.dvv.dot.node
  {
  }

  lemma GatherKeepsExact(s: System, p: NodeId, listing: seq<NodeId>, order: seq<NodeId>)
    requires Grounded(s) && SetsExact(s) && p in s.reps && s.reps[p].gc.Confirmed?
    requires NodesIn(listing) == s.reps[p].gc.m1
    requires var v := Finding(s.reps[p].core, listing, order, map[]).0;
             !VvLeq(v, s.reps[p].gc.prev) ==> InFlightCovers(s, p, v)
    ensures SetsExact(Gathering(s, p, listing, order))
  {
    hide ClocksOk, FrontiersOk, SetsExact, Grows, InFlightCovers, CoreOk, RowsOk, Leq, Collected, Join, Forget,
         WellFormed, Bounded, Finding, VvLeq, AllActive, Passed;
    var r := s.reps[p];
    var v := Finding(r.core, listing, order, map[]).0;
    GatherKeepsClocks(s, p, listing, order);
    InitiatorIsActive(s, p);
    if VvLeq(v, r.gc.prev) {
      QuietKeepsExact(s, Gathering(s, p, listing, order));
    } else {
      FindsNobodyObsolete(s, p, listing, order);
      FindingIsStable(s, p, listing, order);
      assert v - {} == v;
      ForgetNobody(r.core);
      ActiveFacts(s, p);
      CoreIdentity(s, p, r.core);
      CollectStep(s, Gathering(s, p, listing, order), p, v);
    }
  }

  lemma WriteStateKeepsExact(s: System, p: NodeId)
    requires Grounded(s) && SetsExact(s) && p in s.reps && s.reps[p].gc.Gathered?
    ensures SetsExact(WritingState(s, p))
  {
    hide ClocksOk, FrontiersOk, SetsExact, Grows, Exact, SeenEnough, DeltaExact;
    var s' := WritingState(s, p);
    var r := s.reps[p];
    WriteStateKeepsClocks(s, p);
    ExactAt(s, p);
    FlightsKept(s, s');
    assert SetState(r.core.orset.live, r.core.orset.tombs) == r.core.orset;
    ExactFrame(s, s');
  }

  // ---- every step ----

  predicate IsPhaseStep(step: Step) {
    step.GcReadEpoch? || step.GcReadMembers? || step.GcClaim? || step.GcConfirm? || step.GcWriteMetadata?
    || step.GcRelease?
  }

  /** Only phases, intents, epochs or the metadata change. */
  ghost predicate IsQuiet(s: System, s': System) {
    && s'.reps.Keys == s.reps.Keys && (forall q :: q in s'.reps ==> SameSetAt(s, s', q))
    && s'.net == s.net && s'.store.state == s.store.state && s'.snapCollected == s.snapCollected
  }

  lemma PhaseIsQuiet(s: System, p: NodeId, g: GcPhase, intents: map<nat, NodeId>)
    requires p in s.reps
    ensures IsQuiet(s, SetPhase(s.(store := s.store.(intents := intents)), p, g))
  {
  }

  lemma ReadIsQuiet(s: System, step: Step)
    requires Enabled(s, step) && (step.GcReadEpoch? || step.GcReadMembers? || step.GcRelease?)
    ensures IsQuiet(s, Apply(s, step))
  {
  }

  lemma ClaimIsQuiet(s: System, p: NodeId)
    requires p in s.reps && s.reps[p].gc.MembersRead?
    ensures IsQuiet(s, Claiming(s, p))
  {
    hide IsQuiet;
    var g := s.reps[p].gc;
    if g.n in s.store.intents {
      PhaseIsQuiet(s, p, Idle, s.store.intents);
    } else {
      PhaseIsQuiet(s, p, Claimed(g.n, g.prev, g.m0), s.store.intents[g.n := p]);
    }
  }

  lemma ConfirmIsQuiet(s: System, p: NodeId)
    requires p in s.reps && s.reps[p].gc.Claimed?
    ensures IsQuiet(s, Confirming(s, p))
  {
    hide NewMemberExists;
  }

  lemma WriteMetadataIsQuiet(s: System, p: NodeId)
    requires p in s.reps && s.reps[p].gc.StateWritten?
    ensures IsQuiet(s, WritingMetadata(s, p))
  {
  }

  lemma PhaseStepIsQuiet(s: System, step: Step)
    requires Enabled(s, step) && IsPhaseStep(step)
    ensures IsQuiet(s, Apply(s, step))
  {
    hide IsQuiet, Claiming, Confirming, WritingMetadata;
    match step
    case GcClaim(p) => ClaimIsQuiet(s, p);
    case GcConfirm(p) => ConfirmIsQuiet(s, p);
    case GcWriteMetadata(p) => WriteMetadataIsQuiet(s, p);
    case _ => ReadIsQuiet(s, step);
  }

  lemma PhaseStepKeepsExact(s: System, step: Step)
    requires Grounded(s) && SetsExact(s) && Enabled(s, step) && IsPhaseStep(step)
    ensures SetsExact(Apply(s, step))
  {
    hide ClocksOk, FrontiersOk, SetsExact, Grows, Apply, Enabled, SameSetAt;
    StepKeepsClocks(s, step);
    PhaseStepIsQuiet(s, step);
    QuietKeepsExact(s, Apply(s, step));
  }

  lemma NetKeepsExact(s: System, step: Step)
    requires Grounded(s) && SetsExact(s) && Enabled(s, step) && (step.Lose? || step.Advertise?)
    ensures SetsExact(Apply(s, step))
  {
    hide ClocksOk, FrontiersOk, SetsExact, Grows;
    StepKeepsClocks(s, step);
    QuietKeepsExact(s, Apply(s, step));
  }

  lemma StepKeepsExact(s: System, step: Step)
    requires Grounded(s) && SetsExact(s) && Enabled(s, step) && InFlightMet(s, step)
    ensures SetsExact(Apply(s, step))
  {
    hide Grounded, SetsExact, InFlightCovers, Finding, VvLeq;
    match step
    case Register(p, gcReplica) => RegisterKeepsExact(s, p, gcReplica);
    case Bootstrap(p) => BootstrapKeepsExact(s, p);
    case Client(p, op) => OperateKeepsExact(s, p, op);
    case Deliver(m) => DeliverKeepsExact(s, m);
    case Serve(m, peerIsGc, peers) => ServeKeepsExact(s, m, peerIsGc, peers);
    case Observe(p) => ObserveKeepsExact(s, p);
    case GcCollect(p, listing, order) => GatherKeepsExact(s, p, listing, order);
    case GcWriteState(p) => WriteStateKeepsExact(s, p);
    case Lose(_) => NetKeepsExact(s, step);
    case Advertise(_, _) => NetKeepsExact(s, step);
    case _ => PhaseStepKeepsExact(s, step);
  }
}
