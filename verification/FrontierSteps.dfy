/** Each kind of step keeps what `Frontiers` promises. */
module FrontierSteps {
  import opened Clocks
  import opened DotVersionVectors
  import opened Histories
  import opened StableTimestamps
  import opened Replicas
  import opened Systems
  import opened Invariants
  import opened ClockSteps
  import opened Frontiers

  /** Nothing but the network, clocks of idle replicas and histories changes. */
  ghost predicate SameStage(s: System, s': System) {
    && s'.store == s.store && s'.stable == s.stable && s'.snapCollected == s.snapCollected && s'.commits == s.commits
    && s'.reps.Keys == s.reps.Keys
    && (forall q :: q in s.reps ==> s'.reps[q].gc == s.reps[q].gc && s'.reps[q].boot == s.reps[q].boot)
    && (forall q :: q in s.reps && !s.reps[q].gc.Idle? ==> s'.reps[q].core == s.reps[q].core)
  }

  lemma SameStageKeeps(s: System, s': System)
    requires FrontiersOk(s) && Grows(s, s') && SameStage(s, s')
    requires forall q :: q in s.reps ==> Leq(s'.reps[q].collected, s.stable)
    ensures FrontiersOk(s')
  {
    hide FrontiersOk, InitiatorOk, StableOk, SnapshotCovers, Grows, Leq;
    FrontiersParts(s);
    forall q | q in s'.reps ensures InitiatorOk(s', q) {
      FrontiersAt(s, q);
      if s.reps[q].gc.Idle? { IdleIsOk(s', q); } else { InitiatorSame(s, s', q); }
    }
    StableAtRest(s);
    StableKept(s, s');
    CoversKept(s, s');
    FrontiersFrom(s');
  }

  lemma StableAtRest(s: System)
    requires StableOk(s)
    ensures Leq(s.store.metadata.vStable, s.stable) && Leq(s.snapCollected, s.stable)
  {
  }

  lemma IdleIsOk(s: System, q: NodeId)
    requires q in s.reps && (s.reps[q].gc.Idle?)
    ensures InitiatorOk(s, q)
  {
  }

  lemma InitiatorSame(s: System, s': System, q: NodeId)
    requires q in s.reps && InitiatorOk(s, q) && Grows(s, s') && SameStage(s, s') && !s.reps[q].gc.Idle?
    ensures InitiatorOk(s', q)
  {
    hide InitiatorOk, Grows, Passed, Kept;
    assert Undisturbed(s, s', q);
    hide Undisturbed;
    HeldBy(s, q);
    InitiatorKept(s, s', q);
  }

  lemma HeldBy(s: System, q: NodeId)
    requires q in s.reps && InitiatorOk(s, q)
    ensures HoldsIntent(s.reps[q].gc) ==> Holds(s, q, s.reps[q].gc.n)
  {
  }

  /** A step of `p` that leaves the state object and what was collected as they are. */
  ghost predicate StepOf(s: System, s': System, p: NodeId) {
    && p in s'.reps && s'.reps == s.reps[p := s'.reps[p]]
    && s'.store.state == s.store.state && s'.stable == s.stable && s'.snapCollected == s.snapCollected
    && (p in s.reps && s.reps[p].gc.Gathered? ==> s'.reps[p].gc == s.reps[p].gc)
    && (s'.reps[p].gc.StateWritten? ==> p in s.reps && s'.reps[p].gc == s.reps[p].gc)
    && (forall n :: n in s.store.intents && s.store.intents[n] != p ==>
          n in s'.store.intents && s'.store.intents[n] == s.store.intents[n])
  }

  /** What a step of `p` has to show about `p` itself. */
  ghost predicate FitsIn(s: System, s': System, p: NodeId)
    requires p in s'.reps
  {
    && InitiatorOk(s', p) && StableOk(s')
    && (forall q :: q in s.reps && q != p && BeforeWrite(s.reps[q].gc) ==> Undisturbed(s, s', q))
    && (forall q :: q in s.reps && q != p && s.reps[q].gc.Confirmed? && IsActive(s', p) && !IsActive(s, p) ==>
          q in s'.reps && Reaches(s', q, Clock(s'.reps[p].core)))
  }

  lemma StepOfKeeps(s: System, s': System, p: NodeId)
    requires FrontiersOk(s) && Grows(s, s') && StepOf(s, s', p) && FitsIn(s, s', p)
    ensures FrontiersOk(s')
  {
    hide FrontiersOk, StableOk, SnapshotCovers, Grows, Leq, InitiatorOk, Undisturbed;
    FrontiersParts(s);
    forall q | q in s'.reps ensures InitiatorOk(s', q) {
      if q != p {
        FrontiersAt(s, q);
        OtherInitiator(s, s', p, q);
      }
    }
    CoversKept(s, s');
    FrontiersFrom(s');
  }

  lemma OtherInitiator(s: System, s': System, p: NodeId, q: NodeId)
    requires q in s.reps && q != p && InitiatorOk(s, q) && Grows(s, s') && StepOf(s, s', p) && FitsIn(s, s', p)
    ensures InitiatorOk(s', q)
  {
    hide Grows, Leq, Undisturbed, Reaches, StableOk, SnapshotMet, ActiveMet;
    if BeforeWrite(s.reps[q].gc) {
      hide InitiatorOk;
      HeldBy(s, q);
      OnlyPBecomesActive(s, s', p);
      InitiatorKept(s, s', q);
    } else {
      GrowsParts(s, s');
      if s.reps[q].gc.StateWritten? { LeqTransitive(s.reps[q].gc.frontier, s.stable, s'.stable); }
      assert ActiveMet(s', q) by { NotConfirmed(s', q); }
    }
  }

  lemma NotConfirmed(s: System, q: NodeId)
    requires q in s.reps && !s.reps[q].gc.Confirmed?
    ensures ActiveMet(s, q)
  {
  }

  lemma GrowsParts(s: System, s': System)
    requires Grows(s, s')
    ensures Leq(s.stable, s'.stable) && s.reps.Keys <= s'.reps.Keys
    ensures forall q :: IsActive(s, q) ==> IsActive(s', q) && Leq(Clock(s.reps[q].core), Clock(s'.reps[q].core))
  {
    hide Leq;
  }

  lemma OnlyPBecomesActive(s: System, s': System, p: NodeId)
    requires StepOf(s, s', p)
    ensures forall q :: IsActive(s', q) && !IsActive(s, q) ==> q == p
  {
  }

  // ---- phases ----

  /** `p` changes its phase and perhaps the intents. */
  lemma PhaseKeepsFrontiers(s: System, p: NodeId, g: GcPhase, intents: map<nat, NodeId>)
    requires ClocksOk(s) && FrontiersOk(s) && p in s.reps && PhaseOk(s.reps[p].(gc := g)) && IsActive(s, p)
    requires !s.reps[p].gc.Gathered? && !g.StateWritten?
    requires forall n :: n in s.store.intents && s.store.intents[n] != p ==>
                           n in intents && intents[n] == s.store.intents[n]
    requires InitiatorOk(SetPhase(s.(store := s.store.(intents := intents)), p, g), p)
    ensures FrontiersOk(SetPhase(s.(store := s.store.(intents := intents)), p, g))
  {
    hide ClocksOk, FrontiersOk, Grows, InitiatorOk, StableOk, Leq, Passed, Kept;
    var s' := SetPhase(s.(store := s.store.(intents := intents)), p, g);
    PhaseKeepsClocks(s, p, g, intents);
    FrontiersParts(s);
    StableAtRest(s);
    StableRows(s);
    StableKept(s, s');
    StepOfKeeps(s, s', p);
  }

  lemma StableRows(s: System)
    requires StableOk(s)
    ensures forall q :: q in s.reps ==> Leq(s.reps[q].collected, s.stable)
    ensures forall n :: n in s.commits ==> Leq(s.commits[n].frontier, s.stable)
    ensures forall q :: IsActive(s, q) ==> Leq(s.stable, Clock(s.reps[q].core))
  {
  }

  /** Either the author of the stored state is still to write its metadata, and then `p` has
      at most that author's clock for it; or the state is finished, and stays `p`'s to guard. */
  lemma ReadEpochMeets(s: System, p: NodeId)
    requires ClocksOk(s) && FrontiersOk(s) && IsReady(s, p)
    ensures InitiatorOk(SetPhase(s, p, EpochRead(s.store.metadata.epoch + 1, s.store.metadata.vStable)), p)
  {
    hide ClocksOk, FrontiersOk, Leq, Kept;
    var s' := SetPhase(s, p, EpochRead(s.store.metadata.epoch + 1, s.store.metadata.vStable));
    if z :| z in s.reps && s.reps[z].gc.StateWritten? && s.reps[z].gc.n == s.store.state.epoch {
      FrontiersAt(s, z);
      ClocksAt(s, p);
      AuthorReaches(s, s', p, z);
    } else {
      assert Passed(s', p);
    }
  }

  lemma AuthorReaches(s: System, s': System, p: NodeId, z: NodeId)
    requires p in s.reps && z in s.reps && z != p && RowsOk(s, s.reps[p].core.matrix)
    requires p in s'.reps && s'.reps[p].core == s.reps[p].core && z in Counted(s', s'.reps[p].gc)
    requires Leq(Clock(s.reps[z].core), s'.store.state.initiatorClock)
    ensures Reaches(s', p, s'.store.state.initiatorClock)
  {
    hide Leq;
    var c := s.reps[p].core;
    if z in c.matrix {
      assert RowOk(s, z, c.matrix[z]);
      LeqTransitive(c.matrix[z], Clock(s.reps[z].core), s'.store.state.initiatorClock);
    }
    assert Via(p, c, z, s'.store.state.initiatorClock);
  }

  lemma ReadEpochKeepsFrontiers(s: System, p: NodeId)
    requires ClocksOk(s) && FrontiersOk(s) && IsReady(s, p)
    ensures FrontiersOk(SetPhase(s, p, EpochRead(s.store.metadata.epoch + 1, s.store.metadata.vStable)))
  {
    hide ClocksOk, FrontiersOk, InitiatorOk;
    var g := EpochRead(s.store.metadata.epoch + 1, s.store.metadata.vStable);
    ReadEpochMeets(s, p);
    assert SetPhase(s.(store := s.store.(intents := s.store.intents)), p, g) == SetPhase(s, p, g);
    PhaseKeepsFrontiers(s, p, g, s.store.intents);
  }

  /** A phase before the members are confirmed counts everybody, like the one before it. */
  lemma EarlyPhaseMeets(s: System, s': System, p: NodeId)
    requires p in s.reps && p in s'.reps && BeforeWrite(s.reps[p].gc) && BeforeWrite(s'.reps[p].gc)
    requires !s.reps[p].gc.Confirmed? && !s.reps[p].gc.Gathered? && !s'.reps[p].gc.Gathered?
    requires s'.reps[p].gc.n == s.reps[p].gc.n && s'.reps[p].core == s.reps[p].core
    requires s'.reps.Keys == s.reps.Keys && Counted(s', s'.reps[p].gc) == s.reps.Keys
    requires s'.store.state == s.store.state && s'.store.metadata == s.store.metadata
    requires forall z :: z in s'.reps && s'.reps[z].gc.StateWritten? ==> s.reps[z].gc == s'.reps[z].gc
    requires SnapshotMet(s, p)
    ensures SnapshotMet(s', p)
  {
    hide Leq, Kept;
    if !Passed(s, p) {
      LeqReflexive(s.store.state.initiatorClock);
      ReachesKept(s, s', p, s.store.state.initiatorClock, s.store.state.initiatorClock);
    }
  }

  lemma ReadMembersKeepsFrontiers(s: System, p: NodeId)
    requires ClocksOk(s) && FrontiersOk(s) && p in s.reps && s.reps[p].gc.EpochRead?
    ensures FrontiersOk(SetPhase(s, p, MembersRead(s.reps[p].gc.n, s.reps[p].gc.prev, s.reps.Keys)))
  {
    hide ClocksOk, FrontiersOk, SnapshotMet;
    var g := MembersRead(s.reps[p].gc.n, s.reps[p].gc.prev, s.reps.Keys);
    var s' := SetPhase(s, p, g);
    InitiatorIsActive(s, p);
    FrontiersAt(s, p);
    EarlyPhaseMeets(s, s', p);
    assert SetPhase(s.(store := s.store.(intents := s.store.intents)), p, g) == s';
    hide InitiatorOk;
    PhaseKeepsFrontiers(s, p, g, s.store.intents);
  }

  lemma ClaimKeepsFrontiers(s: System, p: NodeId)
    requires ClocksOk(s) && FrontiersOk(s) && p in s.reps && s.reps[p].gc.MembersRead?
    ensures FrontiersOk(Claiming(s, p))
  {
    hide ClocksOk, FrontiersOk, SnapshotMet;
    var g := s.reps[p].gc;
    InitiatorIsActive(s, p);
    if g.n in s.store.intents {
      assert SetPhase(s.(store := s.store.(intents := s.store.intents)), p, Idle) == Claiming(s, p);
      PhaseKeepsFrontiers(s, p, Idle, s.store.intents);
    } else {
      FrontiersAt(s, p);
      EarlyPhaseMeets(s, Claiming(s, p), p);
      PhaseKeepsFrontiers(s, p, Claimed(g.n, g.prev, g.m0), s.store.intents[g.n := p]);
    }
  }

  /** Everybody registered is counted, so every active clock is reached by itself. */
  lemma ConfirmReachesActive(s: System, p: NodeId)
    requires ClocksOk(s) && p in s.reps && s.reps[p].gc.Confirmed? && s.reps[p].gc.m1 == s.reps.Keys
    ensures ActiveMet(s, p)
  {
    hide ClocksOk, Leq, RepOk;
    ClocksAt(s, p);
    forall q | IsActive(s, q) ensures Reaches(s, p, Clock(s.reps[q].core)) {
      LeqReflexive(Clock(s.reps[q].core));
      var c := s.reps[p].core;
      assert q in c.matrix ==> RowOk(s, q, c.matrix[q]);
      assert Via(p, c, q, Clock(s.reps[q].core));
    }
  }

  lemma ConfirmKeepsFrontiers(s: System, p: NodeId)
    requires ClocksOk(s) && FrontiersOk(s) && p in s.reps && s.reps[p].gc.Claimed?
    ensures FrontiersOk(Confirming(s, p))
  {
    hide ClocksOk, FrontiersOk, SnapshotMet, ActiveMet, NewMemberExists;
    var g := s.reps[p].gc;
    InitiatorIsActive(s, p);
    FrontiersAt(s, p);
    if NewMemberExists(g.m0, s.reps.Keys) {
      AbortKeepsFrontiers(s, p);
    } else {
      var g' := Confirmed(g.n, g.prev, s.reps.Keys);
      var s' := SetPhase(s, p, g');
      assert SetPhase(s.(store := s.store.(intents := s.store.intents)), p, g') == s' == Confirming(s, p);
      ConfirmKeepsClocks(s, p);
      ConfirmReachesActive(s', p);
      EarlyPhaseMeets(s, s', p);
      RowsAreRegistered(s, p);
      PhaseKeepsFrontiers(s, p, g', s.store.intents);
    }
  }

  lemma AbortKeepsFrontiers(s: System, p: NodeId)
    requires ClocksOk(s) && FrontiersOk(s) && p in s.reps && (s.reps[p].gc.Claimed? || s.reps[p].gc.Confirmed?)
    ensures FrontiersOk(SetPhase(s, p, Releasing(s.reps[p].gc.n)))
  {
    hide ClocksOk, FrontiersOk, SnapshotMet, ActiveMet;
    var g := Releasing(s.reps[p].gc.n);
    InitiatorIsActive(s, p);
    FrontiersAt(s, p);
    assert SetPhase(s.(store := s.store.(intents := s.store.intents)), p, g) == SetPhase(s, p, g);
    NotConfirmed(SetPhase(s, p, g), p);
    PhaseKeepsFrontiers(s, p, g, s.store.intents);
  }

  lemma ReleaseKeepsFrontiers(s: System, p: NodeId)
    requires ClocksOk(s) && FrontiersOk(s) && p in s.reps && s.reps[p].gc.Releasing?
    ensures FrontiersOk(SetPhase(s.(store := s.store.(intents := s.store.intents - {s.reps[p].gc.n})), p, Idle))
  {
    hide ClocksOk, FrontiersOk;
    InitiatorIsActive(s, p);
    FrontiersAt(s, p);
    PhaseKeepsFrontiers(s, p, Idle, s.store.intents - {s.reps[p].gc.n});
  }

  // ---- joiners ----

  lemma RegisterStable(s: System, p: NodeId, gcReplica: bool)
    requires ClocksOk(s) && StableOk(s) && p !in s.reps
    ensures StableOk(Registering(s, p, gcReplica))
  {
    hide ClocksOk, Grows, StableOk, Leq;
    var s' := Registering(s, p, gcReplica);
    RegisterKeepsClocks(s, p, gcReplica);
    StableAtRest(s);
    StableRows(s);
    NothingBelow(s.stable);
    StableKept(s, s');
  }

  lemma RegisterKeepsFrontiers(s: System, p: NodeId, gcReplica: bool)
    requires ClocksOk(s) && FrontiersOk(s) && p !in s.reps
    ensures FrontiersOk(Registering(s, p, gcReplica))
  {
    hide ClocksOk, FrontiersOk, Grows, StableOk, Leq, Passed;
    var s' := Registering(s, p, gcReplica);
    RegisterKeepsClocks(s, p, gcReplica);
    FrontiersParts(s);
    RegisterStable(s, p, gcReplica);
    IdleIsOk(s', p);
    hide InitiatorOk;
    StepOfKeeps(s, s', p);
  }

  lemma NothingBelow(v: VersionVector)
    ensures Leq(map[], v)
  {
  }

  /** A read that does not finish keeps a joiner from settling on a guarded state. */
  lemma ReadStaysKept(b: Boot, st: Store, n: nat)
    requires Kept(b, st, n) && n in st.intents && (st.metadata.epoch == st.state.epoch ==> n == st.state.epoch + 1)
    requires !b.Active?
    ensures Kept(BootNext(b, st), st, n) && !BootNext(b, st).Active?
  {
  }

  lemma ReadKeepsFrontiers(s: System, p: NodeId)
    requires ClocksOk(s) && FrontiersOk(s) && p in s.reps && !s.reps[p].boot.Active?
    requires !BootNext(s.reps[p].boot, s.store).Active?
    ensures FrontiersOk(Bootstrapping(s, p))
  {
    hide ClocksOk, FrontiersOk, Grows, StableOk, Leq, BootNext, Adopted, Kept;
    var s' := Bootstrapping(s, p);
    BootstrapKeepsClocks(s, p);
    FrontiersParts(s);
    StableAtRest(s);
    StableRows(s);
    StableKept(s, s');
    JoinerIsIdle(s, p);
    IdleIsOk(s', p);
    hide InitiatorOk;
    forall q | q in s.reps && q != p && BeforeWrite(s.reps[q].gc) ensures Undisturbed(s, s', q) {
      GuardedRead(s, p, q);
    }
    StepOfKeeps(s, s', p);
  }

  lemma JoinerIsIdle(s: System, p: NodeId)
    requires ClocksOk(s) && p in s.reps && !s.reps[p].boot.Active?
    ensures s.reps[p].gc.Idle? && s.reps[p].core.matrix == map[]
  {
    hide ClocksOk, CoreOk;
    ClocksAt(s, p);
  }

  lemma GuardedRead(s: System, p: NodeId, q: NodeId)
    requires FrontiersOk(s) && p in s.reps && q in s.reps && BeforeWrite(s.reps[q].gc) && !s.reps[p].boot.Active?
    ensures Passed(s, q) && p !in Counted(s, s.reps[q].gc) ==>
              && Kept(BootNext(s.reps[p].boot, s.store), s.store, s.reps[q].gc.n)
              && !BootNext(s.reps[p].boot, s.store).Active?
  {
    hide FrontiersOk, Kept, BootNext, SnapshotMet, ActiveMet;
    FrontiersAt(s, q);
    if Passed(s, q) && p !in Counted(s, s.reps[q].gc) {
      ReadStaysKept(s.reps[p].boot, s.store, s.reps[q].gc.n);
    }
  }

  /** A snapshot that a joiner can adopt has seen everything ever collected. */
  lemma AdoptableCovers(s: System, p: NodeId)
    requires ClocksOk(s) && FrontiersOk(s) && p in s.reps && !s.reps[p].boot.Active?
    requires BootNext(s.reps[p].boot, s.store).Active?
    ensures Leq(s.stable, s.store.state.initiatorClock)
  {
    hide ClocksOk, FrontiersOk, BootNext, Passed;
    FrontiersParts(s);
    forall n ensures At(s.stable, n) <= At(s.store.state.initiatorClock, n) {
      if q :| Collecting(s, q, n) {
        FrontiersAt(s, q);
        GuardedRead(s, p, q);
        assert At(s.reps[q].gc.frontier, n) <= At(s.store.state.initiatorClock, n);
      }
    }
  }

  /** The joiner's new clock is reached by every initiator at work. */
  lemma AdoptedIsReached(s: System, s': System, p: NodeId, q: NodeId)
    requires ClocksOk(s) && FrontiersOk(s) && p in s.reps && !s.reps[p].boot.Active?
    requires BootNext(s.reps[p].boot, s.store).Active?
    requires q in s.reps && q != p && s.reps[q].gc.Confirmed? && q in s'.reps && s'.reps[q] == s.reps[q]
    requires p in s'.reps && Leq(s.store.state.initiatorClock, Clock(s'.reps[p].core))
    ensures Reaches(s', q, Clock(s'.reps[p].core))
  {
    hide ClocksOk, FrontiersOk, BootNext, Passed, Leq, ActiveMet, RepOk;
    FrontiersAt(s, q);
    GuardedRead(s, p, q);
    if p in s.reps[q].gc.m1 {
      ClocksAt(s, q);
      assert p in s.reps[q].core.matrix ==> RowOk(s, p, s.reps[q].core.matrix[p]);
      assert Via(q, s'.reps[q].core, p, Clock(s'.reps[p].core));
    } else {
      ReachesKept(s, s', q, s.store.state.initiatorClock, Clock(s'.reps[p].core));
    }
  }

  lemma AdoptedClock(s: System, p: NodeId)
    requires ClocksOk(s) && p in s.reps && !s.reps[p].boot.Active?
    ensures Same(Clock(Adopted(s.reps[p].core, s.store.state)), s.store.state.initiatorClock)
    ensures Leq(s.store.state.initiatorClock, Clock(Adopted(s.reps[p].core, s.store.state)))
  {
    hide ClocksOk, CoreOk, RowsOk, Adopted, Covered, Bounded;
    ClocksAt(s, p);
    ClocksParts(s);
    AdoptedIsSnapshot(s, p, s.reps[p].core);
  }

  lemma AdoptKeepsFrontiers(s: System, p: NodeId)
    requires ClocksOk(s) && FrontiersOk(s) && p in s.reps && !s.reps[p].boot.Active?
    requires BootNext(s.reps[p].boot, s.store).Active?
    ensures FrontiersOk(Bootstrapping(s, p))
  {
    hide ClocksOk, FrontiersOk, Grows, StableOk, Leq, BootNext, Adopted, Passed, Reaches, Clock;
    var s' := Bootstrapping(s, p);
    AdoptKeepsClocks(s, p);
    AdoptedClock(s, p);
    AdoptableCovers(s, p);
    LeqTransitive(s.stable, s.store.state.initiatorClock, Clock(s'.reps[p].core));
    FrontiersParts(s);
    StableAtRest(s);
    StableRows(s);
    StableKept(s, s');
    JoinerIsIdle(s, p);
    IdleIsOk(s', p);
    hide InitiatorOk;
    forall q | q in s.reps && q != p && s.reps[q].gc.Confirmed? ensures Reaches(s', q, Clock(s'.reps[p].core)) {
      AdoptedIsReached(s, s', p, q);
    }
    forall q | q in s.reps && q != p && BeforeWrite(s.reps[q].gc) ensures Undisturbed(s, s', q) {}
    StepOfKeeps(s, s', p);
  }

  lemma BootstrapKeepsFrontiers(s: System, p: NodeId)
    requires ClocksOk(s) && FrontiersOk(s) && p in s.reps && !s.reps[p].boot.Active?
    ensures FrontiersOk(Bootstrapping(s, p))
  {
    hide ClocksOk, FrontiersOk, Bootstrapping, BootNext;
    if BootNext(s.reps[p].boot, s.store).Active? { AdoptKeepsFrontiers(s, p); } else { ReadKeepsFrontiers(s, p); }
  }

  // ---- collecting ----

  lemma EmptyIsBelow(v: VersionVector)
    ensures VvLeq(map[], v)
  {
  }

  /** A frontier that makes progress has a row for everyone counted, and lies below each. */
  lemma FindingBelowRows(s: System, p: NodeId, listing: seq<NodeId>, order: seq<NodeId>, r: NodeId)
    requires ClocksOk(s) && p in s.reps && s.reps[p].gc.Confirmed? && NodesIn(listing) == s.reps[p].gc.m1
    requires r in s.reps[p].gc.m1
    requires !VvLeq(Finding(s.reps[p].core, listing, order, map[]).0, s.reps[p].gc.prev)
    ensures var c := s.reps[p].core; var v := Finding(c, listing, order, map[]).0;
            if r == p then Leq(v, Clock(c)) else r in c.matrix && Leq(v, c.matrix[r])
  {
    hide ClocksOk, RowsOk, Leq, VvLeq, Stable, DotOutside, Bounded, Covered;
    var c := s.reps[p].core;
    ClocksAt(s, p);
    EmptyIsBelow(s.reps[p].gc.prev);
    assert r in NodesIn(listing);
    StableBelowMembers(p, listing, order, if c.gcReplica then Some(c.matrix) else None, map[], Clock(c), r);
  }

  lemma FindingBelowReached(s: System, p: NodeId, listing: seq<NodeId>, order: seq<NodeId>, w: VersionVector)
    requires ClocksOk(s) && p in s.reps && s.reps[p].gc.Confirmed? && NodesIn(listing) == s.reps[p].gc.m1
    requires !VvLeq(Finding(s.reps[p].core, listing, order, map[]).0, s.reps[p].gc.prev)
    requires Reaches(s, p, w)
    ensures Leq(Finding(s.reps[p].core, listing, order, map[]).0, w)
  {
    hide ClocksOk, Leq, VvLeq, Finding;
    var c := s.reps[p].core;
    var r :| r in Counted(s, s.reps[p].gc) && Via(p, c, r, w);
    FindingBelowRows(s, p, listing, order, r);
    LeqTransitive(Finding(c, listing, order, map[]).0, if r == p then Clock(c) else c.matrix[r], w);
  }

  /** The frontier lies below the clock of every active replica, counted or not. */
  lemma FindingIsStable(s: System, p: NodeId, listing: seq<NodeId>, order: seq<NodeId>)
    requires ClocksOk(s) && FrontiersOk(s) && p in s.reps && s.reps[p].gc.Confirmed?
    requires NodesIn(listing) == s.reps[p].gc.m1
    requires !VvLeq(Finding(s.reps[p].core, listing, order, map[]).0, s.reps[p].gc.prev)
    ensures var v := Finding(s.reps[p].core, listing, order, map[]).0;
            && (forall q :: IsActive(s, q) ==> Leq(v, Clock(s.reps[q].core)))
            && (Leq(v, s.store.state.initiatorClock) || Passed(s, p))
            && AllActive(s, s.reps[p].gc.m1)
  {
    hide ClocksOk, FrontiersOk, Leq, VvLeq, Finding, Reaches, Passed, RepOk;
    FrontiersAt(s, p);
    forall q | IsActive(s, q) ensures Leq(Finding(s.reps[p].core, listing, order, map[]).0, Clock(s.reps[q].core)) {
      FindingBelowReached(s, p, listing, order, Clock(s.reps[q].core));
    }
    if !Passed(s, p) { FindingBelowReached(s, p, listing, order, s.store.state.initiatorClock); }
    InitiatorIsActive(s, p);
    ClocksAt(s, p);
    forall q | q in s.reps[p].gc.m1 ensures IsActive(s, q) {
      FindingBelowRows(s, p, listing, order, q);
      assert q != p ==> RowOk(s, q, s.reps[p].core.matrix[q]);
    }
  }

  lemma GatherCovers(s: System, s': System, p: NodeId, v: VersionVector)
    requires SnapshotCovers(s) && s'.stable == Join(s.stable, v) && s'.store.state == s.store.state
    requires p in s.reps && s.reps[p].gc.Confirmed? && p in s'.reps && s'.reps == s.reps[p := s'.reps[p]]
    requires s'.reps[p].gc.Gathered? && s'.reps[p].gc.frontier == v
    ensures SnapshotCovers(s')
  {
    forall n | At(s'.stable, n) > At(s'.store.state.initiatorClock, n) ensures exists q :: Collecting(s', q, n) {
      if At(s'.stable, n) == At(v, n) {
        assert Collecting(s', p, n);
      } else {
        var q :| Collecting(s, q, n);
        assert Collecting(s', q, n);
      }
    }
  }

  lemma GatherStable(s: System, s': System, v: VersionVector)
    requires StableOk(s) && Grows(s, s') && s'.stable == Join(s.stable, v)
    requires forall q :: IsActive(s, q) ==> Leq(v, Clock(s.reps[q].core))
    requires forall q :: IsActive(s', q) ==> IsActive(s, q)
    requires forall q :: q in s'.reps ==> q in s.reps && (s'.reps[q].collected == s.reps[q].collected
                                                         || s'.reps[q].collected == Join(s.reps[q].collected, v))
    requires s'.commits == s.commits && s'.store == s.store && s'.snapCollected == s.snapCollected
    ensures StableOk(s')
  {
    hide Leq, Join;
    JoinAbove(s.stable, v);
    forall q | IsActive(s', q) ensures Leq(s'.stable, Clock(s'.reps[q].core)) {
      JoinBelow(s.stable, v, Clock(s.reps[q].core));
      LeqTransitive(s'.stable, Clock(s.reps[q].core), Clock(s'.reps[q].core));
    }
    forall q | q in s'.reps ensures Leq(s'.reps[q].collected, s'.stable) {
      LeqTransitive(s.reps[q].collected, s.stable, s'.stable);
      JoinBelow(s.reps[q].collected, v, s'.stable);
    }
    forall n | n in s'.commits ensures Leq(s'.commits[n].frontier, s'.stable) {
      LeqTransitive(s.commits[n].frontier, s.stable, s'.stable);
    }
    LeqTransitive(s.store.metadata.vStable, s.stable, s'.stable);
    LeqTransitive(s.snapCollected, s.stable, s'.stable);
  }

  /** A collection that goes through, with the initiator's new core left open. */
  lemma CollectedKeepsFrontiers(s: System, s': System, p: NodeId, v: VersionVector)
    requires FrontiersOk(s) && Grows(s, s') && p in s.reps && s.reps[p].gc.Confirmed? && p in s'.reps
    requires s'.reps == s.reps[p := s'.reps[p]] && s'.stable == Join(s.stable, v)
    requires s'.store == s.store && s'.snapCollected == s.snapCollected && s'.commits == s.commits
    requires s'.reps[p].boot == s.reps[p].boot && s'.reps[p].collected == Join(s.reps[p].collected, v)
    requires s'.reps[p].gc == Gathered(s.reps[p].gc.n, v, {}, s.reps[p].gc.m1)
    requires forall q :: IsActive(s, q) ==> Leq(v, Clock(s.reps[q].core))
    requires Leq(v, s.store.state.initiatorClock) || Passed(s, p)
    requires AllActive(s, s.reps[p].gc.m1)
    ensures FrontiersOk(s')
  {
    hide FrontiersOk, StableOk, SnapshotCovers, Grows, Leq, InitiatorOk, Join, Kept, Clock;
    FrontiersParts(s);
    FrontiersAt(s, p);
    HeldBy(s, p);
    JoinAbove(s.stable, v);
    GatherStable(s, s', v);
    GatherCovers(s, s', p, v);
    forall q | q in s'.reps ensures InitiatorOk(s', q) {
      if q == p {
        GatheredIsOk(s, s', p);
      } else {
        FrontiersAt(s, q);
        BesideCollection(s, s', p, q);
      }
    }
    FrontiersFrom(s');
  }

  lemma GatheredIsOk(s: System, s': System, p: NodeId)
    requires p in s'.reps && s'.reps[p].gc.Gathered? && p in s.reps && s.reps[p].gc.Confirmed?
    requires s'.reps == s.reps[p := s'.reps[p]] && s'.store == s.store && s'.reps[p].boot == s.reps[p].boot
    requires s'.reps[p].gc.n == s.reps[p].gc.n && s'.reps[p].gc.m1 == s.reps[p].gc.m1
    requires Holds(s, p, s.reps[p].gc.n) && AllActive(s, s.reps[p].gc.m1) && Leq(s'.reps[p].gc.frontier, s'.stable)
    requires Leq(s'.reps[p].gc.frontier, s.store.state.initiatorClock) || Passed(s, p)
    ensures InitiatorOk(s', p)
  {
    hide Leq, Kept;
  }

  lemma BesideCollection(s: System, s': System, p: NodeId, q: NodeId)
    requires q in s.reps && q != p && InitiatorOk(s, q) && Grows(s, s') && p in s.reps && s.reps[p].gc.Confirmed?
    requires p in s'.reps && s'.reps == s.reps[p := s'.reps[p]] && s'.store == s.store
    requires s'.reps[p].boot == s.reps[p].boot && !s'.reps[p].gc.StateWritten?
    ensures InitiatorOk(s', q)
  {
    hide Grows, InitiatorOk, Kept;
    assert Undisturbed(s, s', q);
    hide Undisturbed;
    HeldBy(s, q);
    InitiatorKept(s, s', q);
  }

  lemma GatherKeepsFrontiers(s: System, p: NodeId, listing: seq<NodeId>, order: seq<NodeId>)
    requires ClocksOk(s) && FrontiersOk(s) && p in s.reps && s.reps[p].gc.Confirmed?
    requires NodesIn(listing) == s.reps[p].gc.m1
    ensures FrontiersOk(Gathering(s, p, listing, order))
  {
    hide ClocksOk, FrontiersOk, Grows, Leq, Finding, VvLeq, Join, Passed, Initiated, AllActive;
    var v := Finding(s.reps[p].core, listing, order, map[]).0;
    if VvLeq(v, s.reps[p].gc.prev) {
      AbortKeepsFrontiers(s, p);
    } else {
      GatherKeepsClocks(s, p, listing, order);
      FindsNobodyObsolete(s, p, listing, order);
      FindingIsStable(s, p, listing, order);
      assert v - {} == v;
      CollectedKeepsFrontiers(s, Gathering(s, p, listing, order), p, v);
    }
  }

  // ---- the two writes ----

  /** The new snapshot has the clock of an active replica. */
  lemma BesideStateWrite(s: System, p: NodeId, q: NodeId)
    requires ClocksOk(s) && FrontiersOk(s) && p in s.reps && s.reps[p].gc.Gathered? && q in s.reps && q != p
    ensures InitiatorOk(WritingState(s, p), q)
  {
    hide ClocksOk, FrontiersOk, Leq, Grows, RepOk, Snapshot, Clock;
    var s' := WritingState(s, p);
    var w := Clock(s.reps[p].core);
    SnapshotOf(s.reps[p].core, s.reps[p].gc.n);
    InitiatorIsActive(s, p);
    FrontiersAt(s, q);
    FrontiersParts(s);
    StableRows(s);
    ClocksAt(s, q);
    LeqReflexive(w);
    var g := s.reps[q].gc;
    if g.StateWritten? && g.n == s.reps[p].gc.n { SoleHolder(s, p, q); }
    if g.Gathered? {
      LeqTransitive(g.frontier, s.stable, w);
    } else if g.Confirmed? {
      ReachesKept(s, s', q, w, w);
    } else if BeforeWrite(g) {
      AuthorReaches(s, s', q, p);
    }
    GatheredSame(s, s', q);
  }

  lemma SnapshotOf(c: Core, n: nat)
    ensures Snapshot(c, n).initiatorClock == Clock(c) && Snapshot(c, n).epoch == n
  {
  }

  /** Cores and active replicas stay, so what is reached stays reached. */
  lemma GatheredSame(s: System, s': System, q: NodeId)
    requires q in s.reps && q in s'.reps && s'.reps[q] == s.reps[q] && ActiveMet(s, q) && s'.reps.Keys == s.reps.Keys
    requires forall r :: r in s.reps ==> s'.reps[r].core == s.reps[r].core && s'.reps[r].boot == s.reps[r].boot
    ensures ActiveMet(s', q)
  {
    hide Leq, Clock;
    if s.reps[q].gc.Confirmed? {
      forall a | IsActive(s', a) ensures Reaches(s', q, Clock(s'.reps[a].core)) {
        LeqReflexive(Clock(s.reps[a].core));
        ReachesKept(s, s', q, Clock(s.reps[a].core), Clock(s.reps[a].core));
      }
    }
  }

  lemma WriteStateKeepsFrontiers(s: System, p: NodeId)
    requires ClocksOk(s) && FrontiersOk(s) && p in s.reps && s.reps[p].gc.Gathered?
    ensures FrontiersOk(WritingState(s, p))
    ensures Leq(s.stable, WritingState(s, p).store.state.initiatorClock)
  {
    hide ClocksOk, FrontiersOk, Grows, InitiatorOk, StableOk, Snapshot, Clock;
    var s' := WritingState(s, p);
    SnapshotOf(s.reps[p].core, s.reps[p].gc.n);
    InitiatorIsActive(s, p);
    FrontiersParts(s);
    StableRows(s);
    StableAtRest(s);
    WriteStateKeepsClocks(s, p);
    StableKept(s, s');
    forall q | q in s'.reps ensures InitiatorOk(s', q) {
      if q == p {
        FrontiersAt(s, p);
        WriterIsOk(s, p);
      } else {
        BesideStateWrite(s, p, q);
      }
    }
    FrontiersFrom(s');
  }

  lemma WriterIsOk(s: System, p: NodeId)
    requires p in s.reps && s.reps[p].gc.Gathered? && InitiatorOk(s, p)
    ensures InitiatorOk(WritingState(s, p), p)
  {
    hide Snapshot, SnapshotMet, Clock;
    SnapshotOf(s.reps[p].core, s.reps[p].gc.n);
  }

  lemma WriteMetadataKeepsFrontiers(s: System, p: NodeId)
    requires ClocksOk(s) && FrontiersOk(s) && p in s.reps && s.reps[p].gc.StateWritten?
    ensures FrontiersOk(WritingMetadata(s, p))
  {
    hide ClocksOk, FrontiersOk, Grows, StableOk, Leq, Kept;
    var s' := WritingMetadata(s, p);
    WriteMetadataKeepsClocks(s, p);
    FrontiersAt(s, p);
    FrontiersParts(s);
    StableRows(s);
    StableAtRest(s);
    assert InitiatorOk(s', p);
    hide InitiatorOk;
    StableKept(s, s');
    forall q | q in s.reps && q != p && BeforeWrite(s.reps[q].gc) ensures Undisturbed(s, s', q) {}
    StepOfKeeps(s, s', p);
  }

  // ---- requests ----

  lemma ObserveCollects(s: System, p: NodeId)
    requires StableOk(s) && IsReady(s, p)
    ensures Leq(Observing(s, p).reps[p].collected, s.stable)
  {
    hide Observed;
    JoinBelow(s.reps[p].collected, s.store.metadata.vStable, s.stable);
  }

  lemma ObserveKeepsFrontiers(s: System, p: NodeId)
    requires ClocksOk(s) && FrontiersOk(s) && IsReady(s, p)
    ensures FrontiersOk(Observing(s, p))
  {
    hide ClocksOk, FrontiersOk, Grows, StableOk, Leq, Observed, Join;
    ObserveKeepsClocks(s, p);
    FrontiersParts(s);
    StableRows(s);
    ObserveCollects(s, p);
    SameStageKeeps(s, Observing(s, p));
  }

  ghost predicate SameCollected(s: System, s': System) {
    s.reps.Keys == s'.reps.Keys && forall q :: q in s.reps ==> s'.reps[q].collected == s.reps[q].collected
  }

  lemma DeliverIsSameStage(s: System, m: Envelope)
    requires m.CrdtOp? && IsReady(s, m.to)
    ensures SameStage(s, Delivering(s, m)) && SameCollected(s, Delivering(s, m))
  {
    hide AfterDelta, RiddenRequest;
  }

  lemma ServeIsSameStage(s: System, m: Envelope, peerIsGc: bool, peers: set<NodeId>)
    requires m.PullRequest? && IsReady(s, m.to)
    ensures SameStage(s, Serving(s, m, peerIsGc, peers)) && SameCollected(s, Serving(s, m, peerIsGc, peers))
  {
    hide AfterRequest, ReplyTo, Respond;
  }

  lemma RequestIsSameStage(s: System, step: Step)
    requires Enabled(s, step)
    requires step.Client? || step.Advertise? || step.Deliver? || step.Serve? || step.Lose?
    ensures SameStage(s, Apply(s, step)) && SameCollected(s, Apply(s, step))
  {
    hide Operated, Delivering, Serving, EventOf, Evented;
    match step
    case Deliver(m) => DeliverIsSameStage(s, m);
    case Serve(m, peerIsGc, peers) => ServeIsSameStage(s, m, peerIsGc, peers);
    case _ =>
  }

  lemma RequestKeepsFrontiers(s: System, step: Step)
    requires ClocksOk(s) && FrontiersOk(s) && Enabled(s, step)
    requires step.Client? || step.Advertise? || step.Deliver? || step.Serve? || step.Lose?
    ensures FrontiersOk(Apply(s, step))
  {
    hide ClocksOk, FrontiersOk, Grows, StableOk, Leq, Apply, Enabled, SameStage;
    StepKeepsClocks(s, step);
    FrontiersParts(s);
    StableRows(s);
    RequestIsSameStage(s, step);
    SameStageKeeps(s, Apply(s, step));
  }

  lemma GcStepKeepsFrontiers(s: System, step: Step)
    requires ClocksOk(s) && FrontiersOk(s) && Enabled(s, step) && IsGcStep(step)
    ensures FrontiersOk(Apply(s, step))
  {
    hide ClocksOk, FrontiersOk, Gathering, WritingState, WritingMetadata, Claiming, Confirming;
    match step
    case GcReadEpoch(p) => ReadEpochKeepsFrontiers(s, p);
    case GcReadMembers(p) => ReadMembersKeepsFrontiers(s, p);
    case GcClaim(p) => ClaimKeepsFrontiers(s, p);
    case GcConfirm(p) => ConfirmKeepsFrontiers(s, p);
    case GcCollect(p, listing, order) => GatherKeepsFrontiers(s, p, listing, order);
    case GcWriteState(p) => WriteStateKeepsFrontiers(s, p);
    case GcWriteMetadata(p) => WriteMetadataKeepsFrontiers(s, p);
    case GcRelease(p) => ReleaseKeepsFrontiers(s, p);
  }

  /** Under no hypothesis at all. */
  lemma StepKeepsFrontiers(s: System, step: Step)
    requires ClocksOk(s) && FrontiersOk(s) && Enabled(s, step)
    ensures FrontiersOk(Apply(s, step))
  {
    hide ClocksOk, FrontiersOk;
    match step
    case Register(p, gcReplica) => RegisterKeepsFrontiers(s, p, gcReplica);
    case Bootstrap(p) => BootstrapKeepsFrontiers(s, p);
    case Observe(p) => ObserveKeepsFrontiers(s, p);
    case Client(_, _) => RequestKeepsFrontiers(s, step);
    case Advertise(_, _) => RequestKeepsFrontiers(s, step);
    case Deliver(_) => RequestKeepsFrontiers(s, step);
    case Serve(_, _, _) => RequestKeepsFrontiers(s, step);
    case Lose(_) => RequestKeepsFrontiers(s, step);
    case _ => GcStepKeepsFrontiers(s, step);
  }
}
