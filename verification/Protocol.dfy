/** Under the claim hypothesis the epoch numbers mean what they say: one committer at a time,
    each commit one epoch on, and no joiner adopts an epoch older than one it missed. */
module Protocol {
  import opened Clocks
  import opened DotVersionVectors
  import opened OrSets
  import opened Histories
  import opened StableTimestamps
  import opened Replicas
  import opened Systems
  import opened Frontiers

  /** A bootstrapping replica that cannot settle while epoch `e` is stored and the intent
      for `e + 1` is held. */
  predicate Waiting(b: Boot, e: nat) {
    match b
    case Registered => true
    case MetadataRead(x) => x >= e
    case Polling(x) => x >= e
    case Polled(x, y) => x >= e && y >= e
    case Settled(_) => false
    case Active => false
  }

  predicate BootOk(b: Boot, stored: nat) {
    match b
    case Registered => true
    case MetadataRead(x) => x <= stored
    case Polling(x) => x <= stored
    case Polled(x, y) => x <= y <= stored
    case Settled(x) => x <= stored
    case Active => true
  }

  /** Between a successful claim and the metadata write. */
  predicate PreCommit(g: GcPhase) {
    g.Claimed? || g.Confirmed? || g.Gathered? || g.StateWritten?
  }

  /** Whoever the second membership read missed is still waiting. */
  ghost predicate MissedAreWaiting(s: System, m1: set<NodeId>) {
    forall q :: q in s.reps && q !in m1 ==> Waiting(s.reps[q].boot, s.store.metadata.epoch)
  }

  ghost predicate GcOk(s: System, p: NodeId, g: GcPhase) {
    && (PreCommit(g) ==>
          && Holds(s, p, g.n) && g.n == s.store.metadata.epoch + 1
          && s.store.state.epoch == (if g.StateWritten? then g.n else s.store.metadata.epoch))
    && (g.Releasing? ==> Holds(s, p, g.n))
    && (g.Confirmed? || g.Gathered? || g.StateWritten? ==> MissedAreWaiting(s, g.m1))
  }

  ghost predicate EpochsOk(s: System) {
    && s.store.metadata.epoch <= s.store.state.epoch <= s.store.metadata.epoch + 1
    && (s.store.state.epoch == s.store.metadata.epoch + 1 ==> exists p :: p in s.reps && s.reps[p].gc.StateWritten?)
  }

  ghost predicate CommitOk(s: System, n: nat) {
    && 1 <= n <= s.store.metadata.epoch
    && n in s.commits
    && forall p :: IsActive(s, p) && p !in s.commits[n].members ==> s.reps[p].joinedAt >= n
  }

  ghost predicate ProtocolOk(s: System) {
    && (forall p :: p in s.reps ==> GcOk(s, p, s.reps[p].gc))
    && (forall p :: p in s.reps ==> BootOk(s.reps[p].boot, s.store.metadata.epoch))
    && EpochsOk(s)
    && (forall n :: n in s.commits <==> 1 <= n <= s.store.metadata.epoch)
    && (forall n :: n in s.commits ==> CommitOk(s, n))
  }

  lemma PhaseAt(s: System, p: NodeId)
    requires ProtocolOk(s) && p in s.reps
    ensures GcOk(s, p, s.reps[p].gc) && BootOk(s.reps[p].boot, s.store.metadata.epoch)
  {
    hide EpochsOk, CommitOk, GcOk, BootOk;
  }

  lemma ProtocolParts(s: System)
    requires ProtocolOk(s)
    ensures EpochsOk(s)
    ensures forall n :: n in s.commits <==> 1 <= n <= s.store.metadata.epoch
    ensures forall n :: n in s.commits ==> CommitOk(s, n)
  {
    hide EpochsOk, CommitOk, GcOk, BootOk;
  }

  lemma FromParts(s: System)
    requires forall p :: p in s.reps ==> GcOk(s, p, s.reps[p].gc) && BootOk(s.reps[p].boot, s.store.metadata.epoch)
    requires EpochsOk(s)
    requires forall n :: n in s.commits <==> 1 <= n <= s.store.metadata.epoch
    requires forall n :: n in s.commits ==> CommitOk(s, n)
    ensures ProtocolOk(s)
  {
    hide EpochsOk, CommitOk, GcOk, BootOk;
  }

  lemma SoleCommitter(s: System, p: NodeId, q: NodeId)
    requires ProtocolOk(s) && p in s.reps && q in s.reps
    requires PreCommit(s.reps[p].gc) && PreCommit(s.reps[q].gc)
    ensures p == q
  {
    hide ProtocolOk, MissedAreWaiting;
    PhaseAt(s, p);
    PhaseAt(s, q);
  }

  /** Steps that change neither phases nor the store. */
  lemma SameProtocol(s: System, s': System)
    requires ProtocolOk(s)
    requires s'.reps.Keys == s.reps.Keys
    requires forall p :: p in s.reps ==> && s'.reps[p].gc == s.reps[p].gc && s'.reps[p].boot == s.reps[p].boot
                                         && s'.reps[p].joinedAt == s.reps[p].joinedAt
    requires s'.store == s.store && s'.commits == s.commits
    ensures ProtocolOk(s')
  {
    hide ProtocolOk, EpochsOk, MissedAreWaiting, BootOk;
    ProtocolParts(s);
    SameWaiting(s, s');
    StateWrittenKept(s, s');
    forall p | p in s'.reps ensures GcOk(s', p, s'.reps[p].gc) && BootOk(s'.reps[p].boot, s'.store.metadata.epoch) {
      PhaseAt(s, p);
    }
    forall n | n in s'.commits ensures CommitOk(s', n) {
      assert CommitOk(s, n);
    }
    FromParts(s');
  }

  lemma SameWaiting(s: System, s': System)
    requires s'.store.metadata.epoch == s.store.metadata.epoch && s'.reps.Keys == s.reps.Keys
    requires forall p :: p in s.reps ==> s'.reps[p].boot == s.reps[p].boot
    ensures forall m1 :: MissedAreWaiting(s, m1) ==> MissedAreWaiting(s', m1)
  {
  }

  /** What the step of one replica leaves true of another's phase. */
  lemma GcKept(s: System, s': System, p: NodeId, g: GcPhase)
    requires GcOk(s, p, g)
    requires s'.store.metadata.epoch == s.store.metadata.epoch
    requires PreCommit(g) ==> s'.store.state.epoch == s.store.state.epoch
    requires PreCommit(g) || g.Releasing? ==> Holds(s', p, g.n)
    requires forall q :: q in s'.reps ==>
      var e := s.store.metadata.epoch;
      (e + 1 in s.store.intents && (q in s.reps ==> Waiting(s.reps[q].boot, e)) ==> Waiting(s'.reps[q].boot, e))
    ensures GcOk(s', p, g)
  {
    hide Waiting;
  }

  lemma CommitKept(s: System, s': System, n: nat)
    requires CommitOk(s, n) && n in s'.commits && s'.commits[n] == s.commits[n]
    requires s'.store.metadata.epoch >= s.store.metadata.epoch
    requires forall p :: IsActive(s', p) ==>
               s'.reps[p].joinedAt >= n || (IsActive(s, p) && s'.reps[p].joinedAt == s.reps[p].joinedAt)
    ensures CommitOk(s', n)
  {
  }

  lemma StateWrittenKept(s: System, s': System)
    requires EpochsOk(s) && s'.store.metadata.epoch == s.store.metadata.epoch
    requires s'.store.state.epoch == s.store.state.epoch
    requires forall p :: p in s.reps && s.reps[p].gc.StateWritten? ==> p in s'.reps && s'.reps[p].gc.StateWritten?
    ensures EpochsOk(s')
  {
  }

  /** A step that changes one replica's phase and perhaps the intents, but neither the
      stored objects nor the set of active replicas. */
  lemma PhaseStep(s: System, s': System, p: NodeId)
    requires ProtocolOk(s) && p in s'.reps && s'.reps == s.reps[p := s'.reps[p]]
    requires if p in s.reps then
               && s'.reps[p].boot == s.reps[p].boot && s'.reps[p].joinedAt == s.reps[p].joinedAt
               && !s.reps[p].gc.StateWritten?
             else s'.reps[p].boot.Registered? && s'.reps[p].gc.Idle?
    requires s'.store.metadata == s.store.metadata && s'.store.state == s.store.state && s'.commits == s.commits
    requires forall n :: n in s.store.intents && s.store.intents[n] != p ==>
                           n in s'.store.intents && s'.store.intents[n] == s.store.intents[n]
    requires GcOk(s', p, s'.reps[p].gc)
    ensures ProtocolOk(s')
  {
    hide ProtocolOk, GcOk, CommitOk, EpochsOk, Waiting, BootOk;
    ProtocolParts(s);
    WaitingFresh(s.store.metadata.epoch);
    forall q | q in s'.reps ensures GcOk(s', q, s'.reps[q].gc) && BootOk(s'.reps[q].boot, s'.store.metadata.epoch) {
      if q in s.reps { PhaseAt(s, q); }
      if q != p {
        OtherIntent(s, s', p, q);
        GcKept(s, s', q, s.reps[q].gc);
      }
    }
    StateWrittenKept(s, s');
    forall n | n in s'.commits ensures CommitOk(s', n) {
      CommitKept(s, s', n);
    }
    FromParts(s');
  }

  lemma WaitingFresh(e: nat)
    ensures Waiting(Registered, e) && BootOk(Registered, e)
  {
  }

  lemma OtherIntent(s: System, s': System, p: NodeId, q: NodeId)
    requires q in s.reps && q != p && GcOk(s, q, s.reps[q].gc)
    requires forall n :: n in s.store.intents && s.store.intents[n] != p ==>
                           n in s'.store.intents && s'.store.intents[n] == s.store.intents[n]
    ensures var g := s.reps[q].gc; PreCommit(g) || g.Releasing? ==> Holds(s', q, g.n)
  {
    hide MissedAreWaiting;
  }

  lemma RegisterKeepsProtocol(s: System, p: NodeId, gcReplica: bool)
    requires ProtocolOk(s) && p !in s.reps
    ensures ProtocolOk(Registering(s, p, gcReplica))
  {
    hide ProtocolOk;
    PhaseStep(s, Registering(s, p, gcReplica), p);
  }

  lemma ReadKeepsProtocol(s: System, p: NodeId, g: GcPhase)
    requires ProtocolOk(s) && p in s.reps && (g.EpochRead? || g.MembersRead?)
    requires !PreCommit(s.reps[p].gc)
    ensures ProtocolOk(SetPhase(s, p, g))
  {
    hide ProtocolOk;
    PhaseStep(s, SetPhase(s, p, g), p);
  }

  lemma ClaimKeepsProtocol(s: System, p: NodeId)
    requires ProtocolOk(s) && p in s.reps && s.reps[p].gc.MembersRead?
    requires s.reps[p].gc.n !in s.store.intents ==> s.reps[p].gc.n == s.store.metadata.epoch + 1
    ensures ProtocolOk(Claiming(s, p))
  {
    hide ProtocolOk, MissedAreWaiting;
    if s.reps[p].gc.n !in s.store.intents { NoStateAhead(s); }
    PhaseStep(s, Claiming(s, p), p);
  }

  /** The state object is ahead only while the claim of the next epoch is held. */
  lemma NoStateAhead(s: System)
    requires ProtocolOk(s) && s.store.metadata.epoch + 1 !in s.store.intents
    ensures s.store.state.epoch == s.store.metadata.epoch
  {
    hide CommitOk, MissedAreWaiting;
    forall q | q in s.reps ensures !s.reps[q].gc.StateWritten? {
      assert GcOk(s, q, s.reps[q].gc);
    }
  }

  lemma NobodyMissed(s: System)
    ensures MissedAreWaiting(s, s.reps.Keys)
  {
  }

  lemma ConfirmKeepsProtocol(s: System, p: NodeId)
    requires ProtocolOk(s) && p in s.reps && s.reps[p].gc.Claimed?
    ensures ProtocolOk(Confirming(s, p))
  {
    hide ProtocolOk, MissedAreWaiting, NewMemberExists;
    var s' := Confirming(s, p);
    PhaseAt(s, p);
    NobodyMissed(s');
    assert s'.reps.Keys == s.reps.Keys;
    PhaseStep(s, s', p);
  }

  lemma ReleaseKeepsProtocol(s: System, p: NodeId)
    requires ProtocolOk(s) && p in s.reps && s.reps[p].gc.Releasing?
    ensures ProtocolOk(SetPhase(s.(store := s.store.(intents := s.store.intents - {s.reps[p].gc.n})), p, Idle))
  {
    hide ProtocolOk, MissedAreWaiting;
    PhaseAt(s, p);
    PhaseStep(s, SetPhase(s.(store := s.store.(intents := s.store.intents - {s.reps[p].gc.n})), p, Idle), p);
  }

  lemma AbortKeepsProtocol(s: System, p: NodeId)
    requires ProtocolOk(s) && p in s.reps && s.reps[p].gc.Confirmed?
    ensures ProtocolOk(SetPhase(s, p, Releasing(s.reps[p].gc.n)))
  {
    hide ProtocolOk, MissedAreWaiting;
    PhaseAt(s, p);
    PhaseStep(s, SetPhase(s, p, Releasing(s.reps[p].gc.n)), p);
  }

  lemma GatheredKeepsProtocol(s: System, s': System, p: NodeId)
    requires ProtocolOk(s) && p in s.reps && s.reps[p].gc.Confirmed? && p in s'.reps
    requires s'.reps == s.reps[p := s'.reps[p]] && s'.store == s.store && s'.commits == s.commits
    requires s'.reps[p].boot == s.reps[p].boot && s'.reps[p].joinedAt == s.reps[p].joinedAt
    requires s'.reps[p].gc.Gathered? && s'.reps[p].gc.n == s.reps[p].gc.n && s'.reps[p].gc.m1 == s.reps[p].gc.m1
    ensures ProtocolOk(s')
  {
    hide ProtocolOk, MissedAreWaiting;
    PhaseAt(s, p);
    SameWaiting(s, s');
    PhaseStep(s, s', p);
  }

  lemma GatherKeepsProtocol(s: System, p: NodeId, listing: seq<NodeId>, order: seq<NodeId>)
    requires ProtocolOk(s) && p in s.reps && s.reps[p].gc.Confirmed?
    ensures ProtocolOk(Gathering(s, p, listing, order))
  {
    hide ProtocolOk, Finding, VvLeq, Initiated, Join;
    if VvLeq(Finding(s.reps[p].core, listing, order, map[]).0, s.reps[p].gc.prev) {
      AbortKeepsProtocol(s, p);
    } else {
      GatheredKeepsProtocol(s, Gathering(s, p, listing, order), p);
    }
  }

  lemma WriteStateKeepsProtocol(s: System, p: NodeId)
    requires ProtocolOk(s) && p in s.reps && s.reps[p].gc.Gathered?
    ensures ProtocolOk(WritingState(s, p))
  {
    hide ProtocolOk, CommitOk, EpochsOk, MissedAreWaiting, BootOk, Snapshot;
    var s' := WritingState(s, p);
    WrittenState(s, p);
    ProtocolParts(s);
    PhaseAt(s, p);
    SameWaiting(s, s');
    forall q | q in s'.reps ensures GcOk(s', q, s'.reps[q].gc) && BootOk(s'.reps[q].boot, s'.store.metadata.epoch) {
      PhaseAt(s, q);
      if q != p && PreCommit(s.reps[q].gc) { SoleCommitter(s, p, q); }
    }
    StateAhead(s', p);
    forall n | n in s'.commits ensures CommitOk(s', n) {
      CommitKept(s, s', n);
    }
    FromParts(s');
  }

  lemma WrittenState(s: System, p: NodeId)
    requires p in s.reps && s.reps[p].gc.Gathered?
    ensures WritingState(s, p).store.state.epoch == s.reps[p].gc.n
  {
  }

  lemma StateAhead(s: System, p: NodeId)
    requires p in s.reps && s.reps[p].gc.StateWritten? && s.store.state.epoch == s.store.metadata.epoch + 1
    ensures EpochsOk(s)
  {
  }

  /** Exactly one epoch is added, and everyone active was counted for it. */
  lemma WriteMetadataKeepsProtocol(s: System, p: NodeId)
    requires ProtocolOk(s) && p in s.reps && s.reps[p].gc.StateWritten?
    ensures ProtocolOk(WritingMetadata(s, p))
  {
    var s' := WritingMetadata(s, p);
    var g := s.reps[p].gc;
    hide ProtocolOk, CommitOk, Waiting, BootOk;
    ProtocolParts(s);
    PhaseAt(s, p);
    forall q | q in s'.reps ensures GcOk(s', q, s'.reps[q].gc) && BootOk(s'.reps[q].boot, s'.store.metadata.epoch) {
      PhaseAt(s, q);
      BootGrows(s.reps[q].boot, s.store.metadata.epoch);
      if q != p && PreCommit(s.reps[q].gc) { SoleCommitter(s, p, q); }
    }
    forall n | n in s'.commits ensures CommitOk(s', n) {
      if n != g.n { CommitKept(s, s', n); } else { NewCommit(s, p); }
    }
    FromParts(s');
  }

  lemma BootGrows(b: Boot, e: nat)
    requires BootOk(b, e)
    ensures BootOk(b, e + 1)
  {
  }

  lemma NewCommit(s: System, p: NodeId)
    requires p in s.reps && s.reps[p].gc.StateWritten? && GcOk(s, p, s.reps[p].gc)
    ensures CommitOk(WritingMetadata(s, p), s.reps[p].gc.n)
  {
    var s' := WritingMetadata(s, p);
    forall q | IsActive(s', q) ensures q in s.reps[p].gc.m1 {
      assert !Waiting(s.reps[q].boot, s.store.metadata.epoch);
    }
  }

  // ---- bootstrap ----

  /** A joiner that can adopt now adopts the stored epoch, and no commit in progress
      overlooked it. */
  lemma AdoptableIsCurrent(s: System, p: NodeId)
    requires ProtocolOk(s) && p in s.reps && BootNext(s.reps[p].boot, s.store).Active? && !s.reps[p].boot.Active?
    ensures s.store.state.epoch == s.store.metadata.epoch
    ensures forall q :: q in s.reps && PreCommit(s.reps[q].gc) && !s.reps[q].gc.Claimed? ==>
              !s.reps[q].gc.StateWritten? && p in s.reps[q].gc.m1
  {
    hide CommitOk;
    PhaseAt(s, p);
    forall q | q in s.reps && PreCommit(s.reps[q].gc) && !s.reps[q].gc.Claimed?
      ensures !s.reps[q].gc.StateWritten? && p in s.reps[q].gc.m1
    {
      PhaseAt(s, q);
      assert !Waiting(s.reps[p].boot, s.store.metadata.epoch);
    }
  }

  /** Read by read, a joiner's epoch stays at most the stored one, and while the next
      epoch's intent is held a waiting joiner keeps waiting. */
  lemma BootKept(b: Boot, st: Store)
    requires BootOk(b, st.metadata.epoch)
    ensures BootOk(BootNext(b, st), st.metadata.epoch)
    ensures Waiting(b, st.metadata.epoch) && st.metadata.epoch + 1 in st.intents ==>
              Waiting(BootNext(b, st), st.metadata.epoch)
  {
  }

  lemma BootstrapKeepsPhase(s: System, p: NodeId, q: NodeId)
    requires ProtocolOk(s) && p in s.reps && !s.reps[p].boot.Active? && q in s.reps
    ensures var s' := Bootstrapping(s, p);
            GcOk(s', q, s'.reps[q].gc) && BootOk(s'.reps[q].boot, s'.store.metadata.epoch)
  {
    hide GcOk, Waiting, Adopted, ProtocolOk, BootOk, BootNext;
    var s' := Bootstrapping(s, p);
    PhaseAt(s, p);
    PhaseAt(s, q);
    HeldStays(s, s', q);
    BootKept(s.reps[p].boot, s.store);
    GcKept(s, s', q, s.reps[q].gc);
  }

  lemma HeldStays(s: System, s': System, q: NodeId)
    requires q in s.reps && GcOk(s, q, s.reps[q].gc) && s'.store == s.store
    ensures var g := s.reps[q].gc; PreCommit(g) || g.Releasing? ==> Holds(s', q, g.n)
  {
    hide MissedAreWaiting;
  }

  lemma BootstrapKeepsCommit(s: System, p: NodeId, n: nat)
    requires ProtocolOk(s) && p in s.reps && !s.reps[p].boot.Active? && n in s.commits
    ensures CommitOk(Bootstrapping(s, p), n)
  {
    hide Adopted, BootNext, GcOk, EpochsOk, BootOk, Waiting;
    if BootNext(s.reps[p].boot, s.store).Active? { AdoptableIsCurrent(s, p); }
  }

  lemma BootstrapKeepsProtocol(s: System, p: NodeId)
    requires ProtocolOk(s) && p in s.reps && !s.reps[p].boot.Active?
    ensures ProtocolOk(Bootstrapping(s, p))
  {
    hide CommitOk, GcOk, Waiting, EpochsOk, Adopted, ProtocolOk, BootOk, BootNext;
    var s' := Bootstrapping(s, p);
    ProtocolParts(s);
    StateWrittenKept(s, s');
    forall q | q in s'.reps ensures GcOk(s', q, s'.reps[q].gc) && BootOk(s'.reps[q].boot, s'.store.metadata.epoch) {
      BootstrapKeepsPhase(s, p, q);
    }
    forall n | n in s'.commits ensures CommitOk(s', n) {
      BootstrapKeepsCommit(s, p, n);
    }
    FromParts(s');
  }

  // ---- the epoch each replica is at ----

  /** Nobody is behind the epoch it bootstrapped from, or ahead of the stored one. */
  ghost predicate EpochKnown(s: System, r: Replica) {
    r.boot.Active? ==> r.joinedAt <= r.core.epoch <= s.store.metadata.epoch
  }

  ghost predicate EpochsKnown(s: System) {
    forall p :: p in s.reps ==> EpochKnown(s, s.reps[p])
  }

  lemma OneEpochMoves(s: System, s': System, p: NodeId)
    requires EpochsKnown(s) && p in s'.reps && s'.reps == s.reps[p := s'.reps[p]]
    requires s'.store.metadata.epoch >= s.store.metadata.epoch && EpochKnown(s', s'.reps[p])
    ensures EpochsKnown(s')
  {
  }

  lemma BootstrapKeepsEpochs(s: System, p: NodeId)
    requires ProtocolOk(s) && EpochsKnown(s) && p in s.reps && !s.reps[p].boot.Active?
    ensures EpochsKnown(Bootstrapping(s, p))
  {
    hide ProtocolOk, EpochsKnown, BootNext, MergedSet, Merged;
    if BootNext(s.reps[p].boot, s.store).Active? { AdoptableIsCurrent(s, p); }
    OneEpochMoves(s, Bootstrapping(s, p), p);
  }

  lemma RequestKeepsEpochs(s: System, step: Step)
    requires EpochsKnown(s) && Enabled(s, step)
    requires step.Client? || step.Deliver? || step.Serve? || step.Observe?
    ensures EpochsKnown(Apply(s, step))
  {
    hide EpochsKnown, ReplyTo, Respond, RiddenRequest, UpdatedMatrix, Collected, Evented, Merged, MergedSet, Applied,
         EventOf, WithoutNodes;
    var p := if step.Deliver? || step.Serve? then step.m.to else step.p;
    EpochKnownAt(s, p);
    OneEpochMoves(s, Apply(s, step), p);
  }

  lemma EpochKnownAt(s: System, p: NodeId)
    requires EpochsKnown(s) && p in s.reps
    ensures EpochKnown(s, s.reps[p])
  {
  }

  /** A step that leaves everybody's epoch as it is. */
  lemma OneEpochStays(s: System, s': System, p: NodeId)
    requires EpochsKnown(s) && p in s.reps && p in s'.reps && s'.reps == s.reps[p := s'.reps[p]]
    requires s'.reps[p].core.epoch == s.reps[p].core.epoch && s'.reps[p].joinedAt == s.reps[p].joinedAt
    requires s'.reps[p].boot == s.reps[p].boot && s'.store.metadata == s.store.metadata
    ensures EpochsKnown(s')
  {
  }

  lemma GatherKeepsEpochs(s: System, p: NodeId, listing: seq<NodeId>, order: seq<NodeId>)
    requires EpochsKnown(s) && p in s.reps && s.reps[p].gc.Confirmed?
    ensures EpochsKnown(Gathering(s, p, listing, order))
  {
    hide EpochsKnown, Finding, VvLeq, Collected, Join, WithoutNodes;
    OneEpochStays(s, Gathering(s, p, listing, order), p);
  }

  lemma WriteStateKeepsEpochs(s: System, p: NodeId)
    requires EpochsKnown(s) && p in s.reps && s.reps[p].gc.Gathered?
    ensures EpochsKnown(WritingState(s, p))
  {
    hide EpochsKnown, Snapshot;
    OneEpochStays(s, WritingState(s, p), p);
  }

  lemma ClaimKeepsEpochs(s: System, p: NodeId)
    requires EpochsKnown(s) && p in s.reps && s.reps[p].gc.MembersRead?
    ensures EpochsKnown(Claiming(s, p))
  {
    hide EpochsKnown;
    OneEpochStays(s, Claiming(s, p), p);
  }

  lemma PhaseKeepsEpochs(s: System, step: Step)
    requires EpochsKnown(s) && Enabled(s, step)
    requires step.GcReadEpoch? || step.GcReadMembers? || step.GcConfirm? || step.GcRelease?
    ensures EpochsKnown(Apply(s, step))
  {
    hide EpochsKnown, NewMemberExists;
    OneEpochStays(s, Apply(s, step), step.p);
  }

  lemma WriteMetadataKeepsEpochs(s: System, p: NodeId)
    requires ProtocolOk(s) && EpochsKnown(s) && p in s.reps && s.reps[p].gc.StateWritten?
    ensures EpochsKnown(WritingMetadata(s, p))
  {
    hide ProtocolOk, EpochsKnown, MissedAreWaiting;
    PhaseAt(s, p);
    EpochKnownAt(s, p);
    OneEpochMoves(s, WritingMetadata(s, p), p);
  }

  lemma RestKeepsEpochs(s: System, s': System)
    requires EpochsKnown(s) && s'.reps == s.reps && s'.store == s.store
    ensures EpochsKnown(s')
  {
  }

  lemma StepKeepsEpochs(s: System, step: Step)
    requires ProtocolOk(s) && EpochsKnown(s) && Enabled(s, step)
    ensures EpochsKnown(Apply(s, step))
  {
    hide ProtocolOk, EpochsKnown, Bootstrapping, WritingMetadata, WritingState, Gathering, Claiming;
    match step
    case Register(p, gcReplica) => OneEpochMoves(s, Registering(s, p, gcReplica), p);
    case Bootstrap(p) => BootstrapKeepsEpochs(s, p);
    case Client(_, _) => RequestKeepsEpochs(s, step);
    case Deliver(_) => RequestKeepsEpochs(s, step);
    case Serve(_, _, _) => RequestKeepsEpochs(s, step);
    case Observe(_) => RequestKeepsEpochs(s, step);
    case Advertise(_, _) => RestKeepsEpochs(s, Apply(s, step));
    case Lose(_) => RestKeepsEpochs(s, Apply(s, step));
    case GcWriteMetadata(p) => WriteMetadataKeepsEpochs(s, p);
    case GcCollect(p, listing, order) => GatherKeepsEpochs(s, p, listing, order);
    case GcWriteState(p) => WriteStateKeepsEpochs(s, p);
    case GcClaim(p) => ClaimKeepsEpochs(s, p);
    case _ => PhaseKeepsEpochs(s, step);
  }
}
