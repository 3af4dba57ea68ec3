/** Which joiners can still finish their bootstrap, and which wait for ever. */
module Joiners {
  import opened Clocks
  import opened DotVersionVectors
  import opened Histories
  import opened StableTimestamps
  import opened Replicas
  import opened Systems
  import opened Executions
  import opened ClockSteps
  import opened Frontiers
  import opened Protocol
  import opened Theorems

  /** The reads made so far settle on an epoch that the state object has passed. */
  predicate Doomed(b: Boot, st: Store) {
    match b
    case Registered => false
    case MetadataRead(e) => e + 1 !in st.intents && e < st.state.epoch
    case Polling(_) => false
    case Polled(e, seen) => (seen > e || e + 1 !in st.intents) && seen < st.state.epoch
    case Settled(e) => e < st.state.epoch
    case Active => false
  }

  ghost predicate DoomedAt(s: System, p: NodeId) {
    p in s.reps && Doomed(s.reps[p].boot, s.store)
  }

  // ---- once doomed, always doomed ----

  predicate IsCommitStep(step: Step) {
    step.GcCollect? || step.GcWriteState? || step.GcWriteMetadata?
  }

  /** A GC step changes nothing about any replica but its own, whose bootstrap is over. */
  ghost predicate MovesOnly(s: System, s': System, q: NodeId) {
    q in s.reps && q in s'.reps && s'.reps == s.reps[q := s'.reps[q]] && s'.reps[q].boot == s.reps[q].boot
  }

  lemma CommitStepMoves(s: System, step: Step)
    requires Enabled(s, step) && IsCommitStep(step)
    ensures MovesOnly(s, Apply(s, step), step.p) && Apply(s, step).store.intents == s.store.intents
    ensures var g, g' := s.reps[step.p].gc, Apply(s, step).reps[step.p].gc;
            HoldsIntent(g) && HoldsIntent(g') && g'.n == g.n
  {
    hide Finding, VvLeq, Snapshot, Initiated, Join, NodesIn;
  }

  lemma IntentStepMoves(s: System, step: Step)
    requires Enabled(s, step) && IsGcStep(step) && !IsCommitStep(step)
    ensures MovesOnly(s, Apply(s, step), step.p)
  {
    hide NewMemberExists;
  }

  /** What a step of `q` may do to the intents: nothing, while it keeps holding what it
      held; give its own up; or take one. */
  ghost predicate MovesIntents(s: System, s': System, q: NodeId)
    requires q in s.reps && q in s'.reps
  {
    var g, g', held := s.reps[q].gc, s'.reps[q].gc, s'.store.intents;
    || (held == s.store.intents && (HoldsIntent(g) ==> HoldsIntent(g') && g'.n == g.n))
    || (HoldsIntent(g) && held == s.store.intents - {g.n})
    || (!HoldsIntent(g) && HoldsIntent(g') && held == s.store.intents[g'.n := q])
  }

  lemma ReadMovesIntents(s: System, step: Step)
    requires Enabled(s, step) && (step.GcReadEpoch? || step.GcReadMembers? || step.GcConfirm?)
    requires step.p in Apply(s, step).reps
    ensures MovesIntents(s, Apply(s, step), step.p)
  {
    hide NewMemberExists;
  }

  lemma ClaimMovesIntents(s: System, p: NodeId)
    requires Enabled(s, GcClaim(p))
    ensures MovesIntents(s, Apply(s, GcClaim(p)), p)
  {
    assert Apply(s, GcClaim(p)) == Claiming(s, p);
    hide Apply, Enabled;
  }

  lemma ReleaseMovesIntents(s: System, p: NodeId)
    requires Enabled(s, GcRelease(p))
    ensures MovesIntents(s, Apply(s, GcRelease(p)), p)
  {
  }

  lemma IntentStepClaims(s: System, step: Step)
    requires Enabled(s, step) && IsGcStep(step) && !IsCommitStep(step)
    ensures MovesOnly(s, Apply(s, step), step.p) && MovesIntents(s, Apply(s, step), step.p)
  {
    hide Apply, Enabled, MovesIntents;
    IntentStepMoves(s, step);
    if step.GcClaim? {
      ClaimMovesIntents(s, step.p);
    } else if step.GcRelease? {
      ReleaseMovesIntents(s, step.p);
    } else {
      ReadMovesIntents(s, step);
    }
  }

  ghost predicate KeepsPhases(s: System, s': System, step: Step) {
    && s'.store == s.store
    && (forall q :: q in s.reps ==> q in s'.reps && s'.reps[q].gc == s.reps[q].gc)
    && (forall q :: q in s.reps && step != Bootstrap(q) ==> s'.reps[q].boot == s.reps[q].boot)
  }

  predicate HandlesMessage(step: Step) {
    step.Deliver? || step.Serve? || step.Advertise? || step.Lose?
  }

  lemma MessageMoves(s: System, step: Step)
    requires Enabled(s, step) && HandlesMessage(step)
    ensures KeepsPhases(s, Apply(s, step), step)
  {
    hide ReplyTo, Respond, AfterDelta, AfterRequest, RiddenRequest;
  }

  lemma JoinMoves(s: System, step: Step)
    requires Enabled(s, step) && (step.Register? || step.Bootstrap?)
    ensures KeepsPhases(s, Apply(s, step), step)
  {
    hide Adopted, BootNext;
  }

  lemma RequestMoves(s: System, step: Step)
    requires Enabled(s, step) && !IsGcStep(step)
    ensures KeepsPhases(s, Apply(s, step), step)
  {
    if HandlesMessage(step) {
      hide Apply, Enabled;
      MessageMoves(s, step);
    } else if step.Register? || step.Bootstrap? {
      hide Apply, Enabled;
      JoinMoves(s, step);
    } else {
      hide Observed, Operated, EventOf, Evented, Bootstrapping, Registering, Delivering, Serving,
           Claiming, Confirming, Gathering, WritingState, WritingMetadata;
    }
  }

  lemma OnlyBootstrapMovesBoot(s: System, step: Step, p: NodeId)
    requires Enabled(s, step) && p in s.reps && step != Bootstrap(p)
    ensures p in Apply(s, step).reps && Apply(s, step).reps[p].boot == s.reps[p].boot
  {
    hide Apply, Enabled;
    if !IsGcStep(step) {
      RequestMoves(s, step);
    } else if IsCommitStep(step) {
      CommitStepMoves(s, step);
    } else {
      IntentStepMoves(s, step);
    }
  }

  lemma StateKept(s: System, step: Step)
    requires Enabled(s, step) && IsGcStep(step) && !step.GcWriteState?
    ensures Apply(s, step).store.state == s.store.state
  {
    hide Finding, VvLeq, Initiated, Join, NewMemberExists;
  }

  lemma StateEpochNeverFalls(s: System, step: Step)
    requires ProtocolOk(s) && Enabled(s, step)
    ensures Apply(s, step).store.state.epoch >= s.store.state.epoch
  {
    hide ProtocolOk, MissedAreWaiting;
    if !IsGcStep(step) {
      hide Apply, Enabled;
      RequestMoves(s, step);
    } else if step.GcWriteState? {
      PhaseAt(s, step.p);
      WrittenState(s, step.p);
      assert Apply(s, step) == WritingState(s, step.p);
    } else {
      hide Apply, Enabled;
      StateKept(s, step);
    }
  }

  /** An intent of an epoch already stored is not claimed again. */
  lemma FreeStaysFree(s: System, step: Step, n: nat)
    requires Enabled(s, step) && ClaimMet(s, step) && n !in s.store.intents && n <= s.store.metadata.epoch
    ensures n !in Apply(s, step).store.intents
  {
    hide Apply, Enabled;
    if !IsGcStep(step) {
      RequestMoves(s, step);
    } else if IsCommitStep(step) {
      CommitStepMoves(s, step);
    } else if step.GcClaim? {
      ClaimNames(s, step.p);
    } else {
      OthersClaimNothing(s, step);
    }
  }

  lemma ClaimNames(s: System, p: NodeId)
    requires Enabled(s, GcClaim(p))
    ensures var n := s.reps[p].gc.n; var held := Apply(s, GcClaim(p)).store.intents;
            held == if n in s.store.intents then s.store.intents else s.store.intents[n := p]
  {
  }

  lemma OthersClaimNothing(s: System, step: Step)
    requires Enabled(s, step) && IsGcStep(step) && !step.GcClaim?
    ensures Apply(s, step).store.intents.Keys <= s.store.intents.Keys
  {
    hide Finding, VvLeq, Snapshot, Initiated, Join, NodesIn, NewMemberExists;
  }

  /** A free intent of a joiner that is behind belongs to an epoch already stored. */
  lemma FreeIsOld(s: System, e: nat)
    requires ProtocolOk(s) && e + 1 !in s.store.intents && e < s.store.state.epoch
    ensures e + 1 <= s.store.metadata.epoch
  {
    hide GcOk, BootOk, CommitOk;
    if e == s.store.metadata.epoch { NoStateAhead(s); }
  }

  lemma LaterStore(b: Boot, st: Store, st': Store)
    requires Doomed(b, st) && st.state.epoch <= st'.state.epoch
    requires BootOk(b, st.metadata.epoch)
    requires (b.MetadataRead? || b.Polled?) && b.epoch + 1 !in st.intents && b.epoch < st.state.epoch ==>
               b.epoch + 1 !in st'.intents
    ensures Doomed(b, st')
  {
  }

  lemma DoomedReadsOn(s: System, p: NodeId)
    requires DoomedAt(s, p) && Enabled(s, Bootstrap(p))
    ensures DoomedAt(Apply(s, Bootstrap(p)), p)
  {
    assert Apply(s, Bootstrap(p)) == Bootstrapping(s, p);
    hide Apply, Enabled, Adopted;
  }

  lemma DoomedStays(s: System, step: Step, p: NodeId)
    requires ProtocolOk(s) && Enabled(s, step) && ClaimMet(s, step) && DoomedAt(s, p)
    ensures DoomedAt(Apply(s, step), p)
  {
    hide ProtocolOk, ClaimMet;
    hide Apply, Enabled, Doomed;
    if step == Bootstrap(p) { DoomedReadsOn(s, p); } else {
      PhaseAt(s, p);
      StateEpochNeverFalls(s, step);
      OnlyBootstrapMovesBoot(s, step, p);
      var b := s.reps[p].boot;
      if (b.MetadataRead? || b.Polled?) && b.epoch + 1 !in s.store.intents && b.epoch < s.store.state.epoch {
        FreeIsOld(s, b.epoch);
        FreeStaysFree(s, step, b.epoch + 1);
      }
      LaterStore(b, s.store, Apply(s, step).store);
    }
  }

  lemma {:induction false} DoomedForEver(s: System, steps: seq<Step>, h: Hypotheses, p: NodeId)
    requires ProtocolOk(s) && h.claims && Follows(s, steps, h) && DoomedAt(s, p)
    ensures Execute(s, steps).Some? && DoomedAt(Execute(s, steps).value, p)
    decreases |steps|
  {
    hide ProtocolOk, Apply, Enabled, ClaimMet, InFlightMet, DoomedAt;
    if steps != [] {
      StepKeepsProtocol(s, steps[0]);
      DoomedStays(s, steps[0], p);
      DoomedForEver(Apply(s, steps[0]), steps[1..], h, p);
    }
  }

  // ---- every held intent has a holder who can give it up ----

  ghost predicate OwnedBy(s: System, n: nat, q: NodeId) {
    q in s.reps && HoldsIntent(s.reps[q].gc) && s.reps[q].gc.n == n
  }

  ghost predicate IntentsOwned(s: System) {
    forall n :: n in s.store.intents ==> OwnedBy(s, n, s.store.intents[n])
  }

  lemma StepKeepsOwned(s: System, step: Step)
    requires IntentsOwned(s) && Enabled(s, step)
    ensures IntentsOwned(Apply(s, step))
  {
    hide Apply, Enabled, HoldsIntent;
    if !IsGcStep(step) {
      RequestMoves(s, step);
    } else if IsCommitStep(step) {
      CommitStepMoves(s, step);
    } else {
      IntentStepClaims(s, step);
    }
    forall n | n in Apply(s, step).store.intents ensures OwnedBy(Apply(s, step), n, Apply(s, step).store.intents[n]) {
      assert n in s.store.intents ==> OwnedBy(s, n, s.store.intents[n]);
    }
  }

  /** In every run, whatever the claims were based on. */
  lemma {:induction false} ExecutionKeepsOwned(steps: seq<Step>)
    requires IsExecution(steps)
    ensures IntentsOwned(End(steps))
  {
    hide Apply, Enabled, IntentsOwned;
    if steps == [] {
      assert IntentsOwned(INITIAL) by { NoIntents(INITIAL); }
    } else {
      ExecutionKeepsOwned(steps[..|steps| - 1]);
      StepKeepsOwned(End(steps[..|steps| - 1]), steps[|steps| - 1]);
    }
  }

  lemma NoIntents(s: System)
    requires s.store.intents == map[]
    ensures IntentsOwned(s)
  {
  }

  // ---- a joiner that is not doomed can finish ----

  ghost predicate CanFinish(s: System, p: NodeId, h: Hypotheses) {
    exists t :: Leads(s, t, h) && IsActive(t, p)
  }

  lemma FinishNow(s: System, p: NodeId, h: Hypotheses)
    requires IsActive(s, p)
    ensures CanFinish(s, p, h)
  {
    LeadsNowhere(s, h);
  }

  lemma FinishAfter(s: System, step: Step, p: NodeId, h: Hypotheses)
    requires Enabled(s, step) && Assumed(s, step, h) && CanFinish(Apply(s, step), p, h)
    ensures CanFinish(s, p, h)
  {
    hide Apply, Enabled, Assumed, Leads;
    var t :| Leads(Apply(s, step), t, h) && IsActive(t, p);
    LeadsNowhere(s, h);
    LeadsStep(s, s, step, h);
    LeadsOn(s, Apply(s, step), t, h);
  }

  /** A state that the invariants allow, with a joiner that has not finished. */
  ghost predicate Joining(s: System, p: NodeId) {
    ProtocolOk(s) && IntentsOwned(s) && p in s.reps && !s.reps[p].boot.Active?
  }

  lemma StepKeepsJoining(s: System, step: Step, p: NodeId)
    requires Joining(s, p) && Enabled(s, step) && ClaimMet(s, step) && step != Bootstrap(p)
    ensures Joining(Apply(s, step), p) && Apply(s, step).reps[p].boot == s.reps[p].boot
  {
    hide ProtocolOk, IntentsOwned, Apply, Enabled, ClaimMet;
    StepKeepsProtocol(s, step);
    StepKeepsOwned(s, step);
    OnlyBootstrapMovesBoot(s, step, p);
  }

  lemma ReadKeepsJoining(s: System, p: NodeId)
    requires Joining(s, p)
    ensures var s' := Apply(s, Bootstrap(p));
            && ProtocolOk(s') && IntentsOwned(s') && s'.store == s.store
            && p in s'.reps && s'.reps[p].boot == BootNext(s.reps[p].boot, s.store)
  {
    assert Apply(s, Bootstrap(p)) == Bootstrapping(s, p);
    hide ProtocolOk, IntentsOwned, Apply, Adopted, BootNext;
    StepKeepsProtocol(s, Bootstrap(p));
    StepKeepsOwned(s, Bootstrap(p));
  }

  lemma SettledFinishes(s: System, p: NodeId, h: Hypotheses)
    requires Joining(s, p) && BootNext(s.reps[p].boot, s.store).Active?
    ensures CanFinish(s, p, h)
  {
    hide Joining, CanFinish, Apply, BootNext;
    JoiningParts(s, p);
    ReadKeepsJoining(s, p);
    FinishNow(Apply(s, Bootstrap(p)), p, h);
    FinishAfter(s, Bootstrap(p), p, h);
  }

  lemma JoiningParts(s: System, p: NodeId)
    requires Joining(s, p)
    ensures p in s.reps && !s.reps[p].boot.Active?
  {
    hide ProtocolOk, IntentsOwned;
  }

  /** A read that does not yet finish, from which the joiner can. */
  lemma ReadOn(s: System, p: NodeId, h: Hypotheses)
    requires Joining(s, p) && !BootNext(s.reps[p].boot, s.store).Active?
    ensures Joining(Apply(s, Bootstrap(p)), p)
    ensures Apply(s, Bootstrap(p)).store == s.store
    ensures Apply(s, Bootstrap(p)).reps[p].boot == BootNext(s.reps[p].boot, s.store)
    ensures CanFinish(Apply(s, Bootstrap(p)), p, h) ==> CanFinish(s, p, h)
  {
    hide ProtocolOk, IntentsOwned, Apply, CanFinish, BootNext;
    ReadKeepsJoining(s, p);
    if CanFinish(Apply(s, Bootstrap(p)), p, h) { FinishAfter(s, Bootstrap(p), p, h); }
  }

  /** The next read settles on the stored epoch. */
  lemma NextSettles(s: System, p: NodeId, h: Hypotheses)
    requires Joining(s, p) && BootNext(s.reps[p].boot, s.store) == Settled(s.store.state.epoch)
    ensures CanFinish(s, p, h)
  {
    hide Joining, CanFinish, Apply;
    JoiningParts(s, p);
    ReadOn(s, p, h);
    SettledFinishes(Apply(s, Bootstrap(p)), p, h);
  }

  /** Polling once more sees the epoch of the state object. */
  lemma PollingFinishes(s: System, p: NodeId, h: Hypotheses)
    requires Joining(s, p) && s.reps[p].boot.Polling?
    requires s.store.state.epoch == s.store.metadata.epoch
    requires var e := s.reps[p].boot.epoch; s.store.metadata.epoch > e || e + 1 !in s.store.intents
    ensures CanFinish(s, p, h)
  {
    hide Joining, CanFinish, Apply;
    JoiningParts(s, p);
    ReadOn(s, p, h);
    NextSettles(Apply(s, Bootstrap(p)), p, h);
  }

  // ---- driving the initiator that a polling joiner waits for ----

  /** One step of somebody else, from which the joiner can finish. */
  lemma DriveOn(s: System, step: Step, p: NodeId, h: Hypotheses)
    requires Joining(s, p) && Enabled(s, step) && Assumed(s, step, h) && ClaimMet(s, step) && step != Bootstrap(p)
    ensures Joining(Apply(s, step), p) && Apply(s, step).reps[p].boot == s.reps[p].boot
    ensures CanFinish(Apply(s, step), p, h) ==> CanFinish(s, p, h)
  {
    hide Joining, CanFinish, Apply, Enabled, Assumed, ClaimMet;
    StepKeepsJoining(s, step, p);
    if CanFinish(Apply(s, step), p, h) { FinishAfter(s, step, p, h); }
  }

  lemma JoiningFacts(s: System, p: NodeId)
    requires Joining(s, p)
    ensures p in s.reps && BootOk(s.reps[p].boot, s.store.metadata.epoch) && EpochsOk(s)
    ensures s.store.metadata.epoch + 1 !in s.store.intents ==> s.store.state.epoch == s.store.metadata.epoch
  {
    hide GcOk, BootOk, CommitOk, IntentsOwned;
    PhaseAt(s, p);
    if s.store.metadata.epoch + 1 !in s.store.intents { NoStateAhead(s); }
  }

  /** The state object is ahead: its author writes the metadata. */
  lemma PollingAhead(s: System, p: NodeId, h: Hypotheses)
    requires Joining(s, p) && s.reps[p].boot.Polling? && s.store.state.epoch == s.store.metadata.epoch + 1
    ensures CanFinish(s, p, h)
  {
    hide Joining, CanFinish, BootOk;
    JoiningFacts(s, p);
    var q :| q in s.reps && s.reps[q].gc.StateWritten?;
    assert s.reps[q].gc.n == s.store.state.epoch by { WrittenEpoch(s, p, q); }
    DriveOn(s, GcWriteMetadata(q), p, h);
    assert Apply(s, GcWriteMetadata(q)) == WritingMetadata(s, q);
    assert s.reps[p].boot.epoch <= s.store.metadata.epoch by { PollingBehind(s, p); }
    hide Apply;
    PollingFinishes(WritingMetadata(s, q), p, h);
  }

  lemma PollingBehind(s: System, p: NodeId)
    requires Joining(s, p) && s.reps[p].boot.Polling?
    ensures s.reps[p].boot.epoch <= s.store.metadata.epoch
  {
    hide Joining;
    JoiningFacts(s, p);
  }

  lemma WrittenEpoch(s: System, p: NodeId, q: NodeId)
    requires Joining(s, p) && q in s.reps && s.reps[q].gc.StateWritten?
    ensures s.reps[q].gc.n == s.store.metadata.epoch + 1
  {
    hide IntentsOwned, MissedAreWaiting, BootOk;
    PhaseAt(s, q);
  }

  /** Its holder has only the release left to do. */
  lemma PollingReleasing(s: System, p: NodeId, q: NodeId, h: Hypotheses)
    requires Joining(s, p) && s.reps[p].boot.Polling? && s.store.state.epoch == s.store.metadata.epoch
    requires q in s.reps && s.reps[q].gc == Releasing(s.reps[p].boot.epoch + 1)
    ensures CanFinish(s, p, h)
  {
    hide Joining, CanFinish;
    JoiningParts(s, p);
    DriveOn(s, GcRelease(q), p, h);
    var s' := Apply(s, GcRelease(q));
    assert s'.store == s.store.(intents := s.store.intents - {s.reps[p].boot.epoch + 1});
    hide Apply, Enabled, Assumed;
    PollingFinishes(s', p, h);
  }

  lemma PollingGathered(s: System, p: NodeId, q: NodeId, h: Hypotheses)
    requires Joining(s, p) && s.reps[p].boot.Polling?
    requires q in s.reps && s.reps[q].gc.Gathered? && s.reps[q].gc.n == s.store.metadata.epoch + 1
    ensures CanFinish(s, p, h)
  {
    hide Joining, CanFinish;
    JoiningParts(s, p);
    DriveOn(s, GcWriteState(q), p, h);
    assert Apply(s, GcWriteState(q)) == WritingState(s, q);
    hide Apply, Enabled, Assumed;
    PollingAhead(WritingState(s, q), p, h);
  }

  lemma {:induction false} SomeListing(m: set<NodeId>) returns (listing: seq<NodeId>)
    ensures NodesIn(listing) == m
  {
    listing := [];
    if m != {} {
      var x :| x in m;
      var rest := SomeListing(m - {x});
      listing := rest + [x];
      assert forall y :: y in listing <==> y in rest || y == x;
      assert forall y :: y in rest <==> y in NodesIn(rest);
    }
  }

  /** With nothing in flight the collection breaks no hypothesis. */
  lemma PollingConfirmed(s: System, p: NodeId, q: NodeId, h: Hypotheses)
    requires Joining(s, p) && s.reps[p].boot.Polling? && s.store.state.epoch == s.store.metadata.epoch
    requires q in s.reps && s.reps[q].gc.Confirmed? && s.net == {}
    requires s.reps[q].gc.n == s.reps[p].boot.epoch + 1 == s.store.metadata.epoch + 1
    ensures CanFinish(s, p, h)
  {
    hide Joining, CanFinish, Finding, VvLeq, Initiated, Join;
    JoiningParts(s, p);
    var listing := SomeListing(s.reps[q].gc.m1);
    DriveOn(s, GcCollect(q, listing, []), p, h);
    var s' := Gathering(s, q, listing, []);
    assert Apply(s, GcCollect(q, listing, [])) == s';
    assert s'.store == s.store && (s'.reps[q].gc == Releasing(s.reps[q].gc.n)
           || (s'.reps[q].gc.Gathered? && s'.reps[q].gc.n == s.reps[q].gc.n));
    hide Apply, Enabled, Assumed, Gathering;
    if s'.reps[q].gc.Releasing? { PollingReleasing(s', p, q, h); } else { PollingGathered(s', p, q, h); }
  }

  lemma PollingClaimed(s: System, p: NodeId, q: NodeId, h: Hypotheses)
    requires Joining(s, p) && s.reps[p].boot.Polling? && s.store.state.epoch == s.store.metadata.epoch
    requires q in s.reps && s.reps[q].gc.Claimed? && s.net == {}
    requires s.reps[q].gc.n == s.reps[p].boot.epoch + 1 == s.store.metadata.epoch + 1
    ensures CanFinish(s, p, h)
  {
    hide Joining, CanFinish, NewMemberExists;
    JoiningParts(s, p);
    DriveOn(s, GcConfirm(q), p, h);
    var s' := Confirming(s, q);
    assert Apply(s, GcConfirm(q)) == s';
    assert s'.store == s.store && s'.net == s.net && (s'.reps[q].gc == Releasing(s.reps[q].gc.n)
           || (s'.reps[q].gc.Confirmed? && s'.reps[q].gc.n == s.reps[q].gc.n));
    hide Apply, Enabled, Assumed, Confirming;
    if s'.reps[q].gc.Releasing? { PollingReleasing(s', p, q, h); } else { PollingConfirmed(s', p, q, h); }
  }

  /** A polling joiner can always finish: lose what is in flight, then drive the holder of
      the intent it waits for. */
  lemma {:induction false} PollingCanFinish(s: System, p: NodeId, h: Hypotheses)
    requires Joining(s, p) && s.reps[p].boot.Polling?
    ensures CanFinish(s, p, h)
    decreases |s.net|
  {
    hide Joining, CanFinish;
    JoiningFacts(s, p);
    var e := s.reps[p].boot.epoch;
    if s.store.state.epoch > s.store.metadata.epoch {
      PollingAhead(s, p, h);
    } else if s.store.metadata.epoch > e || e + 1 !in s.store.intents {
      PollingFinishes(s, p, h);
    } else if m :| m in s.net {
      DriveOn(s, Lose(m), p, h);
      hide Apply, Enabled, Assumed;
      PollingCanFinish(s.(net := s.net - {m}), p, h);
    } else {
      PollingBehind(s, p);
      HolderFinishes(s, p, h);
    }
  }

  lemma HolderFinishes(s: System, p: NodeId, h: Hypotheses)
    requires Joining(s, p) && s.reps[p].boot.Polling? && s.net == {}
    requires var e := s.reps[p].boot.epoch;
             e == s.store.metadata.epoch == s.store.state.epoch && e + 1 in s.store.intents
    ensures CanFinish(s, p, h)
  {
    hide Joining, CanFinish;
    JoiningParts(s, p);
    var q := s.store.intents[s.reps[p].boot.epoch + 1];
    HolderOf(s, p, s.reps[p].boot.epoch + 1);
    match s.reps[q].gc
    case Claimed(_, _, _) => PollingClaimed(s, p, q, h);
    case Confirmed(_, _, _) => PollingConfirmed(s, p, q, h);
    case Gathered(_, _, _, _) => PollingGathered(s, p, q, h);
    case StateWritten(_, _, _, _) => WrittenIsAhead(s, p, q); assert false;
    case Releasing(_) => PollingReleasing(s, p, q, h);
  }

  lemma HolderOf(s: System, p: NodeId, n: nat)
    requires Joining(s, p) && n in s.store.intents
    ensures OwnedBy(s, n, s.store.intents[n])
  {
    hide ProtocolOk;
  }

  lemma WrittenIsAhead(s: System, p: NodeId, q: NodeId)
    requires Joining(s, p) && q in s.reps && s.reps[q].gc.StateWritten?
    ensures s.store.state.epoch == s.store.metadata.epoch + 1
  {
    hide IntentsOwned, MissedAreWaiting, BootOk;
    PhaseAt(s, q);
  }

  lemma UndoomedCanFinish(s: System, p: NodeId, h: Hypotheses)
    requires Joining(s, p) && !Doomed(s.reps[p].boot, s.store)
    ensures CanFinish(s, p, h)
  {
    hide Joining, CanFinish, Apply;
    JoiningFacts(s, p);
    JoiningParts(s, p);
    var next := BootNext(s.reps[p].boot, s.store);
    if s.reps[p].boot.Polling? {
      PollingCanFinish(s, p, h);
    } else if next.Active? {
      SettledFinishes(s, p, h);
    } else if next.Settled? {
      NextSettles(s, p, h);
    } else {
      ReadOn(s, p, h);
      var s' := Apply(s, Bootstrap(p));
      if next.Polling? { PollingCanFinish(s', p, h); } else { FreshReadCanFinish(s', p, h); }
    }
  }

  /** A joiner that has just read the stored epoch. */
  lemma FreshReadCanFinish(s: System, p: NodeId, h: Hypotheses)
    requires Joining(s, p) && s.reps[p].boot == MetadataRead(s.store.metadata.epoch)
    ensures CanFinish(s, p, h)
  {
    hide Joining, CanFinish, Apply;
    JoiningFacts(s, p);
    JoiningParts(s, p);
    if s.store.metadata.epoch + 1 in s.store.intents {
      ReadOn(s, p, h);
      PollingCanFinish(Apply(s, Bootstrap(p)), p, h);
    } else {
      NextSettles(s, p, h);
    }
  }

  /** The state loop waits for one exact epoch.  After any run with current claims, some
      such continuation makes a joiner active if and only if it is not doomed. */
  lemma JoinerFinishesIff(steps: seq<Step>, h: Hypotheses, p: NodeId)
    requires IsRun(steps, h) && h.claims && p in End(steps).reps
    ensures (exists more: seq<Step> :: IsRun(steps + more, h) && IsActive(End(steps + more), p))
       <==> !Doomed(End(steps).reps[p].boot, End(steps).store)
  {
    hide ProtocolOk, IntentsOwned, Apply, Enabled, Assumed, Follows, Execute;
    var s := End(steps);
    RunKeepsProtocol(steps, h);
    ExecutionKeepsOwned(steps);
    if DoomedAt(s, p) {
      forall more: seq<Step> | IsRun(steps + more, h) ensures !IsActive(End(steps + more), p) {
        RunContinues(steps, more, h);
        DoomedForEver(s, more, h, p);
      }
    } else {
      if IsActive(s, p) { FinishNow(s, p, h); } else { UndoomedCanFinish(s, p, h); }
      var t :| Leads(s, t, h) && IsActive(t, p);
      var more :| Follows(s, more, h) && Execute(s, more) == Some(t);
      RunContinues(steps, more, h);
      assert IsRun(steps + more, h) && IsActive(End(steps + more), p);
    }
  }

  /** For a joiner past its polling the condition is that its epoch is still the stored one. */
  lemma SettledJoinerFinishesIff(steps: seq<Step>, h: Hypotheses, p: NodeId, e: nat)
    requires IsRun(steps, h) && h.claims && p in End(steps).reps && End(steps).reps[p].boot == Settled(e)
    ensures (exists more: seq<Step> :: IsRun(steps + more, h) && IsActive(End(steps + more), p))
       <==> End(steps).store.state.epoch == e
  {
    hide IsRun, GcOk, CommitOk;
    RunKeepsProtocol(steps, h);
    PhaseAt(End(steps), p);
    JoinerFinishesIff(steps, h, p);
  }
}
