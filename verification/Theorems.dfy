/** The three invariants over runs, each under no more than it needs. */
module Theorems {
  import opened Clocks
  import opened DotVersionVectors
  import opened Histories
  import opened Replicas
  import opened Systems
  import opened Invariants
  import opened ClockSteps
  import opened Frontiers
  import opened Exactness
  import opened ExactSteps
  import opened Protocol

  // ---- no hypothesis ----

  lemma InitialGrounded()
    ensures Grounded(INITIAL)
  {
    assert ClocksOk(INITIAL);
    assert FrontiersOk(INITIAL);
  }

  /** Clocks, rows, covered sets and frontiers, whatever the environment does. */
  lemma {:induction false} ExecutionIsGrounded(steps: seq<Step>)
    requires IsExecution(steps)
    ensures Grounded(End(steps))
  {
    hide Grounded, Apply, Enabled;
    if steps == [] {
      InitialGrounded();
    } else {
      var front := steps[..|steps| - 1];
      ExecutionIsGrounded(front);
      StepKeepsGrounded(End(front), steps[|steps| - 1]);
    }
  }

  // ---- the in-flight hypothesis ----

  /** Every set is what its replica's clock and the history determine. */
  lemma {:induction false} RunKeepsExact(steps: seq<Step>, h: Hypotheses)
    requires IsRun(steps, h) && h.inFlight
    ensures SetsExact(End(steps))
  {
    hide SetsExact, Grounded, Apply, Enabled, InFlightMet;
    if steps == [] {
      assert SetsExact(INITIAL) by { InitialExact(); }
    } else {
      var front := steps[..|steps| - 1];
      RunKeepsExact(front, h);
      ExecutionIsGrounded(front);
      StepKeepsExact(End(front), steps[|steps| - 1]);
    }
  }

  lemma InitialExact()
    ensures SetsExact(INITIAL)
  {
  }

  // ---- the claim hypothesis ----

  lemma SameStepKeepsProtocol(s: System, s': System, p: NodeId)
    requires ProtocolOk(s) && p in s.reps && p in s'.reps
    requires s'.reps == s.reps[p := s.reps[p].(core := s'.reps[p].core, collected := s'.reps[p].collected)]
    requires s'.store == s.store && s'.commits == s.commits
    ensures ProtocolOk(s')
  {
    hide ProtocolOk;
    SameProtocol(s, s');
  }

  lemma MessageKeepsProtocol(s: System, step: Step)
    requires ProtocolOk(s) && Enabled(s, step) && (step.Deliver? || step.Serve? || step.Lose? || step.Advertise?)
    ensures ProtocolOk(Apply(s, step))
  {
    hide ProtocolOk, AfterDelta, AfterRequest, ReplyTo, Respond, RiddenRequest;
    if step.Deliver? || step.Serve? {
      SameStepKeepsProtocol(s, Apply(s, step), step.m.to);
    } else {
      SameProtocol(s, Apply(s, step));
    }
  }

  lemma LocalKeepsProtocol(s: System, step: Step)
    requires ProtocolOk(s) && Enabled(s, step) && (step.Client? || step.Observe?)
    ensures ProtocolOk(Apply(s, step))
  {
    hide ProtocolOk, Operated, Observed, EventOf, Evented;
    SameStepKeepsProtocol(s, Apply(s, step), step.p);
  }

  lemma GcStepKeepsProtocol(s: System, step: Step)
    requires ProtocolOk(s) && Enabled(s, step) && IsGcStep(step) && ClaimMet(s, step)
    ensures ProtocolOk(Apply(s, step))
  {
    hide ProtocolOk, Gathering, WritingState, WritingMetadata, Claiming, Confirming;
    match step
    case GcReadEpoch(p) => ReadKeepsProtocol(s, p, EpochRead(s.store.metadata.epoch + 1, s.store.metadata.vStable));
    case GcReadMembers(p) => ReadKeepsProtocol(s, p, MembersRead(s.reps[p].gc.n, s.reps[p].gc.prev, s.reps.Keys));
    case GcClaim(p) => ClaimKeepsProtocol(s, p);
    case GcConfirm(p) => ConfirmKeepsProtocol(s, p);
    case GcCollect(p, listing, order) => GatherKeepsProtocol(s, p, listing, order);
    case GcWriteState(p) => WriteStateKeepsProtocol(s, p);
    case GcWriteMetadata(p) => WriteMetadataKeepsProtocol(s, p);
    case GcRelease(p) => ReleaseKeepsProtocol(s, p);
  }

  lemma StepKeepsProtocol(s: System, step: Step)
    requires ProtocolOk(s) && Enabled(s, step) && ClaimMet(s, step)
    ensures ProtocolOk(Apply(s, step))
  {
    hide ProtocolOk, ClaimMet;
    match step
    case Register(p, gcReplica) => RegisterKeepsProtocol(s, p, gcReplica);
    case Bootstrap(p) => BootstrapKeepsProtocol(s, p);
    case Client(_, _) => LocalKeepsProtocol(s, step);
    case Observe(_) => LocalKeepsProtocol(s, step);
    case Advertise(_, _) => MessageKeepsProtocol(s, step);
    case Deliver(_) => MessageKeepsProtocol(s, step);
    case Serve(_, _, _) => MessageKeepsProtocol(s, step);
    case Lose(_) => MessageKeepsProtocol(s, step);
    case _ => GcStepKeepsProtocol(s, step);
  }

  /** The epoch numbers. */
  lemma {:induction false} RunKeepsProtocol(steps: seq<Step>, h: Hypotheses)
    requires IsRun(steps, h) && h.claims
    ensures ProtocolOk(End(steps))
  {
    hide ProtocolOk, Apply, Enabled, ClaimMet;
    if steps == [] {
      assert ProtocolOk(INITIAL) by { InitialProtocol(); }
    } else {
      var front := steps[..|steps| - 1];
      RunKeepsProtocol(front, h);
      StepKeepsProtocol(End(front), steps[|steps| - 1]);
    }
  }

  lemma InitialProtocol()
    ensures ProtocolOk(INITIAL)
  {
  }

  /** The epoch each replica is at. */
  lemma {:induction false} RunKeepsEpochs(steps: seq<Step>, h: Hypotheses)
    requires IsRun(steps, h) && h.claims
    ensures EpochsKnown(End(steps))
  {
    hide ProtocolOk, Apply, Enabled, ClaimMet, InFlightMet;
    if steps != [] {
      var front := steps[..|steps| - 1];
      RunKeepsEpochs(front, h);
      RunKeepsProtocol(front, h);
      StepKeepsEpochs(End(front), steps[|steps| - 1]);
    }
  }
}
