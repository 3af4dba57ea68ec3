/** Under the in-flight hypothesis every set is exactly what its replica's clock and the
    history determine. */
module Exactness {
  import opened Clocks
  import opened OrSets
  import opened Histories
  import opened Replicas
  import opened Systems
  import opened Invariants
  import opened ClockSteps
  import opened Frontiers
  import opened FrontierSteps

  ghost predicate RepExact(s: System, r: Replica) {
    Exact(s.history, Clock(r.core), r.core.orset, r.collected)
  }

  /** A delta in flight is exact, and its receiver has collected nothing that would leave
      one of its adds unguarded. */
  ghost predicate MsgExact(s: System, m: Envelope) {
    m.CrdtOp? ==>
      && DeltaExact(s.history, m.delta, m.since, s.stable)
      && m.to in s.reps && SeenEnough(s.reps[m.to].collected, DeltaClock(m.delta))
  }

  ghost predicate SnapExact(s: System) {
    var st := s.store.state;
    Exact(s.history, st.initiatorClock, SetState(st.payload.adds, st.payload.tombs), s.snapCollected)
  }

  ghost predicate SetsExact(s: System) {
    && (forall p :: p in s.reps ==> RepExact(s, s.reps[p]))
    && (forall m :: m in s.net ==> MsgExact(s, m))
    && SnapExact(s)
  }

  /** What holds of every state that any run reaches. */
  ghost predicate Grounded(s: System) {
    ClocksOk(s) && FrontiersOk(s)
  }

  lemma StepKeepsGrounded(s: System, step: Step)
    requires Grounded(s) && Enabled(s, step)
    ensures Grounded(Apply(s, step)) && Grows(s, Apply(s, step))
  {
    hide ClocksOk, FrontiersOk, Grows, Apply, Enabled;
    StepKeepsClocks(s, step);
    StepKeepsFrontiers(s, step);
  }

  lemma ExactAt(s: System, p: NodeId)
    requires SetsExact(s) && p in s.reps
    ensures RepExact(s, s.reps[p])
  {
  }

  /** What an active replica's clock covers. */
  lemma ActiveFacts(s: System, p: NodeId)
    requires Grounded(s) && IsActive(s, p)
    ensures CoreOk(s, p, s.reps[p].core) && RowsOk(s, s.reps[p].core.matrix) && WellFormed(s.history)
    ensures Leq(s.stable, Clock(s.reps[p].core)) && Leq(s.reps[p].collected, s.stable)
    ensures Bounded(s, s.stable)
  {
    hide ClocksOk, FrontiersOk, Covered, RowsOk, Leq, Bounded;
    ClocksAt(s, p);
    ClocksParts(s);
    FrontiersParts(s);
    StableRows(s);
    BoundedBelow(s, s.stable, Clock(s.reps[p].core));
  }

  // ---- growth ----

  lemma GrowsExact(s: System, s': System, v: VersionVector, o: SetState, collected: VersionVector)
    requires Grows(s, s') && Bounded(s, v) && Exact(s.history, v, o, collected)
    ensures Exact(s'.history, v, o, collected)
  {
    BoundedBelow(s, collected, v);
    GrowsMeaning(s, s', v);
    GrowsMeaning(s, s', collected);
    assert forall d :: d in o.tombs ==> Removes(s'.history, o.tombs[d], d);
  }

  lemma GrowsDelta(s: System, s': System, d: Delta, since: VersionVector)
    requires Grows(s, s') && DeltaExact(s.history, d, since, s.stable)
    requires Bounded(s, DeltaClock(d)) && Bounded(s, since) && Bounded(s, s.stable)
    ensures DeltaExact(s'.history, d, since, s'.stable)
  {
    GrowsMeaning(s, s', DeltaClock(d));
    GrowsMeaning(s, s', since);
    GrowsMeaning(s, s', s.stable);
    forall k | Removed(s'.history, s.stable, k) ensures Removed(s'.history, s'.stable, k) {
      RemovedMonotone(s'.history, s.stable, s'.stable, k);
    }
    assert forall k :: k in d.tombs ==> Removes(s'.history, d.tombs[k], k);
  }

  lemma GrowsMsgExact(s: System, s': System, m: Envelope)
    requires Grounded(s) && Grows(s, s') && m in s.net && m.CrdtOp? && MsgExact(s, m)
    ensures DeltaExact(s'.history, m.delta, m.since, s'.stable)
  {
    hide ClocksOk, FrontiersOk, Grows, Leq, Bounded, DeltaExact, DeltaCovered, SeenEnough, CoreOk, RowsOk;
    ClocksOfMsg(s, m);
    ActiveFacts(s, m.to);
    assert Bounded(s, Clock(s.reps[m.to].core)) by { CoreIsBounded(s, m.to, s.reps[m.to].core); }
    BoundedBelow(s, m.since, Clock(s.reps[m.to].core));
    GrowsDelta(s, s', m.delta, m.since);
  }

  lemma CoreIsBounded(s: System, p: NodeId, c: Core)
    requires CoreOk(s, p, c)
    ensures Bounded(s, Clock(c))
  {
  }

  lemma GrowsRepExact(s: System, s': System, q: NodeId, r: Replica)
    requires ClocksOk(s) && Grows(s, s') && q in s.reps && RepExact(s, s.reps[q])
    requires r.core.orset == s.reps[q].core.orset && r.core.dvv == s.reps[q].core.dvv
    requires r.collected == s.reps[q].collected
    ensures RepExact(s', r)
  {
    hide ClocksOk, Grows, Bounded, Exact, CoreOk;
    ClocksAt(s, q);
    CoreIsBounded(s, q, s.reps[q].core);
    GrowsExact(s, s', Clock(r.core), r.core.orset, r.collected);
  }

  lemma GrowsSnapExact(s: System, s': System)
    requires ClocksOk(s) && Grows(s, s') && SnapExact(s)
    requires s'.store.state == s.store.state && s'.snapCollected == s.snapCollected
    ensures SnapExact(s')
  {
    hide ClocksOk, Grows, Bounded, Exact, Covered, HistoryOk;
    ClocksParts(s);
    var st := s.store.state;
    GrowsExact(s, s', st.initiatorClock, SetState(st.payload.adds, st.payload.tombs), s.snapCollected);
  }

  ghost predicate SameSetAt(s: System, s': System, q: NodeId) {
    && q in s.reps && q in s'.reps
    && s'.reps[q].core.orset == s.reps[q].core.orset && s'.reps[q].core.dvv == s.reps[q].core.dvv
    && s'.reps[q].collected == s.reps[q].collected
  }

  /** Frame: replicas, messages and the snapshot that the step leaves alone stay exact. */
  lemma ExactFrame(s: System, s': System)
    requires Grounded(s) && SetsExact(s) && Grows(s, s')
    requires forall q :: q in s'.reps ==> SameSetAt(s, s', q) || RepExact(s', s'.reps[q])
    requires forall m :: m in s'.net && m !in s.net ==> MsgExact(s', m)
    requires forall m :: m in s'.net && m in s.net && m.CrdtOp? ==>
               m.to in s'.reps && SeenEnough(s'.reps[m.to].collected, DeltaClock(m.delta))
    requires SnapExact(s')
    ensures SetsExact(s')
  {
    hide ClocksOk, FrontiersOk, Grows, RepExact, SnapExact, SeenEnough, DeltaExact, SameSetAt;
    forall q | q in s'.reps ensures RepExact(s', s'.reps[q]) {
      if SameSetAt(s, s', q) { UntouchedStaysExact(s, s', q); }
    }
    forall m | m in s'.net ensures MsgExact(s', m) {
      if m in s.net && m.CrdtOp? { GrowsMsgExact(s, s', m); }
    }
  }

  lemma UntouchedStaysExact(s: System, s': System, q: NodeId)
    requires ClocksOk(s) && SetsExact(s) && Grows(s, s') && SameSetAt(s, s', q)
    ensures RepExact(s', s'.reps[q])
  {
    hide ClocksOk, SetsExact, Grows, RepExact;
    ExactAt(s, q);
    GrowsRepExact(s, s', q, s'.reps[q]);
  }

  lemma FlightAt(s: System, m: Envelope)
    requires SetsExact(s) && m in s.net
    ensures MsgExact(s, m)
  {
  }

  /** Deltas in flight stay safe for a receiver that collected nothing. */
  lemma FlightsKept(s: System, s': System)
    requires SetsExact(s)
    requires forall q :: q in s.reps ==> q in s'.reps && s'.reps[q].collected == s.reps[q].collected
    ensures forall m :: m in s.net && m.CrdtOp? ==>
              m.to in s'.reps && SeenEnough(s'.reps[m.to].collected, DeltaClock(m.delta))
  {
    hide RepExact, SnapExact, SeenEnough, DeltaExact;
    assert forall m :: m in s.net ==> MsgExact(s, m);
  }

  /** A step that changes no set, no clock and no state object, and sends no delta. */
  lemma QuietKeepsExact(s: System, s': System)
    requires Grounded(s) && SetsExact(s) && Grows(s, s')
    requires forall q :: q in s'.reps ==> SameSetAt(s, s', q)
    requires s.reps.Keys <= s'.reps.Keys
    requires forall m :: m in s'.net && m !in s.net ==> !m.CrdtOp?
    requires s'.store.state == s.store.state && s'.snapCollected == s.snapCollected
    ensures SetsExact(s')
  {
    hide ClocksOk, FrontiersOk, Grows, RepExact, SnapExact, SeenEnough, DeltaExact;
    FlightsKept(s, s');
    assert SnapExact(s) by { SnapPart(s); }
    GrowsSnapExact(s, s');
    ExactFrame(s, s');
  }

  lemma SnapPart(s: System)
    requires SetsExact(s)
    ensures SnapExact(s)
  {
  }
}
