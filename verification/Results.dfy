/** The main results: what holds after every run, and under which hypothesis. */
module Results {
  import opened Clocks
  import opened DotVersionVectors
  import opened OrSets
  import opened Histories
  import opened Replicas
  import opened Laws
  import opened Systems
  import opened Invariants
  import opened ClockSteps
  import opened Frontiers
  import opened FrontierSteps
  import opened Exactness
  import opened ExactSteps
  import opened Protocol
  import opened Theorems

  // ---- the visible set: the in-flight hypothesis ----

  /** At every replica, after any interleaving of operations, lost, repeated, delayed and
      reordered messages, joins and collections, stale claims included: an add is in the
      set exactly when the replica's clock has seen it and has seen no remove of it. */
  lemma CausalCompleteness(steps: seq<Step>, h: Hypotheses, p: NodeId)
    requires IsRun(steps, h) && h.inFlight && IsActive(End(steps), p)
    ensures var s := End(steps); var c := s.reps[p].core;
            && (forall t :: t in c.orset.live <==> Visible(s.history, Clock(c), t))
            && (forall e :: e in Elements(c.orset) <==> exists d :: Visible(s.history, Clock(c), Tag(e, d)))
  {
    var s := End(steps);
    var c := s.reps[p].core;
    RunKeepsExact(steps, h);
    ExactAt(s, p);
    ExactIsDisjoint(s.history, Clock(c), c.orset, s.reps[p].collected);
    hide SetsExact, IsRun, Visible;
    forall e ensures e in Elements(c.orset) <==> exists d :: Visible(s.history, Clock(c), Tag(e, d)) {
      if e in Elements(c.orset) {
        var t :| t in c.orset.live && t.elem == e;
        assert t == Tag(e, t.dot);
      }
      if d :| Visible(s.history, Clock(c), Tag(e, d)) {
        assert Tag(e, d) in c.orset.live;
      }
    }
  }

  /** Once a replica has seen an add removed, no later step brings it back. */
  lemma NoResurrection(steps: seq<Step>, h: Hypotheses, i: nat, p: NodeId, t: Tag)
    requires IsRun(steps, h) && h.inFlight && i <= |steps| && IsExecution(steps[..i])
    requires var s := End(steps[..i]);
             IsActive(s, p) && Removed(s.history, Clock(s.reps[p].core), t.dot)
    ensures IsActive(End(steps), p) && t !in End(steps).reps[p].core.orset.live
  {
    hide IsRun, IsExecution, SetsExact;
    assert IsExecution(steps);
    RunGrows(steps, i);
    RunKeepsExact(steps, h);
    var a, b := End(steps[..i]), End(steps);
    ExactAt(b, p);
    var v, w := Clock(a.reps[p].core), Clock(b.reps[p].core);
    var m :| Removes(a.history, m, t.dot) && Covers(v, m);
    assert Removes(b.history, m, t.dot) && Covers(w, m) by {
      assert At(v, m.node) <= At(w, m.node);
    }
  }

  /** Replicas with equal clocks show the same set; if nothing was ever collected they also
      hold tombstones for the same dots. */
  lemma StrongConvergence(steps: seq<Step>, h: Hypotheses, p: NodeId, q: NodeId)
    requires IsRun(steps, h) && h.inFlight && IsActive(End(steps), p) && IsActive(End(steps), q)
    requires Same(Clock(End(steps).reps[p].core), Clock(End(steps).reps[q].core))
    ensures var a, b := End(steps).reps[p].core.orset, End(steps).reps[q].core.orset;
            && a.live == b.live && Elements(a) == Elements(b)
            && (Same(End(steps).stable, map[]) ==> SameSet(a, b))
  {
    hide IsRun, SetsExact, Grounded, Exact, WellFormed, CoreOk, RowsOk, Bounded;
    RunKeepsExact(steps, h);
    ExecutionIsGrounded(steps);
    var s := End(steps);
    ActiveFacts(s, p);
    ActiveFacts(s, q);
    ExactAt(s, p);
    ExactAt(s, q);
    EqualClocksConverge(s.history, Clock(s.reps[p].core), Clock(s.reps[q].core), s.reps[p].core.orset,
                        s.reps[q].core.orset, s.reps[p].collected, s.reps[q].collected);
    if Same(s.stable, map[]) {
      NothingBelowNothing(s.reps[p].collected, s.stable);
      NothingBelowNothing(s.reps[q].collected, s.stable);
    }
  }

  lemma NothingBelowNothing(a: VersionVector, b: VersionVector)
    requires Leq(a, b) && Same(b, map[])
    ensures Same(a, map[])
  {
    forall n ensures At(a, n) == At(map[], n) {
      assert At(a, n) <= At(b, n) == At(map[], n) == 0;
    }
  }

  /** For any sender and receiver and any knowledge the receiver has, the minimal delta
      does what the full state would do. */
  lemma MinimalDeltaSuffices(steps: seq<Step>, h: Hypotheses, p: NodeId, q: NodeId, known: VersionVector)
    requires IsRun(steps, h) && h.inFlight && IsActive(End(steps), p) && IsActive(End(steps), q)
    requires Leq(known, Clock(End(steps).reps[q].core))
    ensures var a, b := End(steps).reps[p].core, End(steps).reps[q].core;
            var small, full := DeltaFor(a.orset, a.dvv, known), FullDelta(a.orset, a.dvv);
            var x, y := MergedSet(b.orset, small.adds, small.tombs), MergedSet(b.orset, full.adds, full.tombs);
            && x.live == y.live
            && (Same(End(steps).stable, map[]) ==> SameSet(x, y))
  {
    hide IsRun, SetsExact, Grounded, Exact, WellFormed, CoreOk, RowsOk, Bounded, DeltaFor, MergedSet;
    RunKeepsExact(steps, h);
    ExecutionIsGrounded(steps);
    var s := End(steps);
    var a, b := s.reps[p], s.reps[q];
    ActiveFacts(s, p);
    ActiveFacts(s, q);
    ExactAt(s, p);
    ExactAt(s, q);
    LeqTransitive(a.collected, s.stable, Clock(b.core));
    LeqTransitive(b.collected, s.stable, Clock(a.core));
    MinimalDeltaRefinesFullState(s.history, a.core.dvv, a.core.orset, a.collected,
                                 Clock(b.core), b.core.orset, b.collected, known);
    if Same(s.stable, map[]) {
      NothingBelowNothing(a.collected, s.stable);
      NothingBelowNothing(b.collected, s.stable);
    }
  }

  /** The set `p` would have after collecting under `frontier` and then taking the delta. */
  function LateSet(c: Core, frontier: VersionVector, d: Delta): SetState {
    MergedSet(Collected(c.orset, FrontierDvv(c.id, frontier)), d.adds, d.tombs)
  }

  /** A collection under anything the replica has seen, with any delta still in flight to
      it: when that delta arrives the set stays exact if and only if the receiver finds no
      add among it that it has seen, no longer holds and has no tombstone for. */
  lemma LateDeliveryExactIff(steps: seq<Step>, h: Hypotheses, m: Envelope, frontier: VersionVector)
    requires IsRun(steps, h) && h.inFlight
    requires m in End(steps).net && m.CrdtOp? && IsReady(End(steps), m.to)
    requires Leq(frontier, Clock(End(steps).reps[m.to].core))
    ensures var s := End(steps); var r := s.reps[m.to]; var c := r.core;
            Exact(s.history, Clock(AfterDelta(c, m.delta, m.rows)), LateSet(c, frontier, m.delta),
                  Join(r.collected, frontier))
            <==> forall t :: !LooksUnguarded(Clock(c), Collected(c.orset, FrontierDvv(c.id, frontier)), m.delta, t)
  {
    hide IsRun, SetsExact, Grounded, Exact, WellFormed, CoreOk, RowsOk, Bounded, Leq, DeltaExact, DeltaCovered,
         SeenEnough, Unguarded, LooksUnguarded, AfterDelta, MergedSet, Closed, Collected;
    RunKeepsExact(steps, h);
    ExecutionIsGrounded(steps);
    var s := End(steps);
    var r, c := s.reps[m.to], s.reps[m.to].core;
    var o, collected := Collected(c.orset, FrontierDvv(c.id, frontier)), Join(r.collected, frontier);
    FlightAt(s, m);
    ExactAt(s, m.to);
    ActiveFacts(s, m.to);
    MessageFacts(s, m);
    CollectAt(s.history, Clock(c), c.orset, r.collected, c.id, frontier);
    MergeExactIff(s.history, Clock(c), Clock(AfterDelta(c, m.delta, m.rows)), o, collected, m.delta, m.since, s.stable);
    forall t ensures Unguarded(s.history, Clock(c), o, m.delta, t) <==> LooksUnguarded(Clock(c), o, m.delta, t) {
      ReceiverCanTell(s.history, Clock(c), o, collected, m.delta, t);
    }
  }

  lemma MessageFacts(s: System, m: Envelope)
    requires Grounded(s) && m in s.net && m.CrdtOp? && IsReady(s, m.to)
    ensures var c := s.reps[m.to].core; var c' := AfterDelta(c, m.delta, m.rows);
            && DeltaCovered(s.history, m.delta) && Leq(m.since, Clock(c)) && Closed(s.history, Clock(c))
            && Same(Clock(c'), Join(Clock(c), DeltaClock(m.delta)))
  {
    hide ClocksOk, FrontiersOk, DeltaCovered, Bounded, RowsOk, AfterDelta, Accounted, Closed, Leq;
    ClocksOfMsg(s, m);
    ClocksAt(s, m.to);
    DeliverKeepsCore(s, m);
  }

  // ---- clocks and coverage: no hypothesis ----

  lemma GrowsTransitive(a: System, b: System, c: System)
    requires Grows(a, b) && Grows(b, c)
    ensures Grows(a, c)
  {
    LeqTransitive(a.stable, b.stable, c.stable);
    forall p | IsActive(a, p) ensures IsActive(c, p) && Leq(Clock(a.reps[p].core), Clock(c.reps[p].core)) {
      LeqTransitive(Clock(a.reps[p].core), Clock(b.reps[p].core), Clock(c.reps[p].core));
    }
    forall p ensures Own(a, p) <= Own(c, p) { assert Own(a, p) <= Own(b, p) <= Own(c, p); }
    forall d | d in c.history && d !in a.history ensures d.counter > Own(a, d.node) {
      assert Own(a, d.node) <= Own(b, d.node);
    }
  }

  /** Clocks, counters and the history only grow. */
  lemma {:induction false} RunGrows(steps: seq<Step>, i: nat)
    requires IsExecution(steps) && i <= |steps|
    ensures IsExecution(steps[..i]) && Grows(End(steps[..i]), End(steps))
  {
    hide Grows, Grounded, Apply, Enabled;
    if i == |steps| {
      assert steps[..i] == steps;
      GrowsReflexive(End(steps));
    } else {
      var front := steps[..|steps| - 1];
      assert front[..i] == steps[..i];
      RunGrows(front, i);
      ExecutionIsGrounded(front);
      StepKeepsGrounded(End(front), steps[|steps| - 1]);
      GrowsTransitive(End(steps[..i]), End(front), End(steps));
    }
  }

  lemma GrowsReflexive(s: System)
    ensures Grows(s, s)
  {
  }

  /** A reply that is not sent would have carried nothing. */
  lemma SuppressedRepliesLoseNothing(steps: seq<Step>, p: NodeId, known: VersionVector)
    requires IsExecution(steps) && IsActive(End(steps), p)
    requires ReplyTo(End(steps).reps[p].core, known, false, {}).delta.None?
    ensures var c := End(steps).reps[p].core;
            DeltaFor(c.orset, c.dvv, known).adds == {} && DeltaFor(c.orset, c.dvv, known).tombs == map[]
  {
    hide Grounded, IsExecution, DeltaFor, Closed, WellFormed, RowsOk, Leq, Bounded, Accounted, DotOutside;
    ExecutionIsGrounded(steps);
    var s := End(steps);
    ActiveFacts(s, p);
    SuppressedReplyIsEmpty(s.history, s.reps[p].core.dvv, s.reps[p].core.orset, known);
  }

  /** Collecting, under any frontier at all, changes nothing a reader sees. */
  lemma CollectionIsTransparent(steps: seq<Step>, p: NodeId, frontier: Dvv)
    requires IsExecution(steps) && IsActive(End(steps), p)
    ensures var o := End(steps).reps[p].core.orset; Elements(Collected(o, frontier)) == Elements(o)
  {
    hide Grounded, IsExecution, Closed, WellFormed, RowsOk, Leq, Bounded, Accounted;
    ExecutionIsGrounded(steps);
    ActiveFacts(End(steps), p);
    CollectionIsInvisible(End(steps).reps[p].core.orset, frontier);
  }

  /** Observing a later epoch drops exactly the tombstones whose remove-event the stored
      frontier has seen, and moves the replica to that epoch. */
  lemma ObserveCollects(steps: seq<Step>, p: NodeId)
    requires IsExecution(steps) && IsReady(End(steps), p)
    requires End(steps).store.metadata.epoch > End(steps).reps[p].core.epoch
    ensures var s := End(steps); var c, c' := s.reps[p].core, Apply(s, Observe(p)).reps[p].core;
            && LeftBy(c'.orset.tombs, c.orset.tombs, s.store.metadata.vStable) && c'.orset.live == c.orset.live
            && c'.epoch == s.store.metadata.epoch
            && c'.dvv == c.dvv && c'.matrix == c.matrix
  {
    hide IsExecution, ClocksOk, FrontiersOk, Observed;
    ExecutionIsGrounded(steps);
    var s := End(steps);
    NobodyStoredObsolete(s);
    ObserveMeaning(s.reps[p].core, s.store.metadata);
    ObserveDropsNobody(s.reps[p].core, s.store.metadata);
  }

  lemma ObserveDropsNobody(c: Core, m: EpochMetadata)
    requires m.obsolete == {}
    ensures Observed(c, m).dvv == c.dvv && Observed(c, m).matrix == c.matrix
  {
    ForgetNobody(c);
  }

  /** An initiator goes on exactly when what it found is new, and then drops exactly the
      tombstones whose remove-event its frontier has seen. */
  lemma GatherCollects(steps: seq<Step>, p: NodeId, listing: seq<NodeId>, order: seq<NodeId>)
    requires IsExecution(steps) && Enabled(End(steps), GcCollect(p, listing, order))
    ensures var s := End(steps); var r, r' := s.reps[p], Apply(s, GcCollect(p, listing, order)).reps[p];
            var v := Finding(r.core, listing, order, map[]).0;
            && r'.gc == (if Leq(v, r.gc.prev) then Releasing(r.gc.n) else Gathered(r.gc.n, v, {}, r.gc.m1))
            && (Leq(v, r.gc.prev) ==> r'.core == r.core)
            && (!Leq(v, r.gc.prev) ==>
                  && LeftBy(r'.core.orset.tombs, r.core.orset.tombs, v) && r'.core.orset.live == r.core.orset.live
                  && r'.core.epoch == r.core.epoch)
  {
    hide IsExecution, ClocksOk, FrontiersOk, Initiated, Finding, Join, Leq;
    ExecutionIsGrounded(steps);
    var s := End(steps);
    var c := s.reps[p].core;
    var v := Finding(c, listing, order, map[]).0;
    FindsNobodyObsolete(s, p, listing, order);
    assert v - {} == v;
    InitiateMeaning(c, v, {});
  }

  /** An initiator whose second membership read shows somebody new goes no further. */
  lemma NewcomersStopCollection(s: System, p: NodeId)
    requires Enabled(s, GcConfirm(p))
    ensures var g, s' := s.reps[p].gc, Apply(s, GcConfirm(p));
            && s'.store == s.store
            && (s'.reps[p].gc.Confirmed? <==> forall q :: q in s.reps ==> q in g.m0)
            && (!s'.reps[p].gc.Confirmed? ==> s'.reps[p].gc == Releasing(g.n))
  {
  }

  /** Whatever anybody holds about a node, in a matrix or in flight, that node has seen. */
  lemma MatrixSoundness(steps: seq<Step>, p: NodeId, q: NodeId)
    requires IsExecution(steps)
    ensures var s := End(steps);
            p in s.reps && q in s.reps[p].core.matrix ==>
              IsActive(s, q) && Leq(s.reps[p].core.matrix[q], Clock(s.reps[q].core))
    ensures var s := End(steps);
            forall m :: m in s.net && m.PullRequest? ==>
              IsActive(s, m.origin) && Leq(m.knowledge, Clock(s.reps[m.origin].core))
    ensures var s := End(steps);
            forall m :: m in s.net && m.CrdtOp? && m.rows.Some? && q in m.rows.value ==>
              IsActive(s, q) && Leq(m.rows.value[q], Clock(s.reps[q].core))
    ensures var s := End(steps);
            forall m :: m in s.net && m.CrdtOp? && m.requester.Some? ==>
              IsActive(s, m.origin) && Leq(m.requester.value, Clock(s.reps[m.origin].core))
  {
    hide IsExecution, ClocksOk, FrontiersOk, RepOk, Leq, DeltaCovered, Bounded;
    ExecutionIsGrounded(steps);
    var s := End(steps);
    if p in s.reps { ClocksAt(s, p); }
    forall m | m in s.net ensures MsgOk(s, m) { ClocksOfMsg(s, m); }
  }

  /** `v` travels in the message `m`. */
  ghost predicate Carries(m: Envelope, v: VersionVector) {
    match m
    case PullRequest(_, _, k) => v == k
    case CrdtOp(_, _, d, rows, requester, _) =>
      || v == DeltaClock(d)
      || requester == Some(v)
      || (rows.Some? && exists q :: q in rows.value && v == rows.value[q])
  }

  /** Somebody's clock, joining or active; a row of somebody's matrix; a clock in flight;
      one in the store; or a frontier that was collected under. */
  ghost predicate Held(s: System, v: VersionVector) {
    || (exists q :: q in s.reps && v == Clock(s.reps[q].core))
    || (exists q, r :: q in s.reps && r in s.reps[q].core.matrix && v == s.reps[q].core.matrix[r])
    || (exists m :: m in s.net && Carries(m, v))
    || v == s.store.state.initiatorClock
    || v == s.store.metadata.vStable
    || v == s.stable
  }

  /** Nobody anywhere knows a counter for any node above that node's own. */
  lemma NobodyKnowsMore(steps: seq<Step>, v: VersionVector)
    requires IsExecution(steps) && Held(End(steps), v)
    ensures Bounded(End(steps), v)
  {
    hide IsExecution, Grounded, Carries, Bounded;
    ExecutionIsGrounded(steps);
    var s := End(steps);
    if q :| q in s.reps && v == Clock(s.reps[q].core) {
      ClockBounded(s, q);
    } else if q, r :| q in s.reps && r in s.reps[q].core.matrix && v == s.reps[q].core.matrix[r] {
      MatrixBounded(s, q, r);
    } else if m :| m in s.net && Carries(m, v) {
      CarriedBounded(s, m, v);
    } else {
      StoreBounded(s);
    }
  }

  lemma ClockBounded(s: System, q: NodeId)
    requires Grounded(s) && q in s.reps
    ensures Bounded(s, Clock(s.reps[q].core))
  {
    hide ClocksOk, FrontiersOk, Covered, RowsOk, Bounded;
    ClocksAt(s, q);
  }

  lemma RowBounded(s: System, q: NodeId, row: VersionVector)
    requires Grounded(s) && RowOk(s, q, row)
    ensures Bounded(s, row)
  {
    hide Grounded, Leq, Bounded;
    ClockBounded(s, q);
    BoundedBelow(s, row, Clock(s.reps[q].core));
  }

  lemma MatrixBounded(s: System, q: NodeId, r: NodeId)
    requires Grounded(s) && q in s.reps && r in s.reps[q].core.matrix
    ensures Bounded(s, s.reps[q].core.matrix[r])
  {
    hide ClocksOk, FrontiersOk, RepOk, RowOk, Bounded;
    ClocksAt(s, q);
    RowBounded(s, r, s.reps[q].core.matrix[r]);
  }

  lemma CarriedBounded(s: System, m: Envelope, v: VersionVector)
    requires Grounded(s) && m in s.net && Carries(m, v)
    ensures Bounded(s, v)
  {
    hide ClocksOk, FrontiersOk, RowOk, Bounded, DeltaCovered;
    ClocksOfMsg(s, m);
    match m
    case PullRequest(origin, _, k) => RowBounded(s, origin, k);
    case CrdtOp(origin, _, d, rows, requester, _) =>
      if requester == Some(v) {
        RowBounded(s, origin, v);
      } else if v != DeltaClock(d) {
        var q :| q in rows.value && v == rows.value[q];
        RowBounded(s, q, v);
      }
  }

  /** What was collected lies below the snapshot's clock, node by node, or below that of an
      initiator that has not stored its snapshot yet. */
  lemma StoreBounded(s: System)
    requires Grounded(s)
    ensures Bounded(s, s.store.state.initiatorClock) && Bounded(s, s.store.metadata.vStable) && Bounded(s, s.stable)
  {
    hide ClocksOk, FrontiersOk, Covered, HistoryOk, StableOk, Leq, CoreOk, RowsOk;
    ClocksParts(s);
    FrontiersParts(s);
    StableAtRest(s);
    forall n ensures At(s.stable, n) <= Own(s, n) {
      if At(s.stable, n) <= At(s.store.state.initiatorClock, n) {
        assert At(s.store.state.initiatorClock, n) <= Own(s, n);
      } else {
        var p :| Collecting(s, p, n);
        InitiatorIsActive(s, p);
        ActiveFacts(s, p);
      }
    }
    BoundedBelow(s, s.store.metadata.vStable, s.stable);
  }

  /** The dot a replica mints next is new to the history and to every clock held anywhere. */
  lemma MintedDotsAreUnique(steps: seq<Step>, p: NodeId)
    requires IsExecution(steps) && p in End(steps).reps
    ensures var s := End(steps); var dot := Evented(s.reps[p].core.dvv).dot;
            dot !in s.history && forall v :: Held(s, v) ==> !Covers(v, dot)
  {
    hide IsExecution, Grounded, Held;
    ExecutionIsGrounded(steps);
    var s := End(steps);
    var dot := Evented(s.reps[p].core.dvv).dot;
    NextDotIsUnminted(s, p);
    forall v | Held(s, v) ensures !Covers(v, dot) {
      NobodyKnowsMore(steps, v);
      assert At(v, p) <= Own(s, p);
    }
  }

  lemma NextDotIsUnminted(s: System, p: NodeId)
    requires Grounded(s) && p in s.reps
    ensures var dot := Evented(s.reps[p].core.dvv).dot; dot == Dot(p, Own(s, p) + 1) && dot !in s.history
  {
    hide ClocksOk, FrontiersOk, Covered, RowsOk, WellFormed;
    ClocksAt(s, p);
    ClocksParts(s);
  }

  /** No delivery ever fast-forwards a replica's own dot. */
  lemma DeliveryKeepsOwnDot(steps: seq<Step>, m: Envelope)
    requires IsExecution(steps) && m in End(steps).net && m.CrdtOp? && IsReady(End(steps), m.to)
    ensures var c := End(steps).reps[m.to].core; AfterDelta(c, m.delta, m.rows).dvv.dot == c.dvv.dot
  {
    hide IsExecution, ClocksOk, FrontiersOk, AfterDelta, CoreOk, RowsOk;
    ExecutionIsGrounded(steps);
    DeliverKeepsCore(End(steps), m);
  }

  /** Nor does the merge that ends a bootstrap. */
  lemma AdoptionKeepsOwnDot(steps: seq<Step>, p: NodeId)
    requires IsExecution(steps) && p in End(steps).reps && !End(steps).reps[p].boot.Active?
    ensures var c := End(steps).reps[p].core; Adopted(c, End(steps).store.state).dvv.dot == c.dvv.dot
  {
    hide IsExecution, ClocksOk, FrontiersOk, Covered, Adopted, RowsOk, Bounded;
    ExecutionIsGrounded(steps);
    var s := End(steps);
    ClocksAt(s, p);
    ClocksParts(s);
    AdoptedIsSnapshot(s, p, s.reps[p].core);
  }

  // ---- frontiers: no hypothesis ----

  /** Every frontier collected under or committed by the time `i` has been seen by every
      replica that is up at any later time, including those that joined since, however
      many initiators there are and however stale their claims. */
  lemma CommittedFrontiersAreStable(steps: seq<Step>, i: nat, p: NodeId)
    requires IsExecution(steps) && i <= |steps| && IsExecution(steps[..i]) && IsActive(End(steps), p)
    ensures var v := Clock(End(steps).reps[p].core); var s := End(steps[..i]);
            && Leq(s.stable, v)
            && Leq(s.store.metadata.vStable, v)
            && (forall n :: n in s.commits ==> Leq(s.commits[n].frontier, v))
  {
    hide IsExecution, Grounded, CoreOk, RowsOk, WellFormed, Bounded, Leq;
    RunGrows(steps, i);
    ExecutionIsGrounded(steps);
    ExecutionIsGrounded(steps[..i]);
    var v, s := Clock(End(steps).reps[p].core), End(steps[..i]);
    ActiveFacts(End(steps), p);
    GrowsParts(s, End(steps));
    LeqTransitive(s.stable, End(steps).stable, v);
    CollectedBelow(s);
    LeqTransitive(s.store.metadata.vStable, s.stable, v);
    forall n | n in s.commits ensures Leq(s.commits[n].frontier, v) {
      LeqTransitive(s.commits[n].frontier, s.stable, v);
    }
  }

  lemma CollectedBelow(s: System)
    requires Grounded(s)
    ensures Leq(s.store.metadata.vStable, s.stable)
    ensures forall n :: n in s.commits ==> Leq(s.commits[n].frontier, s.stable)
  {
    hide ClocksOk, FrontiersOk, Leq;
    FrontiersParts(s);
    StableAtRest(s);
    StableRows(s);
  }

  /** The snapshot a joiner adopts brings it up to date with every collection so far. */
  lemma AdoptionCoversCollections(steps: seq<Step>, p: NodeId)
    requires IsExecution(steps) && p in End(steps).reps && !End(steps).reps[p].boot.Active?
    requires BootNext(End(steps).reps[p].boot, End(steps).store).Active?
    ensures var s := End(steps); var c := Adopted(s.reps[p].core, s.store.state);
            Same(Clock(c), s.store.state.initiatorClock) && Leq(s.stable, Clock(c))
  {
    hide IsExecution, ClocksOk, FrontiersOk, Adopted, BootNext, Leq, Same;
    ExecutionIsGrounded(steps);
    var s := End(steps);
    AdoptableCovers(s, p);
    AdoptedClock(s, p);
    LeqTransitive(s.stable, s.store.state.initiatorClock, Clock(Adopted(s.reps[p].core, s.store.state)));
  }

  /** And, if no collection left a delta unguarded, it makes the joiner exact. */
  lemma SnapshotConsistency(steps: seq<Step>, h: Hypotheses, p: NodeId)
    requires IsRun(steps, h) && h.inFlight && p in End(steps).reps && !End(steps).reps[p].boot.Active?
    requires BootNext(End(steps).reps[p].boot, End(steps).store).Active?
    ensures var s := End(steps); var c := Adopted(s.reps[p].core, s.store.state);
            && Same(Clock(c), s.store.state.initiatorClock)
            && Exact(s.history, Clock(c), c.orset, s.snapCollected)
            && Leq(s.stable, Clock(c))
  {
    hide IsRun, IsExecution, ClocksOk, FrontiersOk, SetsExact, Exact, Adopted, BootNext, Leq, Same;
    RunKeepsExact(steps, h);
    ExecutionIsGrounded(steps);
    AdoptionCoversCollections(steps, p);
    SnapPart(End(steps));
    AdoptedIsExact(End(steps), p);
  }

  // ---- epochs: the claim hypothesis ----

  /** Every active replica is at the epoch it bootstrapped from or a later one, and none is
      ahead of the stored epoch. */
  lemma ReplicasKeepUp(steps: seq<Step>, h: Hypotheses, p: NodeId)
    requires IsRun(steps, h) && h.claims && IsActive(End(steps), p)
    ensures var r := End(steps).reps[p]; r.joinedAt <= r.core.epoch <= End(steps).store.metadata.epoch
  {
    hide IsRun;
    RunKeepsEpochs(steps, h);
    EpochKnownAt(End(steps), p);
  }

  /** A replica that a committed GC did not count bootstrapped from that epoch or a later
      one, however its registration and reads fell between the GC's operations; and that is
      the least epoch it has. */
  lemma JoinerSafety(steps: seq<Step>, h: Hypotheses, n: nat, p: NodeId)
    requires IsRun(steps, h) && h.claims && n in End(steps).commits && IsActive(End(steps), p)
    requires p !in End(steps).commits[n].members
    ensures End(steps).reps[p].core.epoch >= End(steps).reps[p].joinedAt >= n
  {
    hide IsRun, GcOk, BootOk, EpochsOk;
    RunKeepsProtocol(steps, h);
    ReplicasKeepUp(steps, h, p);
    assert CommitOk(End(steps), n);
  }

  /** A joiner adopts the epoch that is stored. */
  lemma AdoptionIsCurrent(steps: seq<Step>, h: Hypotheses, p: NodeId)
    requires IsRun(steps, h) && h.claims && p in End(steps).reps && !End(steps).reps[p].boot.Active?
    requires BootNext(End(steps).reps[p].boot, End(steps).store).Active?
    ensures End(steps).store.state.epoch == End(steps).store.metadata.epoch
  {
    hide IsRun, ProtocolOk, BootNext;
    RunKeepsProtocol(steps, h);
    AdoptableIsCurrent(End(steps), p);
  }

  /** An intent has one holder, whatever the claims were based on. */
  lemma IntentsAreExclusive(steps: seq<Step>, p: NodeId, q: NodeId)
    requires IsExecution(steps) && p in End(steps).reps && q in End(steps).reps
    ensures var s := End(steps);
            HoldsIntent(s.reps[p].gc) && HoldsIntent(s.reps[q].gc) && s.reps[p].gc.n == s.reps[q].gc.n ==> p == q
  {
    hide IsExecution, ClocksOk, FrontiersOk;
    ExecutionIsGrounded(steps);
    var s := End(steps);
    if HoldsIntent(s.reps[p].gc) && HoldsIntent(s.reps[q].gc) && s.reps[p].gc.n == s.reps[q].gc.n {
      SoleHolder(s, p, q);
    }
  }

  /** At most one replica is between claiming and committing; nobody else holds its
      intent; the state object runs ahead of the metadata only while that intent is held. */
  lemma EpochStoreInvariant(steps: seq<Step>, h: Hypotheses, p: NodeId, q: NodeId)
    requires IsRun(steps, h) && h.claims && p in End(steps).reps && q in End(steps).reps
    ensures var s := End(steps); PreCommit(s.reps[p].gc) && PreCommit(s.reps[q].gc) ==> p == q
    ensures var s := End(steps);
            HoldsIntent(s.reps[p].gc) && HoldsIntent(s.reps[q].gc) && s.reps[p].gc.n == s.reps[q].gc.n ==> p == q
    ensures var s := End(steps);
            && s.store.metadata.epoch <= s.store.state.epoch <= s.store.metadata.epoch + 1
            && (s.store.state.epoch > s.store.metadata.epoch ==> s.store.state.epoch in s.store.intents)
  {
    hide IsRun, ProtocolOk, MissedAreWaiting;
    RunKeepsProtocol(steps, h);
    IntentsAreExclusive(steps, p, q);
    var s := End(steps);
    ProtocolParts(s);
    if PreCommit(s.reps[p].gc) && PreCommit(s.reps[q].gc) { SoleCommitter(s, p, q); }
    if s.store.metadata.epoch + 1 !in s.store.intents { NoStateAhead(s); }
  }

  ghost predicate KeepsEpoch(s: System, s': System) {
    s'.store.metadata == s.store.metadata && s'.commits == s.commits
  }

  lemma MessagesKeepEpoch(s: System, step: Step)
    requires Enabled(s, step) && (step.Deliver? || step.Serve? || step.Lose? || step.Advertise?)
    ensures KeepsEpoch(s, Apply(s, step))
  {
    hide ReplyTo, Respond, AfterDelta, AfterRequest, RiddenRequest;
  }

  lemma LocalStepsKeepEpoch(s: System, step: Step)
    requires Enabled(s, step) && (step.Register? || step.Bootstrap? || step.Client? || step.Observe?)
    ensures KeepsEpoch(s, Apply(s, step))
  {
    hide Observed, Adopted, BootNext, Operated, EventOf, Evented, Join;
  }

  lemma IntentStepsKeepEpoch(s: System, step: Step)
    requires Enabled(s, step)
    requires step.GcReadEpoch? || step.GcReadMembers? || step.GcClaim? || step.GcConfirm? || step.GcRelease?
    ensures KeepsEpoch(s, Apply(s, step))
  {
  }

  lemma CollectStepsKeepEpoch(s: System, step: Step)
    requires Enabled(s, step) && (step.GcCollect? || step.GcWriteState?)
    ensures KeepsEpoch(s, Apply(s, step))
  {
    hide Finding, VvLeq, Snapshot, Initiated, Join;
  }

  /** Only a metadata write changes the stored epoch. */
  lemma OtherStepsKeepEpoch(s: System, step: Step)
    requires Enabled(s, step) && !step.GcWriteMetadata?
    ensures KeepsEpoch(s, Apply(s, step))
  {
    hide Apply, Enabled;
    if step.Deliver? || step.Serve? || step.Lose? || step.Advertise? {
      MessagesKeepEpoch(s, step);
    } else if step.GcCollect? || step.GcWriteState? {
      CollectStepsKeepEpoch(s, step);
    } else if IsGcStep(step) {
      IntentStepsKeepEpoch(s, step);
    } else {
      LocalStepsKeepEpoch(s, step);
    }
  }

  /** And it adds exactly one. */
  lemma CommitRaisesEpochByOne(steps: seq<Step>, h: Hypotheses, step: Step)
    requires IsRun(steps, h) && h.claims && Enabled(End(steps), step)
    ensures Apply(End(steps), step).store.metadata.epoch
         == End(steps).store.metadata.epoch + (if step.GcWriteMetadata? then 1 else 0)
  {
    hide IsRun, ProtocolOk, MissedAreWaiting, Apply, Enabled;
    RunKeepsProtocol(steps, h);
    if step.GcWriteMetadata? { WriteRaises(End(steps), step.p); } else { OtherStepsKeepEpoch(End(steps), step); }
  }

  lemma WriteRaises(s: System, q: NodeId)
    requires ProtocolOk(s) && Enabled(s, GcWriteMetadata(q))
    ensures Apply(s, GcWriteMetadata(q)).store.metadata.epoch == s.store.metadata.epoch + 1
  {
    hide ProtocolOk;
    assert Apply(s, GcWriteMetadata(q)) == WritingMetadata(s, q);
    PhaseAt(s, q);
    hide MissedAreWaiting;
  }

  /** A commit record is never changed. */
  lemma StepKeepsCommits(s: System, step: Step, n: nat)
    requires ProtocolOk(s) && Enabled(s, step) && n in s.commits
    ensures n in Apply(s, step).commits && Apply(s, step).commits[n] == s.commits[n]
  {
    hide ProtocolOk, CommitOk, EpochsOk;
    if step.GcWriteMetadata? {
      assert Apply(s, step) == WritingMetadata(s, step.p);
      hide Apply;
      PhaseAt(s, step.p);
      ProtocolParts(s);
    } else {
      hide Apply, Enabled;
      OtherStepsKeepEpoch(s, step);
    }
  }

  lemma {:induction false} CommitsPersist(steps: seq<Step>, h: Hypotheses, i: nat, n: nat)
    requires IsRun(steps, h) && h.claims && i <= |steps| && IsExecution(steps[..i]) && n in End(steps[..i]).commits
    ensures n in End(steps).commits && End(steps).commits[n] == End(steps[..i]).commits[n]
  {
    hide ProtocolOk, Apply, Enabled, ClaimMet, InFlightMet;
    if i == |steps| {
      assert steps[..i] == steps;
    } else {
      var front := steps[..|steps| - 1];
      assert front[..i] == steps[..i];
      CommitsPersist(front, h, i, n);
      RunKeepsProtocol(front, h);
      StepKeepsCommits(End(front), steps[|steps| - 1], n);
    }
  }
}
