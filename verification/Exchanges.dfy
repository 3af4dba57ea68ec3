/** One push-pull exchange between two replicas with nothing else going on: a request, the
    reply with whatever rides on it, and the answer to that. */
module Exchanges {
  import opened Clocks
  import opened DotVersionVectors
  import opened OrSets
  import opened Histories
  import opened StableTimestamps
  import opened Replicas
  import opened Systems
  import opened Invariants
  import opened Exactness
  import opened ExactSteps
  import opened Theorems

  /** What a replica knows of its peer from the registry, and its registered non-GC peers. */
  datatype View = View(peerIsGc: bool, peers: set<NodeId>)

  function Handled(c: Core, req: EngineRequest, view: View): (Core, Option<Envelope>) {
    match req
    case DeltaResponse(_, d, rows) => (AfterDelta(c, d, rows), None)
    case DeltaRequest(from, k) =>
      var c' := AfterRequest(c, from, k);
      (c', Respond(c.id, from, ReplyTo(c', k, view.peerIsGc, view.peers), k))
  }

  /** Requests in order; at most one of them is answered. */
  function HandledAll(c: Core, reqs: seq<EngineRequest>, view: View): (Core, Option<Envelope>)
    decreases |reqs|
  {
    if reqs == [] then (c, None)
    else
      var (c1, out) := Handled(c, reqs[0], view);
      var (c2, out') := HandledAll(c1, reqs[1..], view);
      (c2, if out'.Some? then out' else out)
  }

  function Received(c: Core, m: Option<Envelope>, view: View): (Core, Option<Envelope>) {
    if m.None? then (c, None) else HandledAll(c, RequestsOf(m.value), view)
  }

  /** `a` pulls from `b`, `b` replies, `a` handles the reply, `b` handles the answer. */
  function Exchange(a: Core, b: Core, va: View, vb: View): (Core, Core) {
    var (b1, reply) := Handled(b, DeltaRequest(a.id, Clock(a)), vb);
    var (a1, answer) := Received(a, reply, va);
    var (b2, _) := Received(b1, answer, vb);
    (a1, b2)
  }

  /** The reply is forced although the responder has nothing, and its own request is then
      the empty one that the receiving handler drops. */
  predicate RequestDropped(a: Core, b: Core, vb: View) {
    b.gcReplica && vb.peerIsGc && Clock(b) == map[] && !VvLeq(Clock(a), map[])
  }

  /** A replica that is exact for `h`, and what it collected is known to the clock `w`. */
  ghost predicate Sound(h: History, c: Core, collected: VersionVector, w: VersionVector) {
    Exact(h, Clock(c), c.orset, collected) && Leq(collected, w)
  }

  ghost predicate BothSound(h: History, a: Core, b: Core, ca: VersionVector, cb: VersionVector) {
    WellFormed(h) && Sound(h, a, ca, Clock(b)) && Sound(h, b, cb, Clock(a))
  }

  /** One delta, computed by `b` for what `a` knows, merged at `a`. */
  lemma PullCatchesUp(h: History, a: Core, b: Core, known: VersionVector, ca: VersionVector, cb: VersionVector,
                      rows: Option<MatrixClock>)
    requires DotOutside(a.dvv) && DotOutside(b.dvv) && Leq(known, Clock(a))
    ensures var a1 := AfterDelta(a, DeltaFor(b.orset, b.dvv, known), rows);
            && Same(Clock(a1), Join(Clock(a), Clock(b))) && DotOutside(a1.dvv)
            && (BothSound(h, a, b, ca, cb) ==> Sound(h, a1, ca, Clock(b)))
  {
    var d := DeltaFor(b.orset, b.dvv, known);
    var a1 := AfterDelta(a, d, rows);
    hide Exact, DeltaExact, DeltaFor, MergedSet, Merged;
    DeltaBringsClock(b, known);
    MergeIsMax(a.dvv, DeltaClock(d));
    MergeKeepsDotOutside(a.dvv, DeltaClock(d));
    forall n ensures At(Clock(a1), n) == At(Join(Clock(a), Clock(b)), n) {
      assert At(DeltaClock(d), n) == At(Clock(b), n);
    }
    if BothSound(h, a, b, ca, cb) {
      DeltaIsExact(h, b.dvv, b.orset, cb, known);
      LeqSame(ca, Clock(b), DeltaClock(d));
      CoveredSenderIsGuarded(h, Clock(a), a.orset, ca, d, known, cb);
      MergeExactIff(h, Clock(a), Clock(a1), a.orset, ca, d, known, cb);
    }
  }

  lemma DeltaBringsClock(c: Core, known: VersionVector)
    ensures Same(DeltaClock(DeltaFor(c.orset, c.dvv, known)), Clock(c))
  {
  }

  lemma JoinOfOrdered(a: VersionVector, b: VersionVector)
    requires Leq(b, a)
    ensures Same(a, Join(a, b)) && Same(a, Join(b, a))
  {
    forall n ensures At(a, n) == At(Join(a, b), n) == At(Join(b, a), n) {
      assert At(b, n) <= At(a, n);
    }
  }

  /** The first half: the requester always ends at the join. */
  lemma RequesterCatchesUp(h: History, a: Core, b: Core, ca: VersionVector, cb: VersionVector, va: View, vb: View)
    requires DotOutside(a.dvv) && DotOutside(b.dvv)
    ensures var r := ReplyTo(AfterRequest(b, a.id, Clock(a)), Clock(a), vb.peerIsGc, vb.peers);
            var a1 := if r.delta.Some? then AfterDelta(a, r.delta.value, r.rows) else a;
            && Same(Clock(a1), Join(Clock(a), Clock(b))) && DotOutside(a1.dvv)
            && (BothSound(h, a, b, ca, cb) ==> Sound(h, a1, ca, Clock(b)))
            && (r.ask.Some? <==> !Leq(Clock(a), Clock(b)))
            && (r.delta.Some? <==> (b.gcReplica && vb.peerIsGc) || !Leq(Clock(b), Clock(a)))
  {
    hide Exact, DeltaFor, AfterDelta, Leq;
    EmptyDeltaIff(b.dvv, Clock(a));
    LeqReflexive(Clock(a));
    PullCatchesUp(h, a, b, Clock(a), ca, cb,
                  ReplyTo(AfterRequest(b, a.id, Clock(a)), Clock(a), vb.peerIsGc, vb.peers).rows);
    if Leq(Clock(b), Clock(a)) { JoinOfOrdered(Clock(a), Clock(b)); }
  }

  /** The exchange, with the two handlers unfolded. */
  lemma ExchangeUnfolds(a: Core, b: Core, va: View, vb: View)
    ensures var b1 := AfterRequest(b, a.id, Clock(a));
            var r := ReplyTo(b1, Clock(a), vb.peerIsGc, vb.peers);
            var a1 := if r.delta.Some? then AfterDelta(a, r.delta.value, r.rows) else a;
            var answered := r.ask.Some? && !(r.delta.Some? && r.ask.value == map[]);
            if !answered then Exchange(a, b, va, vb) == (a1, b1)
            else
              var a2 := AfterRequest(a1, b.id, r.ask.value);
              var r2 := ReplyTo(a2, r.ask.value, va.peerIsGc, va.peers);
              Exchange(a, b, va, vb) == (a2, Received(b1, Respond(a.id, b.id, r2, r.ask.value), vb).0)
  {
    hide ReplyTo, AfterDelta;
    var b1 := AfterRequest(b, a.id, Clock(a));
    var r := ReplyTo(b1, Clock(a), vb.peerIsGc, vb.peers);
    var reply := Respond(b.id, a.id, r, Clock(a));
    assert Handled(b, DeltaRequest(a.id, Clock(a)), vb) == (b1, reply);
    IdsKept(a, b, r);
    match (r.delta, r.ask)
    case (Some(d), Some(k)) =>
      if k != map[] {
        assert RequestsOf(reply.value) == [DeltaResponse(b.id, d, r.rows), DeltaRequest(b.id, k)];
        TwoRequests(a, DeltaResponse(b.id, d, r.rows), DeltaRequest(b.id, k), va);
      } else {
        assert RequestsOf(reply.value) == [DeltaResponse(b.id, d, r.rows)];
        OneRequest(a, DeltaResponse(b.id, d, r.rows), va);
      }
    case (Some(d), None) =>
      assert RequestsOf(reply.value) == [DeltaResponse(b.id, d, r.rows)];
      OneRequest(a, DeltaResponse(b.id, d, r.rows), va);
    case (None, Some(k)) =>
      assert RequestsOf(reply.value) == [DeltaRequest(b.id, k)];
      OneRequest(a, DeltaRequest(b.id, k), va);
    case (None, None) =>
  }

  lemma OneRequest(c: Core, q: EngineRequest, view: View)
    ensures HandledAll(c, [q], view) == Handled(c, q, view)
  {
    hide Handled;
    assert [q][1..] == [];
  }

  lemma TwoRequests(c: Core, q: EngineRequest, q': EngineRequest, view: View)
    ensures var (c1, out) := Handled(c, q, view);
            var (c2, out') := Handled(c1, q', view);
            HandledAll(c, [q, q'], view) == (c2, if out'.Some? then out' else out)
  {
    hide Handled;
    assert [q, q'][1..] == [q'];
    OneRequest(Handled(c, q, view).0, q', view);
  }

  lemma IdsKept(a: Core, b: Core, r: Reply)
    ensures AfterRequest(b, a.id, Clock(a)).id == b.id
    ensures r.delta.Some? ==> AfterDelta(a, r.delta.value, r.rows).id == a.id
  {
  }

  /** A delta reply without a request of its own, received. */
  lemma PlainDeltaReceived(c: Core, m: Envelope, view: View)
    requires m.CrdtOp? && m.requester.None?
    ensures Received(c, Some(m), view).0 == AfterDelta(c, m.delta, m.rows)
  {
    hide AfterDelta;
    assert RequestsOf(m) == [DeltaResponse(m.origin, m.delta, m.rows)];
    OneRequest(c, DeltaResponse(m.origin, m.delta, m.rows), view);
  }

  ghost predicate SameElements(a: Core, b: Core) {
    a.orset.live == b.orset.live && Elements(a.orset) == Elements(b.orset)
  }

  /** After the exchange the requester has the join of both clocks; the responder has it if
      and only if its request was not dropped; and if it has, replicas that were exact show
      the same set. */
  lemma ExchangeConverges(h: History, a: Core, b: Core, ca: VersionVector, cb: VersionVector, va: View, vb: View)
    requires DotOutside(a.dvv) && DotOutside(b.dvv)
    ensures var (a', b') := Exchange(a, b, va, vb); var j := Join(Clock(a), Clock(b));
            && Same(Clock(a'), j)
            && (Same(Clock(b'), j) <==> !RequestDropped(a, b, vb))
            && (BothSound(h, a, b, ca, cb) && Same(Clock(b'), j) ==> SameElements(a', b'))
  {
    hide Exchange, AfterDelta, Leq, ReplyTo, Received, Same, Sound, AfterRequest, WellFormed, DotOutside, Elements;
    var b1 := AfterRequest(b, a.id, Clock(a));
    var r := ReplyTo(b1, Clock(a), vb.peerIsGc, vb.peers);
    var a1 := if r.delta.Some? then AfterDelta(a, r.delta.value, r.rows) else a;
    RequesterCatchesUp(h, a, b, ca, cb, va, vb);
    ExchangeUnfolds(a, b, va, vb);
    IdsKept(a, b, r);
    AskIsClock(b, a.id, Clock(a), vb);
    if r.ask.None? {
      NoAnswerNeeded(h, a, b, a1, ca, cb);
    } else if r.delta.Some? && r.ask.value == map[] {
      DroppedLeavesBehind(a, b);
      assert b.gcReplica && vb.peerIsGc;
    } else {
      AnswerCatchesUp(h, a, b, a1, ca, cb, va, vb);
      assert r.delta.None? || Clock(b) != map[];
      ForcedSendsDelta(a, b, vb);
    }
  }

  /** The responder asks with its own clock, exactly when the requester knows more. */
  lemma AskIsClock(b: Core, from: NodeId, known: VersionVector, vb: View)
    ensures var b1 := AfterRequest(b, from, known); var r := ReplyTo(b1, known, vb.peerIsGc, vb.peers);
            && Clock(b1) == Clock(b) && b1.orset == b.orset
            && (r.ask.Some? ==> r.ask.value == Clock(b))
            && (VvLeq(known, Clock(b)) <==> Leq(known, Clock(b)))
            && (Clock(b) == map[] ==> Leq(Clock(b), known))
  {
    hide DeltaFor, ClockDeltaIsEmpty, KnowledgeMatrix, UpdatedMatrix;
  }

  lemma ForcedSendsDelta(a: Core, b: Core, vb: View)
    ensures var r := ReplyTo(AfterRequest(b, a.id, Clock(a)), Clock(a), vb.peerIsGc, vb.peers);
            b.gcReplica && vb.peerIsGc ==> r.delta.Some?
  {
  }

  lemma NoAnswerNeeded(h: History, a: Core, b: Core, a1: Core, ca: VersionVector, cb: VersionVector)
    requires Same(Clock(a1), Join(Clock(a), Clock(b))) && Leq(Clock(a), Clock(b))
    ensures Same(Clock(b), Join(Clock(a), Clock(b)))
    ensures WellFormed(h) && Sound(h, a1, ca, Clock(b)) && Sound(h, b, cb, Clock(a)) ==> SameElements(a1, b)
  {
    hide Exact, WellFormed;
    JoinOfOrdered(Clock(b), Clock(a));
    SameTransitive(Clock(a1), Join(Clock(a), Clock(b)), Clock(b));
    if WellFormed(h) && Sound(h, a1, ca, Clock(b)) && Sound(h, b, cb, Clock(a)) {
      EqualClocksConverge(h, Clock(a1), Clock(b), a1.orset, b.orset, ca, cb);
    }
  }

  lemma SameTransitive(a: VersionVector, b: VersionVector, c: VersionVector)
    requires Same(a, b) && Same(c, b)
    ensures Same(a, c)
  {
    forall n ensures At(a, n) == At(c, n) { assert At(a, n) == At(b, n) == At(c, n); }
  }

  lemma DroppedLeavesBehind(a: Core, b: Core)
    requires Clock(b) == map[] && !Leq(Clock(a), Clock(b))
    ensures !Same(Clock(b), Join(Clock(a), Clock(b)))
  {
    var n :| At(Clock(a), n) > At(Clock(b), n);
    assert At(Join(Clock(a), Clock(b)), n) > At(Clock(b), n);
  }

  /** The second half: the answer brings the responder to the same join. */
  lemma AnswerCatchesUp(h: History, a: Core, b: Core, a1: Core, ca: VersionVector, cb: VersionVector,
                        va: View, vb: View)
    requires DotOutside(a1.dvv) && DotOutside(b.dvv)
    requires Same(Clock(a1), Join(Clock(a), Clock(b))) && !Leq(Clock(a), Clock(b)) && a1.id == a.id
    ensures var b1 := AfterRequest(b, a.id, Clock(a));
            var a2 := AfterRequest(a1, b.id, Clock(b));
            var r2 := ReplyTo(a2, Clock(b), va.peerIsGc, va.peers);
            var b2 := Received(b1, Respond(a.id, b.id, r2, Clock(b)), vb).0;
            && Same(Clock(a2), Join(Clock(a), Clock(b)))
            && Same(Clock(b2), Join(Clock(a), Clock(b)))
            && (WellFormed(h) && Sound(h, a1, ca, Clock(b)) && Sound(h, b, cb, Clock(a)) ==> SameElements(a2, b2))
  {
    hide Exact, AfterDelta, WellFormed, DeltaFor, Same, Join, Received, KnowledgeMatrix;
    var b1 := AfterRequest(b, a.id, Clock(a));
    var a2 := AfterRequest(a1, b.id, Clock(b));
    var r2 := ReplyTo(a2, Clock(b), va.peerIsGc, va.peers);
    AnswerIsPlainDelta(a, b, a1, va);
    PlainDeltaReceived(b1, Respond(a.id, b.id, r2, Clock(b)).value, vb);
    LeqReflexive(Clock(b));
    JoinCovers(Clock(a), Clock(b), Clock(a1));
    PullCatchesUp(h, b1, a2, Clock(b), cb, ca, r2.rows);
    if WellFormed(h) && Sound(h, a1, ca, Clock(b)) && Sound(h, b, cb, Clock(a)) {
      LeqTransitive(cb, Clock(a), Clock(a1));
    }
    BothAtJoin(h, a2, AfterDelta(b1, r2.delta.value, r2.rows), ca, cb, Clock(a), Clock(b));
  }

  lemma AnswerIsPlainDelta(a: Core, b: Core, a1: Core, va: View)
    requires DotOutside(a1.dvv) && a1.id == a.id
    requires Same(Clock(a1), Join(Clock(a), Clock(b))) && !Leq(Clock(a), Clock(b))
    ensures var a2 := AfterRequest(a1, b.id, Clock(b));
            var r2 := ReplyTo(a2, Clock(b), va.peerIsGc, va.peers);
            && r2.delta == Some(DeltaFor(a2.orset, a2.dvv, Clock(b))) && r2.ask.None?
            && Respond(a.id, b.id, r2, Clock(b)) == Some(CrdtOp(a.id, b.id, r2.delta.value, r2.rows, None, Clock(b)))
  {
    hide DeltaFor, KnowledgeMatrix, UpdatedMatrix;
    JoinCovers(Clock(a), Clock(b), Clock(a1));
    EmptyDeltaIff(a1.dvv, Clock(b));
    var n :| At(Clock(a), n) > At(Clock(b), n);
    assert At(Clock(a), n) <= At(Clock(a1), n);
  }

  lemma BothAtJoin(h: History, a: Core, b: Core, ca: VersionVector, cb: VersionVector,
                   x: VersionVector, y: VersionVector)
    requires Same(Clock(a), Join(x, y)) && Same(Clock(b), Join(y, Clock(a)))
    ensures Same(Clock(b), Join(x, y))
    ensures WellFormed(h) && Exact(h, Clock(a), a.orset, ca) && Exact(h, Clock(b), b.orset, cb) ==> SameElements(a, b)
  {
    hide Exact, WellFormed;
    forall n ensures At(Clock(b), n) == At(Join(x, y), n) && At(Clock(a), n) == At(Clock(b), n) {
      assert At(Clock(a), n) == At(Join(x, y), n) && At(Clock(b), n) == At(Join(y, Clock(a)), n);
    }
    if WellFormed(h) && Exact(h, Clock(a), a.orset, ca) && Exact(h, Clock(b), b.orset, cb) {
      EqualClocksConverge(h, Clock(a), Clock(b), a.orset, b.orset, ca, cb);
    }
  }

  /** After any run, for any two replicas that are up. */
  lemma ExchangeClocksInRuns(steps: seq<Step>, p: NodeId, q: NodeId, va: View, vb: View)
    requires IsExecution(steps) && IsActive(End(steps), p) && IsActive(End(steps), q)
    ensures var a, b := End(steps).reps[p].core, End(steps).reps[q].core;
            var (a', b') := Exchange(a, b, va, vb);
            && Same(Clock(a'), Join(Clock(a), Clock(b)))
            && (Same(Clock(b'), Join(Clock(a), Clock(b))) <==> !RequestDropped(a, b, vb))
  {
    hide IsExecution, Grounded, Exchange, WellFormed, Covered, RowsOk, Bounded, Leq, BothSound, RequestDropped,
         DotOutside;
    ExecutionIsGrounded(steps);
    var s := End(steps);
    ActiveFacts(s, p);
    ActiveFacts(s, q);
    ExchangeConverges(s.history, s.reps[p].core, s.reps[q].core, map[], map[], va, vb);
  }

  /** And, if no collection left a delta unguarded, they show the same set. */
  lemma ExchangeConvergesInRuns(steps: seq<Step>, h: Hypotheses, p: NodeId, q: NodeId, va: View, vb: View)
    requires IsRun(steps, h) && h.inFlight && IsActive(End(steps), p) && IsActive(End(steps), q)
    ensures var a, b := End(steps).reps[p].core, End(steps).reps[q].core;
            var (a', b') := Exchange(a, b, va, vb);
            && Same(Clock(a'), Join(Clock(a), Clock(b)))
            && (Same(Clock(b'), Join(Clock(a), Clock(b))) <==> !RequestDropped(a, b, vb))
            && (!RequestDropped(a, b, vb) ==> SameElements(a', b'))
  {
    hide IsRun, Grounded, SetsExact, Exact, Exchange, WellFormed, Covered, RowsOk, Bounded, RequestDropped,
         SameElements, DotOutside;
    ExecutionIsGrounded(steps);
    RunKeepsExact(steps, h);
    var s := End(steps);
    var a, b := s.reps[p], s.reps[q];
    ActiveFacts(s, p);
    ActiveFacts(s, q);
    ExactAt(s, p);
    ExactAt(s, q);
    LeqTransitive(a.collected, s.stable, Clock(b.core));
    LeqTransitive(b.collected, s.stable, Clock(a.core));
    ExchangeConverges(s.history, a.core, b.core, a.collected, b.collected, va, vb);
  }
}
