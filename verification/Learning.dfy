/** What GC replicas learn about others: rows arrive, and never fall. */
module Learning {
  import opened Clocks
  import opened OrSets
  import opened Histories
  import opened DotVersionVectors
  import opened StableTimestamps
  import opened Replicas
  import opened Laws
  import opened Systems
  import opened Executions
  import opened Invariants
  import opened ClockSteps
  import opened Exactness
  import opened Theorems
  import opened Exchanges

  /** No matrix loses a row, and no row falls at any node. */
  ghost predicate RowsGrow(s: System, s': System) {
    forall p :: p in s.reps ==> p in s'.reps && MatrixGrows(s.reps[p].core.matrix, s'.reps[p].core.matrix)
  }

  ghost predicate MatrixGrows(a: MatrixClock, b: MatrixClock) {
    forall q :: q in a ==> q in b && Leq(a[q], b[q])
  }

  lemma MatrixGrowsReflexive(a: MatrixClock)
    ensures MatrixGrows(a, a)
  {
  }

  lemma MatrixGrowsOn(a: MatrixClock, b: MatrixClock, c: MatrixClock)
    requires MatrixGrows(a, b) && MatrixGrows(b, c)
    ensures MatrixGrows(a, c)
  {
    hide Leq;
    forall q | q in a ensures Leq(a[q], c[q]) { LeqTransitive(a[q], b[q], c[q]); }
  }

  lemma UpdateGrows(mc: MatrixClock, rows: MatrixClock)
    ensures MatrixGrows(mc, UpdatedMatrix(mc, rows))
  {
    UpdateIsMax(mc, rows);
    forall q | q in mc ensures Leq(mc[q], UpdatedMatrix(mc, rows)[q]) {
      forall n ensures At(mc[q], n) <= At(UpdatedMatrix(mc, rows)[q], n) {
        assert Cell(UpdatedMatrix(mc, rows), q, n) >= Cell(mc, q, n);
      }
    }
  }

  /** A report that says nothing new about a known row leaves every row as it was. */
  lemma OldReportsChangeNothing(mc: MatrixClock, rows: MatrixClock)
    requires forall q :: q in rows ==> q in mc && Leq(rows[q], mc[q])
    ensures UpdatedMatrix(mc, rows).Keys == mc.Keys
    ensures forall q :: q in mc ==> Same(UpdatedMatrix(mc, rows)[q], mc[q])
  {
    UpdateIsMax(mc, rows);
    forall q | q in mc ensures Same(UpdatedMatrix(mc, rows)[q], mc[q]) {
      forall n ensures At(UpdatedMatrix(mc, rows)[q], n) == At(mc[q], n) {
        assert Cell(UpdatedMatrix(mc, rows), q, n) == Max(Cell(mc, q, n), Cell(rows, q, n));
        assert q in rows ==> At(rows[q], n) <= At(mc[q], n);
      }
    }
  }

  ghost predicate SameMatrices(s: System, s': System) {
    forall p :: p in s.reps ==> p in s'.reps && s'.reps[p].core.matrix == s.reps[p].core.matrix
  }

  /** Only the matrix of `p` changes. */
  lemma OneMatrixGrows(s: System, s': System, p: NodeId)
    requires p in s.reps && p in s'.reps && s'.reps == s.reps[p := s'.reps[p]]
    requires MatrixGrows(s.reps[p].core.matrix, s'.reps[p].core.matrix)
    ensures RowsGrow(s, s')
  {
    hide MatrixGrows;
    forall q | q in s.reps ensures MatrixGrows(s.reps[q].core.matrix, s'.reps[q].core.matrix) {
      MatrixGrowsReflexive(s.reps[q].core.matrix);
    }
  }

  lemma DeliverGrowsRows(s: System, m: Envelope)
    requires m.CrdtOp? && m.to in s.reps
    ensures RowsGrow(s, Delivering(s, m))
  {
    hide RowsGrow, MatrixGrows, RiddenRequest, UpdatedMatrix;
    var c := s.reps[m.to].core;
    MatrixGrowsReflexive(c.matrix);
    if m.rows.Some? { UpdateGrows(c.matrix, m.rows.value); }
    OneMatrixGrows(s, Delivering(s, m), m.to);
  }

  lemma ServeGrowsRows(s: System, m: Envelope, peerIsGc: bool, peers: set<NodeId>)
    requires m.PullRequest? && m.to in s.reps
    ensures RowsGrow(s, Serving(s, m, peerIsGc, peers))
  {
    hide RowsGrow, MatrixGrows, ReplyTo, Respond, UpdatedMatrix;
    var c := s.reps[m.to].core;
    MatrixGrowsReflexive(c.matrix);
    UpdateGrows(c.matrix, map[m.origin := m.knowledge]);
    OneMatrixGrows(s, Serving(s, m, peerIsGc, peers), m.to);
  }

  lemma ObserveGrowsRows(s: System, p: NodeId)
    requires ClocksOk(s) && p in s.reps
    ensures RowsGrow(s, Observing(s, p))
  {
    hide ClocksOk, RowsGrow, MatrixGrows, Forget, Collected;
    NobodyStoredObsolete(s);
    ForgetNobody(s.reps[p].core);
    MatrixGrowsReflexive(s.reps[p].core.matrix);
    OneMatrixGrows(s, Observing(s, p), p);
  }

  lemma GatherGrowsRows(s: System, p: NodeId, listing: seq<NodeId>, order: seq<NodeId>)
    requires ClocksOk(s) && p in s.reps && s.reps[p].gc.Confirmed? && NodesIn(listing) == s.reps[p].gc.m1
    ensures RowsGrow(s, Gathering(s, p, listing, order))
  {
    hide ClocksOk, RowsGrow, MatrixGrows, Forget, Collected, Finding, VvLeq, Join;
    FindsNobodyObsolete(s, p, listing, order);
    ForgetNobody(s.reps[p].core);
    MatrixGrowsReflexive(s.reps[p].core.matrix);
    OneMatrixGrows(s, Gathering(s, p, listing, order), p);
  }

  /** Only one replica moves, and not its matrix. */
  lemma OneKeepsMatrix(s: System, s': System, p: NodeId)
    requires p in s'.reps && s'.reps == s.reps[p := s'.reps[p]]
    requires p in s.reps ==> s'.reps[p].core.matrix == s.reps[p].core.matrix
    ensures SameMatrices(s, s')
  {
  }

  lemma LocalKeepsMatrices(s: System, step: Step)
    requires Enabled(s, step)
    requires step.Register? || step.Bootstrap? || step.Client? || step.Advertise? || step.Lose?
    ensures SameMatrices(s, Apply(s, step))
  {
    hide SameMatrices, Delivering, Serving, Observing, Gathering, EventOf, Evented, BootNext, Merged, MergedSet,
         Applied;
    if step.Lose? || step.Advertise? {
      assert Apply(s, step).reps == s.reps;
      SameReps(s, Apply(s, step));
    } else {
      OneKeepsMatrix(s, Apply(s, step), step.p);
    }
  }

  lemma SameReps(s: System, s': System)
    requires s'.reps == s.reps
    ensures SameMatrices(s, s')
  {
  }

  lemma IntentStepsKeepMatrices(s: System, step: Step)
    requires Enabled(s, step)
    requires step.GcReadEpoch? || step.GcReadMembers? || step.GcClaim? || step.GcConfirm? || step.GcRelease?
    ensures SameMatrices(s, Apply(s, step))
  {
    hide SameMatrices, Claiming, Confirming;
    if step.GcClaim? {
      ClaimKeepsMatrices(s, step.p);
    } else if step.GcConfirm? {
      ConfirmKeepsMatrices(s, step.p);
    } else {
      OneKeepsMatrix(s, Apply(s, step), step.p);
    }
  }

  lemma ClaimKeepsMatrices(s: System, p: NodeId)
    requires p in s.reps && s.reps[p].gc.MembersRead?
    ensures SameMatrices(s, Claiming(s, p))
  {
    hide SameMatrices;
    OneKeepsMatrix(s, Claiming(s, p), p);
  }

  lemma ConfirmKeepsMatrices(s: System, p: NodeId)
    requires p in s.reps && s.reps[p].gc.Claimed?
    ensures SameMatrices(s, Confirming(s, p))
  {
    hide SameMatrices, NewMemberExists;
    OneKeepsMatrix(s, Confirming(s, p), p);
  }

  lemma WritesKeepMatrices(s: System, step: Step)
    requires Enabled(s, step) && (step.GcWriteState? || step.GcWriteMetadata?)
    ensures SameMatrices(s, Apply(s, step))
  {
    hide SameMatrices, Snapshot;
    OneKeepsMatrix(s, Apply(s, step), step.p);
  }

  lemma GcStepsKeepMatrices(s: System, step: Step)
    requires Enabled(s, step) && IsGcStep(step) && !step.GcCollect?
    ensures SameMatrices(s, Apply(s, step))
  {
    hide Apply, Enabled, SameMatrices;
    if step.GcWriteState? || step.GcWriteMetadata? {
      WritesKeepMatrices(s, step);
    } else {
      IntentStepsKeepMatrices(s, step);
    }
  }

  lemma SameMatricesGrow(s: System, s': System)
    requires SameMatrices(s, s')
    ensures RowsGrow(s, s')
  {
  }

  lemma StepGrowsRows(s: System, step: Step)
    requires ClocksOk(s) && Enabled(s, step)
    ensures RowsGrow(s, Apply(s, step))
  {
    hide ClocksOk, RowsGrow, SameMatrices;
    match step
    case Deliver(m) => DeliverGrowsRows(s, m);
    case Serve(m, peerIsGc, peers) => ServeGrowsRows(s, m, peerIsGc, peers);
    case Observe(p) => ObserveGrowsRows(s, p);
    case GcCollect(p, listing, order) => GatherGrowsRows(s, p, listing, order);
    case _ => RestGrowsRows(s, step);
  }

  lemma RestGrowsRows(s: System, step: Step)
    requires Enabled(s, step) && !step.Deliver? && !step.Serve? && !step.Observe? && !step.GcCollect?
    ensures RowsGrow(s, Apply(s, step))
  {
    hide Apply, Enabled, RowsGrow, SameMatrices;
    if IsGcStep(step) { GcStepsKeepMatrices(s, step); } else { LocalKeepsMatrices(s, step); }
    SameMatricesGrow(s, Apply(s, step));
  }

  /** In every run, whatever arrives late, twice or out of order, no row held falls. */
  lemma {:induction false} RowsNeverFall(steps: seq<Step>, i: nat, p: NodeId, q: NodeId)
    requires IsExecution(steps) && i <= |steps| && IsExecution(steps[..i])
    requires p in End(steps[..i]).reps && q in End(steps[..i]).reps[p].core.matrix
    ensures p in End(steps).reps && q in End(steps).reps[p].core.matrix
    ensures Leq(End(steps[..i]).reps[p].core.matrix[q], End(steps).reps[p].core.matrix[q])
  {
    hide ClocksOk, Grounded, Apply, Enabled, Leq;
    if i == |steps| {
      assert steps[..i] == steps;
      LeqReflexive(End(steps).reps[p].core.matrix[q]);
    } else {
      var front := steps[..|steps| - 1];
      assert front[..i] == steps[..i];
      RowsNeverFall(front, i, p, q);
      ExecutionIsGrounded(front);
      assert ClocksOk(End(front)) by { GroundedClocks(End(front)); }
      StepGrowsRows(End(front), steps[|steps| - 1]);
      LeqTransitive(End(steps[..i]).reps[p].core.matrix[q], End(front).reps[p].core.matrix[q],
                    End(steps).reps[p].core.matrix[q]);
    }
  }

  lemma GroundedClocks(s: System)
    requires Grounded(s)
    ensures ClocksOk(s)
  {
  }

  // ---- rows arrive ----

  /** A clock that is advertised to a GC replica, and served there, is in its matrix. */
  lemma AdvertisedClockIsLearned(s: System, p: NodeId, to: NodeId, peerIsGc: bool, peers: set<NodeId>)
    requires IsReady(s, p) && IsReady(s, to) && p != to && s.reps[to].core.gcReplica
    ensures var t := Execute(s, [Advertise(p, to), Serve(PullRequest(p, to, Clock(s.reps[p].core)), peerIsGc, peers)]);
            && t.Some? && to in t.value.reps && p in t.value.reps[to].core.matrix
            && Leq(Clock(s.reps[p].core), t.value.reps[to].core.matrix[p])
  {
    hide ReplyTo, Respond, AfterRequest, Leq, Clock;
    var v := Clock(s.reps[p].core);
    var m := PullRequest(p, to, v);
    var s1 := Send(s, Some(m));
    assert Apply(s, Advertise(p, to)) == s1;
    ExecuteFirst(s, Advertise(p, to), [Serve(m, peerIsGc, peers)]);
    Execute1(s1, Serve(m, peerIsGc, peers));
    assert [Advertise(p, to)] + [Serve(m, peerIsGc, peers)] == [Advertise(p, to), Serve(m, peerIsGc, peers)];
    hide Execute;
    RequestRaisesRow(s.reps[to].core, p, v);
  }

  lemma RequestRaisesRow(c: Core, from: NodeId, known: VersionVector)
    requires c.gcReplica
    ensures var after := AfterRequest(c, from, known).matrix; from in after && Leq(known, after[from])
  {
    RequestTeachesRow(c, from, known);
    var after := AfterRequest(c, from, known).matrix;
    forall n ensures At(known, n) <= At(after[from], n) { assert Cell(after, from, n) >= At(known, n); }
  }

  /** An exchange between GC replicas teaches the requester every row that the responder
      has of its registered peers, and the responder the requester's own clock. */
  lemma ExchangeTeachesRows(a: Core, b: Core, va: View, vb: View)
    requires a.gcReplica && b.gcReplica && vb.peerIsGc && a.id != b.id
    ensures var (a', b') := Exchange(a, b, va, vb);
            && (forall p, n :: p in vb.peers ==> Cell(a'.matrix, p, n) >= Cell(b.matrix, p, n))
            && (forall n :: Cell(b'.matrix, a.id, n) >= At(Clock(a), n))
  {
    hide Exchange, ReplyTo, AfterDelta, AfterRequest, Received, Cell, Clock;
    var b1 := AfterRequest(b, a.id, Clock(a));
    var r := ReplyTo(b1, Clock(a), vb.peerIsGc, vb.peers);
    var a1 := if r.delta.Some? then AfterDelta(a, r.delta.value, r.rows) else a;
    ExchangeUnfolds(a, b, va, vb);
    RequestCells(b, a.id, Clock(a));
    ReplyCarriesRows(b1, Clock(a), vb.peerIsGc, vb.peers);
    GcStays(b, a.id, Clock(a));
    if r.delta.Some? { DeltaCells(a, r.delta.value, r.rows); }
    RowsCells(b1.matrix, r.rows.value, vb.peers);
    assert forall p, n :: p in vb.peers ==> Cell(a1.matrix, p, n) >= Cell(b1.matrix, p, n);
    if r.ask.Some? && !(r.delta.Some? && r.ask.value == map[]) {
      var a2 := AfterRequest(a1, b.id, r.ask.value);
      RequestCells(a1, b.id, r.ask.value);
      var r2 := ReplyTo(a2, r.ask.value, va.peerIsGc, va.peers);
      ReceivedCells(b1, Respond(a.id, b.id, r2, r.ask.value), vb);
    }
  }

  lemma RequestCells(c: Core, from: NodeId, known: VersionVector)
    ensures forall p, n :: Cell(AfterRequest(c, from, known).matrix, p, n) >= Cell(c.matrix, p, n)
    ensures c.gcReplica ==> forall n :: Cell(AfterRequest(c, from, known).matrix, from, n) >= At(known, n)
  {
    RequestTeachesRow(c, from, known);
  }

  lemma GcStays(c: Core, from: NodeId, known: VersionVector)
    ensures AfterRequest(c, from, known).gcReplica == c.gcReplica
  {
  }

  lemma DeltaCells(c: Core, d: Delta, rows: Option<MatrixClock>)
    ensures forall p, n :: Cell(AfterDelta(c, d, rows).matrix, p, n) >= Cell(c.matrix, p, n)
    ensures c.gcReplica && rows.Some? ==>
              forall p, n :: Cell(AfterDelta(c, d, rows).matrix, p, n) >= Cell(rows.value, p, n)
  {
    DeltaTeachesRows(c, d, rows);
  }

  lemma RowsCells(mc: MatrixClock, rows: MatrixClock, peers: set<NodeId>)
    requires forall p :: p in rows <==> p in peers && p in mc
    requires forall p :: p in rows ==> rows[p] == mc[p]
    ensures forall p, n :: p in peers ==> Cell(rows, p, n) == Cell(mc, p, n)
  {
  }

  /** Handling an envelope lowers no row. */
  lemma ReceivedCells(c: Core, m: Option<Envelope>, view: View)
    ensures forall p, n :: Cell(Received(c, m, view).0.matrix, p, n) >= Cell(c.matrix, p, n)
  {
    hide Cell;
    if m.Some? { HandledAllCells(c, RequestsOf(m.value), view); }
  }

  lemma {:induction false} HandledAllCells(c: Core, reqs: seq<EngineRequest>, view: View)
    ensures forall p, n :: Cell(HandledAll(c, reqs, view).0.matrix, p, n) >= Cell(c.matrix, p, n)
    decreases |reqs|
  {
    hide Cell, AfterDelta, AfterRequest, ReplyTo, Respond;
    if reqs != [] {
      HandledAllCells(Handled(c, reqs[0], view).0, reqs[1..], view);
      match reqs[0]
      case DeltaResponse(_, d, rows) => DeltaCells(c, d, rows);
      case DeltaRequest(from, k) => RequestCells(c, from, k);
    }
  }
}
