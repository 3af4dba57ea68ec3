/** All replicas, the network and the shared store as one transition system.  Replicas
    join at any time; messages are lost, repeated, delayed and reordered; any GC replica
    may initiate a collection, one storage operation at a time. */
module Systems {
  import opened Clocks
  import opened DotVersionVectors
  import opened OrSets
  import opened Histories
  import opened StableTimestamps
  import opened Replicas

  /** Where a replica stands in initiating GC epoch `n`.  While it is not idle it serves
      no other request. */
  datatype GcPhase =
    | Idle
    | EpochRead(n: nat, prev: VersionVector)
    | MembersRead(n: nat, prev: VersionVector, m0: set<NodeId>)
    | Claimed(n: nat, prev: VersionVector, m0: set<NodeId>)
    | Confirmed(n: nat, prev: VersionVector, m1: set<NodeId>)
    | Gathered(n: nat, frontier: VersionVector, obsolete: set<NodeId>, m1: set<NodeId>)
    | StateWritten(n: nat, frontier: VersionVector, obsolete: set<NodeId>, m1: set<NodeId>)
    | Releasing(n: nat)

  /** `collected` (the join of the frontiers collected under) and `joinedAt` (the epoch
      adopted at bootstrap) are history variables. */
  datatype Replica = Replica(core: Core, boot: Boot, gc: GcPhase, collected: VersionVector, joinedAt: nat)

  datatype Commit = Commit(frontier: VersionVector, members: set<NodeId>)

  /** `history`, `stable` (the join of all frontiers any initiator collected under),
      `snapCollected` (what the stored snapshot's author had collected) and `commits`
      are history variables. */
  datatype System = System(
    reps: map<NodeId, Replica>,
    net: set<Envelope>,
    store: Store,
    history: History,
    stable: VersionVector,
    snapCollected: VersionVector,
    commits: map<nat, Commit>)

  const INITIAL := System(map[], {}, EMPTY_STORE, map[], map[], map[], map[])

  datatype Step =
    | Register(p: NodeId, gcReplica: bool)
    | Bootstrap(p: NodeId)
    | Client(p: NodeId, op: Op)
    | Advertise(p: NodeId, to: NodeId)
    | Deliver(m: Envelope)
    | Serve(m: Envelope, peerIsGc: bool, peers: set<NodeId>)
    | Lose(m: Envelope)
    | Observe(p: NodeId)
    | GcReadEpoch(p: NodeId)
    | GcReadMembers(p: NodeId)
    | GcClaim(p: NodeId)
    | GcConfirm(p: NodeId)
    | GcCollect(p: NodeId, listing: seq<NodeId>, order: seq<NodeId>)
    | GcWriteState(p: NodeId)
    | GcWriteMetadata(p: NodeId)
    | GcRelease(p: NodeId)

  predicate IsActive(s: System, p: NodeId) {
    p in s.reps && s.reps[p].boot.Active?
  }

  /** Ready to take the next engine request. */
  predicate IsReady(s: System, p: NodeId) {
    IsActive(s, p) && s.reps[p].gc.Idle?
  }

  predicate Enabled(s: System, step: Step) {
    match step
    case Register(p, _) => p !in s.reps
    case Bootstrap(p) => p in s.reps && !s.reps[p].boot.Active?
    case Client(p, _) => IsReady(s, p)
    case Advertise(p, _) => IsReady(s, p)
    case Deliver(m) => m in s.net && m.CrdtOp? && IsReady(s, m.to)
    case Serve(m, _, _) => m in s.net && m.PullRequest? && IsReady(s, m.to)
    case Lose(m) => m in s.net
    case Observe(p) => IsReady(s, p)
    case GcReadEpoch(p) => IsReady(s, p)
    case GcReadMembers(p) => p in s.reps && s.reps[p].gc.EpochRead?
    case GcClaim(p) => p in s.reps && s.reps[p].gc.MembersRead?
    case GcConfirm(p) => p in s.reps && s.reps[p].gc.Claimed?
    case GcCollect(p, listing, order) =>
      && p in s.reps && s.reps[p].gc.Confirmed?
      && NodesIn(listing) == s.reps[p].gc.m1
    case GcWriteState(p) => p in s.reps && s.reps[p].gc.Gathered?
    case GcWriteMetadata(p) => p in s.reps && s.reps[p].gc.StateWritten?
    case GcRelease(p) => p in s.reps && s.reps[p].gc.Releasing?
  }

  function SetReplica(s: System, p: NodeId, r: Replica): System {
    s.(reps := s.reps[p := r])
  }

  function SetCore(s: System, p: NodeId, c: Core): System
    requires p in s.reps
  {
    SetReplica(s, p, s.reps[p].(core := c))
  }

  function SetPhase(s: System, p: NodeId, g: GcPhase): System
    requires p in s.reps
  {
    SetReplica(s, p, s.reps[p].(gc := g))
  }

  function Send(s: System, m: Option<Envelope>): System {
    if m.Some? then s.(net := s.net + {m.value}) else s
  }

  function Registering(s: System, p: NodeId, gcReplica: bool): System {
    SetReplica(s, p, Replica(NewCore(p, gcReplica), Registered, Idle, map[], 0))
  }

  function Bootstrapping(s: System, p: NodeId): System
    requires p in s.reps
  {
    var r := s.reps[p];
    var b := BootNext(r.boot, s.store);
    if b.Active? then
      SetReplica(s, p, r.(core := Adopted(r.core, s.store.state), boot := b,
                          collected := s.snapCollected, joinedAt := s.store.state.epoch))
    else SetReplica(s, p, r.(boot := b))
  }

  function Operating(s: System, p: NodeId, op: Op): System
    requires p in s.reps
  {
    var c := s.reps[p].core;
    SetCore(s, p, Operated(c, op)).(history := s.history[Evented(c.dvv).dot := EventOf(c.orset, op)])
  }

  function Delivering(s: System, m: Envelope): System
    requires m.CrdtOp? && m.to in s.reps
  {
    var s' := SetCore(s, m.to, AfterDelta(s.reps[m.to].core, m.delta, m.rows));
    Send(s', if RiddenRequest(m.origin, m.requester) != []
             then Some(PullRequest(m.origin, m.to, m.requester.value)) else None)
  }

  function Serving(s: System, m: Envelope, peerIsGc: bool, peers: set<NodeId>): System
    requires m.PullRequest? && m.to in s.reps
  {
    var c := AfterRequest(s.reps[m.to].core, m.origin, m.knowledge);
    Send(SetCore(s, m.to, c), Respond(m.to, m.origin, ReplyTo(c, m.knowledge, peerIsGc, peers), m.knowledge))
  }

  function Observing(s: System, p: NodeId): System
    requires p in s.reps
  {
    var r := s.reps[p];
    if s.store.metadata.epoch <= r.core.epoch then s
    else SetReplica(s, p, r.(core := Observed(r.core, s.store.metadata),
                             collected := Join(r.collected, s.store.metadata.vStable)))
  }

  function Claiming(s: System, p: NodeId): System
    requires p in s.reps && s.reps[p].gc.MembersRead?
  {
    var g := s.reps[p].gc;
    if g.n in s.store.intents then SetPhase(s, p, Idle)
    else SetPhase(s.(store := s.store.(intents := s.store.intents[g.n := p])), p, Claimed(g.n, g.prev, g.m0))
  }

  function Confirming(s: System, p: NodeId): System
    requires p in s.reps && s.reps[p].gc.Claimed?
  {
    var g := s.reps[p].gc;
    var m1 := s.reps.Keys;
    if NewMemberExists(g.m0, m1) then SetPhase(s, p, Releasing(g.n))
    else SetPhase(s, p, Confirmed(g.n, g.prev, m1))
  }

  /** No replica departs, so there are no final dots to read. */
  function Gathering(s: System, p: NodeId, listing: seq<NodeId>, order: seq<NodeId>): System
    requires p in s.reps && s.reps[p].gc.Confirmed?
  {
    var r := s.reps[p];
    var (v, obsolete) := Finding(r.core, listing, order, map[]);
    if VvLeq(v, r.gc.prev) then SetPhase(s, p, Releasing(r.gc.n))
    else
      SetReplica(s, p, r.(core := Initiated(r.core, v, obsolete),
                          gc := Gathered(r.gc.n, v - obsolete, obsolete, r.gc.m1),
                          collected := Join(r.collected, v - obsolete)))
        .(stable := Join(s.stable, v - obsolete))
  }

  function WritingState(s: System, p: NodeId): System
    requires p in s.reps && s.reps[p].gc.Gathered?
  {
    var r := s.reps[p];
    SetPhase(s, p, StateWritten(r.gc.n, r.gc.frontier, r.gc.obsolete, r.gc.m1))
      .(store := s.store.(state := Snapshot(r.core, r.gc.n)), snapCollected := r.collected)
  }

  function WritingMetadata(s: System, p: NodeId): System
    requires p in s.reps && s.reps[p].gc.StateWritten?
  {
    var r := s.reps[p];
    SetReplica(s, p, r.(core := r.core.(epoch := r.gc.n), gc := Releasing(r.gc.n)))
      .(store := s.store.(metadata := EpochMetadata(r.gc.n, r.gc.frontier, r.gc.obsolete)),
        commits := s.commits[r.gc.n := Commit(r.gc.frontier, r.gc.m1)])
  }

  function Apply(s: System, step: Step): System
    requires Enabled(s, step)
  {
    match step
    case Register(p, gcReplica) => Registering(s, p, gcReplica)
    case Bootstrap(p) => Bootstrapping(s, p)
    case Client(p, op) => Operating(s, p, op)
    case Advertise(p, to) => Send(s, Some(PullRequest(p, to, Clock(s.reps[p].core))))
    case Deliver(m) => Delivering(s, m)
    case Serve(m, peerIsGc, peers) => Serving(s, m, peerIsGc, peers)
    case Lose(m) => s.(net := s.net - {m})
    case Observe(p) => Observing(s, p)
    case GcReadEpoch(p) => SetPhase(s, p, EpochRead(s.store.metadata.epoch + 1, s.store.metadata.vStable))
    case GcReadMembers(p) => SetPhase(s, p, MembersRead(s.reps[p].gc.n, s.reps[p].gc.prev, s.reps.Keys))
    case GcClaim(p) => Claiming(s, p)
    case GcConfirm(p) => Confirming(s, p)
    case GcCollect(p, listing, order) => Gathering(s, p, listing, order)
    case GcWriteState(p) => WritingState(s, p)
    case GcWriteMetadata(p) => WritingMetadata(s, p)
    case GcRelease(p) => SetPhase(s.(store := s.store.(intents := s.store.intents - {s.reps[p].gc.n})), p, Idle)
  }

  // ---- what the code does not enforce ----

  /** Every delta in flight to `p` was built by a sender that had seen `frontier`, or
      that had seen nothing at all. */
  ghost predicate InFlightCovers(s: System, p: NodeId, frontier: VersionVector) {
    forall m :: m in s.net && m.CrdtOp? && m.to == p ==> SeenEnough(frontier, DeltaClock(m.delta))
  }

  /** No delta that a collection would leave unguarded is in flight when it happens. */
  ghost predicate InFlightMet(s: System, step: Step)
    requires Enabled(s, step)
  {
    match step
    case Observe(p) =>
      s.store.metadata.epoch > s.reps[p].core.epoch ==> InFlightCovers(s, p, s.store.metadata.vStable)
    case GcCollect(p, listing, order) =>
      var v := Finding(s.reps[p].core, listing, order, map[]).0;
      !VvLeq(v, s.reps[p].gc.prev) ==> InFlightCovers(s, p, v)
    case _ => true
  }

  /** A claim of epoch n that succeeds meets epoch n - 1. */
  ghost predicate ClaimMet(s: System, step: Step)
    requires Enabled(s, step)
  {
    match step
    case GcClaim(p) =>
      s.reps[p].gc.n !in s.store.intents ==> s.reps[p].gc.n == s.store.metadata.epoch + 1
    case _ => true
  }

  /** Which of the two a run is taken to meet. */
  datatype Hypotheses = Hypotheses(inFlight: bool, claims: bool)

  const BOTH := Hypotheses(true, true)

  ghost predicate Assumed(s: System, step: Step, h: Hypotheses)
    requires Enabled(s, step)
  {
    (h.inFlight ==> InFlightMet(s, step)) && (h.claims ==> ClaimMet(s, step))
  }

  // ---- runs ----

  /** Where the steps lead, if each is enabled. */
  function After(steps: seq<Step>): Option<System> {
    if steps == [] then Some(INITIAL)
    else
      var before := After(steps[..|steps| - 1]);
      if before.Some? && Enabled(before.value, steps[|steps| - 1])
      then Some(Apply(before.value, steps[|steps| - 1])) else None
  }

  /** A run of the code, under no hypothesis. */
  predicate IsExecution(steps: seq<Step>) {
    After(steps).Some?
  }

  function End(steps: seq<Step>): System
    requires IsExecution(steps)
  {
    After(steps).value
  }

  /** A run of the code under the given hypotheses. */
  ghost predicate IsRun(steps: seq<Step>, h: Hypotheses)
    ensures IsRun(steps, h) ==> IsExecution(steps)
  {
    steps != [] ==>
      var before := After(steps[..|steps| - 1]);
      && IsRun(steps[..|steps| - 1], h)
      && before.Some? && Enabled(before.value, steps[|steps| - 1])
      && Assumed(before.value, steps[|steps| - 1], h)
  }
}
