/** One replica as a value: what each request does to the clock, the set, the matrix and
    the epoch, and what it puts on the wire. */
module Replicas {
  import opened Clocks
  import opened DotVersionVectors
  import opened OrSets
  import opened StableTimestamps

  // ---- the shared store ----

  datatype EpochMetadata = EpochMetadata(epoch: nat, vStable: VersionVector, obsolete: set<NodeId>)

  datatype EpochState = EpochState(epoch: nat, initiatorClock: VersionVector, payload: Delta)

  /** Intent objects are keyed by the epoch they claim. */
  datatype Store = Store(metadata: EpochMetadata, state: EpochState, intents: map<nat, NodeId>)

  /** What reads return while nothing has been written. */
  const EMPTY_STORE := Store(EpochMetadata(0, map[], {}), EpochState(0, map[], EMPTY_DELTA), map[])

  // ---- the replica ----

  datatype Core = Core(id: NodeId, gcReplica: bool, dvv: Dvv, orset: SetState, matrix: MatrixClock, epoch: nat)

  function NewCore(id: NodeId, gcReplica: bool): Core {
    Core(id, gcReplica, NewDvv(id), EMPTY_SET, map[], 0)
  }

  function Clock(c: Core): VersionVector {
    EffectiveMap(c.dvv)
  }

  function Operated(c: Core, op: Op): Core {
    var dvv := Evented(c.dvv);
    c.(dvv := dvv, orset := Applied(c.orset, dvv.dot, op))
  }

  function Informed(c: Core, rows: MatrixClock): Core {
    if c.gcReplica then c.(matrix := UpdatedMatrix(c.matrix, rows)) else c
  }

  function InformedBy(c: Core, rows: Option<MatrixClock>): Core {
    if rows.Some? then Informed(c, rows.value) else c
  }

  function AfterDelta(c: Core, d: Delta, rows: Option<MatrixClock>): Core {
    InformedBy(c, rows).(orset := MergedSet(c.orset, d.adds, d.tombs), dvv := Merged(c.dvv, DeltaClock(d)))
  }

  function AfterRequest(c: Core, from: NodeId, known: VersionVector): Core {
    Informed(c, map[from := known])
  }

  datatype Reply = Reply(delta: Option<Delta>, rows: Option<MatrixClock>, ask: Option<VersionVector>)

  function KnowledgeMatrix(c: Core, peers: set<NodeId>): Option<MatrixClock> {
    if c.gcReplica then Some(map p | p in peers && p in c.matrix :: c.matrix[p]) else None
  }

  function ClockDeltaIsEmpty(c: Core, known: VersionVector): bool {
    DvvDelta(c.dvv, known).dot.counter == 0 && DvvDelta(c.dvv, known).context == map[]
  }

  /** The answer to a pull request.  `peerIsGc` is what the registry says of the requester,
      `peers` the registered replicas that do no GC. */
  function ReplyTo(c: Core, known: VersionVector, peerIsGc: bool, peers: set<NodeId>): Reply {
    Reply(
      if (c.gcReplica && peerIsGc) || !ClockDeltaIsEmpty(c, known) then Some(DeltaFor(c.orset, c.dvv, known)) else None,
      if peerIsGc then KnowledgeMatrix(c, peers) else None,
      if VvLeq(known, Clock(c)) then None else Some(Clock(c)))
  }

  function Forget(c: Core, gone: set<NodeId>): Core {
    c.(dvv := c.dvv.(context := c.dvv.context - gone),
       matrix := if c.gcReplica then WithoutNodes(c.matrix, gone) else c.matrix)
  }

  function Observed(c: Core, m: EpochMetadata): Core {
    if m.epoch <= c.epoch then c
    else Forget(c.(orset := Collected(c.orset, FrontierDvv(c.id, m.vStable)), epoch := m.epoch), m.obsolete)
  }

  /** What an initiator finds stable: the timestamp and the obsolete nodes. */
  function Finding(c: Core, members: seq<NodeId>, order: seq<NodeId>, finalDots: map<NodeId, nat>)
    : (VersionVector, set<NodeId>)
  {
    Stable(c.id, members, order, if c.gcReplica then Some(c.matrix) else None, finalDots, Clock(c))
  }

  /** The local half of a GC that goes through. */
  function Initiated(c: Core, vStable: VersionVector, obsolete: set<NodeId>): Core {
    var forgot := Forget(c, obsolete);
    forgot.(orset := Collected(c.orset, FrontierDvv(c.id, vStable - obsolete)))
  }

  function Snapshot(c: Core, n: nat): EpochState {
    EpochState(n, Clock(c), FullDelta(c.orset, c.dvv))
  }

  function Adopted(c: Core, s: EpochState): Core {
    c.(orset := MergedSet(c.orset, s.payload.adds, s.payload.tombs),
       dvv := Merged(c.dvv, EffectiveMap(FrontierDvv(c.id, s.initiatorClock))),
       epoch := s.epoch)
  }

  // ---- bootstrap, one storage read at a time ----

  datatype Boot =
    | Registered
    | MetadataRead(epoch: nat)
    | Polling(epoch: nat)
    | Polled(epoch: nat, seen: nat)
    | Settled(epoch: nat)
    | Active

  function BootNext(b: Boot, st: Store): Boot {
    match b
    case Registered => MetadataRead(st.metadata.epoch)
    case MetadataRead(e) => if e + 1 in st.intents then Polling(e) else Settled(e)
    case Polling(e) => Polled(e, st.metadata.epoch)
    case Polled(e, seen) => if seen > e || e + 1 !in st.intents then Settled(seen) else Polling(e)
    case Settled(e) => if st.state.epoch == e then Active else Settled(e)
    case Active => Active
  }

  // ---- the wire ----

  /** `since` is a history variable: the knowledge the delta was computed against.  It is
      not transmitted. */
  datatype Envelope =
    | CrdtOp(origin: NodeId, to: NodeId, delta: Delta, rows: Option<MatrixClock>,
             requester: Option<VersionVector>, since: VersionVector)
    | PullRequest(origin: NodeId, to: NodeId, knowledge: VersionVector)

  /** Push-pull: a request rides on the delta when both are due. */
  function Respond(origin: NodeId, to: NodeId, r: Reply, since: VersionVector): Option<Envelope> {
    match (r.delta, r.ask)
    case (Some(d), ask) => Some(CrdtOp(origin, to, d, r.rows, ask, since))
    case (None, Some(k)) => Some(PullRequest(origin, to, k))
    case (None, None) => None
  }

  datatype EngineRequest =
    | DeltaResponse(from: NodeId, delta: Delta, rows: Option<MatrixClock>)
    | DeltaRequest(from: NodeId, knowledge: VersionVector)

  /** What one received envelope asks of the engine: the delta first, then the request
      that came with it, unless that is empty. */
  function RequestsOf(m: Envelope): seq<EngineRequest> {
    match m
    case CrdtOp(origin, _, d, rows, requester, _) =>
      [DeltaResponse(origin, d, rows)] + RiddenRequest(origin, requester)
    case PullRequest(origin, _, k) => [DeltaRequest(origin, k)]
  }

  function RiddenRequest(origin: NodeId, requester: Option<VersionVector>): seq<EngineRequest> {
    if requester.Some? && requester.value != map[] then [DeltaRequest(origin, requester.value)] else []
  }
}
