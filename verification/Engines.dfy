/** The replication engine: one request at a time, each handler mutating the clock, the set
    and the matrix and appending to the outbox.  Each is specified by a function of
    `Replicas`; the transition system takes its steps with those same functions. */
module Engines {
  import opened Clocks
  import opened DotVersionVectors
  import opened OrSets
  import opened StableTimestamps
  import opened Replicas
  import opened Laws
  import opened Coordinators

  class CrdtEngine {
    const nodeId: NodeId
    const crdtId: string
    const gc: GcCoordinator
    const crdt: OrSet
    const dvv: DotVersionVector
    var outbox: seq<Envelope>

    ghost predicate Valid()
      reads this, crdt, dvv
    {
      crdt.Valid() && dvv.dot.node == nodeId
    }

    ghost function Value(): Core
      reads this, gc, crdt, dvv
    {
      gc.CoreOf(nodeId, crdt, dvv)
    }

    constructor (nodeId: NodeId, crdtId: string, storage: GcStorage, gcReplica: bool)
      ensures Valid() && Value() == NewCore(nodeId, gcReplica) && outbox == []
      ensures this.nodeId == nodeId && this.crdtId == crdtId && gc.storage == storage
      ensures fresh(gc) && fresh(crdt) && fresh(dvv)
    {
      this.nodeId := nodeId;
      this.crdtId := crdtId;
      gc := new GcCoordinator(storage, gcReplica);
      crdt := new OrSet();
      dvv := new DotVersionVector(nodeId);
      outbox := [];
    }

    /** Advertise the clock to a random peer, if there is any. */
    method PushVersionVector(peer: Option<NodeId>)
      modifies this`outbox
      ensures outbox == old(outbox) + if peer.Some? then [PullRequest(nodeId, peer.value, Clock(Value()))] else []
    {
      if peer.Some? {
        outbox := outbox + [PullRequest(nodeId, peer.value, dvv.EffectiveMapNow())];
      }
    }

    method ClientOperation(op: Op, peer: Option<NodeId>)
      requires Valid()
      modifies this`outbox, crdt, dvv
      ensures Valid() && Value() == Operated(old(Value()), op)
      ensures outbox == old(outbox) + if peer.Some? then [PullRequest(nodeId, peer.value, Clock(Value()))] else []
    {
      dvv.Event();
      crdt.ApplyLocal(Dot(dvv.dot.node, dvv.dot.counter), op);
      PushVersionVector(peer);
    }

    /** `delta` is `None` when the payload cannot be decoded. */
    method ServerDelta(id: string, delta: Option<OrSetDelta>, rows: Option<MatrixClock>, peer: Option<NodeId>)
      requires Valid()
      modifies this`outbox, gc`matrix, crdt, dvv
      ensures Valid()
      ensures id == crdtId && delta.Some? ==>
                && Value() == AfterDelta(old(Value()), Meaning(delta.value), rows)
                && outbox == old(outbox) + if peer.Some? then [PullRequest(nodeId, peer.value, Clock(Value()))] else []
      ensures id != crdtId || delta.None? ==> Value() == old(Value()) && outbox == old(outbox)
      ensures id == crdtId && delta.Some? ==>
                && (forall n :: At(Clock(Value()), n)
                             == Max(At(old(Clock(Value())), n), At(DeltaClock(Meaning(delta.value)), n)))
                && (gc.gcReplica && rows.Some? ==>
                      forall p, n :: Cell(gc.matrix, p, n) == Max(Cell(old(gc.matrix), p, n), Cell(rows.value, p, n)))
                && (!gc.gcReplica || rows.None? ==> gc.matrix == old(gc.matrix))
    {
      if id != crdtId || delta.None? {
        return;
      }
      var d := delta.value;
      if rows.Some? {
        gc.UpdateMatrixClock(rows.value);
      }
      crdt.MergeDelta(d);
      dvv.Merge(Dvv(Dot(d.dotNode, d.dotCounter), d.context));
      MergeIsMax(old(dvv.Value()), DeltaClock(Meaning(d)));
      PushVersionVector(peer);
    }

    /** Record what the requester knows, then reply with what it lacks and ask for what we
        lack. */
    method ServerPullRequest(id: string, from: NodeId, known: VersionVector, peerIsGc: bool, peers: set<NodeId>)
      requires Valid()
      modifies this`outbox, gc`matrix
      ensures Valid()
      ensures id != crdtId ==> Value() == old(Value()) && outbox == old(outbox)
      ensures id == crdtId ==>
                && Value() == AfterRequest(old(Value()), from, known)
                && (var sent := Respond(nodeId, from, ReplyTo(Value(), known, peerIsGc, peers), known);
                    outbox == old(outbox) + if sent.Some? then [sent.value] else [])
      ensures id == crdtId && gc.gcReplica ==>
                && from in gc.matrix
                && forall p, n :: Cell(gc.matrix, p, n)
                               == Max(Cell(old(gc.matrix), p, n), if p == from then At(known, n) else 0)
    {
      if id != crdtId {
        return;
      }
      gc.UpdateMatrixClock(map[from := known]);
      var delta := DeltaPayload(from, known, peerIsGc);
      var ask := if VvLeq(known, dvv.EffectiveMapNow()) then None else Some(dvv.EffectiveMapNow());
      var rows := None;
      if peerIsGc {
        rows := gc.GetKnowledgeMatrix(peers);
      }
      RespondToPullRequest(from, Reply(delta, rows, ask), known);
    }

    method DeltaPayload(from: NodeId, known: VersionVector, peerIsGc: bool) returns (delta: Option<Delta>)
      requires Valid()
      ensures delta == ReplyTo(Value(), known, peerIsGc, {}).delta
    {
      var missing := dvv.DeltaSince(known);
      if (gc.gcReplica && peerIsGc) || missing.dot.counter != 0 || missing.context != map[] {
        var wire := crdt.DeltaSince(known, Dvv(dvv.dot, dvv.context));
        delta := Some(Meaning(wire));
      } else {
        delta := None;
      }
    }

    /** Push-pull: delta with the request on it, delta alone, request alone, or nothing. */
    method RespondToPullRequest(from: NodeId, r: Reply, known: VersionVector)
      modifies this`outbox
      ensures var sent := Respond(nodeId, from, r, known);
              outbox == old(outbox) + if sent.Some? then [sent.value] else []
    {
      match (r.delta, r.ask)
      case (Some(d), ask) => outbox := outbox + [CrdtOp(nodeId, from, d, r.rows, ask, known)];
      case (None, Some(k)) => outbox := outbox + [PullRequest(nodeId, from, k)];
      case (None, None) =>
    }

    method ObserveEpochChange() returns (changed: bool)
      requires Valid()
      modifies gc, crdt, dvv
      ensures Valid() && Value() == Observed(old(Value()), old(gc.storage.metadata))
      ensures changed <==> old(gc.storage.metadata.epoch) > old(gc.epoch)
      ensures changed ==>
                && gc.epoch == old(gc.storage.metadata.epoch)
                && dvv.dot == old(dvv.dot)
                && IsWithout(dvv.context, old(dvv.context), old(gc.storage.metadata.obsolete))
                && crdt.adds == old(crdt.adds)
                && LeftBy(crdt.tombstones, old(crdt.tombstones), old(gc.storage.metadata.vStable))
      ensures changed && gc.gcReplica ==>
                && gc.matrix.Keys == old(gc.matrix).Keys - old(gc.storage.metadata.obsolete)
                && forall p :: p in gc.matrix ==>
                     IsWithout(gc.matrix[p], old(gc.matrix)[p], old(gc.storage.metadata.obsolete))
      ensures !changed ==> Value() == old(Value())
    {
      changed := gc.ObserveEpochChange(nodeId, crdt, dvv);
    }
  }
}
