/** The GC coordinator and the store it talks to, as the objects the engine mutates.  Each
    method is specified by the functions of `Replicas` that the transition system uses. */
module Coordinators {
  import opened Clocks
  import opened DotVersionVectors
  import opened OrSets
  import opened StableTimestamps
  import opened Replicas
  import opened Laws

  datatype AbortReason = MembershipChange | NoProgress | ConcurrentInitiator

  class GcStorage {
    var metadata: EpochMetadata
    var state: EpochState
    var intents: map<nat, NodeId>

    ghost function Value(): Store
      reads this
    {
      Store(metadata, state, intents)
    }

    constructor ()
      ensures Value() == EMPTY_STORE
    {
      metadata := EMPTY_STORE.metadata;
      state := EMPTY_STORE.state;
      intents := map[];
    }

    /** Create the intent object unless it exists. */
    method ClaimGcIntent(n: nat, initiator: NodeId) returns (won: bool)
      modifies this
      ensures won <==> n !in old(intents)
      ensures Value() == if won then old(Value()).(intents := old(intents)[n := initiator]) else old(Value())
    {
      won := n !in intents;
      if won {
        intents := intents[n := initiator];
      }
    }

    method ReleaseGcIntent(n: nat)
      modifies this
      ensures Value() == old(Value()).(intents := old(intents) - {n})
    {
      intents := intents - {n};
    }

    method WriteEpochState(s: EpochState)
      modifies this
      ensures Value() == old(Value()).(state := s)
    {
      state := s;
    }

    method WriteEpochMetadata(m: EpochMetadata)
      modifies this
      ensures Value() == old(Value()).(metadata := m)
    {
      metadata := m;
    }
  }

  /** One uninterrupted attempt to collect: what becomes of the replica and the store. */
  datatype Attempt = Attempt(core: Core, store: Store, abort: Option<AbortReason>)

  function Attempted(c: Core, st: Store, m0: set<NodeId>, m1: seq<NodeId>, order: seq<NodeId>,
                     finalDots: map<NodeId, nat>): Attempt {
    var n := st.metadata.epoch + 1;
    if n in st.intents then Attempt(c, st, Some(ConcurrentInitiator))
    else if NewMemberExists(m0, NodesIn(m1)) then Attempt(c, st, Some(MembershipChange))
    else
      var (v, obsolete) := Finding(c, m1, order, finalDots);
      if VvLeq(v, st.metadata.vStable) then Attempt(c, st, Some(NoProgress))
      else
        var c' := Initiated(c, v, obsolete);
        Attempt(c'.(epoch := n),
                Store(EpochMetadata(n, v - obsolete, obsolete), Snapshot(c', n), st.intents), None)
  }

  /** The bootstrap after a sequence of storage reads. */
  function BootAfter(obs: seq<Store>): Boot {
    if obs == [] then Registered
    else BootNext(BootAfter(obs[..|obs| - 1]), obs[|obs| - 1])
  }

  lemma BootStep(obs: seq<Store>, i: nat)
    requires i < |obs|
    ensures BootAfter(obs[..i + 1]) == BootNext(BootAfter(obs[..i]), obs[i])
  {
    assert obs[..i + 1][..i] == obs[..i];
  }

  lemma {:induction false} ActiveStays(obs: seq<Store>, i: nat)
    requires i <= |obs| && BootAfter(obs[..i]).Active?
    ensures BootAfter(obs).Active?
    decreases |obs| - i
  {
    if i == |obs| {
      assert obs[..i] == obs;
    } else {
      BootStep(obs, i);
      ActiveStays(obs, i + 1);
    }
  }

  class GcCoordinator {
    var epoch: nat
    var matrix: MatrixClock
    const gcReplica: bool
    const storage: GcStorage

    constructor (storage: GcStorage, gcReplica: bool)
      ensures this.storage == storage && this.gcReplica == gcReplica && epoch == 0 && matrix == map[]
    {
      this.storage := storage;
      this.gcReplica := gcReplica;
      epoch := 0;
      matrix := map[];
    }

    ghost function CoreOf(id: NodeId, crdt: OrSet, dvv: DotVersionVector): Core
      reads this, crdt, dvv
    {
      Core(id, gcReplica, dvv.Value(), crdt.Value(), matrix, epoch)
    }

    method UpdateMatrixClock(rows: MatrixClock)
      modifies this`matrix
      ensures matrix == if gcReplica then UpdatedMatrix(old(matrix), rows) else old(matrix)
      ensures gcReplica ==>
                && matrix.Keys == old(matrix).Keys + rows.Keys
                && forall p, n :: Cell(matrix, p, n) == Max(Cell(old(matrix), p, n), Cell(rows, p, n))
    {
      hide Cell;
      if !gcReplica {
        return;
      }
      var todo := rows.Keys;
      while todo != {}
        invariant todo <= rows.Keys
        invariant matrix.Keys == old(matrix).Keys + (rows.Keys - todo)
        invariant forall p :: p in matrix ==>
                    matrix[p] == if p in todo then old(matrix)[p] else UpdatedMatrix(old(matrix), rows)[p]
      {
        var p :| p in todo;
        if p in matrix {
          var joined := VvJoin(rows[p], matrix[p]);
          matrix := matrix[p := joined];
        } else {
          matrix := matrix[p := rows[p]];
        }
        todo := todo - {p};
      }
      UpdateIsMax(old(matrix), rows);
    }

    method GetKnowledgeMatrix(peers: set<NodeId>) returns (rows: Option<MatrixClock>)
      ensures rows == if gcReplica then Some(map p | p in peers && p in matrix :: matrix[p]) else None
    {
      if !gcReplica {
        return None;
      }
      var out: MatrixClock := map[];
      var todo := peers;
      while todo != {}
        invariant todo <= peers
        invariant out == map p | p in peers - todo && p in matrix :: matrix[p]
      {
        var p :| p in todo;
        if p in matrix {
          out := out[p := matrix[p]];
        }
        todo := todo - {p};
      }
      assert peers - todo == peers;
      rows := Some(out);
    }

    method RemoveMatrixClockRow(p: NodeId)
      modifies this`matrix
      ensures matrix == old(matrix) - {p}
    {
      matrix := matrix - {p};
    }

    method RemoveMatrixClockColumn(p: NodeId)
      modifies this`matrix
      ensures matrix == map q | q in old(matrix) :: old(matrix)[q] - {p}
    {
      matrix := map q | q in matrix :: matrix[q] - {p};
    }

    /** Drop every obsolete node from the clock and, on a GC replica, from the matrix. */
    method ForgetNodes(gone: set<NodeId>, dvv: DotVersionVector)
      modifies this`matrix, dvv
      ensures dvv.Value() == old(dvv.Value()).(context := old(dvv.context) - gone)
      ensures matrix == if gcReplica then WithoutNodes(old(matrix), gone) else old(matrix)
      ensures dvv.dot == old(dvv.dot) && IsWithout(dvv.context, old(dvv.context), gone)
      ensures gcReplica ==>
                && matrix.Keys == old(matrix).Keys - gone
                && forall p :: p in matrix ==> IsWithout(matrix[p], old(matrix)[p], gone)
    {
      WithoutIff(matrix, gone);
      var todo := gone;
      WithoutNone(matrix);
      assert gone - todo == {};
      while todo != {}
        invariant todo <= gone
        invariant dvv.Value() == old(dvv.Value()).(context := old(dvv.context) - (gone - todo))
        invariant matrix == if gcReplica then WithoutNodes(old(matrix), gone - todo) else old(matrix)
      {
        var p :| p in todo;
        WithoutOneMore(old(matrix), gone - todo, p);
        dvv.Remove(p);
        if gcReplica {
          RemoveMatrixClockRow(p);
          RemoveMatrixClockColumn(p);
        }
        assert gone - (todo - {p}) == (gone - todo) + {p};
        todo := todo - {p};
      }
      assert gone - todo == gone;
    }

    static lemma WithoutNone(mc: MatrixClock)
      ensures WithoutNodes(mc, {}) == mc
    {
      assert forall p :: p in mc ==> mc[p] - {} == mc[p];
    }

    static lemma WithoutOneMore(mc: MatrixClock, gone: set<NodeId>, p: NodeId)
      ensures var rest := WithoutNodes(mc, gone) - {p};
              WithoutNodes(mc, gone + {p}) == map q | q in rest :: rest[q] - {p}
    {
      assert forall q :: q in mc ==> mc[q] - (gone + {p}) == mc[q] - gone - {p};
    }

    /** The loops over members, non-members and pending nodes; `order` is the order in which the
        hash set of pending nodes happened to be walked. */
    method ComputeStableTimestamp(node: NodeId, members: seq<NodeId>, finalDots: map<NodeId, nat>, own: VersionVector)
      returns (v: VersionVector, obsolete: set<NodeId>, ghost order: seq<NodeId>)
      ensures !gcReplica || !AllRows(node, members, matrix) ==> v == map[] && obsolete == {}
      ensures gcReplica && AllRows(node, members, matrix) ==>
                && (forall p :: p in obsolete <==> IsFinished(node, members, matrix, finalDots, own, p))
                && (members != [] ==> IsGlb(v, node, members, matrix, obsolete, own))
      ensures (v, obsolete) == Stable(node, members, order, if gcReplica then Some(matrix) else None, finalDots, own)
      ensures gcReplica && AllRows(node, members, matrix) ==>
                NodesIn(order) == Pending(members, matrix, finalDots, MemberMeet(node, members, matrix, own))
    {
      hide IsGlb, IsFinished, Obsolete, Pending, Meet;
      order := [];
      if !gcReplica {
        return map[], {}, [];
      }
      var live: VersionVector := map[];
      for i := 0 to |members|
        invariant AllRows(node, members[..i], matrix)
        invariant live == MemberMeet(node, members[..i], matrix, own)
      {
        var p := members[i];
        assert members[..i + 1][..i] == members[..i];
        assert members[..i + 1][i] == p;
        if p != node && p !in matrix {
          assert p in members;
          return map[], {}, [];
        }
        var row := RowOf(node, matrix, own, p);
        if i == 0 {
          live := row;
        } else {
          live := VvMeet(live, row);
        }
      }
      assert members[..|members|] == members;
      var todo;
      obsolete, todo := ClassifyNonMembers(members, finalDots, live);
      ghost var pending := todo;
      v := live;
      while todo != {}
        invariant todo <= pending
        invariant NodesIn(order) == pending - todo
        invariant v == MeetRows(live, matrix, order)
      {
        var p :| p in todo;
        if p in matrix {
          v := VvMeet(v, matrix[p]);
        }
        assert (order + [p])[..|order|] == order;
        Appended(order, p);
        order := order + [p];
        todo := todo - {p};
      }
      if members != [] {
        StableMeetsGlb(node, members, order, matrix, finalDots, own);
      }
      forall p ensures p in obsolete <==> IsFinished(node, members, matrix, finalDots, own, p) {
        ObsoleteIff(node, members, matrix, finalDots, own, p);
      }
    }

    /** Departed nodes are obsolete once their final dot is what the members record. */
    method ClassifyNonMembers(members: seq<NodeId>, finalDots: map<NodeId, nat>, live: VersionVector)
      returns (obsolete: set<NodeId>, pending: set<NodeId>)
      ensures obsolete == Obsolete(members, matrix, finalDots, live)
      ensures pending == Pending(members, matrix, finalDots, live)
      ensures forall p :: p in obsolete <==>
                && p !in members && (p in matrix || p in live)
                && (if p in finalDots then p in live && live[p] == finalDots[p] else p !in live)
      ensures forall p :: p in pending <==> p !in members && (p in matrix || p in live) && p !in obsolete
    {
      obsolete, pending := {}, {};
      var nonMembers := NonMembers(members, matrix, live);
      var todo := nonMembers;
      while todo != {}
        invariant todo <= nonMembers
        invariant obsolete == set p | p in nonMembers - todo && Lookup(finalDots, p) == Lookup(live, p)
        invariant pending == (nonMembers - todo) - obsolete
      {
        var p :| p in todo;
        if Lookup(finalDots, p) == Lookup(live, p) {
          obsolete := obsolete + {p};
        } else {
          pending := pending + {p};
        }
        todo := todo - {p};
      }
    }

    static lemma Appended<T>(order: seq<T>, x: T)
      ensures (set y | y in order + [x]) == (set y | y in order) + {x}
    {
      assert x in order + [x];
    }

    /** A later epoch is collected for, the nodes it found obsolete are forgotten, and the
        replica moves to it; an epoch already observed changes nothing. */
    method ObserveEpochChange(id: NodeId, crdt: OrSet, dvv: DotVersionVector) returns (changed: bool)
      requires crdt.Valid()
      modifies this, crdt, dvv
      ensures crdt.Valid()
      ensures changed <==> old(storage.metadata.epoch) > old(epoch)
      ensures CoreOf(id, crdt, dvv) == Observed(old(CoreOf(id, crdt, dvv)), old(storage.metadata))
      ensures epoch == if changed then old(storage.metadata.epoch) else old(epoch)
      ensures changed ==>
                && dvv.dot == old(dvv.dot)
                && IsWithout(dvv.context, old(dvv.context), old(storage.metadata.obsolete))
      ensures changed && gcReplica ==>
                && matrix.Keys == old(matrix).Keys - old(storage.metadata.obsolete)
                && forall p :: p in matrix ==> IsWithout(matrix[p], old(matrix)[p], old(storage.metadata.obsolete))
      ensures changed ==>
                && crdt.adds == old(crdt.adds)
                && LeftBy(crdt.tombstones, old(crdt.tombstones), old(storage.metadata.vStable))
      ensures !gcReplica ==> matrix == old(matrix)
      ensures !changed ==>
                && matrix == old(matrix) && dvv.Value() == old(dvv.Value())
                && crdt.adds == old(crdt.adds) && crdt.tombstones == old(crdt.tombstones)
    {
      var m := storage.metadata;
      if m.epoch <= epoch {
        return false;
      }
      crdt.PerformGc(FrontierDvv(id, m.vStable));
      CollectedLeaves(old(crdt.Value()), id, m.vStable);
      epoch := m.epoch;
      ForgetNodes(m.obsolete, dvv);
      changed := true;
    }

    /** A whole attempt with nobody else at the store: `m0` and `m1` are what the two
        membership reads return, `finalDots` what departed nodes left behind. */
    method InitiateGc(id: NodeId, crdt: OrSet, dvv: DotVersionVector, m0: set<NodeId>, m1: seq<NodeId>,
                      finalDots: map<NodeId, nat>)
      returns (abort: Option<AbortReason>, ghost order: seq<NodeId>, ghost found: VersionVector)
      requires crdt.Valid()
      modifies this, crdt, dvv, storage
      ensures crdt.Valid()
      ensures Attempt(CoreOf(id, crdt, dvv), storage.Value(), abort)
           == Attempted(old(CoreOf(id, crdt, dvv)), old(storage.Value()), m0, m1, order, finalDots)
      ensures abort == Some(ConcurrentInitiator) <==> old(storage.metadata.epoch) + 1 in old(storage.intents)
      ensures abort == Some(MembershipChange) <==>
                && old(storage.metadata.epoch) + 1 !in old(storage.intents)
                && exists p :: p in m1 && p !in m0
      ensures abort == Some(NoProgress) ==> Leq(found, old(storage.metadata.vStable))
      ensures abort.Some? ==>
                && CoreOf(id, crdt, dvv) == old(CoreOf(id, crdt, dvv)) && storage.Value() == old(storage.Value())
      ensures abort.None? ==> !Leq(found, old(storage.metadata.vStable))
      ensures abort.None? ==>
                && gcReplica && m1 != [] && AllRows(id, m1, old(matrix))
                && IsGlb(found, id, m1, old(matrix), storage.metadata.obsolete, old(EffectiveMap(dvv.Value())))
                && forall p :: p in storage.metadata.obsolete <==>
                     IsFinished(id, m1, old(matrix), finalDots, old(EffectiveMap(dvv.Value())), p)
      ensures abort.None? ==>
                && epoch == storage.metadata.epoch == storage.state.epoch == old(storage.metadata.epoch) + 1
                && storage.intents == old(storage.intents)
                && IsWithout(storage.metadata.vStable, found, storage.metadata.obsolete)
                && storage.state.initiatorClock == EffectiveMap(dvv.Value())
                && storage.state.payload.adds == Pairs(crdt.adds)
                && storage.state.payload.tombs == crdt.tombstones
      ensures abort.None? ==>
                && Dropped(CoreOf(id, crdt, dvv), old(CoreOf(id, crdt, dvv)), storage.metadata.obsolete)
                && Pairs(crdt.adds) == old(Pairs(crdt.adds))
                && LeftBy(crdt.tombstones, old(crdt.tombstones), storage.metadata.vStable)
    {
      hide IsGlb, IsFinished, AllRows, LeftBy, IsWithout, Finding, Leq;
      order, found := [], map[];
      var n := storage.metadata.epoch + 1;
      var previous := storage.metadata.vStable;
      var won := storage.ClaimGcIntent(n, id);
      if !won {
        return Some(ConcurrentInitiator), [], map[];
      }
      assert NewMemberExists(m0, NodesIn(m1)) <==> exists p :: p in m1 && p !in m0 by { NewcomerIn(m0, m1); }
      if NewMemberExists(m0, NodesIn(m1)) {
        storage.ReleaseGcIntent(n);
        assert storage.intents == old(storage.intents);
        return Some(MembershipChange), [], map[];
      }
      var progress;
      ghost var obsolete;
      progress, order, found, obsolete := CollectUnlessStale(id, crdt, dvv, n, previous, m1, finalDots);
      storage.ReleaseGcIntent(n);
      assert storage.intents == old(storage.intents);
      abort := if progress then None else Some(NoProgress);
      if progress {
        InitiateMeaning(old(CoreOf(id, crdt, dvv)), found, obsolete);
        LessIsWithout(found, obsolete);
      }
    }

    static lemma LessIsWithout(v: VersionVector, gone: set<NodeId>)
      ensures IsWithout(v - gone, v, gone)
    {
    }

    static lemma NewcomerIn(m0: set<NodeId>, m1: seq<NodeId>)
      ensures NewMemberExists(m0, NodesIn(m1)) <==> exists p :: p in m1 && p !in m0
    {
      assert forall p :: p in NodesIn(m1) <==> p in m1;
      if p :| p in m1 && p !in m0 { assert p in NodesIn(m1); }
    }

    /** Once the members are confirmed: commit if the timestamp advanced. */
    method CollectUnlessStale(id: NodeId, crdt: OrSet, dvv: DotVersionVector, n: nat, previous: VersionVector,
                              members: seq<NodeId>, finalDots: map<NodeId, nat>)
      returns (progress: bool, ghost order: seq<NodeId>, ghost found: VersionVector, ghost obsolete: set<NodeId>)
      requires crdt.Valid()
      modifies this, crdt, dvv, storage
      ensures crdt.Valid() && storage.intents == old(storage.intents)
      ensures (found, obsolete) == Finding(old(CoreOf(id, crdt, dvv)), members, order, finalDots)
      ensures progress ==>
                && gcReplica && members != [] && AllRows(id, members, old(matrix))
                && IsGlb(found, id, members, old(matrix), obsolete, old(EffectiveMap(dvv.Value())))
                && forall p :: p in obsolete <==>
                     IsFinished(id, members, old(matrix), finalDots, old(EffectiveMap(dvv.Value())), p)
      ensures var c := old(CoreOf(id, crdt, dvv)); var f := (found, obsolete);
              && progress == !VvLeq(f.0, previous)
              && CoreOf(id, crdt, dvv) == (if progress then Initiated(c, f.0, f.1).(epoch := n) else c)
              && storage.Value() == (if progress then
                                       Store(EpochMetadata(n, f.0 - f.1, f.1),
                                             Snapshot(Initiated(c, f.0, f.1), n), storage.intents)
                                     else old(storage.Value()))
    {
      hide IsGlb, IsFinished, AllRows;
      var v, gone;
      v, gone, order := ComputeStableTimestamp(id, members, finalDots, dvv.EffectiveMapNow());
      found, obsolete := v, gone;
      progress := !VvLeq(v, previous);
      if progress {
        ProgressNeedsMembers(id, members, order, matrix, finalDots, dvv.EffectiveMapNow(), previous);
        CommitGc(id, crdt, dvv, n, v, gone);
      }
    }

    static lemma ProgressNeedsMembers(node: NodeId, members: seq<NodeId>, order: seq<NodeId>, mc: MatrixClock,
                                      finalDots: map<NodeId, nat>, own: VersionVector, previous: VersionVector)
      ensures !Leq(Stable(node, members, order, Some(mc), finalDots, own).0, previous) ==>
                members != [] && AllRows(node, members, mc)
      ensures Leq(map[], previous)
    {
      if members == [] { NothingMet(mc, order); }
    }

    static lemma {:induction false} NothingMet(mc: MatrixClock, order: seq<NodeId>)
      ensures forall n :: At(MeetRows(map[], mc, order), n) == 0
    {
      if order != [] { NothingMet(mc, order[..|order| - 1]); }
    }

    /** The committing half: forget, collect, write the state, then the metadata. */
    method CommitGc(id: NodeId, crdt: OrSet, dvv: DotVersionVector, n: nat, v: VersionVector, obsolete: set<NodeId>)
      requires crdt.Valid()
      modifies this, crdt, dvv, storage
      ensures crdt.Valid()
      ensures CoreOf(id, crdt, dvv) == Initiated(old(CoreOf(id, crdt, dvv)), v, obsolete).(epoch := n)
      ensures storage.Value() == Store(EpochMetadata(n, v - obsolete, obsolete),
                                       Snapshot(Initiated(old(CoreOf(id, crdt, dvv)), v, obsolete), n),
                                       old(storage.intents))
    {
      ForgetNodes(obsolete, dvv);
      crdt.PerformGc(FrontierDvv(id, v - obsolete));
      var payload := crdt.FullState(Dvv(dvv.dot, dvv.context));
      storage.WriteEpochState(EpochState(n, dvv.EffectiveMapNow(), Meaning(payload)));
      storage.WriteEpochMetadata(EpochMetadata(n, v - obsolete, obsolete));
      epoch := n;
    }

    /** `obs` is what the storage shows at each successive read; others may write between
        any two of them.  The loops poll until the observations run out. */
    method NewReplicaBootstrap(id: NodeId, crdt: OrSet, dvv: DotVersionVector, obs: seq<Store>)
      returns (finished: bool, used: nat)
      requires crdt.Valid()
      modifies this, crdt, dvv
      ensures crdt.Valid() && used <= |obs|
      ensures finished <==> BootAfter(obs).Active?
      ensures finished ==> used > 0 && BootAfter(obs[..used - 1]) == Settled(obs[used - 1].state.epoch)
      ensures CoreOf(id, crdt, dvv) == if finished then Adopted(old(CoreOf(id, crdt, dvv)), obs[used - 1].state)
                                       else old(CoreOf(id, crdt, dvv))
      ensures epoch == if finished then obs[used - 1].state.epoch else old(epoch)
      ensures finished ==>
                forall n :: At(EffectiveMap(dvv.Value()), n) == Max(At(old(EffectiveMap(dvv.Value())), n),
                                                                    At(obs[used - 1].state.initiatorClock, n))
    {
      var settled, current, i := SettleEpoch(obs);
      used := i;
      if !settled {
        return false, i;
      }
      while used < |obs|
        invariant i <= used <= |obs|
        invariant BootAfter(obs[..used]) == Settled(current)
        invariant crdt.Valid() && CoreOf(id, crdt, dvv) == old(CoreOf(id, crdt, dvv))
      {
        BootStep(obs, used);
        if obs[used].state.epoch == current {
          ActiveStays(obs, used + 1);
          AdoptMeaning(CoreOf(id, crdt, dvv), obs[used].state);
          Adopt(id, crdt, dvv, obs[used].state);
          return true, used + 1;
        }
        used := used + 1;
      }
      assert obs[..used] == obs;
      finished := false;
    }

    method Adopt(id: NodeId, crdt: OrSet, dvv: DotVersionVector, s: EpochState)
      requires crdt.Valid()
      modifies this, crdt, dvv
      ensures crdt.Valid()
      ensures CoreOf(id, crdt, dvv) == Adopted(old(CoreOf(id, crdt, dvv)), s)
      ensures epoch == s.epoch && matrix == old(matrix)
    {
      var payload := Listed(s.payload);
      crdt.MergeDelta(payload);
      dvv.Merge(FrontierDvv(id, s.initiatorClock));
      epoch := s.epoch;
    }

    /** Some wire layout of a delta. */
    static method Listed(d: Delta) returns (wire: OrSetDelta)
      ensures Meaning(wire) == d
    {
      var tags: seq<Tag> := [];
      var todo := d.adds;
      while todo != {}
        invariant todo <= d.adds
        invariant (set t | t in tags) == d.adds - todo
      {
        var t :| t in todo;
        Appended(tags, t);
        tags := tags + [t];
        todo := todo - {t};
      }
      var pairs: seq<(Dot, Dot)> := [];
      var keys := d.tombs.Keys;
      while keys != {}
        invariant keys <= d.tombs.Keys
        invariant TombMap(pairs) == map k | k in d.tombs.Keys - keys :: d.tombs[k]
      {
        var k :| k in keys;
        assert (pairs + [(k, d.tombs[k])])[..|pairs|] == pairs;
        pairs := pairs + [(k, d.tombs[k])];
        keys := keys - {k};
      }
      assert TombMap(pairs) == d.tombs;
      wire := OrSetDelta(tags, pairs, d.context, d.dot.node, d.dot.counter);
    }

    /** Read the epoch, then wait out a GC that holds the next epoch's intent. */
    static method SettleEpoch(obs: seq<Store>) returns (settled: bool, current: nat, i: nat)
      ensures i <= |obs|
      ensures if settled then BootAfter(obs[..i]) == Settled(current)
              else !BootAfter(obs).Active?
    {
      if |obs| < 2 {
        assert |obs| == 1 ==> obs[..0] == [];
        return false, 0, 0;
      }
      BootStep(obs, 0);
      BootStep(obs, 1);
      current := obs[0].metadata.epoch;
      var next := current + 1;
      i := 2;
      if next !in obs[1].intents {
        return true, current, i;
      }
      while i + 1 < |obs|
        invariant 2 <= i <= |obs|
        invariant BootAfter(obs[..i]) == Polling(current)
      {
        BootStep(obs, i);
        BootStep(obs, i + 1);
        var newEpoch := obs[i].metadata.epoch;
        i := i + 2;
        if newEpoch > current || next !in obs[i - 1].intents {
          return true, newEpoch, i;
        }
      }
      if i < |obs| {
        BootStep(obs, i);
        assert obs[..i + 1] == obs;
      } else {
        assert obs[..i] == obs;
      }
      settled := false;
    }
  }
}
