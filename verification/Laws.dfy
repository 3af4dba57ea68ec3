/** What the replica functions mean, entry by entry. */
module Laws {
  import opened Clocks
  import opened DotVersionVectors
  import opened OrSets
  import opened StableTimestamps
  import opened Replicas

  /** The tombstones that a collection under `frontier` leaves: those for removes that it
      has not seen. */
  ghost predicate LeftBy(after: map<Dot, Dot>, before: map<Dot, Dot>, frontier: VersionVector) {
    && (forall d :: d in after <==> d in before && before[d].counter > At(frontier, before[d].node))
    && (forall d :: d in after ==> after[d] == before[d])
  }

  /** `gone` has left the clock and, on a GC replica, the matrix; nothing else has. */
  ghost predicate Dropped(after: Core, before: Core, gone: set<NodeId>) {
    && after.id == before.id && after.gcReplica == before.gcReplica
    && after.dvv.dot == before.dvv.dot && IsWithout(after.dvv.context, before.dvv.context, gone)
    && (if before.gcReplica then
          && after.matrix.Keys == before.matrix.Keys - gone
          && forall p :: p in after.matrix ==> IsWithout(after.matrix[p], before.matrix[p], gone)
        else after.matrix == before.matrix)
  }

  lemma CollectedLeaves(s: SetState, id: NodeId, frontier: VersionVector)
    ensures var after := Collected(s, FrontierDvv(id, frontier));
            after.live == s.live && LeftBy(after.tombs, s.tombs, frontier)
  {
    CollectedIff(s, FrontierDvv(id, frontier));
    assert forall n :: At(EffectiveMap(FrontierDvv(id, frontier)), n) == At(frontier, n);
  }

  lemma ForgetDrops(c: Core, gone: set<NodeId>)
    ensures Dropped(Forget(c, gone), c, gone) && Forget(c, gone).orset == c.orset && Forget(c, gone).epoch == c.epoch
  {
  }

  /** Observing a later epoch collects, forgets and moves to it. */
  lemma ObserveMeaning(c: Core, m: EpochMetadata)
    requires m.epoch > c.epoch
    ensures var after := Observed(c, m);
            && after.epoch == m.epoch && Dropped(after, c, m.obsolete)
            && after.orset.live == c.orset.live && LeftBy(after.orset.tombs, c.orset.tombs, m.vStable)
  {
    hide Collected, FrontierDvv;
    CollectedLeaves(c.orset, c.id, m.vStable);
  }

  /** Observing the same metadata again, or an earlier one, changes nothing. */
  lemma ObserveTwice(c: Core, m: EpochMetadata)
    ensures m.epoch <= Observed(c, m).epoch && Observed(Observed(c, m), m) == Observed(c, m)
    ensures m.epoch <= c.epoch ==> Observed(c, m) == c
  {
  }

  /** An initiator drops the obsolete nodes, and collects under what remains. */
  lemma InitiateMeaning(c: Core, v: VersionVector, obsolete: set<NodeId>)
    ensures var after := Initiated(c, v, obsolete);
            && after.epoch == c.epoch && Dropped(after, c, obsolete)
            && after.orset.live == c.orset.live && LeftBy(after.orset.tombs, c.orset.tombs, v - obsolete)
  {
    hide Collected, FrontierDvv;
    CollectedLeaves(c.orset, c.id, v - obsolete);
  }

  /** A bootstrap takes the snapshot's epoch, and joins its clock and its set. */
  lemma AdoptMeaning(c: Core, s: EpochState)
    ensures var after := Adopted(c, s);
            && after.epoch == s.epoch && after.matrix == c.matrix && after.id == c.id && after.gcReplica == c.gcReplica
            && (forall n :: At(Clock(after), n) == Max(At(Clock(c), n), At(s.initiatorClock, n)))
            && (forall d :: d in after.orset.tombs <==> d in c.orset.tombs || d in s.payload.tombs)
            && (forall t :: t in after.orset.live <==>
                  (t in c.orset.live && t.dot !in s.payload.tombs)
                  || (t in s.payload.adds && t.dot !in c.orset.tombs && t.dot !in s.payload.tombs))
  {
    var eff := EffectiveMap(FrontierDvv(c.id, s.initiatorClock));
    MergeIsMax(c.dvv, eff);
    assert forall n :: At(eff, n) == At(s.initiatorClock, n);
  }

  /** A GC replica learns every row that comes with a delta, and forgets none. */
  lemma DeltaTeachesRows(c: Core, d: Delta, rows: Option<MatrixClock>)
    ensures var after := AfterDelta(c, d, rows);
            && (c.gcReplica && rows.Some? ==>
                  forall p, n :: Cell(after.matrix, p, n) == Max(Cell(c.matrix, p, n), Cell(rows.value, p, n)))
            && (!c.gcReplica || rows.None? ==> after.matrix == c.matrix)
            && after.epoch == c.epoch
  {
    if rows.Some? { UpdateIsMax(c.matrix, rows.value); }
  }

  /** And the requester's row with every request. */
  lemma RequestTeachesRow(c: Core, from: NodeId, known: VersionVector)
    ensures var after := AfterRequest(c, from, known);
            && (c.gcReplica ==>
                  && from in after.matrix
                  && forall p, n :: Cell(after.matrix, p, n)
                                 == Max(Cell(c.matrix, p, n), if p == from then At(known, n) else 0))
            && (!c.gcReplica ==> after == c)
  {
    UpdateIsMax(c.matrix, map[from := known]);
  }

  /** Between GC replicas a reply carries the rows of the registered peers, always. */
  lemma ReplyCarriesRows(c: Core, known: VersionVector, peerIsGc: bool, peers: set<NodeId>)
    ensures var r := ReplyTo(c, known, peerIsGc, peers);
            && (r.rows.Some? <==> c.gcReplica && peerIsGc)
            && (r.rows.Some? ==>
                  && r.delta.Some?
                  && (forall p :: p in r.rows.value <==> p in peers && p in c.matrix)
                  && (forall p :: p in r.rows.value ==> r.rows.value[p] == c.matrix[p]))
  {
  }
}
