/** What every step keeps, whatever the environment does: every clock anybody holds about a
    node is at most that node's own, and every set is covered by its clock. */
module Invariants {
  import opened Clocks
  import opened DotVersionVectors
  import opened OrSets
  import opened Histories
  import opened StableTimestamps
  import opened Replicas
  import opened Systems

  // ---- data ----

  /** The number of events `n` has minted. */
  function Own(s: System, n: NodeId): nat {
    if n in s.reps then s.reps[n].core.dvv.dot.counter else 0
  }

  /** Nobody knows of an event that was not minted. */
  ghost predicate Bounded(s: System, v: VersionVector) {
    forall n :: At(v, n) <= Own(s, n)
  }

  ghost predicate HistoryOk(s: System) {
    && WellFormed(s.history)
    && forall d :: d in s.history ==> d.counter <= Own(s, d.node)
  }

  ghost predicate CoreOk(s: System, p: NodeId, c: Core) {
    && c.id == p == c.dvv.dot.node
    && DotOutside(c.dvv)
    && Bounded(s, Clock(c))
    && Covered(s.history, Clock(c), c.orset)
  }

  /** A replica that has not finished its bootstrap is untouched. */
  ghost predicate Blank(r: Replica, p: NodeId) {
    r.core == NewCore(p, r.core.gcReplica) && r.gc.Idle? && r.collected == map[]
  }

  /** Nobody departs, so nobody is found obsolete. */
  predicate PhaseOk(r: Replica) {
    && (r.gc.Confirmed? ==> r.core.matrix.Keys <= r.gc.m1)
    && (r.gc.Gathered? || r.gc.StateWritten? ==> r.gc.obsolete == {})
  }

  ghost predicate RepOk(s: System, p: NodeId, r: Replica) {
    CoreOk(s, p, r.core) && PhaseOk(r) && (!r.boot.Active? ==> Blank(r, p))
  }

  /** `row` is a clock that `q` had at some time. */
  ghost predicate RowOk(s: System, q: NodeId, row: VersionVector) {
    IsActive(s, q) && Leq(row, Clock(s.reps[q].core))
  }

  ghost predicate RowsOk(s: System, rows: MatrixClock) {
    forall q :: q in rows ==> RowOk(s, q, rows[q])
  }

  ghost predicate MsgOk(s: System, m: Envelope) {
    match m
    case PullRequest(origin, _, k) => RowOk(s, origin, k)
    case CrdtOp(origin, to, d, rows, requester, since) =>
      && RowOk(s, to, since)
      && DeltaCovered(s.history, d)
      && Bounded(s, DeltaClock(d))
      && (rows.Some? ==> RowsOk(s, rows.value))
      && (requester.Some? ==> RowOk(s, origin, requester.value))
  }

  ghost predicate StoreOk(s: System) {
    var st := s.store.state;
    && Covered(s.history, st.initiatorClock, SetState(st.payload.adds, st.payload.tombs))
    && Bounded(s, st.initiatorClock)
    && s.store.metadata.obsolete == {}
  }

  ghost predicate ClocksOk(s: System) {
    && HistoryOk(s)
    && (forall p :: p in s.reps ==> RepOk(s, p, s.reps[p]))
    && (forall p :: p in s.reps ==> RowsOk(s, s.reps[p].core.matrix))
    && (forall m :: m in s.net ==> MsgOk(s, m))
    && StoreOk(s)
  }

  lemma ClocksAt(s: System, p: NodeId)
    requires ClocksOk(s) && p in s.reps
    ensures RepOk(s, p, s.reps[p]) && RowsOk(s, s.reps[p].core.matrix)
  {
  }

  lemma ClocksOfMsg(s: System, m: Envelope)
    requires ClocksOk(s) && m in s.net
    ensures MsgOk(s, m)
  {
  }

  lemma ClocksParts(s: System)
    requires ClocksOk(s)
    ensures HistoryOk(s) && StoreOk(s)
  {
  }

  /** A replica in the middle of a GC is active. */
  lemma InitiatorIsActive(s: System, p: NodeId)
    requires ClocksOk(s) && p in s.reps && !s.reps[p].gc.Idle?
    ensures IsActive(s, p)
  {
    hide ClocksOk, CoreOk;
    ClocksAt(s, p);
  }

  // ---- growth ----

  ghost predicate HistoryExtends(s: System, s': System) {
    && (forall d :: d in s.history ==> d in s'.history && s'.history[d] == s.history[d])
    && (forall d :: d in s'.history && d !in s.history ==> d.counter > Own(s, d.node))
  }

  ghost predicate Grows(s: System, s': System) {
    && HistoryExtends(s, s')
    && Leq(s.stable, s'.stable)
    && (forall p :: p in s.reps ==> p in s'.reps)
    && (forall p :: Own(s, p) <= Own(s', p))
    && (forall p :: IsActive(s, p) ==> IsActive(s', p) && Leq(Clock(s.reps[p].core), Clock(s'.reps[p].core)))
  }

  lemma GrowsMeaning(s: System, s': System, v: VersionVector)
    requires Grows(s, s') && Bounded(s, v)
    ensures Bounded(s', v)
    ensures forall d :: Removed(s'.history, v, d) <==> Removed(s.history, v, d)
    ensures forall t :: Visible(s'.history, v, t) <==> Visible(s.history, v, t)
  {
    forall n ensures At(v, n) <= Own(s', n) {
      assert At(v, n) <= Own(s, n) <= Own(s', n);
    }
    forall d | d in s'.history && d !in s.history ensures !Covers(v, d) {
      assert At(v, d.node) <= Own(s, d.node);
    }
    HistoryGrows(s.history, s'.history, v);
  }

  lemma BoundedBelow(s: System, a: VersionVector, b: VersionVector)
    requires Leq(a, b) && Bounded(s, b)
    ensures Bounded(s, a)
  {
    forall n ensures At(a, n) <= Own(s, n) {
      assert At(a, n) <= At(b, n) <= Own(s, n);
    }
  }

  lemma LeqReflexive(a: VersionVector)
    ensures Leq(a, a)
  {
  }

  lemma LeqTransitive(a: VersionVector, b: VersionVector, c: VersionVector)
    requires Leq(a, b) && Leq(b, c)
    ensures Leq(a, c)
  {
    forall n ensures At(a, n) <= At(c, n) {
      assert At(a, n) <= At(b, n) <= At(c, n);
    }
  }

  lemma JoinBelow(a: VersionVector, b: VersionVector, c: VersionVector)
    ensures Leq(Join(a, b), c) <==> Leq(a, c) && Leq(b, c)
  {
    if Leq(Join(a, b), c) {
      forall n ensures At(a, n) <= At(c, n) && At(b, n) <= At(c, n) {
        assert At(Join(a, b), n) <= At(c, n);
      }
    }
    if Leq(a, c) && Leq(b, c) {
      forall n ensures At(Join(a, b), n) <= At(c, n) {
        assert At(a, n) <= At(c, n) && At(b, n) <= At(c, n);
      }
    }
  }

  lemma JoinAbove(a: VersionVector, b: VersionVector)
    ensures Leq(a, Join(a, b)) && Leq(b, Join(a, b))
  {
  }

  lemma GrowsRow(s: System, s': System, q: NodeId, row: VersionVector)
    requires Grows(s, s') && RowOk(s, q, row)
    ensures RowOk(s', q, row)
  {
    LeqTransitive(row, Clock(s.reps[q].core), Clock(s'.reps[q].core));
  }

  lemma GrowsRows(s: System, s': System, rows: MatrixClock)
    requires Grows(s, s') && RowsOk(s, rows)
    ensures RowsOk(s', rows)
  {
    forall q | q in rows ensures RowOk(s', q, rows[q]) {
      GrowsRow(s, s', q, rows[q]);
    }
  }

  lemma GrowsCovered(s: System, s': System, v: VersionVector)
    requires Grows(s, s') && Bounded(s, v)
    ensures Bounded(s', v)
    ensures Closed(s.history, v) ==> Closed(s'.history, v)
    ensures forall live, tombs :: Accounted(s.history, v, live, tombs) ==> Accounted(s'.history, v, live, tombs)
  {
    GrowsMeaning(s, s', v);
    forall d | d in s'.history && d !in s.history ensures !Covers(v, d) {
      assert At(v, d.node) <= Own(s, d.node);
    }
    CoveredGrows(s.history, s'.history, v);
  }

  lemma GrowsMsg(s: System, s': System, m: Envelope)
    requires Grows(s, s') && MsgOk(s, m)
    ensures MsgOk(s', m)
  {
    hide Grows, RowOk, RowsOk, Bounded, Accounted, Closed;
    match m
    case PullRequest(origin, _, k) => GrowsRow(s, s', origin, k);
    case CrdtOp(origin, to, d, rows, requester, since) =>
      GrowsRow(s, s', to, since);
      GrowsCovered(s, s', DeltaClock(d));
      if rows.Some? { GrowsRows(s, s', rows.value); }
      if requester.Some? { GrowsRow(s, s', origin, requester.value); }
  }

  lemma GrowsRep(s: System, s': System, p: NodeId, r: Replica)
    requires Grows(s, s') && RepOk(s, p, r)
    ensures RepOk(s', p, r)
  {
    hide Grows, Bounded, Accounted, Closed;
    GrowsCovered(s, s', Clock(r.core));
  }

  lemma GrowsStore(s: System, s': System)
    requires StoreOk(s) && Grows(s, s')
    requires s'.store.state == s.store.state && s'.store.metadata.obsolete == {}
    ensures StoreOk(s')
  {
    hide Grows, Bounded, Accounted, Closed;
    GrowsCovered(s, s', s.store.state.initiatorClock);
  }

  /** Frame: a step that changes one replica keeps everything else. */
  lemma ClocksFrame(s: System, s': System, p: NodeId)
    requires ClocksOk(s) && Grows(s, s') && p in s'.reps
    requires s'.reps.Keys == s.reps.Keys + {p}
    requires forall q :: q in s.reps && q != p ==> s'.reps[q] == s.reps[q]
    requires HistoryOk(s')
    requires RepOk(s', p, s'.reps[p]) && RowsOk(s', s'.reps[p].core.matrix)
    requires forall m :: m in s'.net && m !in s.net ==> MsgOk(s', m)
    requires StoreOk(s')
    ensures ClocksOk(s')
  {
    hide RepOk, RowsOk, MsgOk, StoreOk, HistoryOk, Grows;
    forall q | q in s'.reps ensures RepOk(s', q, s'.reps[q]) {
      if q != p { GrowsRep(s, s', q, s.reps[q]); }
    }
    forall q | q in s'.reps ensures RowsOk(s', s'.reps[q].core.matrix) {
      if q != p { GrowsRows(s, s', s.reps[q].core.matrix); }
    }
    forall m | m in s'.net ensures MsgOk(s', m) {
      if m in s.net { GrowsMsg(s, s', m); }
    }
  }
}
