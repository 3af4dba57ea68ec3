/** Each kind of step keeps the clocks bounded, the rows sound and the sets covered. */
module ClockSteps {
  import opened Clocks
  import opened DotVersionVectors
  import opened OrSets
  import opened Histories
  import opened StableTimestamps
  import opened Replicas
  import opened Systems
  import opened Invariants

  /** A step that mints nothing and moves at most one clock forward. */
  lemma OneClockGrows(s: System, s': System, p: NodeId)
    requires p in s.reps && p in s'.reps && s'.reps == s.reps[p := s'.reps[p]]
    requires s'.history == s.history && Leq(s.stable, s'.stable)
    requires s'.reps[p].core.dvv.dot.counter == s.reps[p].core.dvv.dot.counter
    requires IsActive(s, p) ==> s'.reps[p].boot.Active? && Leq(Clock(s.reps[p].core), Clock(s'.reps[p].core))
    ensures Grows(s, s') && (HistoryOk(s) ==> HistoryOk(s')) && forall n :: Own(s', n) == Own(s, n)
  {
    hide WellFormed, Clock;
    assert forall n :: Own(s', n) == Own(s, n);
    forall q | IsActive(s, q) ensures IsActive(s', q) && Leq(Clock(s.reps[q].core), Clock(s'.reps[q].core)) {}
  }

  /** A step of one replica that mints nothing, sends nothing and leaves the state object. */
  lemma LocalStep(s: System, s': System, p: NodeId)
    requires ClocksOk(s) && p in s.reps && p in s'.reps && s'.reps == s.reps[p := s'.reps[p]]
    requires s'.history == s.history && Leq(s.stable, s'.stable) && s'.net <= s.net
    requires s'.store.state == s.store.state && s'.store.metadata.obsolete == {}
    requires s'.reps[p].core.dvv == s.reps[p].core.dvv && s'.reps[p].core.matrix == s.reps[p].core.matrix
    requires s'.reps[p].boot.Active? <==> s.reps[p].boot.Active?
    requires RepOk(s, p, s'.reps[p])
    ensures Grows(s, s') && ClocksOk(s')
  {
    hide ClocksOk, StoreOk, MsgOk, RowsOk, RepOk, Grows, HistoryOk, Leq;
    ClocksAt(s, p);
    ClocksParts(s);
    LeqReflexive(Clock(s.reps[p].core));
    OneClockGrows(s, s', p);
    GrowsStore(s, s');
    GrowsRep(s, s', p, s'.reps[p]);
    GrowsRows(s, s', s.reps[p].core.matrix);
    ClocksFrame(s, s', p);
  }

  /** A phase, a bootstrap read or the epoch changes, and nothing a reader could see. */
  lemma QuietStep(s: System, s': System, p: NodeId)
    requires ClocksOk(s) && p in s.reps && p in s'.reps && s'.reps == s.reps[p := s'.reps[p]]
    requires s'.history == s.history && s'.stable == s.stable && s'.net == s.net
    requires s'.store.state == s.store.state && s'.store.metadata.obsolete == {}
    requires var r, r' := s.reps[p], s'.reps[p];
             && r'.core.(epoch := r.core.epoch) == r.core && PhaseOk(r')
             && (r'.boot.Active? <==> r.boot.Active?) && (!r.boot.Active? ==> Blank(r', p))
    ensures Grows(s, s') && ClocksOk(s')
  {
    hide ClocksOk, RowsOk, Leq, Covered, Bounded;
    ClocksAt(s, p);
    LeqReflexive(s.stable);
    LocalStep(s, s', p);
  }

  // ---- registering and adopting ----

  lemma RegisterGrows(s: System, p: NodeId, gcReplica: bool)
    requires HistoryOk(s) && p !in s.reps
    ensures var s' := Registering(s, p, gcReplica); Grows(s, s') && HistoryOk(s') && WellFormed(s'.history)
  {
    assert forall n :: Own(Registering(s, p, gcReplica), n) == Own(s, n);
  }

  lemma NoRows(s: System)
    ensures RowsOk(s, map[])
  {
  }

  lemma BlankIsOk(s: System, p: NodeId, gcReplica: bool)
    requires WellFormed(s.history)
    ensures CoreOk(s, p, NewCore(p, gcReplica))
  {
    var v := Clock(NewCore(p, gcReplica));
    assert forall d :: d in s.history ==> !Covers(v, d);
  }

  lemma RegisterKeepsClocks(s: System, p: NodeId, gcReplica: bool)
    requires ClocksOk(s) && p !in s.reps
    ensures var s' := Registering(s, p, gcReplica); Grows(s, s') && ClocksOk(s')
  {
    hide ClocksOk, StoreOk, MsgOk, RowsOk, CoreOk, Grows, HistoryOk;
    var s' := Registering(s, p, gcReplica);
    ClocksParts(s);
    RegisterGrows(s, p, gcReplica);
    assert s'.store.metadata.obsolete == {} by { NobodyStoredObsolete(s); }
    GrowsStore(s, s');
    BlankIsOk(s', p, gcReplica);
    NoRows(s');
    ClocksFrame(s, s', p);
  }

  lemma NobodyStoredObsolete(s: System)
    requires ClocksOk(s)
    ensures s.store.metadata.obsolete == {}
  {
    hide MsgOk, RowsOk, RepOk, HistoryOk, Covered;
  }

  lemma FreshMergeTakesAll(n: NodeId, eff: VersionVector)
    requires At(eff, n) == 0
    ensures var d := Merged(NewDvv(n), EffectiveMap(FrontierDvv(n, eff)));
            d.dot == Dot(n, 0) && DotOutside(d) && Same(EffectiveMap(d), eff)
  {
    var f := EffectiveMap(FrontierDvv(n, eff));
    MergeIsMax(NewDvv(n), f);
    MergeKeepsDotOutside(NewDvv(n), f);
  }

  /** A fresh replica that adopts the snapshot has exactly the snapshot's set and clock. */
  lemma AdoptedIsSnapshot(s: System, p: NodeId, c: Core)
    requires StoreOk(s) && c == NewCore(p, c.gcReplica) && Own(s, p) == 0
    ensures var c' := Adopted(c, s.store.state);
            && c'.orset == SetState(s.store.state.payload.adds, s.store.state.payload.tombs)
            && Same(Clock(c'), s.store.state.initiatorClock)
            && c'.dvv.dot == c.dvv.dot && c'.matrix == map[]
            && CoreOk(s, p, c')
  {
    hide Accounted, Closed;
    var st := s.store.state;
    var o := SetState(st.payload.adds, st.payload.tombs);
    var c' := Adopted(c, st);
    assert c'.orset.live == o.live && c'.orset.tombs == o.tombs;
    assert At(st.initiatorClock, p) <= Own(s, p);
    FreshMergeTakesAll(p, st.initiatorClock);
    CoveredAtSameClock(s.history, st.initiatorClock, Clock(c'), o);
    forall n ensures At(Clock(c'), n) <= Own(s, n) {
      assert At(Clock(c'), n) == At(st.initiatorClock, n);
    }
  }

  lemma AdoptKeepsClocks(s: System, p: NodeId)
    requires ClocksOk(s) && p in s.reps && !s.reps[p].boot.Active?
    requires BootNext(s.reps[p].boot, s.store).Active?
    ensures var s' := Bootstrapping(s, p); Grows(s, s') && ClocksOk(s')
  {
    hide ClocksOk, StoreOk, MsgOk, RowsOk, CoreOk, Grows, HistoryOk, Adopted, BootNext, Leq;
    var s' := Bootstrapping(s, p);
    ClocksAt(s, p);
    ClocksParts(s);
    AdoptedIsSnapshot(s, p, s.reps[p].core);
    LeqReflexive(s.stable);
    OneClockGrows(s, s', p);
    NobodyStoredObsolete(s);
    GrowsStore(s, s');
    GrowsRep(s, s', p, s'.reps[p]);
    NoRows(s');
    ClocksFrame(s, s', p);
  }

  lemma BootstrapKeepsClocks(s: System, p: NodeId)
    requires ClocksOk(s) && p in s.reps && !s.reps[p].boot.Active?
    ensures var s' := Bootstrapping(s, p); Grows(s, s') && ClocksOk(s')
  {
    hide ClocksOk, Grows, BootNext, CoreOk, RowsOk;
    if BootNext(s.reps[p].boot, s.store).Active? {
      AdoptKeepsClocks(s, p);
    } else {
      ClocksAt(s, p);
      NobodyStoredObsolete(s);
      QuietStep(s, Bootstrapping(s, p), p);
    }
  }

  // ---- client operations ----

  lemma OperateGrows(s: System, p: NodeId, op: Op)
    requires IsReady(s, p) && HistoryOk(s) && CoreOk(s, p, s.reps[p].core)
    ensures Grows(s, Operating(s, p, op))
  {
    hide Covered, WellFormed, Applied, EventOf, Evented, HistoryExtends, EffectiveMap, Bounded;
    OperateMints(s, p, op);
    EventAdvancesOwn(s.reps[p].core.dvv);
    assert Evented(s.reps[p].core.dvv).dot !in s.history;
  }

  lemma OperateBounds(s: System, p: NodeId, op: Op)
    requires IsReady(s, p) && HistoryOk(s) && CoreOk(s, p, s.reps[p].core)
    ensures WellFormed(Operating(s, p, op).history) ==> HistoryOk(Operating(s, p, op))
    ensures Bounded(Operating(s, p, op), Clock(Operating(s, p, op).reps[p].core))
  {
    hide Covered, WellFormed, Applied, EventOf, Evented, HistoryExtends, EffectiveMap;
    var s' := Operating(s, p, op);
    var c, c' := s.reps[p].core, s'.reps[p].core;
    OperateMints(s, p, op);
    EventAdvancesOwn(c.dvv);
    forall n ensures At(Clock(c'), n) <= Own(s', n) {
      assert At(Clock(c), n) <= Own(s, n);
    }
    forall d | d in s'.history ensures d.counter <= Own(s', d.node) {
      assert d in s.history ==> d.counter <= Own(s, d.node);
    }
  }

  lemma OperateMints(s: System, p: NodeId, op: Op)
    requires IsReady(s, p) && CoreOk(s, p, s.reps[p].core)
    ensures var s' := Operating(s, p, op); var dot := Evented(s.reps[p].core.dvv).dot;
            && dot == Dot(p, Own(s, p) + 1)
            && (forall n :: Own(s', n) == Own(s, n) + if n == p then 1 else 0)
            && s'.history.Keys == s.history.Keys + {dot}
            && (dot !in s.history ==> HistoryExtends(s, s'))
  {
    hide Covered, WellFormed, Applied, EventOf;
  }

  lemma FreshDot(s: System, dot: Dot)
    requires HistoryOk(s)
    ensures WellFormed(s.history) && (dot.counter > Own(s, dot.node) ==> dot !in s.history)
  {
  }

  lemma OperateKeepsCore(s: System, p: NodeId, op: Op)
    requires IsReady(s, p) && HistoryOk(s) && CoreOk(s, p, s.reps[p].core)
    ensures var s' := Operating(s, p, op); HistoryOk(s') && CoreOk(s', p, s'.reps[p].core)
  {
    hide Covered, HistoryOk;
    var s' := Operating(s, p, op);
    var c, c' := s.reps[p].core, s'.reps[p].core;
    var dot := Evented(c.dvv).dot;
    EventAdvancesOwn(c.dvv);
    assert At(Clock(c), p) == Own(s, p);
    FreshDot(s, dot);
    OperationKeepsCovered(s.history, Clock(c), Clock(c'), c.orset, dot, op);
    OperateBounds(s, p, op);
  }

  lemma OperatedSame(c: Core, op: Op)
    ensures Operated(c, op).matrix == c.matrix
  {
  }

  lemma OperateKeepsClocks(s: System, p: NodeId, op: Op)
    requires ClocksOk(s) && IsReady(s, p)
    ensures var s' := Operating(s, p, op); Grows(s, s') && ClocksOk(s')
  {
    hide ClocksOk, StoreOk, MsgOk, RowsOk, CoreOk, HistoryOk, Grows, Operated;
    var s' := Operating(s, p, op);
    ClocksAt(s, p);
    ClocksParts(s);
    OperateKeepsCore(s, p, op);
    OperateGrows(s, p, op);
    NobodyStoredObsolete(s);
    GrowsStore(s, s');
    OperatedSame(s.reps[p].core, op);
    GrowsRows(s, s', s.reps[p].core.matrix);
    ClocksFrame(s, s', p);
  }

  // ---- messages ----

  /** Only the network changes. */
  lemma NetStep(s: System, s': System)
    requires ClocksOk(s) && s'.reps == s.reps && s'.store == s.store && s'.history == s.history && s'.stable == s.stable
    requires forall m :: m in s'.net && m !in s.net ==> MsgOk(s, m)
    ensures Grows(s, s') && ClocksOk(s')
  {
    hide MsgOk, RowOk, StoreOk, HistoryOk, RepOk;
    SameSystemGrows(s, s');
    hide Grows;
    forall p | p in s'.reps ensures RepOk(s', p, s'.reps[p]) && RowsOk(s', s'.reps[p].core.matrix) {
      GrowsRep(s, s', p, s.reps[p]);
      GrowsRows(s, s', s.reps[p].core.matrix);
    }
    forall m | m in s'.net ensures MsgOk(s', m) { GrowsMsg(s, s', m); }
    NobodyStoredObsolete(s);
    GrowsStore(s, s');
  }

  lemma SameSystemGrows(s: System, s': System)
    requires s'.reps == s.reps && s'.history == s.history && s'.stable == s.stable
    ensures Grows(s, s') && (HistoryOk(s) ==> HistoryOk(s'))
  {
  }

  lemma AdvertiseKeepsClocks(s: System, p: NodeId, to: NodeId)
    requires ClocksOk(s) && IsReady(s, p)
    ensures var s' := Send(s, Some(PullRequest(p, to, Clock(s.reps[p].core)))); Grows(s, s') && ClocksOk(s')
  {
    hide ClocksOk, Leq, Grows;
    LeqReflexive(Clock(s.reps[p].core));
    NetStep(s, Send(s, Some(PullRequest(p, to, Clock(s.reps[p].core)))));
  }

  lemma UpdatedRowsOk(s: System, mc: MatrixClock, rows: MatrixClock)
    requires RowsOk(s, mc) && RowsOk(s, rows)
    ensures RowsOk(s, UpdatedMatrix(mc, rows))
  {
    hide Leq, Join;
    forall q | q in UpdatedMatrix(mc, rows) ensures RowOk(s, q, UpdatedMatrix(mc, rows)[q]) {
      if q in mc && q in rows {
        JoinBelow(rows[q], mc[q], Clock(s.reps[q].core));
      }
    }
  }

  /** Merging a delta that knows nothing beyond what was minted never takes the
      fast-forward branch: the receiver's own dot stays put. */
  lemma MergeKeepsOwnDot(s: System, p: NodeId, c: Core, eff: VersionVector)
    requires p in s.reps && c == s.reps[p].core && c.id == c.dvv.dot.node == p && DotOutside(c.dvv)
    requires Bounded(s, Clock(c)) && Bounded(s, eff)
    ensures Merged(c.dvv, eff).dot == c.dvv.dot && DotOutside(Merged(c.dvv, eff))
    ensures Same(EffectiveMap(Merged(c.dvv, eff)), Join(Clock(c), eff))
    ensures Bounded(s, EffectiveMap(Merged(c.dvv, eff)))
  {
    assert At(eff, p) <= Own(s, p);
    MergeIsMax(c.dvv, eff);
    MergeKeepsDotOutside(c.dvv, eff);
    forall n ensures At(EffectiveMap(Merged(c.dvv, eff)), n) <= Own(s, n) {
      assert At(Clock(c), n) <= Own(s, n) && At(eff, n) <= Own(s, n);
    }
  }

  lemma DeliverKeepsCore(s: System, m: Envelope)
    requires ClocksOk(s) && m in s.net && m.CrdtOp? && IsReady(s, m.to)
    ensures var c := s.reps[m.to].core; var c' := AfterDelta(c, m.delta, m.rows);
            && CoreOk(s, m.to, c') && RowsOk(s, c'.matrix)
            && Same(Clock(c'), Join(Clock(c), DeltaClock(m.delta)))
            && c'.dvv.dot == c.dvv.dot
  {
    hide ClocksOk, RowsOk, Covered, DeltaCovered, Merged, MergedSet, UpdatedMatrix;
    var c, c' := s.reps[m.to].core, AfterDelta(s.reps[m.to].core, m.delta, m.rows);
    ClocksAt(s, m.to);
    ClocksOfMsg(s, m);
    MergeKeepsOwnDot(s, m.to, c, DeltaClock(m.delta));
    MergeKeepsCovered(s.history, Clock(c), Clock(c'), c.orset, m.delta);
    if c.gcReplica && m.rows.Some? {
      UpdatedRowsOk(s, c.matrix, m.rows.value);
    }
  }

  /** A step that only moves one active core forward and perhaps sends. */
  lemma CoreStep(s: System, s': System, p: NodeId)
    requires ClocksOk(s) && IsReady(s, p) && p in s'.reps
    requires s'.reps == s.reps[p := s.reps[p].(core := s'.reps[p].core)]
    requires s'.history == s.history && s'.stable == s.stable && s'.store == s.store
    requires CoreOk(s, p, s'.reps[p].core) && RowsOk(s, s'.reps[p].core.matrix)
    requires Leq(Clock(s.reps[p].core), Clock(s'.reps[p].core))
    requires s'.reps[p].core.dvv.dot == s.reps[p].core.dvv.dot
    requires forall m :: m in s'.net && m !in s.net ==> MsgOk(s, m)
    ensures Grows(s, s') && ClocksOk(s')
  {
    hide ClocksOk, StoreOk, MsgOk, RowsOk, CoreOk, Grows, HistoryOk, Leq;
    ClocksParts(s);
    LeqReflexive(s.stable);
    OneClockGrows(s, s', p);
    NobodyStoredObsolete(s);
    GrowsStore(s, s');
    GrowsRep(s, s', p, s'.reps[p]);
    GrowsRows(s, s', s'.reps[p].core.matrix);
    forall m | m in s'.net && m !in s.net ensures MsgOk(s', m) { GrowsMsg(s, s', m); }
    ClocksFrame(s, s', p);
  }

  lemma DeliverKeepsClocks(s: System, m: Envelope)
    requires ClocksOk(s) && m in s.net && m.CrdtOp? && IsReady(s, m.to)
    ensures var s' := Delivering(s, m); Grows(s, s') && ClocksOk(s')
  {
    hide ClocksOk, RowsOk, CoreOk, DeltaCovered, Bounded, AfterDelta, Grows, Leq, Clock, Join;
    var c, c' := s.reps[m.to].core, AfterDelta(s.reps[m.to].core, m.delta, m.rows);
    DeliverKeepsCore(s, m);
    ClocksOfMsg(s, m);
    assert Leq(Clock(c), Clock(c')) by { JoinCovers(Clock(c), DeltaClock(m.delta), Clock(c')); }
    CoreStep(s, Delivering(s, m), m.to);
  }

  lemma RequesterRow(s: System, m: Envelope, c: Core)
    requires ClocksOk(s) && m in s.net && m.PullRequest? && RowsOk(s, c.matrix)
    ensures RowsOk(s, AfterRequest(c, m.origin, m.knowledge).matrix)
  {
    hide ClocksOk, UpdatedMatrix;
    ClocksOfMsg(s, m);
    assert RowsOk(s, map[m.origin := m.knowledge]);
    if c.gcReplica { UpdatedRowsOk(s, c.matrix, map[m.origin := m.knowledge]); }
  }

  lemma ReplyIsSound(s: System, m: Envelope, c: Core, peerIsGc: bool, peers: set<NodeId>, sent: Envelope)
    requires ClocksOk(s) && m in s.net && m.PullRequest? && IsReady(s, m.to)
    requires c.dvv == s.reps[m.to].core.dvv && c.orset == s.reps[m.to].core.orset && RowsOk(s, c.matrix)
    requires Respond(m.to, m.origin, ReplyTo(c, m.knowledge, peerIsGc, peers), m.knowledge) == Some(sent)
    ensures MsgOk(s, sent)
  {
    hide ClocksOk, DeltaFor, ClockDeltaIsEmpty, Bounded, Covered, DeltaCovered, Leq;
    ClocksAt(s, m.to);
    ClocksOfMsg(s, m);
    LeqReflexive(Clock(c));
    if sent.CrdtOp? {
      DeltaIsCovered(s.history, c.dvv, c.orset, m.knowledge);
      BoundedSame(s, Clock(c), DeltaClock(sent.delta));
    }
  }

  lemma BoundedSame(s: System, v: VersionVector, w: VersionVector)
    requires Bounded(s, v) && Same(w, v)
    ensures Bounded(s, w)
  {
    forall n ensures At(w, n) <= Own(s, n) { assert At(w, n) == At(v, n); }
  }

  lemma RequestChangesMatrixOnly(c: Core, from: NodeId, known: VersionVector)
    ensures AfterRequest(c, from, known) == c.(matrix := AfterRequest(c, from, known).matrix)
  {
  }

  lemma ServeKeepsClocks(s: System, m: Envelope, peerIsGc: bool, peers: set<NodeId>)
    requires ClocksOk(s) && m in s.net && m.PullRequest? && IsReady(s, m.to)
    ensures var s' := Serving(s, m, peerIsGc, peers); Grows(s, s') && ClocksOk(s')
  {
    hide ClocksOk, MsgOk, RowsOk, Covered, Bounded, ReplyTo, Respond, Grows, Leq, DotOutside, AfterRequest,
         EffectiveMap;
    var r := s.reps[m.to];
    var c := AfterRequest(r.core, m.origin, m.knowledge);
    ClocksAt(s, m.to);
    RequesterRow(s, m, r.core);
    RequestChangesMatrixOnly(r.core, m.origin, m.knowledge);
    LeqReflexive(Clock(c));
    var sent := Respond(m.to, m.origin, ReplyTo(c, m.knowledge, peerIsGc, peers), m.knowledge);
    if sent.Some? { ReplyIsSound(s, m, c, peerIsGc, peers, sent.value); }
    CoreStep(s, Serving(s, m, peerIsGc, peers), m.to);
  }

  // ---- collecting ----

  lemma ForgetNobody(c: Core)
    ensures forall o, e :: Forget(c.(orset := o, epoch := e), {}) == c.(orset := o, epoch := e)
    ensures Forget(c, {}) == c
  {
    assert c.dvv.context - {} == c.dvv.context;
    assert forall p :: p in c.matrix ==> c.matrix[p] - {} == c.matrix[p];
    assert WithoutNodes(c.matrix, {}) == c.matrix;
  }

  lemma ObserveKeepsClocks(s: System, p: NodeId)
    requires ClocksOk(s) && IsReady(s, p)
    ensures var s' := Observing(s, p); Grows(s, s') && ClocksOk(s')
  {
    hide ClocksOk, RowsOk, Covered, Bounded, Collected, Grows, Leq, Forget, Join;
    var r := s.reps[p];
    if s.store.metadata.epoch > r.core.epoch {
      ClocksAt(s, p);
      NobodyStoredObsolete(s);
      ForgetNobody(r.core);
      CollectKeepsCovered(s.history, Clock(r.core), r.core.orset, FrontierDvv(p, s.store.metadata.vStable));
      LeqReflexive(s.stable);
      LocalStep(s, Observing(s, p), p);
    } else {
      SameSystemGrows(s, s);
    }
  }

  /** With every row a member's, no initiator finds anybody obsolete. */
  lemma FindsNobodyObsolete(s: System, p: NodeId, listing: seq<NodeId>, order: seq<NodeId>)
    requires ClocksOk(s) && p in s.reps && s.reps[p].gc.Confirmed? && NodesIn(listing) == s.reps[p].gc.m1
    ensures Finding(s.reps[p].core, listing, order, map[]).1 == {}
  {
    hide ClocksOk, CoreOk, RowsOk, Stable;
    var c := s.reps[p].core;
    ClocksAt(s, p);
    NobodyObsolete(c.id, listing, order, if c.gcReplica then Some(c.matrix) else None, Clock(c));
  }

  lemma GatherKeepsClocks(s: System, p: NodeId, listing: seq<NodeId>, order: seq<NodeId>)
    requires ClocksOk(s) && p in s.reps && s.reps[p].gc.Confirmed? && NodesIn(listing) == s.reps[p].gc.m1
    ensures var s' := Gathering(s, p, listing, order); Grows(s, s') && ClocksOk(s')
  {
    hide ClocksOk, RowsOk, Covered, Bounded, Collected, Grows, Leq, Forget, Join, Finding, VvLeq;
    var r := s.reps[p];
    var v := Finding(r.core, listing, order, map[]).0;
    InitiatorIsActive(s, p);
    FindsNobodyObsolete(s, p, listing, order);
    NobodyStoredObsolete(s);
    ClocksAt(s, p);
    if VvLeq(v, r.gc.prev) {
      QuietStep(s, Gathering(s, p, listing, order), p);
    } else {
      ForgetNobody(r.core);
      CollectKeepsCovered(s.history, Clock(r.core), r.core.orset, FrontierDvv(p, v - {}));
      JoinAbove(s.stable, v - {});
      LocalStep(s, Gathering(s, p, listing, order), p);
    }
  }

  lemma WriteStateKeepsClocks(s: System, p: NodeId)
    requires ClocksOk(s) && p in s.reps && s.reps[p].gc.Gathered?
    ensures var s' := WritingState(s, p); Grows(s, s') && ClocksOk(s')
  {
    hide ClocksOk, MsgOk, RowsOk, HistoryOk, Covered, Bounded, Grows, Leq;
    var s' := WritingState(s, p);
    var r := s.reps[p];
    ClocksAt(s, p);
    ClocksParts(s);
    InitiatorIsActive(s, p);
    NobodyStoredObsolete(s);
    LeqReflexive(s.stable);
    LeqReflexive(Clock(r.core));
    OneClockGrows(s, s', p);
    GrowsRep(s, s', p, s'.reps[p]);
    GrowsRows(s, s', r.core.matrix);
    assert SetState(r.core.orset.live, r.core.orset.tombs) == r.core.orset;
    ClocksFrame(s, s', p);
  }

  lemma RowsAreRegistered(s: System, p: NodeId)
    requires ClocksOk(s) && p in s.reps
    ensures s.reps[p].core.matrix.Keys <= s.reps.Keys
  {
    hide ClocksOk, RepOk, Leq;
    ClocksAt(s, p);
    assert forall q :: q in s.reps[p].core.matrix ==> RowOk(s, q, s.reps[p].core.matrix[q]);
  }

  predicate IsGcStep(step: Step) {
    step.GcReadEpoch? || step.GcReadMembers? || step.GcConfirm? || step.GcClaim? || step.GcCollect?
    || step.GcWriteState? || step.GcWriteMetadata? || step.GcRelease?
  }

  /** Only one replica's phase changes, and perhaps the intents. */
  lemma PhaseKeepsClocks(s: System, p: NodeId, g: GcPhase, intents: map<nat, NodeId>)
    requires ClocksOk(s) && IsActive(s, p) && PhaseOk(s.reps[p].(gc := g))
    ensures var s' := SetPhase(s.(store := s.store.(intents := intents)), p, g); Grows(s, s') && ClocksOk(s')
  {
    hide ClocksOk, Grows, PhaseOk;
    NobodyStoredObsolete(s);
    QuietStep(s, SetPhase(s.(store := s.store.(intents := intents)), p, g), p);
  }

  lemma ReadKeepsClocks(s: System, step: Step)
    requires ClocksOk(s) && Enabled(s, step) && (step.GcReadEpoch? || step.GcReadMembers? || step.GcRelease?)
    ensures Grows(s, Apply(s, step)) && ClocksOk(Apply(s, step))
  {
    hide ClocksOk, Grows, CoreOk, RowsOk;
    if !step.GcReadEpoch? { InitiatorIsActive(s, step.p); }
    NobodyStoredObsolete(s);
    ClocksAt(s, step.p);
    QuietStep(s, Apply(s, step), step.p);
  }

  lemma ClaimKeepsClocks(s: System, p: NodeId)
    requires ClocksOk(s) && p in s.reps && s.reps[p].gc.MembersRead?
    ensures Grows(s, Claiming(s, p)) && ClocksOk(Claiming(s, p))
  {
    hide ClocksOk, Grows;
    InitiatorIsActive(s, p);
    var g := s.reps[p].gc;
    if g.n in s.store.intents {
      PhaseKeepsClocks(s, p, Idle, s.store.intents);
    } else {
      PhaseKeepsClocks(s, p, Claimed(g.n, g.prev, g.m0), s.store.intents[g.n := p]);
    }
  }

  lemma ConfirmKeepsClocks(s: System, p: NodeId)
    requires ClocksOk(s) && p in s.reps && s.reps[p].gc.Claimed?
    ensures Grows(s, Confirming(s, p)) && ClocksOk(Confirming(s, p))
  {
    hide ClocksOk, Grows, NewMemberExists;
    InitiatorIsActive(s, p);
    RowsAreRegistered(s, p);
    PhaseKeepsClocks(s, p, Confirming(s, p).reps[p].gc, s.store.intents);
  }

  lemma WriteMetadataKeepsClocks(s: System, p: NodeId)
    requires ClocksOk(s) && p in s.reps && s.reps[p].gc.StateWritten?
    ensures Grows(s, WritingMetadata(s, p)) && ClocksOk(WritingMetadata(s, p))
  {
    hide ClocksOk, Grows, CoreOk, RowsOk;
    InitiatorIsActive(s, p);
    ClocksAt(s, p);
    QuietStep(s, WritingMetadata(s, p), p);
  }

  lemma GcStepKeepsClocks(s: System, step: Step)
    requires ClocksOk(s) && Enabled(s, step) && IsGcStep(step)
    ensures Grows(s, Apply(s, step)) && ClocksOk(Apply(s, step))
  {
    hide ClocksOk, Grows, Gathering, WritingState, WritingMetadata, Claiming, Confirming;
    match step
    case GcClaim(p) => ClaimKeepsClocks(s, p);
    case GcConfirm(p) => ConfirmKeepsClocks(s, p);
    case GcCollect(p, listing, order) => GatherKeepsClocks(s, p, listing, order);
    case GcWriteState(p) => WriteStateKeepsClocks(s, p);
    case GcWriteMetadata(p) => WriteMetadataKeepsClocks(s, p);
    case _ => ReadKeepsClocks(s, step);
  }

  /** Under no hypothesis at all. */
  lemma StepKeepsClocks(s: System, step: Step)
    requires ClocksOk(s) && Enabled(s, step)
    ensures Grows(s, Apply(s, step)) && ClocksOk(Apply(s, step))
  {
    hide ClocksOk, Grows;
    match step
    case Register(p, gcReplica) => RegisterKeepsClocks(s, p, gcReplica);
    case Bootstrap(p) => BootstrapKeepsClocks(s, p);
    case Client(p, op) => OperateKeepsClocks(s, p, op);
    case Advertise(p, to) => AdvertiseKeepsClocks(s, p, to);
    case Deliver(m) => DeliverKeepsClocks(s, m);
    case Serve(m, peerIsGc, peers) => ServeKeepsClocks(s, m, peerIsGc, peers);
    case Lose(m) => NetStep(s, Apply(s, step));
    case Observe(p) => ObserveKeepsClocks(s, p);
    case _ => GcStepKeepsClocks(s, step);
  }
}
