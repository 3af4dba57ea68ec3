/** The coordinator's sequential methods take the transition system's steps. */
module Attempts {
  import opened Clocks
  import opened StableTimestamps
  import opened Replicas
  import opened Systems
  import opened Executions
  import opened Coordinators

  function Next(s: System): nat { s.store.metadata.epoch + 1 }

  function Entering(p: NodeId): seq<Step> {
    [GcReadEpoch(p), GcReadMembers(p), GcClaim(p), GcConfirm(p)]
  }

  function Committing(p: NodeId): seq<Step> {
    [GcWriteState(p), GcWriteMetadata(p), GcRelease(p)]
  }

  function WithIntent(s: System, p: NodeId): System {
    s.(store := s.store.(intents := s.store.intents[Next(s) := p]))
  }

  function Entered(s: System, p: NodeId): System
    requires p in s.reps
  {
    SetPhase(WithIntent(s, p), p, Confirmed(Next(s), s.store.metadata.vStable, s.reps.Keys))
  }

  /** Only the last phase a replica was put in is left. */
  lemma PhaseTwice(s: System, p: NodeId, g: GcPhase, h: GcPhase)
    requires p in s.reps
    ensures SetPhase(s, p, g).reps.Keys == s.reps.Keys && SetPhase(SetPhase(s, p, g), p, h) == SetPhase(s, p, h)
  {
  }

  function AfterReads(s: System, p: NodeId): System
    requires p in s.reps
  {
    SetPhase(s, p, MembersRead(Next(s), s.store.metadata.vStable, s.reps.Keys))
  }

  function AfterClaim(s: System, p: NodeId): System
    requires p in s.reps
  {
    SetPhase(WithIntent(s, p), p, Claimed(Next(s), s.store.metadata.vStable, s.reps.Keys))
  }

  lemma ReadSteps(s: System, p: NodeId)
    requires IsReady(s, p)
    ensures Execute(s, [GcReadEpoch(p), GcReadMembers(p)]) == Some(AfterReads(s, p))
  {
    var n, prev := Next(s), s.store.metadata.vStable;
    PhaseTwice(s, p, EpochRead(n, prev), MembersRead(n, prev, s.reps.Keys));
    Execute1(SetPhase(s, p, EpochRead(n, prev)), GcReadMembers(p));
    ExecuteFirst(s, GcReadEpoch(p), [GcReadMembers(p)]);
  }

  lemma ClaimSteps(s: System, p: NodeId)
    requires IsReady(s, p) && Next(s) !in s.store.intents
    ensures Execute(AfterReads(s, p), [GcClaim(p), GcConfirm(p)]) == Some(Entered(s, p))
  {
    var n, prev, all := Next(s), s.store.metadata.vStable, s.reps.Keys;
    assert Apply(AfterReads(s, p), GcClaim(p)) == AfterClaim(s, p);
    PhaseTwice(WithIntent(s, p), p, Claimed(n, prev, all), Confirmed(n, prev, all));
    assert Apply(AfterClaim(s, p), GcConfirm(p)) == Entered(s, p);
    hide Apply, Execute;
    Execute1(AfterClaim(s, p), GcConfirm(p));
    ExecuteFirst(AfterReads(s, p), GcClaim(p), [GcConfirm(p)]);
    assert [GcClaim(p)] + [GcConfirm(p)] == [GcClaim(p), GcConfirm(p)];
  }

  lemma EnteringConfirms(s: System, p: NodeId)
    requires IsReady(s, p) && Next(s) !in s.store.intents
    ensures Execute(s, Entering(p)) == Some(Entered(s, p))
  {
    hide Apply, Execute, Entered, AfterReads, IsReady;
    ReadSteps(s, p);
    ClaimSteps(s, p);
    ExecuteSplits(s, [GcReadEpoch(p), GcReadMembers(p)], [GcClaim(p), GcConfirm(p)]);
    assert [GcReadEpoch(p), GcReadMembers(p)] + [GcClaim(p), GcConfirm(p)] == Entering(p);
  }

  lemma CollectingGathers(t: System, p: NodeId, listing: seq<NodeId>, order: seq<NodeId>)
    requires p in t.reps && t.reps[p].gc.Confirmed? && NodesIn(listing) == t.reps[p].gc.m1
    ensures Execute(t, [GcCollect(p, listing, order)]) == Some(Gathering(t, p, listing, order))
  {
    hide Gathering;
    Execute1(t, GcCollect(p, listing, order));
  }

  lemma ReleasingFrees(t: System, p: NodeId)
    requires IsActive(t, p) && t.reps[p].gc.Releasing?
    ensures var t' := Execute(t, [GcRelease(p)]);
            && t'.Some? && IsReady(t'.value, p)
            && t'.value == t.(reps := t'.value.reps, store := t.store.(intents := t.store.intents - {t.reps[p].gc.n}))
            && t'.value.reps == t.reps[p := t.reps[p].(gc := Idle)]
  {
    Execute1(t, GcRelease(p));
  }

  lemma BothWritten(t: System, p: NodeId)
    requires IsActive(t, p) && t.reps[p].gc.Gathered?
    ensures var u := WritingMetadata(WritingState(t, p), p); var c, g := t.reps[p].core, t.reps[p].gc;
            && u.reps == t.reps[p := t.reps[p].(core := c.(epoch := g.n), gc := Releasing(g.n))]
            && u.store == Store(EpochMetadata(g.n, g.frontier, g.obsolete), Snapshot(c, g.n), t.store.intents)
            && u.net == t.net && u.history == t.history
  {
    hide Snapshot;
  }

  lemma CommittingWrites(t: System, p: NodeId)
    requires IsActive(t, p) && t.reps[p].gc.Gathered?
    ensures var t' := Execute(t, Committing(p)); var c, g := t.reps[p].core, t.reps[p].gc;
            && t'.Some? && IsReady(t'.value, p)
            && t'.value.reps == t.reps[p := t.reps[p].(core := c.(epoch := g.n), gc := Idle)]
            && t'.value.store == Store(EpochMetadata(g.n, g.frontier, g.obsolete), Snapshot(c, g.n),
                                       t.store.intents - {g.n})
            && t'.value.net == t.net && t'.value.history == t.history
  {
    hide Execute, Snapshot;
    var t1 := WritingState(t, p);
    var t2 := WritingMetadata(t1, p);
    assert Apply(t, GcWriteState(p)) == t1 && Apply(t1, GcWriteMetadata(p)) == t2;
    BothWritten(t, p);
    ReleasingFrees(t2, p);
    hide Apply, WritingState, WritingMetadata;
    assert t2.reps[p := t2.reps[p].(gc := Idle)] == t.reps[p := t2.reps[p].(gc := Idle)];
    ExecuteFirst(t, GcWriteState(p), [GcWriteMetadata(p), GcRelease(p)]);
    ExecuteFirst(t1, GcWriteMetadata(p), [GcRelease(p)]);
    assert Committing(p) == [GcWriteState(p)] + [GcWriteMetadata(p), GcRelease(p)];
    assert [GcWriteMetadata(p), GcRelease(p)] == [GcWriteMetadata(p)] + [GcRelease(p)];
  }

  function Ending(p: NodeId, abort: Option<AbortReason>): seq<Step> {
    if abort.None? then Committing(p) else [GcRelease(p)]
  }

  /** A replica that finds the intent taken stops there. */
  function Attempting(p: NodeId, listing: seq<NodeId>, order: seq<NodeId>, abort: Option<AbortReason>): seq<Step> {
    if abort == Some(ConcurrentInitiator) then [GcReadEpoch(p), GcReadMembers(p)] + [GcClaim(p)]
    else Entering(p) + ([GcCollect(p, listing, order)] + Ending(p, abort))
  }

  /** `s'` is `s` with one replica and the store as the attempt left them. */
  predicate IsOutcome(s: System, p: NodeId, a: Attempt, s': System) {
    && IsReady(s', p) && s'.reps[p].core == a.core && s'.store == a.store
    && s'.reps - {p} == s.reps - {p} && s'.net == s.net && s'.history == s.history
  }

  /** Collecting touches neither the store nor anybody else. */
  lemma CollectingKeeps(t: System, p: NodeId, listing: seq<NodeId>, order: seq<NodeId>)
    requires p in t.reps && t.reps[p].gc.Confirmed?
    ensures var u := Gathering(t, p, listing, order);
            && p in u.reps && u.reps == t.reps[p := u.reps[p]] && u.reps[p].boot == t.reps[p].boot
            && u.store == t.store && u.net == t.net && u.history == t.history
  {
    hide Finding, VvLeq, Initiated, Join;
  }

  lemma CollectingMoves(t: System, p: NodeId, listing: seq<NodeId>, order: seq<NodeId>)
    requires p in t.reps && t.reps[p].gc.Confirmed?
    ensures var f := Finding(t.reps[p].core, listing, order, map[]); var g := t.reps[p].gc;
            var r := Gathering(t, p, listing, order).reps[p];
            (r.core, r.gc) == if VvLeq(f.0, g.prev) then (t.reps[p].core, Releasing(g.n))
                              else (Initiated(t.reps[p].core, f.0, f.1), Gathered(g.n, f.0 - f.1, f.1, g.m1))
  {
    hide Finding, VvLeq, Initiated, Join;
  }

  lemma CollectingDecides(s: System, p: NodeId, listing: seq<NodeId>, order: seq<NodeId>)
    requires IsReady(s, p) && NodesIn(listing) == s.reps.Keys && Next(s) !in s.store.intents
    ensures var c := s.reps[p].core; var a := Attempted(c, s.store, s.reps.Keys, listing, order, map[]);
            var u := Gathering(Entered(s, p), p, listing, order); var (c', g) := (u.reps[p].core, u.reps[p].gc);
            && IsActive(u, p) && u.reps == s.reps[p := u.reps[p]]
            && u.store == WithIntent(s, p).store && u.net == s.net && u.history == s.history
            && (if a.abort.None? then
                  g.Gathered? && g.n == Next(s) && a.core == c'.(epoch := g.n)
                  && a.store == Store(EpochMetadata(g.n, g.frontier, g.obsolete), Snapshot(c', g.n), s.store.intents)
                else g == Releasing(Next(s)) && a.core == c' && a.store == s.store)
  {
    hide Finding, VvLeq, Initiated, Snapshot, Join, Gathering, NewMemberExists;
    CollectingKeeps(Entered(s, p), p, listing, order);
    CollectingMoves(Entered(s, p), p, listing, order);
  }

  lemma EndingSettles(s: System, p: NodeId, listing: seq<NodeId>, order: seq<NodeId>)
    requires IsReady(s, p) && NodesIn(listing) == s.reps.Keys && Next(s) !in s.store.intents
    ensures var a := Attempted(s.reps[p].core, s.store, s.reps.Keys, listing, order, map[]);
            var s' := Execute(Gathering(Entered(s, p), p, listing, order), Ending(p, a.abort));
            s'.Some? && IsOutcome(s, p, a, s'.value)
  {
    hide Execute, Attempted, Gathering, NodesIn, Apply, Snapshot;
    var a := Attempted(s.reps[p].core, s.store, s.reps.Keys, listing, order, map[]);
    var u := Gathering(Entered(s, p), p, listing, order);
    CollectingDecides(s, p, listing, order);
    assert s.store.intents[Next(s) := p] - {Next(s)} == s.store.intents;
    if a.abort.None? { CommittingWrites(u, p); } else { ReleasingFrees(u, p); }
  }

  /** The next epoch's intent is free. */
  lemma FreeAttempt(s: System, p: NodeId, listing: seq<NodeId>, order: seq<NodeId>)
    requires IsReady(s, p) && NodesIn(listing) == s.reps.Keys && Next(s) !in s.store.intents
    ensures var a := Attempted(s.reps[p].core, s.store, s.reps.Keys, listing, order, map[]);
            var s' := Execute(s, Attempting(p, listing, order, a.abort));
            s'.Some? && IsOutcome(s, p, a, s'.value)
  {
    hide Execute, Attempted, Gathering, NodesIn, Apply, Enabled, Entering, Ending, IsOutcome;
    var a := Attempted(s.reps[p].core, s.store, s.reps.Keys, listing, order, map[]);
    var t := Entered(s, p);
    NotConcurrent(s, p, listing, order);
    EnteringConfirms(s, p);
    CollectingGathers(t, p, listing, order);
    EndingSettles(s, p, listing, order);
    ExecuteSplits(s, Entering(p), [GcCollect(p, listing, order)] + Ending(p, a.abort));
    ExecuteSplits(t, [GcCollect(p, listing, order)], Ending(p, a.abort));
  }

  lemma NotConcurrent(s: System, p: NodeId, listing: seq<NodeId>, order: seq<NodeId>)
    requires p in s.reps
    ensures Attempted(s.reps[p].core, s.store, s.reps.Keys, listing, order, map[]).abort == Some(ConcurrentInitiator)
       <==> Next(s) in s.store.intents
  {
    hide Finding, VvLeq, Initiated, Snapshot;
  }

  lemma TakenClaim(s: System, p: NodeId)
    requires IsReady(s, p) && Next(s) in s.store.intents
    ensures Execute(AfterReads(s, p), [GcClaim(p)]) == Some(SetPhase(s, p, Idle))
  {
    PhaseTwice(s, p, AfterReads(s, p).reps[p].gc, Idle);
    Execute1(AfterReads(s, p), GcClaim(p));
  }

  /** Somebody else holds it. */
  lemma TakenAttempt(s: System, p: NodeId, listing: seq<NodeId>, order: seq<NodeId>)
    requires IsReady(s, p) && Next(s) in s.store.intents
    ensures var a := Attempted(s.reps[p].core, s.store, s.reps.Keys, listing, order, map[]);
            var s' := Execute(s, Attempting(p, listing, order, a.abort));
            s'.Some? && IsOutcome(s, p, a, s'.value)
  {
    hide Execute, Apply, AfterReads, Finding, VvLeq, Initiated, Snapshot, NewMemberExists, NodesIn;
    ReadSteps(s, p);
    TakenClaim(s, p);
    ExecuteSplits(s, [GcReadEpoch(p), GcReadMembers(p)], [GcClaim(p)]);
  }

  /** With no other step between them, a replica's GC steps do to it and to the store what
      `InitiateGc` does in one go, and nothing to anybody else. */
  lemma UninterruptedAttempt(s: System, p: NodeId, listing: seq<NodeId>, order: seq<NodeId>)
    requires IsReady(s, p) && NodesIn(listing) == s.reps.Keys
    ensures var a := Attempted(s.reps[p].core, s.store, s.reps.Keys, listing, order, map[]);
            var s' := Execute(s, Attempting(p, listing, order, a.abort));
            s'.Some? && IsOutcome(s, p, a, s'.value)
  {
    hide Execute, Attempted, Attempting, IsOutcome;
    if Next(s) in s.store.intents {
      TakenAttempt(s, p, listing, order);
    } else {
      FreeAttempt(s, p, listing, order);
    }
  }
}
