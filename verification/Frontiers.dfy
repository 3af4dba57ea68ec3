/** Why every frontier anybody collects under has been seen by every active replica, joiners
    included, whatever the environment does.

    An initiator serves nothing between reading the epoch and writing its state, so its
    clock and matrix stand still.  A joiner it did not count adopts either a snapshot whose
    author it has a row for, or counted somebody who has one; or the snapshot was finished
    before the initiator read the epoch, and then the initiator holds the very intent that
    a joiner has to wait for before it may settle on that snapshot. */
module Frontiers {
  import opened Clocks
  import opened Replicas
  import opened Systems
  import opened Invariants

  /** Between a successful claim and its release. */
  predicate HoldsIntent(g: GcPhase) {
    g.Claimed? || g.Confirmed? || g.Gathered? || g.StateWritten? || g.Releasing?
  }

  /** From reading the epoch to writing the state: clock and matrix stand still. */
  predicate BeforeWrite(g: GcPhase) {
    g.EpochRead? || g.MembersRead? || g.Claimed? || g.Confirmed? || g.Gathered?
  }

  predicate Holds(s: System, p: NodeId, n: nat) {
    n in s.store.intents && s.store.intents[n] == p
  }

  /** The replicas an initiator takes into account; all of them until it has read the
      members for the second time. */
  function Counted(s: System, g: GcPhase): set<NodeId> {
    if g.Confirmed? || g.Gathered? then g.m1 else s.reps.Keys
  }

  /** What `p` knows of `r`, if anything, is at most `w`. */
  ghost predicate Via(p: NodeId, c: Core, r: NodeId, w: VersionVector) {
    if r == p then Leq(Clock(c), w) else r in c.matrix ==> Leq(c.matrix[r], w)
  }

  /** Any frontier that `p` can find is at most `w`. */
  ghost predicate Reaches(s: System, p: NodeId, w: VersionVector)
    requires p in s.reps
  {
    exists r :: r in Counted(s, s.reps[p].gc) && Via(p, s.reps[p].core, r, w)
  }

  /** While the intent for `n` is held, these reads do not settle on the stored state. */
  predicate Kept(b: Boot, st: Store, n: nat) {
    var e, now := st.state.epoch, st.metadata.epoch;
    match b
    case Registered => true
    case MetadataRead(x) => (now == e ==> x == e) && (x == e ==> n == e + 1)
    case Polling(x) => (now == e ==> x == e) && (x == e ==> n == e + 1)
    case Polled(x, y) => (now == e ==> x == e) && (y == e ==> x == e) && (x == e ==> n == e + 1)
    case Settled(x) => x != e
    case Active => true
  }

  /** No metadata write of epoch `e` is outstanding. */
  ghost predicate NonePending(s: System, e: nat) {
    forall z :: z in s.reps && s.reps[z].gc.StateWritten? ==> s.reps[z].gc.n != e
  }

  /** The stored state was finished before `p` read the epoch, and whoever `p` did not
      count cannot settle on it. */
  ghost predicate Passed(s: System, p: NodeId)
    requires p in s.reps && BeforeWrite(s.reps[p].gc)
  {
    var n, e := s.reps[p].gc.n, s.store.state.epoch;
    && NonePending(s, e)
    && (s.store.metadata.epoch == e ==> n == e + 1)
    && (forall q :: q in s.reps && q !in Counted(s, s.reps[p].gc) ==> Kept(s.reps[q].boot, s.store, n))
  }

  /** The snapshot has seen what `p` will collect or has collected, or no replica that `p`
      missed can adopt it. */
  ghost predicate SnapshotMet(s: System, p: NodeId)
    requires p in s.reps && BeforeWrite(s.reps[p].gc)
  {
    || (if s.reps[p].gc.Gathered? then Leq(s.reps[p].gc.frontier, s.store.state.initiatorClock)
        else Reaches(s, p, s.store.state.initiatorClock))
    || Passed(s, p)
  }

  ghost predicate ActiveMet(s: System, p: NodeId)
    requires p in s.reps
  {
    s.reps[p].gc.Confirmed? ==> forall q :: IsActive(s, q) ==> Reaches(s, p, Clock(s.reps[q].core))
  }

  ghost predicate AllActive(s: System, m1: set<NodeId>) {
    forall q :: q in m1 ==> IsActive(s, q)
  }

  ghost predicate InitiatorOk(s: System, p: NodeId)
    requires p in s.reps
  {
    var g := s.reps[p].gc;
    && (HoldsIntent(g) ==> Holds(s, p, g.n))
    && (g.StateWritten? && g.n == s.store.state.epoch ==>
          Leq(Clock(s.reps[p].core), s.store.state.initiatorClock))
    && (BeforeWrite(g) ==> SnapshotMet(s, p))
    && ActiveMet(s, p)
    && (g.Gathered? || g.StateWritten? ==> AllActive(s, g.m1) && Leq(g.frontier, s.stable))
  }

  ghost predicate StableOk(s: System) {
    && (forall q :: IsActive(s, q) ==> Leq(s.stable, Clock(s.reps[q].core)))
    && (forall q :: q in s.reps ==> Leq(s.reps[q].collected, s.stable))
    && (forall n :: n in s.commits ==> Leq(s.commits[n].frontier, s.stable))
    && Leq(s.store.metadata.vStable, s.stable)
    && Leq(s.snapCollected, s.stable)
  }

  ghost predicate Collecting(s: System, p: NodeId, n: NodeId) {
    p in s.reps && s.reps[p].gc.Gathered? && At(s.stable, n) <= At(s.reps[p].gc.frontier, n)
  }

  /** The snapshot has seen all that was collected, but for what is being collected now. */
  ghost predicate SnapshotCovers(s: System) {
    forall n :: At(s.stable, n) <= At(s.store.state.initiatorClock, n) || exists p :: Collecting(s, p, n)
  }

  ghost predicate FrontiersOk(s: System) {
    && (forall p :: p in s.reps ==> InitiatorOk(s, p))
    && StableOk(s)
    && SnapshotCovers(s)
  }

  lemma FrontiersAt(s: System, p: NodeId)
    requires FrontiersOk(s) && p in s.reps
    ensures InitiatorOk(s, p)
  {
  }

  lemma FrontiersParts(s: System)
    requires FrontiersOk(s)
    ensures StableOk(s) && SnapshotCovers(s)
  {
  }

  lemma FrontiersFrom(s: System)
    requires forall p :: p in s.reps ==> InitiatorOk(s, p)
    requires StableOk(s) && SnapshotCovers(s)
    ensures FrontiersOk(s)
  {
  }

  lemma SoleHolder(s: System, p: NodeId, q: NodeId)
    requires FrontiersOk(s) && p in s.reps && q in s.reps
    requires HoldsIntent(s.reps[p].gc) && HoldsIntent(s.reps[q].gc) && s.reps[p].gc.n == s.reps[q].gc.n
    ensures p == q
  {
    hide FrontiersOk, SnapshotMet, ActiveMet, AllActive, Leq;
    FrontiersAt(s, p);
    FrontiersAt(s, q);
  }

  // ---- what other replicas' steps leave alone ----

  lemma ReachesKept(s: System, s': System, p: NodeId, w: VersionVector, w': VersionVector)
    requires p in s.reps && p in s'.reps && Reaches(s, p, w) && Leq(w, w')
    requires s'.reps[p].core.dvv == s.reps[p].core.dvv && s'.reps[p].core.matrix == s.reps[p].core.matrix
    requires Counted(s, s.reps[p].gc) <= Counted(s', s'.reps[p].gc)
    ensures Reaches(s', p, w')
  {
    hide Leq, Counted;
    var c := s.reps[p].core;
    var r :| r in Counted(s, s.reps[p].gc) && Via(p, c, r, w);
    if r == p {
      LeqTransitive(Clock(c), w, w');
    } else if r in c.matrix {
      LeqTransitive(c.matrix[r], w, w');
    }
    assert Via(p, s'.reps[p].core, r, w');
  }

  /** `p` and the store are as they were, or the stored epoch has moved to another than the
      state's; nobody new is about to write metadata; joiners' reads stay harmless. */
  ghost predicate Undisturbed(s: System, s': System, p: NodeId) {
    && p in s.reps && p in s'.reps && s'.reps[p].gc == s.reps[p].gc
    && s'.reps[p].core == s.reps[p].core
    && s.reps.Keys <= s'.reps.Keys
    && s'.store.state == s.store.state
    && (forall z :: z in s'.reps && s'.reps[z].gc.StateWritten? ==> z in s.reps && s'.reps[z].gc == s.reps[z].gc)
    && (s'.store.metadata.epoch != s.store.metadata.epoch ==>
          NonePending(s, s.store.state.epoch) ==> s'.store.metadata.epoch != s.store.state.epoch)
    && (BeforeWrite(s.reps[p].gc) ==>
          forall q :: q in s'.reps && q !in Counted(s', s'.reps[p].gc) ==>
            || (q in s.reps && s'.reps[q].boot == s.reps[q].boot)
            || (Passed(s, p) ==> Kept(s'.reps[q].boot, s'.store, s.reps[p].gc.n)))
  }

  lemma KeptWhenStoreMoves(b: Boot, st: Store, st': Store, n: nat)
    requires Kept(b, st, n) && st'.state == st.state
    requires st'.metadata.epoch == st.metadata.epoch || st'.metadata.epoch != st.state.epoch
    ensures Kept(b, st', n)
  {
  }

  lemma PassedKept(s: System, s': System, p: NodeId)
    requires Undisturbed(s, s', p) && BeforeWrite(s.reps[p].gc) && Passed(s, p)
    ensures Passed(s', p)
  {
    hide Kept;
    var n := s.reps[p].gc.n;
    forall q | q in s'.reps && q !in Counted(s', s'.reps[p].gc) ensures Kept(s'.reps[q].boot, s'.store, n) {
      if q in s.reps && s'.reps[q].boot == s.reps[q].boot {
        KeptWhenStoreMoves(s.reps[q].boot, s.store, s'.store, n);
      }
    }
  }

  lemma SnapshotMetKept(s: System, s': System, p: NodeId)
    requires Undisturbed(s, s', p) && BeforeWrite(s.reps[p].gc) && SnapshotMet(s, p)
    ensures SnapshotMet(s', p)
  {
    hide Undisturbed, Passed, Leq, Reaches;
    UndisturbedCore(s, s', p);
    var w := s.store.state.initiatorClock;
    if Passed(s, p) {
      PassedKept(s, s', p);
    } else if !s.reps[p].gc.Gathered? {
      LeqReflexive(w);
      ReachesKept(s, s', p, w, w);
    }
  }

  lemma UndisturbedCore(s: System, s': System, p: NodeId)
    requires Undisturbed(s, s', p)
    ensures p in s.reps && p in s'.reps && s'.reps[p].gc == s.reps[p].gc && s'.reps[p].core == s.reps[p].core
    ensures s'.store.state == s.store.state && Counted(s, s.reps[p].gc) <= Counted(s', s'.reps[p].gc)
  {
  }

  lemma ActiveMetKept(s: System, s': System, p: NodeId)
    requires p in s.reps && p in s'.reps && s'.reps[p].gc == s.reps[p].gc && s'.reps[p].core == s.reps[p].core
    requires ActiveMet(s, p)
    requires forall q :: IsActive(s', q) && IsActive(s, q) ==> Leq(Clock(s.reps[q].core), Clock(s'.reps[q].core))
    requires s.reps[p].gc.Confirmed? ==>
               forall q :: IsActive(s', q) && !IsActive(s, q) ==> Reaches(s', p, Clock(s'.reps[q].core))
    ensures ActiveMet(s', p)
  {
    hide Leq, Reaches, Clock;
    if s.reps[p].gc.Confirmed? {
      forall q | IsActive(s', q) ensures Reaches(s', p, Clock(s'.reps[q].core)) {
        if IsActive(s, q) { ReachesKept(s, s', p, Clock(s.reps[q].core), Clock(s'.reps[q].core)); }
      }
    }
  }

  /** An initiator that the step did not touch. */
  lemma InitiatorKept(s: System, s': System, p: NodeId)
    requires p in s.reps && InitiatorOk(s, p) && Undisturbed(s, s', p) && Grows(s, s')
    requires HoldsIntent(s.reps[p].gc) ==> Holds(s', p, s.reps[p].gc.n)
    requires s.reps[p].gc.Confirmed? ==>
               forall q :: IsActive(s', q) && !IsActive(s, q) ==> Reaches(s', p, Clock(s'.reps[q].core))
    ensures InitiatorOk(s', p)
  {
    hide SnapshotMet, ActiveMet, Leq, Undisturbed, Reaches;
    UndisturbedCore(s, s', p);
    var g := s.reps[p].gc;
    if BeforeWrite(g) { SnapshotMetKept(s, s', p); }
    ActiveMetKept(s, s', p);
    if g.Gathered? || g.StateWritten? { LeqTransitive(g.frontier, s.stable, s'.stable); }
  }

  lemma StableKept(s: System, s': System)
    requires StableOk(s) && Grows(s, s') && s'.stable == s.stable
    requires forall q :: IsActive(s', q) && !IsActive(s, q) ==> Leq(s.stable, Clock(s'.reps[q].core))
    requires forall q :: q in s'.reps ==>
               (q in s.reps && s'.reps[q].collected == s.reps[q].collected) || Leq(s'.reps[q].collected, s.stable)
    requires forall n :: n in s'.commits ==>
               (n in s.commits && s'.commits[n] == s.commits[n]) || Leq(s'.commits[n].frontier, s.stable)
    requires Leq(s'.store.metadata.vStable, s.stable) && Leq(s'.snapCollected, s.stable)
    ensures StableOk(s')
  {
    hide Leq;
    forall q | IsActive(s', q) ensures Leq(s'.stable, Clock(s'.reps[q].core)) {
      if IsActive(s, q) { LeqTransitive(s.stable, Clock(s.reps[q].core), Clock(s'.reps[q].core)); }
    }
  }

  lemma CoversKept(s: System, s': System)
    requires SnapshotCovers(s) && s'.stable == s.stable && s'.store.state == s.store.state
    requires forall p :: p in s.reps && s.reps[p].gc.Gathered? ==> p in s'.reps && s'.reps[p].gc == s.reps[p].gc
    ensures SnapshotCovers(s')
  {
    forall n | At(s'.stable, n) > At(s'.store.state.initiatorClock, n) ensures exists p :: Collecting(s', p, n) {
      var p :| Collecting(s, p, n);
      assert Collecting(s', p, n);
    }
  }
}
