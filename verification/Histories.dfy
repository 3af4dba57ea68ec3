/** What a replica's set ought to be, said without looking at any replica: a history maps
    each minted dot to the operation it stands for, and a clock selects the events seen.
    The lemmas show that every operation on sets keeps a replica exactly at the meaning
    of its clock. */
module Histories {
  import opened Clocks
  import opened DotVersionVectors
  import opened OrSets

  datatype Event = AddEvent(elem: Elem) | RemoveEvent(dots: set<Dot>)

  type History = map<Dot, Event>

  ghost predicate Removes(h: History, m: Dot, d: Dot) {
    m in h && h[m].RemoveEvent? && d in h[m].dots
  }

  /** Some remove event that `v` has seen removed the add-dot `d`. */
  ghost predicate Removed(h: History, v: VersionVector, d: Dot) {
    exists m :: Removes(h, m, d) && Covers(v, m)
  }

  /** `t` was added by an event that `v` has seen and removed by none that it has seen. */
  ghost predicate Visible(h: History, v: VersionVector, t: Tag) {
    && t.dot in h && h[t.dot] == AddEvent(t.elem)
    && Covers(v, t.dot)
    && !Removed(h, v, t.dot)
  }

  /** Removes name only dots that were minted before, and counters start at 1. */
  ghost predicate WellFormed(h: History) {
    && (forall d :: d in h ==> d.counter >= 1)
    && (forall m, d :: Removes(h, m, d) ==> d in h)
  }

  ghost predicate LiveExact(h: History, v: VersionVector, live: set<Tag>) {
    forall t :: t in live <==> Visible(h, v, t)
  }

  ghost predicate TombsSound(h: History, v: VersionVector, tombs: map<Dot, Dot>) {
    forall d :: d in tombs ==> Removes(h, tombs[d], d) && Covers(v, tombs[d])
  }

  /** The only removals without a tombstone are those a collected frontier has seen. */
  ghost predicate TombsComplete(h: History, v: VersionVector, tombs: map<Dot, Dot>, collected: VersionVector) {
    forall d :: Removed(h, v, d) ==> d in tombs || Removed(h, collected, d)
  }

  /** The replica's set is the one its clock and the history determine.  `collected` joins
      the frontiers under which tombstones were dropped. */
  ghost predicate Exact(h: History, v: VersionVector, s: SetState, collected: VersionVector) {
    && LiveExact(h, v, s.live)
    && TombsSound(h, v, s.tombs)
    && TombsComplete(h, v, s.tombs, collected)
    && Leq(collected, v)
  }

  /** What a delta promises a receiver that knows at least `since` and `floor`. */
  ghost predicate DeltaExact(h: History, d: Delta, since: VersionVector, floor: VersionVector) {
    var v := DeltaClock(d);
    && (forall t :: t in d.adds ==> Visible(h, v, t))
    && (forall t :: Visible(h, v, t) && !Covers(since, t.dot) ==> t in d.adds)
    && TombsSound(h, v, d.tombs)
    && (forall k :: Removed(h, v, k) ==> k in d.tombs || Removed(h, since, k) || Removed(h, floor, k))
  }

  /** Whoever has seen a remove has seen the adds it names. */
  ghost predicate Closed(h: History, v: VersionVector) {
    forall m, d :: Removes(h, m, d) && Covers(v, m) ==> Covers(v, d)
  }

  /** Every live pair is an add that `v` has seen; every tombstone is for a minted dot and
      names a remove-dot that `v` has seen. */
  ghost predicate Accounted(h: History, v: VersionVector, live: set<Tag>, tombs: map<Dot, Dot>) {
    && (forall t :: t in live ==> t.dot in h && h[t.dot] == AddEvent(t.elem) && Covers(v, t.dot))
    && (forall d :: d in tombs ==> d in h && Covers(v, tombs[d]))
  }

  /** What holds of a replica's set whether or not it is exact. */
  ghost predicate Covered(h: History, v: VersionVector, s: SetState) {
    Accounted(h, v, s.live, s.tombs) && Disjoint(s) && Closed(h, v)
  }

  /** The same of what a delta carries. */
  ghost predicate DeltaCovered(h: History, d: Delta) {
    Accounted(h, DeltaClock(d), d.adds, d.tombs) && Closed(h, DeltaClock(d))
  }

  lemma RemovedMonotone(h: History, a: VersionVector, b: VersionVector, d: Dot)
    requires Leq(a, b) && Removed(h, a, d)
    ensures Removed(h, b, d)
  {
    var m :| Removes(h, m, d) && Covers(a, m);
    assert At(a, m.node) <= At(b, m.node);
  }

  /** A removal seen by a join was seen by one of its sides. */
  lemma RemovedInJoin(h: History, a: VersionVector, b: VersionVector, j: VersionVector, d: Dot)
    requires Same(j, Join(a, b))
    ensures Removed(h, j, d) <==> Removed(h, a, d) || Removed(h, b, d)
  {
    assert Leq(a, j) && Leq(b, j) by {
      forall n ensures At(a, n) <= At(j, n) && At(b, n) <= At(j, n) {
        assert At(j, n) == At(Join(a, b), n);
      }
    }
    if Removed(h, a, d) { RemovedMonotone(h, a, j, d); }
    if Removed(h, b, d) { RemovedMonotone(h, b, j, d); }
    if Removed(h, j, d) {
      var m :| Removes(h, m, d) && Covers(j, m);
      assert At(j, m.node) == At(Join(a, b), m.node);
      assert Covers(a, m) || Covers(b, m);
    }
  }

  // ---- local operations ----

  function EventOf(s: SetState, op: Op): Event {
    match op
    case Add(e) => AddEvent(e)
    case Remove(e) => RemoveEvent(DotsOf(s.live, e))
  }

  /** New events that `v` has not seen change nothing below `v`. */
  lemma HistoryGrows(h: History, h': History, v: VersionVector)
    requires forall d :: d in h ==> d in h' && h'[d] == h[d]
    requires forall d :: d in h' && d !in h ==> !Covers(v, d)
    ensures forall d :: Removed(h', v, d) <==> Removed(h, v, d)
    ensures forall t :: Visible(h', v, t) <==> Visible(h, v, t)
  {
    forall d ensures Removed(h', v, d) <==> Removed(h, v, d) {
      if Removed(h, v, d) {
        var m :| Removes(h, m, d) && Covers(v, m);
        assert Removes(h', m, d);
      }
      if Removed(h', v, d) {
        var m :| Removes(h', m, d) && Covers(v, m);
        assert Removes(h, m, d);
      }
    }
  }

  /** What a replica has seen after minting a fresh dot. */
  lemma MintedMeaning(h: History, v: VersionVector, v': VersionVector, collected: VersionVector, dot: Dot, event: Event)
    requires dot !in h && dot.counter == At(v, dot.node) + 1 && Leq(collected, v)
    requires forall n :: At(v', n) == if n == dot.node then dot.counter else At(v, n)
    ensures var h' := h[dot := event];
            && Leq(v, v')
            && (forall d :: Covers(v', d) <==> Covers(v, d) || d == dot)
            && (forall m, d :: Removes(h, m, d) ==> Removes(h', m, d))
            && (forall d :: Removed(h', collected, d) <==> Removed(h, collected, d))
            && (forall d :: Removed(h', v', d) <==> Removed(h, v, d) || Removes(h', dot, d))
  {
    var h' := h[dot := event];
    HistoryGrows(h, h', v);
    HistoryGrows(h, h', collected) by {
      assert At(collected, dot.node) <= At(v, dot.node);
    }
    forall d ensures Removed(h', v', d) <==> Removed(h, v, d) || Removes(h', dot, d) {
      if Removed(h', v', d) {
        var m :| Removes(h', m, d) && Covers(v', m);
        assert m != dot ==> Removes(h', m, d) && Covers(v, m);
      }
      if Removed(h, v, d) {
        assert Removed(h', v, d);
        RemovedMonotone(h', v, v', d);
      }
    }
  }

  /** Minting a fresh dot and applying the operation keeps the replica exact. */
  lemma OperationKeepsExact(h: History, v: VersionVector, v': VersionVector, s: SetState,
                            collected: VersionVector, dot: Dot, op: Op)
    requires WellFormed(h) && Exact(h, v, s, collected)
    requires dot !in h && dot.counter == At(v, dot.node) + 1
    requires forall n :: At(v', n) == if n == dot.node then dot.counter else At(v, n)
    ensures WellFormed(h[dot := EventOf(s, op)])
    ensures Exact(h[dot := EventOf(s, op)], v', Applied(s, dot, op), collected)
  {
    hide WellFormed, Exact;
    match op
    case Add(e) => AddKeepsExact(h, v, v', s, collected, dot, e);
    case Remove(e) => RemoveKeepsExact(h, v, v', s, collected, dot, e);
  }

  lemma AddKeepsExact(h: History, v: VersionVector, v': VersionVector, s: SetState,
                      collected: VersionVector, dot: Dot, e: Elem)
    requires WellFormed(h) && Exact(h, v, s, collected)
    requires dot !in h && dot.counter == At(v, dot.node) + 1
    requires forall n :: At(v', n) == if n == dot.node then dot.counter else At(v, n)
    ensures WellFormed(h[dot := AddEvent(e)])
    ensures Exact(h[dot := AddEvent(e)], v', Applied(s, dot, Add(e)), collected)
  {
    var h' := h[dot := AddEvent(e)];
    MintedMeaning(h, v, v', collected, dot, AddEvent(e));
    assert forall d :: !Removes(h', dot, d);
    assert forall m, d :: Removes(h', m, d) ==> Removes(h, m, d);
    hide Removed;
    assert !Removed(h, v, dot) by { NotYetRemoved(h, v, dot); }
  }

  lemma NotYetRemoved(h: History, v: VersionVector, d: Dot)
    requires WellFormed(h) && d !in h
    ensures !Removed(h, v, d)
  {
  }

  lemma RemoveKeepsExact(h: History, v: VersionVector, v': VersionVector, s: SetState,
                         collected: VersionVector, dot: Dot, e: Elem)
    requires WellFormed(h) && Exact(h, v, s, collected)
    requires dot !in h && dot.counter == At(v, dot.node) + 1
    requires forall n :: At(v', n) == if n == dot.node then dot.counter else At(v, n)
    ensures WellFormed(h[dot := RemoveEvent(DotsOf(s.live, e))])
    ensures Exact(h[dot := RemoveEvent(DotsOf(s.live, e))], v', Applied(s, dot, Remove(e)), collected)
  {
    var gone := DotsOf(s.live, e);
    var h' := h[dot := RemoveEvent(gone)];
    var s' := Applied(s, dot, Remove(e));
    MintedMeaning(h, v, v', collected, dot, RemoveEvent(gone));
    RemoveTouchesElement(h, v, s, e);
    hide Removed, DotsOf, Visible, Covers;
    assert forall m, d :: Removes(h', m, d) ==> Removes(h, m, d) || d in gone;
    assert forall d :: Removes(h', dot, d) <==> d in gone;
    RemoveKeepsLive(h, h', v, v', s, dot, e, gone);
    RemoveKeepsTombs(h, h', v, v', s, collected, dot, e, gone);
    hide Exact;
    assert Exact(h', v', s', collected) by { LeqThrough(h, h', v, v', s, s', collected); }
  }

  lemma LeqThrough(h: History, h': History, v: VersionVector, v': VersionVector, s: SetState, s': SetState,
                   collected: VersionVector)
    requires Exact(h, v, s, collected) && Leq(v, v')
    requires LiveExact(h', v', s'.live) && TombsSound(h', v', s'.tombs) && TombsComplete(h', v', s'.tombs, collected)
    ensures Exact(h', v', s', collected)
  {
    hide LiveExact, TombsSound, TombsComplete;
    forall n ensures At(collected, n) <= At(v', n) { assert At(collected, n) <= At(v, n) <= At(v', n); }
  }

  lemma RemoveKeepsLive(h: History, h': History, v: VersionVector, v': VersionVector, s: SetState,
                        dot: Dot, e: Elem, gone: set<Dot>)
    requires LiveExact(h, v, s.live) && dot !in h && gone == DotsOf(s.live, e) && h' == h[dot := RemoveEvent(gone)]
    requires forall d :: Covers(v', d) <==> Covers(v, d) || d == dot
    requires forall d :: Removed(h', v', d) <==> Removed(h, v, d) || d in gone
    requires forall t :: t in s.live ==> (t.dot in gone <==> t.elem == e)
    ensures LiveExact(h', v', Applied(s, dot, Remove(e)).live)
  {
    hide Removed, DotsOf, Covers;
    forall t ensures t in Applied(s, dot, Remove(e)).live <==> Visible(h', v', t) {
      assert t in s.live <==> Visible(h, v, t);
    }
  }

  lemma RemoveKeepsTombs(h: History, h': History, v: VersionVector, v': VersionVector, s: SetState,
                         collected: VersionVector, dot: Dot, e: Elem, gone: set<Dot>)
    requires TombsSound(h, v, s.tombs) && TombsComplete(h, v, s.tombs, collected)
    requires dot !in h && gone == DotsOf(s.live, e) && h' == h[dot := RemoveEvent(gone)]
    requires forall d :: Covers(v', d) <==> Covers(v, d) || d == dot
    requires forall d :: Removed(h', v', d) <==> Removed(h, v, d) || d in gone
    requires forall d :: Removed(h', collected, d) <==> Removed(h, collected, d)
    ensures TombsSound(h', v', Applied(s, dot, Remove(e)).tombs)
    ensures TombsComplete(h', v', Applied(s, dot, Remove(e)).tombs, collected)
  {
    hide Removed, DotsOf, Covers;
    assert Applied(s, dot, Remove(e)).tombs == s.tombs + map d | d in gone :: dot;
  }

  lemma RemoveTouchesElement(h: History, v: VersionVector, s: SetState, e: Elem)
    requires LiveExact(h, v, s.live)
    ensures forall t :: t in s.live ==> (t.dot in DotsOf(s.live, e) <==> t.elem == e)
    ensures forall d :: d in DotsOf(s.live, e) ==> d in h && Covers(v, d)
  {
    forall t | t in s.live ensures t.dot in DotsOf(s.live, e) <==> t.elem == e {
      assert Visible(h, v, t);
      if t.dot in DotsOf(s.live, e) {
        var u :| u in s.live && u.elem == e && u.dot == t.dot;
        assert Visible(h, v, u);
      }
    }
    forall d | d in DotsOf(s.live, e) ensures d in h && Covers(v, d) {
      var u :| u in s.live && u.elem == e && u.dot == d;
      assert Visible(h, v, u);
    }
  }

  // ---- what every operation keeps without any hypothesis ----

  /** New events that `v` has not seen leave what is covered covered. */
  lemma CoveredGrows(h: History, h': History, v: VersionVector)
    requires forall d :: d in h ==> d in h' && h'[d] == h[d]
    requires forall d :: d in h' && d !in h ==> !Covers(v, d)
    ensures Closed(h, v) ==> Closed(h', v)
    ensures forall live, tombs :: Accounted(h, v, live, tombs) ==> Accounted(h', v, live, tombs)
  {
    assert forall m, d :: Removes(h', m, d) && Covers(v, m) ==> Removes(h, m, d);
  }

  lemma OperationKeepsCovered(h: History, v: VersionVector, v': VersionVector, s: SetState, dot: Dot, op: Op)
    requires WellFormed(h) && Covered(h, v, s)
    requires dot !in h && dot.counter == At(v, dot.node) + 1
    requires forall n :: At(v', n) == if n == dot.node then dot.counter else At(v, n)
    ensures WellFormed(h[dot := EventOf(s, op)])
    ensures Covered(h[dot := EventOf(s, op)], v', Applied(s, dot, op))
  {
    hide WellFormed, Covered;
    match op
    case Add(e) => AddKeepsCovered(h, v, v', s, dot, e);
    case Remove(e) => RemoveKeepsCovered(h, v, v', s, dot, e);
  }

  lemma AddKeepsCovered(h: History, v: VersionVector, v': VersionVector, s: SetState, dot: Dot, e: Elem)
    requires WellFormed(h) && Covered(h, v, s)
    requires dot !in h && dot.counter == At(v, dot.node) + 1
    requires forall n :: At(v', n) == if n == dot.node then dot.counter else At(v, n)
    ensures WellFormed(h[dot := AddEvent(e)])
    ensures Covered(h[dot := AddEvent(e)], v', Applied(s, dot, Add(e)))
  {
    var h' := h[dot := AddEvent(e)];
    assert forall d :: Covers(v', d) <==> Covers(v, d) || d == dot;
    CoveredGrows(h, h', v);
    assert forall m, d :: Removes(h', m, d) ==> Removes(h, m, d);
    assert dot !in s.tombs;
  }

  lemma RemoveKeepsCovered(h: History, v: VersionVector, v': VersionVector, s: SetState, dot: Dot, e: Elem)
    requires WellFormed(h) && Covered(h, v, s)
    requires dot !in h && dot.counter == At(v, dot.node) + 1
    requires forall n :: At(v', n) == if n == dot.node then dot.counter else At(v, n)
    ensures WellFormed(h[dot := RemoveEvent(DotsOf(s.live, e))])
    ensures Covered(h[dot := RemoveEvent(DotsOf(s.live, e))], v', Applied(s, dot, Remove(e)))
  {
    var gone := DotsOf(s.live, e);
    var h' := h[dot := RemoveEvent(gone)];
    assert forall d :: Covers(v', d) <==> Covers(v, d) || d == dot;
    CoveredGrows(h, h', v);
    LiveDotsSeen(h, v, s, e);
    RemoveIsDisjoint(s, dot, e);
    hide DotsOf, Disjoint, Covers;
    assert forall m, d :: Removes(h', m, d) ==> Removes(h, m, d) || (m == dot && d in gone);
  }

  lemma RemoveIsDisjoint(s: SetState, dot: Dot, e: Elem)
    requires Disjoint(s) && forall t :: t in s.live && t.dot in DotsOf(s.live, e) ==> t.elem == e
    ensures Disjoint(Applied(s, dot, Remove(e)))
  {
  }

  lemma LiveDotsSeen(h: History, v: VersionVector, s: SetState, e: Elem)
    requires Accounted(h, v, s.live, s.tombs)
    ensures forall d :: d in DotsOf(s.live, e) ==> d in h && Covers(v, d)
    ensures forall t :: t in s.live && t.dot in DotsOf(s.live, e) ==> t.elem == e
  {
    forall t | t in s.live && t.dot in DotsOf(s.live, e) ensures t.elem == e {
      var u :| u in s.live && u.elem == e && u.dot == t.dot;
      assert h[t.dot] == AddEvent(t.elem) && h[u.dot] == AddEvent(u.elem);
    }
  }

  lemma MergeKeepsCovered(h: History, v: VersionVector, j: VersionVector, s: SetState, d: Delta)
    requires Covered(h, v, s) && DeltaCovered(h, d)
    requires Same(j, Join(v, DeltaClock(d)))
    ensures Covered(h, j, MergedSet(s, d.adds, d.tombs))
  {
    JoinCovers(v, DeltaClock(d), j);
  }

  lemma CollectKeepsCovered(h: History, v: VersionVector, s: SetState, frontier: Dvv)
    requires Covered(h, v, s)
    ensures Covered(h, v, Collected(s, frontier))
  {
  }

  lemma DeltaIsCovered(h: History, dvv: Dvv, s: SetState, known: VersionVector)
    requires Covered(h, EffectiveMap(dvv), s)
    ensures DeltaCovered(h, DeltaFor(s, dvv, known))
    ensures Same(DeltaClock(DeltaFor(s, dvv, known)), EffectiveMap(dvv))
  {
    SameMeaning(h, EffectiveMap(dvv), DeltaClock(DeltaFor(s, dvv, known)));
  }

  lemma CoveredAtSameClock(h: History, v: VersionVector, w: VersionVector, s: SetState)
    requires Same(v, w) && Covered(h, v, s)
    ensures Covered(h, w, s)
  {
    SameMeaning(h, v, w);
  }

  // ---- deltas ----

  /** The minimal delta leaves out a tombstone when the receiver knows the remove-dot it
      stores, even though other removes of the same dot may be news.  It still carries
      every consequence of the sender's history. */
  lemma DeltaIsExact(h: History, dvv: Dvv, s: SetState, collected: VersionVector, known: VersionVector)
    requires Exact(h, EffectiveMap(dvv), s, collected)
    ensures DeltaExact(h, DeltaFor(s, dvv, known), known, collected)
    ensures Same(DeltaClock(DeltaFor(s, dvv, known)), EffectiveMap(dvv))
  {
    var v := EffectiveMap(dvv);
    var d := DeltaFor(s, dvv, known);
    SameMeaning(h, v, DeltaClock(d));
    forall k | Removed(h, v, k) && k !in d.tombs && !Removed(h, collected, k) ensures Removed(h, known, k) {
      assert Removes(h, s.tombs[k], k) && Covers(known, s.tombs[k]);
    }
  }

  lemma SameMeaning(h: History, a: VersionVector, b: VersionVector)
    requires Same(a, b)
    ensures forall d :: Covers(a, d) <==> Covers(b, d)
    ensures forall d :: Removed(h, a, d) <==> Removed(h, b, d)
    ensures forall t :: Visible(h, a, t) <==> Visible(h, b, t)
  {
    forall d ensures Covers(a, d) <==> Covers(b, d) {
      assert At(a, d.node) == At(b, d.node);
    }
    assert Leq(a, b) && Leq(b, a);
    forall d ensures Removed(h, a, d) <==> Removed(h, b, d) {
      if Removed(h, a, d) { RemovedMonotone(h, a, b, d); }
      if Removed(h, b, d) { RemovedMonotone(h, b, a, d); }
    }
  }

  lemma FullDeltaIsExact(h: History, dvv: Dvv, s: SetState, collected: VersionVector, known: VersionVector)
    requires Exact(h, EffectiveMap(dvv), s, collected)
    ensures DeltaExact(h, FullDelta(s, dvv), known, collected)
    ensures Same(DeltaClock(FullDelta(s, dvv)), EffectiveMap(dvv))
  {
    SameMeaning(h, EffectiveMap(dvv), DeltaClock(FullDelta(s, dvv)));
  }

  // ---- merging ----

  /** The one way a merge can go wrong: an arriving add was removed in the receiver's own
      past, and the tombstone that would stop it has been collected.  The test made on
      arrival is against tombstones only. */
  ghost predicate Unguarded(h: History, v: VersionVector, s: SetState, d: Delta, t: Tag) {
    t in d.adds && Removed(h, v, t.dot) && t.dot !in s.tombs && t.dot !in d.tombs
  }

  /** The same, as the receiver itself can tell: it has seen the add, no longer holds it,
      and no tombstone says why. */
  predicate LooksUnguarded(v: VersionVector, s: SetState, d: Delta, t: Tag) {
    t in d.adds && Covers(v, t.dot) && t !in s.live && t.dot !in s.tombs && t.dot !in d.tombs
  }

  lemma ReceiverCanTell(h: History, v: VersionVector, s: SetState, collected: VersionVector, d: Delta, t: Tag)
    requires Exact(h, v, s, collected) && Closed(h, v) && DeltaCovered(h, d)
    ensures Unguarded(h, v, s, d, t) <==> LooksUnguarded(v, s, d, t)
  {
    assert t in s.live <==> Visible(h, v, t);
  }

  /** Merging an exact delta into an exact replica gives the meaning of the joined clock
      if and only if no arriving add is unguarded. */
  lemma MergeExactIff(h: History, v: VersionVector, j: VersionVector, s: SetState, collected: VersionVector,
                      d: Delta, since: VersionVector, floor: VersionVector)
    requires Exact(h, v, s, collected)
    requires DeltaExact(h, d, since, floor) && Leq(since, v) && Leq(floor, v)
    requires Same(j, Join(v, DeltaClock(d)))
    ensures Exact(h, j, MergedSet(s, d.adds, d.tombs), collected)
       <==> forall t :: !Unguarded(h, v, s, d, t)
  {
    MergeKeepsTombs(h, v, j, s, collected, d, since, floor);
    forall t ensures (t in MergedSet(s, d.adds, d.tombs).live <==> Visible(h, j, t)) <==> !Unguarded(h, v, s, d, t) {
      MergeTag(h, v, j, s, collected, d, since, floor, t);
    }
  }

  lemma MergeTag(h: History, v: VersionVector, j: VersionVector, s: SetState, collected: VersionVector,
                 d: Delta, since: VersionVector, floor: VersionVector, t: Tag)
    requires Exact(h, v, s, collected)
    requires DeltaExact(h, d, since, floor) && Leq(since, v) && Leq(floor, v)
    requires Same(j, Join(v, DeltaClock(d)))
    ensures (t in MergedSet(s, d.adds, d.tombs).live <==> Visible(h, j, t)) <==> !Unguarded(h, v, s, d, t)
  {
    hide Removed, Covers, DeltaClock;
    var c := DeltaClock(d);
    JoinCovers(v, c, j);
    RemovedInJoin(h, v, c, j, t.dot);
    assert t in s.live <==> Visible(h, v, t);
    assert t.dot in s.tombs ==> Removed(h, v, t.dot) by { TombMeansRemoved(h, v, s.tombs, t.dot); }
    assert t.dot in d.tombs ==> Removed(h, c, t.dot) by { TombMeansRemoved(h, c, d.tombs, t.dot); }
    assert Removed(h, since, t.dot) || Removed(h, floor, t.dot) ==> Removed(h, v, t.dot) by {
      if Removed(h, since, t.dot) || Removed(h, floor, t.dot) {
        KnownRemoval(h, v, since, floor, t.dot);
      }
    }
    assert t in d.adds ==> Visible(h, c, t);
    CoversMonotone(since, v, t.dot);
  }

  lemma TombMeansRemoved(h: History, v: VersionVector, tombs: map<Dot, Dot>, d: Dot)
    requires TombsSound(h, v, tombs)
    ensures d in tombs ==> Removed(h, v, d)
  {
  }

  lemma CoversMonotone(a: VersionVector, b: VersionVector, d: Dot)
    requires Leq(a, b)
    ensures Covers(a, d) ==> Covers(b, d)
  {
    assert At(a, d.node) <= At(b, d.node);
  }

  lemma JoinCovers(a: VersionVector, b: VersionVector, j: VersionVector)
    requires Same(j, Join(a, b))
    ensures forall d :: Covers(j, d) <==> Covers(a, d) || Covers(b, d)
    ensures Leq(a, j) && Leq(b, j)
  {
    forall d: Dot ensures Covers(j, d) <==> Covers(a, d) || Covers(b, d) {
      assert At(j, d.node) == At(Join(a, b), d.node);
    }
    forall n ensures At(a, n) <= At(j, n) && At(b, n) <= At(j, n) {
      assert At(j, n) == At(Join(a, b), n);
    }
  }

  lemma KnownRemoval(h: History, v: VersionVector, since: VersionVector, floor: VersionVector, k: Dot)
    requires Leq(since, v) && Leq(floor, v)
    requires Removed(h, since, k) || Removed(h, floor, k)
    ensures Removed(h, v, k)
  {
    if Removed(h, since, k) { RemovedMonotone(h, since, v, k); }
    if Removed(h, floor, k) { RemovedMonotone(h, floor, v, k); }
  }

  lemma MergeKeepsTombs(h: History, v: VersionVector, j: VersionVector, s: SetState, collected: VersionVector,
                        d: Delta, since: VersionVector, floor: VersionVector)
    requires Exact(h, v, s, collected)
    requires DeltaExact(h, d, since, floor) && Leq(since, v) && Leq(floor, v)
    requires Same(j, Join(v, DeltaClock(d)))
    ensures TombsSound(h, j, s.tombs + d.tombs)
    ensures TombsComplete(h, j, s.tombs + d.tombs, collected)
    ensures Leq(collected, j)
  {
    JoinCovers(v, DeltaClock(d), j);
    forall k | Removed(h, j, k) ensures k in s.tombs + d.tombs || Removed(h, collected, k) {
      RemovedInJoin(h, v, DeltaClock(d), j, k);
      if Removed(h, since, k) || Removed(h, floor, k) {
        KnownRemoval(h, v, since, floor, k);
      }
    }
  }

  /** A sender's clock that makes its deltas safe for a receiver that collected under
      `collected`: it covers the collection, or it is empty. */
  ghost predicate SeenEnough(collected: VersionVector, c: VersionVector) {
    Leq(collected, c) || Same(c, map[])
  }

  /** Such a delta has no unguarded add. */
  lemma CoveredSenderIsGuarded(h: History, v: VersionVector, s: SetState, collected: VersionVector,
                               d: Delta, since: VersionVector, floor: VersionVector)
    requires Exact(h, v, s, collected)
    requires DeltaExact(h, d, since, floor)
    requires WellFormed(h) && SeenEnough(collected, DeltaClock(d))
    ensures forall t :: !Unguarded(h, v, s, d, t)
  {
    var c := DeltaClock(d);
    assert forall t :: t in d.adds ==> Visible(h, c, t);
    if Leq(collected, c) {
      forall k | Removed(h, collected, k) ensures Removed(h, c, k) {
        RemovedMonotone(h, collected, c, k);
      }
    } else {
      forall k: Dot ensures Covers(c, k) <==> k.counter == 0 {
        assert At(c, k.node) == At(map[], k.node);
      }
    }
  }

  /** A receiver at `v` that collected under `collected` can take every exact delta whose
      clock is `c`, in every history. */
  ghost predicate TakesEveryDelta(v: VersionVector, collected: VersionVector, c: VersionVector) {
    forall h: History, s: SetState, d: Delta, since: VersionVector, floor: VersionVector, t: Tag ::
      WellFormed(h) && Exact(h, v, s, collected) && DeltaExact(h, d, since, floor) && DeltaClock(d) == c
      ==> !Unguarded(h, v, s, d, t)
  }

  /** The weakest condition on clocks alone: the sender must have seen everything the
      receiver collected, unless it has seen no event at all.  Otherwise some history puts
      a removed element back. */
  lemma InFlightConditionIsWeakest(v: VersionVector, collected: VersionVector, c: VersionVector)
    requires Leq(collected, v)
    ensures TakesEveryDelta(v, collected, c) <==> SeenEnough(collected, c)
  {
    if SeenEnough(collected, c) {
      forall h: History, s: SetState, d: Delta, since: VersionVector, floor: VersionVector, t: Tag
        | WellFormed(h) && Exact(h, v, s, collected) && DeltaExact(h, d, since, floor) && DeltaClock(d) == c
        ensures !Unguarded(h, v, s, d, t)
      {
        CoveredSenderIsGuarded(h, v, s, collected, d, since, floor);
      }
    } else {
      var n :| At(collected, n) > At(c, n);
      var x :| At(c, x) != At(map[], x);
      var h, d := Resurrection(v, collected, c, n, x);
      assert Unguarded(h, v, EMPTY_SET, d, Tag("e", Dot(x, 1)));
    }
  }

  /** One add seen by everybody, one remove seen by the receiver and collected there. */
  lemma Resurrection(v: VersionVector, collected: VersionVector, c: VersionVector, n: NodeId, x: NodeId)
    returns (h: History, d: Delta)
    requires Leq(collected, v) && At(collected, n) > At(c, n) && At(c, x) >= 1
    ensures WellFormed(h) && Exact(h, v, EMPTY_SET, collected) && DeltaExact(h, d, map[], map[]) && DeltaClock(d) == c
    ensures Unguarded(h, v, EMPTY_SET, d, Tag("e", Dot(x, 1)))
  {
    var added, remove := Dot(x, 1), Dot(n, At(collected, n));
    assert added != remove && Covers(c, added) && !Covers(c, remove);
    h := map[added := AddEvent("e"), remove := RemoveEvent({added})];
    d := Delta({Tag("e", added)}, map[], c, Dot(x, 0));
    assert Removes(h, remove, added) && Covers(collected, remove);
    assert Covers(v, remove) by { assert At(collected, n) <= At(v, n); }
    assert forall m, k :: Removes(h, m, k) ==> m == remove && k == added;
    assert forall t :: Visible(h, c, t) <==> t == Tag("e", added);
  }

  // ---- collecting ----

  /** Dropping the tombstones whose remove-dot a covered frontier has seen keeps the
      replica exact, with that frontier added to what it has collected. */
  lemma CollectKeepsExact(h: History, v: VersionVector, s: SetState, collected: VersionVector, frontier: Dvv)
    requires Exact(h, v, s, collected)
    requires Leq(EffectiveMap(frontier), v)
    ensures Exact(h, v, Collected(s, frontier), Join(collected, EffectiveMap(frontier)))
  {
    var f := EffectiveMap(frontier);
    var c := Join(collected, f);
    var s' := Collected(s, frontier);
    forall k | Removed(h, v, k) ensures k in s'.tombs || Removed(h, c, k) {
      RemovedInJoin(h, collected, f, c, k);
      if k in s.tombs && k !in s'.tombs {
        assert Removes(h, s.tombs[k], k) && Covers(f, s.tombs[k]);
      }
    }
    forall n ensures At(c, n) <= At(v, n) {
      assert At(collected, n) <= At(v, n) && At(f, n) <= At(v, n);
    }
  }

  lemma ExactIsDisjoint(h: History, v: VersionVector, s: SetState, collected: VersionVector)
    requires Exact(h, v, s, collected)
    ensures Disjoint(s)
  {
    forall d | d in s.tombs ensures Removed(h, v, d) {
      assert Removes(h, s.tombs[d], d) && Covers(v, s.tombs[d]);
    }
    assert forall t :: t in s.live ==> Visible(h, v, t);
  }

  // ---- consequences ----

  /** Replicas with equal clocks show the same pairs, whatever each has collected; with
      nothing collected they also hold tombstones for the same dots. */
  lemma EqualClocksConverge(h: History, v: VersionVector, w: VersionVector, s: SetState, u: SetState,
                            cs: VersionVector, cu: VersionVector)
    requires WellFormed(h) && Exact(h, v, s, cs) && Exact(h, w, u, cu)
    requires Same(v, w)
    ensures s.live == u.live && Elements(s) == Elements(u)
    ensures Same(cs, map[]) && Same(cu, map[]) ==> SameSet(s, u)
  {
    SameMeaning(h, v, w);
    assert forall t :: t in s.live <==> t in u.live;
    ExactIsDisjoint(h, v, s, cs);
    ExactIsDisjoint(h, w, u, cu);
    if Same(cs, map[]) && Same(cu, map[]) {
      NothingCollected(h, v, s, cs);
      NothingCollected(h, w, u, cu);
      assert forall d :: d in s.tombs.Keys <==> d in u.tombs.Keys;
    }
  }

  /** Without collection the tombstones are exactly the removed dots. */
  lemma NothingCollected(h: History, v: VersionVector, s: SetState, collected: VersionVector)
    requires WellFormed(h) && Exact(h, v, s, collected) && Same(collected, map[])
    ensures forall d :: d in s.tombs <==> Removed(h, v, d)
  {
    forall m | m in h ensures !Covers(collected, m) {
      assert At(collected, m.node) == At(map[], m.node) == 0;
    }
    forall d | d in s.tombs ensures Removed(h, v, d) {
      assert Removes(h, s.tombs[d], d) && Covers(v, s.tombs[d]);
    }
  }

  /** Merging the minimal delta gives the same pairs as merging the full state; with
      nothing collected, the same tombstone keys too. */
  lemma MinimalDeltaRefinesFullState(h: History, sender: Dvv, s: SetState, cs: VersionVector,
                                     v: VersionVector, u: SetState, cu: VersionVector, known: VersionVector)
    requires WellFormed(h) && Exact(h, EffectiveMap(sender), s, cs) && Exact(h, v, u, cu)
    requires Leq(known, v) && Leq(cs, v) && Leq(cu, EffectiveMap(sender))
    ensures var small, full := DeltaFor(s, sender, known), FullDelta(s, sender);
            var a, b := MergedSet(u, small.adds, small.tombs), MergedSet(u, full.adds, full.tombs);
            && a.live == b.live
            && (Same(cs, map[]) && Same(cu, map[]) ==> SameSet(a, b))
  {
    var small, full := DeltaFor(s, sender, known), FullDelta(s, sender);
    DeltaIsExact(h, sender, s, cs, known);
    FullDeltaIsExact(h, sender, s, cs, known);
    var j := Join(v, EffectiveMap(sender));
    assert Same(j, Join(v, DeltaClock(small))) && Same(j, Join(v, DeltaClock(full))) by {
      forall n ensures At(j, n) == At(Join(v, DeltaClock(small)), n) == At(Join(v, DeltaClock(full)), n) {
        assert At(DeltaClock(small), n) == At(EffectiveMap(sender), n) == At(DeltaClock(full), n);
      }
    }
    assert Leq(cu, DeltaClock(small)) && Leq(cu, DeltaClock(full)) by {
      forall n ensures At(cu, n) <= At(DeltaClock(small), n) && At(cu, n) <= At(DeltaClock(full), n) {
        assert At(cu, n) <= At(EffectiveMap(sender), n);
      }
    }
    CoveredSenderIsGuarded(h, v, u, cu, small, known, cs);
    MergeExactIff(h, v, j, u, cu, small, known, cs);
    CoveredSenderIsGuarded(h, v, u, cu, full, known, cs);
    MergeExactIff(h, v, j, u, cu, full, known, cs);
    EqualClocksConverge(h, j, j, MergedSet(u, small.adds, small.tombs), MergedSet(u, full.adds, full.tombs), cu, cu);
  }

  /** When the clock delta for a peer is empty, so is the set delta: a suppressed reply
      withholds nothing. */
  lemma SuppressedReplyIsEmpty(h: History, dvv: Dvv, s: SetState, known: VersionVector)
    requires DotOutside(dvv) && Accounted(h, EffectiveMap(dvv), s.live, s.tombs)
    requires DvvDelta(dvv, known).dot.counter == 0 && DvvDelta(dvv, known).context == map[]
    ensures DeltaFor(s, dvv, known).adds == {} && DeltaFor(s, dvv, known).tombs == map[]
  {
    EmptyDeltaIff(dvv, known);
    forall t | t in s.live ensures Covers(known, t.dot) {
      assert Covers(EffectiveMap(dvv), t.dot);
      assert At(EffectiveMap(dvv), t.dot.node) <= At(known, t.dot.node);
    }
    forall d | d in s.tombs ensures Covers(known, s.tombs[d]) {
      assert Covers(EffectiveMap(dvv), s.tombs[d]);
      assert At(EffectiveMap(dvv), s.tombs[d].node) <= At(known, s.tombs[d].node);
    }
  }
}
