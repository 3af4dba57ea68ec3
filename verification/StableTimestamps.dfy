/** The stable timestamp: what every member is known to have seen, read off a matrix of
    clocks that a GC replica keeps. */
module StableTimestamps {
  import opened Clocks

  type MatrixClock = map<NodeId, VersionVector>

  function Lookup<T>(m: map<NodeId, T>, k: NodeId): Option<T> {
    if k in m then Some(m[k]) else None
  }

  predicate NewMemberExists(before: set<NodeId>, now: set<NodeId>)
    ensures NewMemberExists(before, now) <==> !(now <= before)
  {
    exists p :: p in now && p !in before
  }

  function NodesIn(order: seq<NodeId>): set<NodeId> {
    set p | p in order
  }

  ghost predicate NoRepeats(order: seq<NodeId>) {
    forall i, j :: 0 <= i < j < |order| ==> order[i] != order[j]
  }

  predicate AllRows(node: NodeId, members: seq<NodeId>, mc: MatrixClock) {
    forall p :: p in members ==> p == node || p in mc
  }

  function RowOf(node: NodeId, mc: MatrixClock, own: VersionVector, p: NodeId): VersionVector
    requires p == node || p in mc
  {
    if p == node then own else mc[p]
  }

  /** Meet of the members' clocks, in list order; a single clock is taken as it is. */
  function MemberMeet(node: NodeId, members: seq<NodeId>, mc: MatrixClock, own: VersionVector): VersionVector
    requires AllRows(node, members, mc)
  {
    if members == [] then map[]
    else
      var last := members[|members| - 1];
      assert last in members;
      if |members| == 1 then RowOf(node, mc, own, last)
      else Meet(MemberMeet(node, members[..|members| - 1], mc, own), RowOf(node, mc, own, last))
  }

  function NonMembers(members: seq<NodeId>, mc: MatrixClock, live: VersionVector): set<NodeId> {
    (mc.Keys + live.Keys) - NodesIn(members)
  }

  /** Departed nodes whose final dot is what the members' meet records for them. */
  function Obsolete(members: seq<NodeId>, mc: MatrixClock, finalDots: map<NodeId, nat>, live: VersionVector)
    : set<NodeId>
  {
    set p | p in NonMembers(members, mc, live) && Lookup(finalDots, p) == Lookup(live, p)
  }

  function Pending(members: seq<NodeId>, mc: MatrixClock, finalDots: map<NodeId, nat>, live: VersionVector)
    : set<NodeId>
  {
    NonMembers(members, mc, live) - Obsolete(members, mc, finalDots, live)
  }

  /** Lower `v` by the rows of the listed nodes, where there is one. */
  function MeetRows(v: VersionVector, mc: MatrixClock, order: seq<NodeId>): VersionVector {
    if order == [] then v
    else
      var r := MeetRows(v, mc, order[..|order| - 1]);
      var last := order[|order| - 1];
      if last in mc then Meet(r, mc[last]) else r
  }

  /** The stable timestamp and the obsolete nodes.  `order` is the order in which the
      pending nodes are visited. */
  function Stable(node: NodeId, members: seq<NodeId>, order: seq<NodeId>, mc: Option<MatrixClock>,
                  finalDots: map<NodeId, nat>, own: VersionVector): (VersionVector, set<NodeId>) {
    if mc.None? || !AllRows(node, members, mc.value) then (map[], {})
    else
      var live := MemberMeet(node, members, mc.value, own);
      (MeetRows(live, mc.value, order), Obsolete(members, mc.value, finalDots, live))
  }

  ghost predicate Below(w: VersionVector, node: NodeId, members: seq<NodeId>, mc: MatrixClock, own: VersionVector)
    requires AllRows(node, members, mc)
  {
    forall p :: p in members ==> Leq(w, RowOf(node, mc, own, p))
  }

  ghost predicate BelowRows(w: VersionVector, mc: MatrixClock, order: seq<NodeId>) {
    forall p :: p in order && p in mc ==> Leq(w, mc[p])
  }

  /** `v` is the greatest clock below every member's clock and the row of every other node
      that is not obsolete. */
  ghost predicate IsGlb(v: VersionVector, node: NodeId, members: seq<NodeId>, mc: MatrixClock,
                        obsolete: set<NodeId>, own: VersionVector)
    requires AllRows(node, members, mc)
  {
    forall w :: Leq(w, v) <==>
      && Below(w, node, members, mc, own)
      && forall p :: p in mc && p !in members && p !in obsolete ==> Leq(w, mc[p])
  }

  /** The least that any member has seen of `p` is `f`. */
  ghost predicate LeastIs(node: NodeId, members: seq<NodeId>, mc: MatrixClock, own: VersionVector, p: NodeId, f: nat)
    requires AllRows(node, members, mc)
  {
    && (forall m :: m in members ==> At(RowOf(node, mc, own, m), p) >= f)
    && (exists m :: m in members && At(RowOf(node, mc, own, m), p) == f)
  }

  /** A departed node is finished with once every member has seen its final dot, and some
      member nothing beyond.  A node without a final dot is taken to be finished with when
      it has a row and some member has seen nothing of it.  A lone member's clock is read
      as it is stored, zeros included. */
  ghost predicate IsFinished(node: NodeId, members: seq<NodeId>, mc: MatrixClock, finalDots: map<NodeId, nat>,
                             own: VersionVector, p: NodeId)
    requires AllRows(node, members, mc)
  {
    && p !in members
    && if p in finalDots && finalDots[p] > 0 then LeastIs(node, members, mc, own, p, finalDots[p])
       else if |members| == 1 then
         var row := (assert members[0] in members; RowOf(node, mc, own, members[0]));
         if p in finalDots then p in row && row[p] == 0 else p in mc && p !in row
       else p !in finalDots && p in mc && (members == [] || LeastIs(node, members, mc, own, p, 0))
  }

  lemma {:induction false} LeastOfMeet(node: NodeId, members: seq<NodeId>, mc: MatrixClock, own: VersionVector,
                                       p: NodeId)
    requires AllRows(node, members, mc) && members != []
    ensures LeastIs(node, members, mc, own, p, At(MemberMeet(node, members, mc, own), p))
  {
    var front, last := members[..|members| - 1], members[|members| - 1];
    assert forall m :: m in members <==> m in front || m == last;
    if |members| > 1 { LeastOfMeet(node, front, mc, own, p); }
  }

  /** Who is obsolete, said from the members' clocks alone. */
  lemma ObsoleteIff(node: NodeId, members: seq<NodeId>, mc: MatrixClock, finalDots: map<NodeId, nat>,
                    own: VersionVector, p: NodeId)
    requires AllRows(node, members, mc)
    ensures p in Obsolete(members, mc, finalDots, MemberMeet(node, members, mc, own))
       <==> IsFinished(node, members, mc, finalDots, own, p)
  {
    var live := MemberMeet(node, members, mc, own);
    if members != [] {
      LeastOfMeet(node, members, mc, own, p);
      hide LeastIs;
      LeastIsUnique(node, members, mc, own, p, At(live, p));
      if |members| >= 2 { MemberMeetStoresPositive(node, members, mc, own); }
    }
  }

  lemma LeastIsUnique(node: NodeId, members: seq<NodeId>, mc: MatrixClock, own: VersionVector, p: NodeId, f: nat)
    requires AllRows(node, members, mc) && LeastIs(node, members, mc, own, p, f)
    ensures forall g :: LeastIs(node, members, mc, own, p, g) <==> g == f
  {
  }

  lemma {:induction false} MemberMeetIsGlb(node: NodeId, members: seq<NodeId>, mc: MatrixClock,
                                           own: VersionVector, w: VersionVector)
    requires AllRows(node, members, mc) && members != []
    ensures Leq(w, MemberMeet(node, members, mc, own)) <==> Below(w, node, members, mc, own)
  {
    var front, last := members[..|members| - 1], members[|members| - 1];
    assert forall p :: p in members <==> p in front || p == last;
    if |members| > 1 {
      MemberMeetIsGlb(node, front, mc, own, w);
      LeqMeet(w, MemberMeet(node, front, mc, own), RowOf(node, mc, own, last));
    }
  }

  lemma LeqMeet(w: VersionVector, a: VersionVector, b: VersionVector)
    ensures Leq(w, Meet(a, b)) <==> Leq(w, a) && Leq(w, b)
  {
    if Leq(w, Meet(a, b)) {
      forall n ensures At(w, n) <= At(a, n) && At(w, n) <= At(b, n) {
        assert At(w, n) <= At(Meet(a, b), n);
      }
    }
    if Leq(w, a) && Leq(w, b) {
      forall n ensures At(w, n) <= At(Meet(a, b), n) {
        assert At(w, n) <= At(a, n) && At(w, n) <= At(b, n);
      }
    }
  }

  lemma {:induction false} MeetRowsIsGlb(v: VersionVector, mc: MatrixClock, order: seq<NodeId>, w: VersionVector)
    ensures Leq(w, MeetRows(v, mc, order)) <==> Leq(w, v) && BelowRows(w, mc, order)
  {
    if order != [] {
      var front, last := order[..|order| - 1], order[|order| - 1];
      assert forall p :: p in order <==> p in front || p == last;
      MeetRowsIsGlb(v, mc, front, w);
      if last in mc {
        LeqMeet(w, MeetRows(v, mc, front), mc[last]);
      }
    }
  }

  /** The result is the greatest clock below every member's clock and every pending row. */
  lemma StableIsGlb(node: NodeId, members: seq<NodeId>, order: seq<NodeId>, mc: MatrixClock,
                    finalDots: map<NodeId, nat>, own: VersionVector, w: VersionVector)
    requires members != [] && AllRows(node, members, mc)
    ensures Leq(w, Stable(node, members, order, Some(mc), finalDots, own).0)
       <==> Below(w, node, members, mc, own) && BelowRows(w, mc, order)
  {
    MemberMeetIsGlb(node, members, mc, own, w);
    MeetRowsIsGlb(MemberMeet(node, members, mc, own), mc, order, w);
  }

  lemma StableMeetsGlb(node: NodeId, members: seq<NodeId>, order: seq<NodeId>, mc: MatrixClock,
                       finalDots: map<NodeId, nat>, own: VersionVector)
    requires members != [] && AllRows(node, members, mc)
    requires NodesIn(order) == Pending(members, mc, finalDots, MemberMeet(node, members, mc, own))
    ensures var (v, obsolete) := Stable(node, members, order, Some(mc), finalDots, own);
            IsGlb(v, node, members, mc, obsolete, own)
  {
    hide MemberMeet, Below, MeetRows;
    var (v, obsolete) := Stable(node, members, order, Some(mc), finalDots, own);
    assert forall p :: p in order <==> p in NodesIn(order);
    assert forall p :: p in members <==> p in NodesIn(members);
    assert forall p :: p in mc ==> (p in order <==> p !in members && p !in obsolete);
    forall w ensures Leq(w, v) <==> Below(w, node, members, mc, own) && BelowRows(w, mc, order) {
      StableIsGlb(node, members, order, mc, finalDots, own, w);
    }
  }

  /** So it is itself below the clock of every member. */
  lemma StableBelowMembers(node: NodeId, members: seq<NodeId>, order: seq<NodeId>, mc: Option<MatrixClock>,
                           finalDots: map<NodeId, nat>, own: VersionVector, p: NodeId)
    requires p in members
    ensures var v := Stable(node, members, order, mc, finalDots, own).0;
            && (p == node ==> Leq(v, own))
            && (p != node && mc.Some? && p in mc.value ==> Leq(v, mc.value[p]))
            && (p != node && (mc.None? || p !in mc.value) ==> v == map[])
  {
    var v := Stable(node, members, order, mc, finalDots, own).0;
    if mc.Some? && AllRows(node, members, mc.value) {
      StableIsGlb(node, members, order, mc.value, finalDots, own, v);
    }
  }

  lemma SameIfSameBelow(a: VersionVector, b: VersionVector)
    requires Leq(a, b) && Leq(b, a)
    ensures Same(a, b)
  {
    forall n ensures At(a, n) == At(b, n) {
      assert At(a, n) <= At(b, n) && At(b, n) <= At(a, n);
    }
  }

  /** With two or more members the meet stores exactly its positive entries. */
  lemma MemberMeetStoresPositive(node: NodeId, members: seq<NodeId>, mc: MatrixClock, own: VersionVector)
    requires AllRows(node, members, mc) && |members| >= 2
    ensures forall k :: k in MemberMeet(node, members, mc, own) <==> At(MemberMeet(node, members, mc, own), k) > 0
  {
  }

  lemma MemberMeetOrderFree(node: NodeId, ms: seq<NodeId>, ns: seq<NodeId>, mc: MatrixClock, own: VersionVector)
    requires (forall p :: p in ns <==> p in ms) && NoRepeats(ms) && NoRepeats(ns)
    requires AllRows(node, ms, mc)
    ensures AllRows(node, ns, mc)
    ensures MemberMeet(node, ms, mc, own) == MemberMeet(node, ns, mc, own)
  {
    Inhabited(ms);
    Inhabited(ns);
    if ms != [] {
      if |ms| == 1 || |ns| == 1 {
        SingletonListing(ms, ns);
      } else {
        var a, b := MemberMeet(node, ms, mc, own), MemberMeet(node, ns, mc, own);
        MemberMeetIsGlb(node, ms, mc, own, a);
        MemberMeetIsGlb(node, ns, mc, own, b);
        MemberMeetIsGlb(node, ns, mc, own, a);
        MemberMeetIsGlb(node, ms, mc, own, b);
        MemberMeetStoresPositive(node, ms, mc, own);
        MemberMeetStoresPositive(node, ns, mc, own);
        PositiveMapsEqual(a, b);
      }
    }
  }

  lemma PositiveMapsEqual(a: VersionVector, b: VersionVector)
    requires Leq(a, b) && Leq(b, a)
    requires forall k :: k in a <==> At(a, k) > 0
    requires forall k :: k in b <==> At(b, k) > 0
    ensures a == b
  {
    SameIfSameBelow(a, b);
    forall k ensures (k in a <==> k in b) && (k in a ==> a[k] == b[k]) {
      assert At(a, k) == At(b, k);
    }
  }

  lemma SingletonListing(ms: seq<NodeId>, ns: seq<NodeId>)
    requires forall p :: p in ns <==> p in ms
    requires NoRepeats(ms) && NoRepeats(ns) && (|ms| == 1 || |ns| == 1)
    ensures ms == ns
  {
    if |ms| == 1 {
      assert forall p :: p in ms <==> p == ms[0];
      AllTheSame(ns, ms[0]);
    } else {
      assert forall p :: p in ns <==> p == ns[0];
      AllTheSame(ms, ns[0]);
    }
  }

  lemma AllTheSame(order: seq<NodeId>, x: NodeId)
    requires NoRepeats(order) && forall p :: p in order <==> p == x
    ensures order == [x]
  {
    assert x in order;
    assert order[0] == x by { assert order[0] in order; }
    if |order| >= 2 {
      FirstTwoDiffer(order);
      assert false;
    }
  }

  lemma FirstTwoDiffer(order: seq<NodeId>)
    requires NoRepeats(order) && |order| >= 2
    ensures order[0] != order[1] && order[0] in order && order[1] in order
  {
  }

  lemma Inhabited(order: seq<NodeId>)
    ensures order != [] <==> exists p :: p in order
  {
    if order != [] { assert order[0] in order; }
  }

  /** Neither the order of the member list nor that of the hash sets matters. */
  lemma StableOrderFree(node: NodeId, ms: seq<NodeId>, ns: seq<NodeId>, o: seq<NodeId>, o': seq<NodeId>,
                        mc: Option<MatrixClock>, finalDots: map<NodeId, nat>, own: VersionVector)
    requires (forall p :: p in ns <==> p in ms) && NoRepeats(ms) && NoRepeats(ns)
    requires forall p :: p in o <==> p in o'
    ensures var a, b := Stable(node, ms, o, mc, finalDots, own), Stable(node, ns, o', mc, finalDots, own);
            Same(a.0, b.0) && a.1 == b.1
  {
    if mc.Some? && AllRows(node, ms, mc.value) {
      MemberMeetOrderFree(node, ms, ns, mc.value, own);
      var live := MemberMeet(node, ms, mc.value, own);
      var a, b := MeetRows(live, mc.value, o), MeetRows(live, mc.value, o');
      MeetRowsIsGlb(live, mc.value, o, a);
      MeetRowsIsGlb(live, mc.value, o', a);
      MeetRowsIsGlb(live, mc.value, o, b);
      MeetRowsIsGlb(live, mc.value, o', b);
      SameIfSameBelow(a, b);
    }
  }

  /** A matrix whose rows all belong to members, and no final dots: nobody is obsolete,
      and no row of a pending node lowers the timestamp below the members' meet. */
  lemma NobodyObsolete(node: NodeId, members: seq<NodeId>, order: seq<NodeId>, mc: Option<MatrixClock>,
                       own: VersionVector)
    requires mc.Some? ==> mc.value.Keys <= NodesIn(members)
    ensures Stable(node, members, order, mc, map[], own).1 == {}
    ensures mc.Some? && AllRows(node, members, mc.value) && NodesIn(order) !! NodesIn(members) ==>
              Stable(node, members, order, mc, map[], own).0 == MemberMeet(node, members, mc.value, own)
  {
    if mc.Some? && AllRows(node, members, mc.value) && NodesIn(order) !! NodesIn(members) {
      RowlessNodesLowerNothing(MemberMeet(node, members, mc.value, own), mc.value, order);
    }
  }

  /** Visiting nodes without a row lowers nothing. */
  lemma {:induction false} RowlessNodesLowerNothing(v: VersionVector, mc: MatrixClock, order: seq<NodeId>)
    requires mc.Keys !! NodesIn(order)
    ensures MeetRows(v, mc, order) == v
  {
    if order != [] {
      var front, last := order[..|order| - 1], order[|order| - 1];
      assert last in NodesIn(order) && NodesIn(front) <= NodesIn(order);
      RowlessNodesLowerNothing(v, mc, front);
    }
  }

  /** Joins keep the larger of two reports about the same node. */
  function UpdatedMatrix(mc: MatrixClock, incoming: MatrixClock): MatrixClock {
    map p | p in mc.Keys + incoming.Keys ::
      if p in incoming then (if p in mc then Join(incoming[p], mc[p]) else incoming[p]) else mc[p]
  }

  function WithoutNodes(mc: MatrixClock, gone: set<NodeId>): MatrixClock {
    map p | p in mc && p !in gone :: mc[p] - gone
  }

  /** What a matrix has of `p`'s knowledge about `n`, 0 without a row. */
  function Cell(mc: MatrixClock, p: NodeId, n: NodeId): nat {
    if p in mc then At(mc[p], n) else 0
  }

  /** Late, repeated and reordered reports never lower a row. */
  lemma UpdateIsMax(mc: MatrixClock, incoming: MatrixClock)
    ensures UpdatedMatrix(mc, incoming).Keys == mc.Keys + incoming.Keys
    ensures forall p, n :: Cell(UpdatedMatrix(mc, incoming), p, n) == Max(Cell(mc, p, n), Cell(incoming, p, n))
  {
  }

  /** Dropping nodes takes their rows and columns and nothing else. */
  lemma WithoutIff(mc: MatrixClock, gone: set<NodeId>)
    ensures var after := WithoutNodes(mc, gone);
            && after.Keys == mc.Keys - gone
            && forall p :: p in after ==> IsWithout(after[p], mc[p], gone)
  {
  }
}
