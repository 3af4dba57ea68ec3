/** The observed-remove set.  `SetState` is its value: the live (element, dot) pairs and
    the tombstones, add-dot to remove-dot.  `OrSet` is the object that stores the pairs
    grouped by element and mutates them in place. */
module OrSets {
  import opened Clocks
  import opened DotVersionVectors

  type Elem = string

  datatype Tag = Tag(elem: Elem, dot: Dot)

  datatype Op = Add(elem: Elem) | Remove(elem: Elem)

  datatype SetState = SetState(live: set<Tag>, tombs: map<Dot, Dot>)

  const EMPTY_SET := SetState({}, map[])

  /** What travels between replicas, with the sender's causal context. */
  datatype Delta = Delta(adds: set<Tag>, tombs: map<Dot, Dot>, context: VersionVector, dot: Dot)

  /** The same as it is laid out on the wire: lists, in whatever order the maps were walked. */
  datatype OrSetDelta = OrSetDelta(adds: seq<Tag>, tombstones: seq<(Dot, Dot)>,
                                   context: VersionVector, dotNode: NodeId, dotCounter: nat)

  const EMPTY_DELTA := Delta({}, map[], map[], Dot("", 0))

  /** The causal history a delta brings along. */
  function DeltaClock(d: Delta): VersionVector {
    EffectiveMap(Dvv(d.dot, d.context))
  }

  /** A later pair for the same add-dot overwrites an earlier one. */
  function TombMap(pairs: seq<(Dot, Dot)>): map<Dot, Dot> {
    if pairs == [] then map[]
    else
      var last := pairs[|pairs| - 1];
      TombMap(pairs[..|pairs| - 1])[last.0 := last.1]
  }

  function Meaning(d: OrSetDelta): Delta {
    Delta((set t | t in d.adds), TombMap(d.tombstones), d.context, Dot(d.dotNode, d.dotCounter))
  }

  ghost predicate Disjoint(s: SetState) {
    forall t :: t in s.live ==> t.dot !in s.tombs
  }

  /** Equal up to the remove-dots stored with the tombstones. */
  ghost predicate SameSet(a: SetState, b: SetState) {
    a.live == b.live && a.tombs.Keys == b.tombs.Keys
  }

  function Elements(s: SetState): set<Elem> {
    set t | t in s.live && t.dot !in s.tombs :: t.elem
  }

  function DotsOf(live: set<Tag>, e: Elem): set<Dot> {
    set t | t in live && t.elem == e :: t.dot
  }

  function Applied(s: SetState, dot: Dot, op: Op): SetState {
    match op
    case Add(e) => s.(live := s.live + {Tag(e, dot)})
    case Remove(e) =>
      SetState((set t | t in s.live && t.elem != e),
               s.tombs + map d | d in DotsOf(s.live, e) :: dot)
  }

  function MergedSet(s: SetState, adds: set<Tag>, tombs: map<Dot, Dot>): SetState {
    var all := s.tombs + tombs;
    SetState((set t | t in s.live && t.dot !in tombs) + (set t | t in adds && t.dot !in all), all)
  }

  function Collected(s: SetState, frontier: Dvv): SetState {
    s.(tombs := map d | d in s.tombs && !DominatesDot(frontier, s.tombs[d]) :: s.tombs[d])
  }

  function FullDelta(s: SetState, dvv: Dvv): Delta {
    Delta(s.live, s.tombs, EffectiveMap(dvv), dvv.dot)
  }

  function DeltaFor(s: SetState, dvv: Dvv, known: VersionVector): Delta {
    Delta((set t | t in s.live && !Covers(known, t.dot)),
          (map d | d in s.tombs && !Covers(known, s.tombs[d]) :: s.tombs[d]),
          EffectiveMap(dvv), dvv.dot)
  }

  predicate Unseen(known: Option<VersionVector>, d: Dot) {
    known.Some? ==> !Covers(known.value, d)
  }

  // ---- merge is a join ----

  function AllAdds(ds: seq<Delta>): set<Tag> {
    set d, t | d in ds && t in d.adds :: t
  }

  function AllTombs(ds: seq<Delta>): set<Dot> {
    set d, k | d in ds && k in d.tombs :: k
  }

  function MergedAll(s: SetState, ds: seq<Delta>): SetState {
    if ds == [] then s
    else
      var last := ds[|ds| - 1];
      MergedSet(MergedAll(s, ds[..|ds| - 1]), last.adds, last.tombs)
  }

  /** The closed form of any run of merges: union of the pairs, union of the tombstones,
      less every pair whose dot has a tombstone. */
  lemma {:induction false} MergeIsJoin(s: SetState, ds: seq<Delta>)
    requires Disjoint(s)
    ensures var dead := s.tombs.Keys + AllTombs(ds);
            && MergedAll(s, ds).tombs.Keys == dead
            && MergedAll(s, ds).live == (set t | t in s.live + AllAdds(ds) && t.dot !in dead)
            && Disjoint(MergedAll(s, ds))
  {
    if ds != [] {
      var front, last := ds[..|ds| - 1], ds[|ds| - 1];
      MergeIsJoin(s, front);
      MergeOnceIsJoin(MergedAll(s, front), last);
      AllOfFrontAndLast(ds);
    }
  }

  lemma MergeOnceIsJoin(s: SetState, d: Delta)
    requires Disjoint(s)
    ensures var after := MergedSet(s, d.adds, d.tombs);
            && after.tombs.Keys == s.tombs.Keys + d.tombs.Keys
            && after.live == (set t | t in s.live + d.adds && t.dot !in s.tombs.Keys + d.tombs.Keys)
            && Disjoint(after)
  {
  }

  lemma AllOfFrontAndLast(ds: seq<Delta>)
    requires ds != []
    ensures AllAdds(ds) == AllAdds(ds[..|ds| - 1]) + ds[|ds| - 1].adds
    ensures AllTombs(ds) == AllTombs(ds[..|ds| - 1]) + ds[|ds| - 1].tombs.Keys
  {
    assert ds == ds[..|ds| - 1] + [ds[|ds| - 1]];
  }

  /** Reordering and repeating deltas, whatever they hold, changes nothing but the stored
      remove-dots: merging is commutative, associative and idempotent. */
  lemma MergeOrderAndRepetitionFree(s: SetState, ds: seq<Delta>, es: seq<Delta>)
    requires Disjoint(s)
    requires forall d :: d in ds <==> d in es
    ensures SameSet(MergedAll(s, ds), MergedAll(s, es))
  {
    MergeIsJoin(s, ds);
    MergeIsJoin(s, es);
    assert AllAdds(ds) == AllAdds(es);
    assert AllTombs(ds) == AllTombs(es);
  }

  // ---- the stored representation ----

  ghost function Pairs(adds: map<Elem, set<Dot>>): set<Tag> {
    set e, d | e in adds && d in adds[e] :: Tag(e, d)
  }

  lemma InPairs(adds: map<Elem, set<Dot>>, t: Tag)
    ensures t in Pairs(adds) <==> t.elem in adds && t.dot in adds[t.elem]
  {
    assert t == Tag(t.elem, t.dot);
  }

  ghost predicate NoEmptyEntry(adds: map<Elem, set<Dot>>) {
    forall e :: e in adds ==> adds[e] != {}
  }

  /** Without empty entries the grouped map is determined by its pairs. */
  lemma PairsDetermineAdds(a: map<Elem, set<Dot>>, b: map<Elem, set<Dot>>)
    requires NoEmptyEntry(a) && NoEmptyEntry(b) && Pairs(a) == Pairs(b)
    ensures a == b
  {
    forall e, d ensures (e in a && d in a[e]) <==> (e in b && d in b[e]) {
      assert (e in a && d in a[e]) <==> Tag(e, d) in Pairs(a);
      assert (e in b && d in b[e]) <==> Tag(e, d) in Pairs(b);
    }
    forall e ensures e in a <==> e in b {
      if e in a { var d :| d in a[e]; }
      if e in b { var d :| d in b[e]; }
    }
    forall e | e in a ensures a[e] == b[e] {
      assert forall d :: d in a[e] <==> d in b[e];
    }
  }

  /** Exactly the tombstones go whose remove-event the frontier has seen. */
  lemma CollectedIff(s: SetState, frontier: Dvv)
    ensures var after := Collected(s, frontier);
            && after.live == s.live
            && (forall d :: d in after.tombs <==>
                  d in s.tombs && s.tombs[d].counter > At(EffectiveMap(frontier), s.tombs[d].node))
            && (forall d :: d in after.tombs ==> after.tombs[d] == s.tombs[d])
  {
  }

  /** The last pair for an add-dot is the one that counts. */
  ghost predicate LastFor(pairs: seq<(Dot, Dot)>, i: nat) {
    i < |pairs| && forall j :: i < j < |pairs| ==> pairs[j].0 != pairs[i].0
  }

  lemma {:induction false} LastTombCounts(pairs: seq<(Dot, Dot)>, i: nat)
    requires LastFor(pairs, i)
    ensures pairs[i].0 in TombMap(pairs) && TombMap(pairs)[pairs[i].0] == pairs[i].1
  {
    var front := pairs[..|pairs| - 1];
    if i < |front| {
      assert pairs[|pairs| - 1].0 != pairs[i].0;
      assert LastFor(front, i);
      LastTombCounts(front, i);
    }
  }

  lemma {:induction false} TombKeys(pairs: seq<(Dot, Dot)>)
    ensures forall d :: d in TombMap(pairs) <==> exists r :: (d, r) in pairs
  {
    if pairs != [] {
      var front, last := pairs[..|pairs| - 1], pairs[|pairs| - 1];
      TombKeys(front);
      assert pairs == front + [last];
      assert forall q :: q in pairs <==> q in front || q == last;
      assert (last.0, last.1) == last;
      forall d ensures d in TombMap(pairs) <==> exists r :: (d, r) in pairs {
        assert d in TombMap(pairs) <==> d in TombMap(front) || d == last.0;
      }
    }
  }

  /** Collecting tombstones under any frontier is invisible to readers. */
  lemma CollectionIsInvisible(s: SetState, frontier: Dvv)
    requires Disjoint(s)
    ensures Elements(Collected(s, frontier)) == Elements(s)
    ensures Disjoint(Collected(s, frontier))
  {
    assert forall t :: t in s.live ==> t.dot !in s.tombs && t.dot !in Collected(s, frontier).tombs;
  }

  class OrSet {
    var adds: map<Elem, set<Dot>>
    var tombstones: map<Dot, Dot>

    ghost function Value(): SetState
      reads this
    {
      SetState(Pairs(adds), tombstones)
    }

    ghost predicate Valid()
      reads this
    {
      NoEmptyEntry(adds)
    }

    constructor ()
      ensures Valid() && Value() == EMPTY_SET
    {
      adds := map[];
      tombstones := map[];
    }

    predicate Contains(e: Elem)
      reads this
      ensures Contains(e) <==> e in Elements(Value())
    {
      assert e in Elements(Value()) <==> exists d :: Tag(e, d) in Pairs(adds) && d !in tombstones by {
        if e in Elements(Value()) {
          var t :| t in Pairs(adds) && t.dot !in tombstones && t.elem == e;
          assert t == Tag(e, t.dot);
        }
      }
      assert forall d :: Tag(e, d) in Pairs(adds) <==> e in adds && d in adds[e];
      e in adds && exists d :: d in adds[e] && d !in tombstones
    }

    function ElementSet(): (r: set<Elem>)
      reads this
      ensures r == Elements(Value())
    {
      assert forall e :: Contains(e) <==> e in Elements(Value());
      set e | e in adds && Contains(e)
    }

    function Len(): (r: nat)
      reads this
      ensures r == |Elements(Value())|
    {
      |ElementSet()|
    }

    method ApplyLocal(dot: Dot, op: Op)
      requires Valid()
      modifies this
      ensures Valid() && Value() == Applied(old(Value()), dot, op)
    {
      ghost var before := Value();
      match op {
        case Add(e) =>
          adds := adds[e := (if e in adds then adds[e] else {}) + {dot}];
          assert Pairs(adds) == before.live + {Tag(e, dot)};
        case Remove(e) =>
          var gone := if e in adds then adds[e] else {};
          adds := adds - {e};
          assert Pairs(adds) == set t | t in before.live && t.elem != e;
          GoneDots(old(adds), e, gone);
          Entomb(gone, dot);
      }
    }

    method Entomb(gone: set<Dot>, removeDot: Dot)
      modifies this`tombstones
      ensures tombstones == old(tombstones) + map d | d in gone :: removeDot
    {
      var todo := gone;
      while todo != {}
        invariant todo <= gone
        invariant tombstones == old(tombstones) + map d | d in gone - todo :: removeDot
      {
        var d :| d in todo;
        tombstones := tombstones[d := removeDot];
        todo := todo - {d};
      }
    }

    static lemma GoneDots(adds: map<Elem, set<Dot>>, e: Elem, gone: set<Dot>)
      requires gone == if e in adds then adds[e] else {}
      ensures gone == DotsOf(Pairs(adds), e)
    {
      forall d ensures d in gone <==> d in DotsOf(Pairs(adds), e) {
        assert d in gone <==> Tag(e, d) in Pairs(adds);
        if Tag(e, d) in Pairs(adds) {
          assert Tag(e, d).dot in DotsOf(Pairs(adds), e);
        }
      }
    }

    /** Tombstones first, evicting the add-dots they name; then the adds, skipping any
        dot that has a tombstone by now. */
    method MergeDelta(delta: OrSetDelta)
      requires Valid()
      modifies this
      ensures Valid()
      ensures Value() == MergedSet(old(Value()), Meaning(delta).adds, Meaning(delta).tombs)
      ensures forall d :: d in tombstones <==> d in old(tombstones) || exists r :: (d, r) in delta.tombstones
      ensures forall i: nat :: LastFor(delta.tombstones, i) ==>
                && delta.tombstones[i].0 in tombstones
                && tombstones[delta.tombstones[i].0] == delta.tombstones[i].1
      ensures forall d :: d in old(tombstones) && (forall r :: (d, r) !in delta.tombstones) ==>
                tombstones[d] == old(tombstones)[d]
    {
      TombKeys(delta.tombstones);
      forall i: nat | LastFor(delta.tombstones, i)
        ensures delta.tombstones[i].0 in TombMap(delta.tombstones)
        ensures TombMap(delta.tombstones)[delta.tombstones[i].0] == delta.tombstones[i].1
      {
        LastTombCounts(delta.tombstones, i);
      }
      MergeTombstones(delta.tombstones);
      adds := map e | e in adds && adds[e] != {} :: adds[e];
      MergeAdds(delta.adds);
    }

    method MergeTombstones(pairs: seq<(Dot, Dot)>)
      modifies this
      ensures tombstones == old(tombstones) + TombMap(pairs)
      ensures Pairs(map e | e in adds && adds[e] != {} :: adds[e])
           == set t | t in Pairs(old(adds)) && t.dot !in TombMap(pairs)
    {
      hide TombMap, Pairs, Evicted;
      NothingEvicted(adds, pairs);
      for i := 0 to |pairs|
        invariant tombstones == old(tombstones) + TombMap(pairs[..i])
        invariant adds == Evicted(old(adds), TombMap(pairs[..i]).Keys)
      {
        EvictOneMore(old(adds), TombMap(pairs[..i]).Keys, pairs[i].0);
        OneMoreTomb(pairs, i);
        tombstones := tombstones[pairs[i].0 := pairs[i].1];
        adds := map e | e in adds :: adds[e] - {pairs[i].0};
      }
      assert pairs[..|pairs|] == pairs;
      EvictedPairs(old(adds), TombMap(pairs).Keys);
    }

    static function Evicted(adds: map<Elem, set<Dot>>, dead: set<Dot>): map<Elem, set<Dot>> {
      map e | e in adds :: adds[e] - dead
    }

    static lemma NothingEvicted(adds: map<Elem, set<Dot>>, pairs: seq<(Dot, Dot)>)
      ensures TombMap(pairs[..0]) == map[] && TombMap(pairs[..0]).Keys == {} && Evicted(adds, {}) == adds
    {
      assert forall e :: e in adds ==> adds[e] - {} == adds[e];
    }

    static lemma OneMoreTomb(pairs: seq<(Dot, Dot)>, i: nat)
      requires i < |pairs|
      ensures TombMap(pairs[..i + 1]) == TombMap(pairs[..i])[pairs[i].0 := pairs[i].1]
      ensures TombMap(pairs[..i + 1]).Keys == TombMap(pairs[..i]).Keys + {pairs[i].0}
    {
      assert pairs[..i + 1][..i] == pairs[..i];
    }

    static lemma EvictOneMore(adds: map<Elem, set<Dot>>, dead: set<Dot>, d: Dot)
      ensures Evicted(adds, dead + {d}) == map e | e in Evicted(adds, dead) :: Evicted(adds, dead)[e] - {d}
    {
      forall e | e in adds ensures adds[e] - (dead + {d}) == adds[e] - dead - {d} {}
    }

    static lemma EvictedPairs(adds: map<Elem, set<Dot>>, dead: set<Dot>)
      ensures var kept := Evicted(adds, dead);
              Pairs(map e | e in kept && kept[e] != {} :: kept[e]) == set t | t in Pairs(adds) && t.dot !in dead
    {
      var kept := Evicted(adds, dead);
      var trimmed := map e | e in kept && kept[e] != {} :: kept[e];
      forall t: Tag ensures t in Pairs(trimmed) <==> t in Pairs(adds) && t.dot !in dead {
        InPairs(trimmed, t);
        InPairs(adds, t);
        if t.elem in adds && t.dot in adds[t.elem] && t.dot !in dead {
          assert t.dot in kept[t.elem];
        }
      }
    }

    method MergeAdds(tags: seq<Tag>)
      requires Valid()
      modifies this`adds
      ensures Valid()
      ensures Pairs(adds) == Pairs(old(adds)) + set t | t in tags && t.dot !in tombstones
    {
      for i := 0 to |tags|
        invariant Valid()
        invariant Pairs(adds) == Pairs(old(adds)) + set t | t in tags[..i] && t.dot !in tombstones
      {
        var t := tags[i];
        ghost var before := adds;
        if t.dot !in tombstones {
          adds := adds[t.elem := (if t.elem in adds then adds[t.elem] else {}) + {t.dot}];
          assert Pairs(adds) == Pairs(before) + {t};
        }
        assert tags[..i + 1] == tags[..i] + [t];
      }
      assert tags[..|tags|] == tags;
    }

    method PerformGc(frontier: Dvv)
      requires Valid()
      modifies this`tombstones
      ensures Valid() && Value() == Collected(old(Value()), frontier)
      ensures forall d :: d in tombstones <==>
                && d in old(tombstones)
                && old(tombstones)[d].counter > At(EffectiveMap(frontier), old(tombstones)[d].node)
      ensures forall d :: d in tombstones ==> tombstones[d] == old(tombstones)[d]
    {
      tombstones := map d | d in tombstones && !DominatesDot(frontier, tombstones[d]) :: tombstones[d];
    }

    /** The live pairs that a peer with this knowledge has not seen; all of them for `None`. */
    method ListAdds(known: Option<VersionVector>) returns (tags: seq<Tag>)
      ensures forall t :: t in tags <==> t in Pairs(adds) && Unseen(known, t.dot)
    {
      tags := [];
      var elems := adds.Keys;
      while elems != {}
        invariant elems <= adds.Keys
        invariant forall t :: t in tags <==> t in Pairs(adds) && t.elem !in elems && Unseen(known, t.dot)
      {
        var e :| e in elems;
        ghost var before := tags;
        var dots := adds[e];
        while dots != {}
          invariant dots <= adds[e]
          invariant forall t :: t in tags <==>
                      t in before || (t.elem == e && t.dot in adds[e] - dots && Unseen(known, t.dot))
        {
          var d :| d in dots;
          if Unseen(known, d) {
            tags := tags + [Tag(e, d)];
          }
          dots := dots - {d};
        }
        elems := elems - {e};
      }
    }

    /** The tombstones whose remove-event the peer has not seen; all of them for `None`. */
    method ListTombstones(known: Option<VersionVector>) returns (pairs: seq<(Dot, Dot)>)
      ensures TombMap(pairs) == map d | d in tombstones && Unseen(known, tombstones[d]) :: tombstones[d]
      ensures forall d, r :: (d, r) in pairs <==> d in tombstones && tombstones[d] == r && Unseen(known, r)
    {
      pairs := [];
      var todo := tombstones.Keys;
      while todo != {}
        invariant todo <= tombstones.Keys
        invariant TombMap(pairs) == map d | d in tombstones.Keys - todo && Unseen(known, tombstones[d]) :: tombstones[d]
        invariant forall d, r :: (d, r) in pairs <==>
                    d in tombstones && d !in todo && tombstones[d] == r && Unseen(known, r)
      {
        var d :| d in todo;
        if Unseen(known, tombstones[d]) {
          assert (pairs + [(d, tombstones[d])])[..|pairs|] == pairs;
          pairs := pairs + [(d, tombstones[d])];
        }
        todo := todo - {d};
      }
    }

    method FullState(dvv: Dvv) returns (delta: OrSetDelta)
      ensures Meaning(delta) == FullDelta(Value(), dvv)
      ensures forall t :: t in delta.adds <==> t.elem in adds && t.dot in adds[t.elem]
      ensures forall d, r :: (d, r) in delta.tombstones <==> d in tombstones && tombstones[d] == r
      ensures forall n :: At(delta.context, n) == EffectiveCounter(dvv, n)
    {
      var tags := ListAdds(None);
      forall t: Tag { InPairs(adds, t); }
      var pairs := ListTombstones(None);
      assert TombMap(pairs) == tombstones;
      delta := OrSetDelta(tags, pairs, EffectiveMap(dvv), dvv.dot.node, dvv.dot.counter);
    }

    method DeltaSince(known: VersionVector, dvv: Dvv) returns (delta: OrSetDelta)
      ensures Meaning(delta) == DeltaFor(Value(), dvv, known)
      ensures forall t :: t in delta.adds <==>
                t.elem in adds && t.dot in adds[t.elem] && t.dot.counter > At(known, t.dot.node)
      ensures forall d, r :: (d, r) in delta.tombstones <==>
                d in tombstones && tombstones[d] == r && r.counter > At(known, r.node)
      ensures forall n :: At(delta.context, n) == EffectiveCounter(dvv, n)
    {
      var tags := ListAdds(Some(known));
      forall t: Tag { InPairs(adds, t); }
      var pairs := ListTombstones(Some(known));
      delta := OrSetDelta(tags, pairs, EffectiveMap(dvv), dvv.dot.node, dvv.dot.counter);
    }
  }
}
