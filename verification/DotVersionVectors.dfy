/** Dotted version vectors: the latest local event is a dot kept outside the context.
    `Dvv` is the value of one vector; `DotVersionVector` is the object the engine
    mutates, each of whose methods is specified by a function on values. */
module DotVersionVectors {
  import opened Clocks

  datatype Dot = Dot(node: NodeId, counter: nat)

  datatype Dvv = Dvv(dot: Dot, context: VersionVector)

  function NewDvv(n: NodeId): Dvv {
    Dvv(Dot(n, 0), map[])
  }

  /** Is the event `d` part of the history summarised by `v`? */
  predicate Covers(v: VersionVector, d: Dot) {
    d.counter <= At(v, d.node)
  }

  function FrontierDvv(n: NodeId, frontier: VersionVector): Dvv {
    Dvv(Dot(n, At(frontier, n)), frontier)
  }

  function EffectiveCounter(d: Dvv, n: NodeId): nat {
    if n == d.dot.node then Max(At(d.context, n), d.dot.counter) else At(d.context, n)
  }

  /** Context and dot together, as one version vector. */
  function EffectiveMap(d: Dvv): (m: VersionVector)
    ensures forall n :: At(m, n) == EffectiveCounter(d, n)
  {
    if d.dot.counter > 0
    then d.context[d.dot.node := Max(At(d.context, d.dot.node), d.dot.counter)]
    else d.context
  }

  predicate DominatesDot(d: Dvv, dot: Dot) {
    EffectiveCounter(d, dot.node) >= dot.counter
  }

  /** The representation rule: the dot lies strictly above the own-node context entry,
      unless the node has no event at all. */
  predicate DotOutside(d: Dvv) {
    At(d.context, d.dot.node) < d.dot.counter || At(d.context, d.dot.node) == d.dot.counter == 0
  }

  function Evented(d: Dvv): Dvv {
    Dvv(Dot(d.dot.node, d.dot.counter + 1),
        if d.dot.counter > 0
        then d.context[d.dot.node := Max(At(d.context, d.dot.node), d.dot.counter)]
        else d.context)
  }

  /** The own-node context entry after hearing that a peer knows `remote` of our events. */
  function OwnEntry(d: Dvv, remote: nat): nat {
    var own := At(d.context, d.dot.node);
    if remote < d.dot.counter then Max(own, remote)
    else if remote > d.dot.counter then Max(own, remote - 1)
    else own
  }

  /** A peer that knows exactly our own counter adds no own-node entry. */
  function UnstoredKeys(d: Dvv, eff: VersionVector): set<NodeId> {
    if At(eff, d.dot.node) == d.dot.counter then {d.dot.node} else {}
  }

  function MergedKeys(d: Dvv, eff: VersionVector): set<NodeId> {
    d.context.Keys + (eff.Keys - UnstoredKeys(d, eff))
  }

  function MergedEntry(d: Dvv, eff: VersionVector, k: NodeId): nat {
    if k == d.dot.node then (if k in eff then OwnEntry(d, eff[k]) else At(d.context, k))
    else Max(At(d.context, k), At(eff, k))
  }

  /** Three-way merge with a peer whose effective map is `eff`. */
  function Merged(d: Dvv, eff: VersionVector): Dvv {
    var self := d.dot.node;
    Dvv(if self in eff then Dot(self, Max(d.dot.counter, eff[self])) else d.dot,
        map k | k in MergedKeys(d, eff) :: MergedEntry(d, eff, k))
  }

  /** One entry of the peer's effective map: three ways for our own node, a maximum for
      any other. */
  function Absorbed(d: Dvv, k: NodeId, remote: nat): Dvv {
    if k != d.dot.node then d.(context := d.context[k := Max(At(d.context, k), remote)])
    else if remote == d.dot.counter then d
    else Dvv(Dot(k, Max(d.dot.counter, remote)), d.context[k := OwnEntry(d, remote)])
  }

  lemma MergedNothing(d: Dvv)
    ensures Merged(d, map[]) == d
  {
    assert Merged(d, map[]).context == d.context;
  }

  /** Entries can be absorbed one at a time, in any order. */
  lemma AbsorbOneMore(d: Dvv, seen: VersionVector, k: NodeId, remote: nat)
    requires k !in seen
    ensures Absorbed(Merged(d, seen), k, remote) == Merged(d, seen[k := remote])
  {
    if k == d.dot.node {
      AbsorbOwn(d, seen, remote);
    } else {
      AbsorbOther(d, seen, k, remote);
    }
  }

  lemma AbsorbOwn(d: Dvv, seen: VersionVector, remote: nat)
    requires d.dot.node !in seen
    ensures Absorbed(Merged(d, seen), d.dot.node, remote) == Merged(d, seen[d.dot.node := remote])
  {
    var self := d.dot.node;
    var one, all := Merged(d, seen), Merged(d, seen[self := remote]);
    assert one.dot == d.dot;
    assert At(one.context, self) == At(d.context, self);
    assert OwnEntry(one, remote) == OwnEntry(d, remote);
    var stored := if remote == d.dot.counter then one.context else one.context[self := OwnEntry(d, remote)];
    assert stored.Keys == MergedKeys(d, seen[self := remote]);
    forall j | j in stored ensures stored[j] == all.context[j] {
      if j == self {} else {}
    }
    assert stored == all.context;
  }

  lemma AbsorbOther(d: Dvv, seen: VersionVector, k: NodeId, remote: nat)
    requires k !in seen && k != d.dot.node
    ensures Absorbed(Merged(d, seen), k, remote) == Merged(d, seen[k := remote])
  {
    var one, all := Merged(d, seen), Merged(d, seen[k := remote]);
    assert one.dot == all.dot;
    assert At(one.context, k) == At(d.context, k);
    var stored := one.context[k := Max(At(d.context, k), remote)];
    assert stored.Keys == MergedKeys(d, seen[k := remote]);
    forall j | j in stored ensures stored[j] == all.context[j] {
      assert j != k ==> stored[j] == MergedEntry(d, seen, j) == MergedEntry(d, seen[k := remote], j);
    }
    assert stored == all.context;
  }

  function Forgotten(d: Dvv, n: NodeId): Dvv {
    d.(context := d.context - {n})
  }

  /** What a peer with knowledge `known` is missing. */
  function DvvDelta(d: Dvv, known: VersionVector): Dvv {
    var eff := EffectiveMap(d);
    Dvv(Dot(d.dot.node, if d.dot.counter > At(known, d.dot.node) then d.dot.counter else 0),
        map k | k in eff && eff[k] > At(known, k) && k != d.dot.node :: eff[k])
  }

  ghost predicate Descends(a: Dvv, b: Dvv) {
    Leq(EffectiveMap(b), EffectiveMap(a))
  }

  datatype Ordering = Less | Equal | Greater

  /** `None` for concurrent histories. */
  ghost function Compare(a: Dvv, b: Dvv): Option<Ordering> {
    match (Descends(a, b), Descends(b, a))
    case (true, true) => Some(Equal)
    case (true, false) => Some(Greater)
    case (false, true) => Some(Less)
    case (false, false) => None
  }

  /** Comparison is by history alone: equal means the same history, however it is split
      between dot and context, and `Less` composes. */
  lemma CompareIsOrder(a: Dvv, b: Dvv, c: Dvv)
    ensures Compare(a, b) == Some(Equal) <==> Same(EffectiveMap(a), EffectiveMap(b))
    ensures Compare(a, b) == Some(Less) <==> Compare(b, a) == Some(Greater)
    ensures Compare(a, b) == Some(Less) && Compare(b, c) == Some(Less) ==> Compare(a, c) == Some(Less)
  {
    var x, y, z := EffectiveMap(a), EffectiveMap(b), EffectiveMap(c);
    if Leq(x, y) && Leq(y, x) {
      forall n ensures At(x, n) == At(y, n) { assert At(x, n) <= At(y, n) && At(y, n) <= At(x, n); }
    }
    if Leq(x, y) && Leq(y, z) {
      forall n ensures At(x, n) <= At(z, n) { assert At(x, n) <= At(y, n) && At(y, n) <= At(z, n); }
      if Leq(z, x) {
        forall n ensures At(y, n) <= At(x, n) { assert At(y, n) <= At(z, n) && At(z, n) <= At(x, n); }
      }
    }
  }

  /** Merge is the pointwise maximum of effective maps, for any argument, including one
      that breaks the representation rule. */
  lemma MergeIsMax(d: Dvv, eff: VersionVector)
    ensures forall n :: At(EffectiveMap(Merged(d, eff)), n) == Max(At(EffectiveMap(d), n), At(eff, n))
  {
    var m := Merged(d, eff);
    forall n ensures EffectiveCounter(m, n) == Max(EffectiveCounter(d, n), At(eff, n)) {
      if n == d.dot.node {
        if n in eff {} else {}
      } else if n in MergedKeys(d, eff) {
        assert At(m.context, n) == Max(At(d.context, n), At(eff, n));
      }
    }
  }

  lemma EventAdvancesOwn(d: Dvv)
    requires DotOutside(d)
    ensures DotOutside(Evented(d)) && At(Evented(d).context, d.dot.node) == d.dot.counter
    ensures forall n :: At(EffectiveMap(Evented(d)), n) ==
                        At(EffectiveMap(d), n) + if n == d.dot.node then 1 else 0
  {
  }

  datatype DvvCall = EventCall | MergeCall(other: Dvv) | RemoveCall(node: NodeId)

  function AfterCalls(n: NodeId, calls: seq<DvvCall>): Dvv {
    if calls == [] then NewDvv(n)
    else
      var d := AfterCalls(n, calls[..|calls| - 1]);
      match calls[|calls| - 1]
      case EventCall => Evented(d)
      case MergeCall(o) => Merged(d, EffectiveMap(o))
      case RemoveCall(k) => Forgotten(d, k)
  }

  /** Every sequence of calls keeps the dot outside the context, whatever is merged in. */
  lemma {:induction false} CallsKeepDotOutside(n: NodeId, calls: seq<DvvCall>)
    ensures DotOutside(AfterCalls(n, calls)) && AfterCalls(n, calls).dot.node == n
  {
    if calls != [] {
      CallsKeepDotOutside(n, calls[..|calls| - 1]);
      var d := AfterCalls(n, calls[..|calls| - 1]);
      match calls[|calls| - 1]
      case EventCall =>
      case MergeCall(o) => MergeKeepsDotOutside(d, EffectiveMap(o));
      case RemoveCall(k) =>
    }
  }

  lemma MergeKeepsDotOutside(d: Dvv, eff: VersionVector)
    requires DotOutside(d)
    ensures DotOutside(Merged(d, eff)) && Merged(d, eff).dot.node == d.dot.node
  {
    var self := d.dot.node;
    if self in eff && self in MergedKeys(d, eff) {
      assert At(Merged(d, eff).context, self) == OwnEntry(d, eff[self]);
    }
  }

  /** What a peer knows of our own past goes into the context, but never up to the dot. */
  lemma OwnPastIsAbsorbed(d: Dvv, eff: VersionVector)
    requires DotOutside(d)
    ensures var m := Merged(d, eff); var self := d.dot.node; var remote := At(eff, self);
            At(m.context, self) == if self !in eff || remote == d.dot.counter then At(d.context, self)
                                   else Max(At(d.context, self), Min(remote, m.dot.counter - 1))
  {
    var self := d.dot.node;
    if self in eff && self in MergedKeys(d, eff) {
      assert At(Merged(d, eff).context, self) == OwnEntry(d, eff[self]);
    }
  }

  /** A peer that already has at least `known` gets exactly the join of both histories
      from the delta, and then descends from the sender. */
  lemma DeltaRoundTrip(sender: Dvv, known: VersionVector, peer: Dvv)
    requires DotOutside(sender)
    requires Leq(known, EffectiveMap(peer))
    ensures var after := Merged(peer, EffectiveMap(DvvDelta(sender, known)));
            && Same(EffectiveMap(after), Join(EffectiveMap(peer), EffectiveMap(sender)))
            && Descends(after, sender)
  {
    hide Merged, DvvDelta, EffectiveCounter, DotOutside;
    var delta := EffectiveMap(DvvDelta(sender, known));
    MergeIsMax(peer, delta);
    forall n ensures Max(At(EffectiveMap(peer), n), At(delta, n)) ==
                     Max(At(EffectiveMap(peer), n), At(EffectiveMap(sender), n)) {
      DeltaEntry(sender, known, n);
      assert At(known, n) <= At(EffectiveMap(peer), n);
    }
  }

  /** A delta carries the sender's counter where the peer lags, and nothing elsewhere. */
  lemma DeltaEntry(sender: Dvv, known: VersionVector, n: NodeId)
    requires DotOutside(sender)
    ensures var c := EffectiveCounter(sender, n);
            At(EffectiveMap(DvvDelta(sender, known)), n) == if c > At(known, n) then c else 0
  {
    var eff := EffectiveMap(sender);
    var delta := DvvDelta(sender, known);
    assert At(eff, n) == EffectiveCounter(sender, n);
    if n == sender.dot.node {
      assert n !in delta.context;
    } else {
      assert At(delta.context, n) == if n in eff && eff[n] > At(known, n) then eff[n] else 0;
    }
  }

  /** The reply is empty exactly when the peer already knows everything the sender does. */
  lemma EmptyDeltaIff(sender: Dvv, known: VersionVector)
    requires DotOutside(sender)
    ensures DvvDelta(sender, known).dot.counter == 0 && DvvDelta(sender, known).context == map[]
       <==> Leq(EffectiveMap(sender), known)
  {
    var eff := EffectiveMap(sender);
    var delta := DvvDelta(sender, known);
    if delta.dot.counter == 0 && delta.context == map[] {
      forall n ensures At(eff, n) <= At(known, n) {
        DeltaEntry(sender, known, n);
      }
    }
    if Leq(eff, known) {
      assert At(eff, sender.dot.node) <= At(known, sender.dot.node);
      forall k ensures k !in delta.context {
        assert At(eff, k) <= At(known, k);
      }
    }
  }

  class DotVersionVector {
    var dot: Dot
    var context: VersionVector

    ghost function Value(): Dvv
      reads this
    {
      Dvv(dot, context)
    }

    constructor (n: NodeId)
      ensures Value() == NewDvv(n)
    {
      dot := Dot(n, 0);
      context := map[];
    }

    constructor FromParts(dot: Dot, context: VersionVector)
      ensures Value() == Dvv(dot, context)
    {
      this.dot := dot;
      this.context := context;
    }

    function EffectiveMapNow(): (m: VersionVector)
      reads this
      ensures m == EffectiveMap(Value())
    {
      EffectiveMap(Dvv(dot, context))
    }

    method DescendsFrom(other: Dvv) returns (yes: bool)
      ensures yes <==> Descends(Value(), other)
    {
      var a, b := EffectiveMapNow(), EffectiveMap(other);
      var todo := a.Keys + b.Keys;
      while todo != {}
        invariant todo <= a.Keys + b.Keys
        invariant forall n :: n !in todo ==> At(b, n) <= At(a, n)
      {
        var n :| n in todo;
        if At(a, n) < At(b, n) {
          return false;
        }
        todo := todo - {n};
      }
      yes := true;
    }

    method PartialCmp(other: Dvv) returns (r: Option<Ordering>)
      ensures r == Compare(Value(), other)
    {
      var a, b := EffectiveMapNow(), EffectiveMap(other);
      var hasLess, hasGreater := false, false;
      var todo := a.Keys + b.Keys;
      while todo != {}
        invariant todo <= a.Keys + b.Keys
        invariant hasLess <==> exists n :: n !in todo && At(a, n) < At(b, n)
        invariant hasGreater <==> exists n :: n !in todo && At(a, n) > At(b, n)
      {
        var n :| n in todo;
        if At(a, n) < At(b, n) {
          hasLess := true;
        } else if At(a, n) > At(b, n) {
          hasGreater := true;
        }
        todo := todo - {n};
      }
      r := match (hasLess, hasGreater)
        case (false, false) => Some(Equal)
        case (true, false) => Some(Less)
        case (false, true) => Some(Greater)
        case (true, true) => None;
    }

    method Event()
      modifies this
      ensures Value() == Evented(old(Value()))
    {
      if dot.counter > 0 {
        context := context[dot.node := Max(At(context, dot.node), dot.counter)];
      }
      dot := dot.(counter := dot.counter + 1);
    }

    method Remove(n: NodeId)
      modifies this
      ensures Value() == Forgotten(old(Value()), n)
      ensures dot == old(dot) && IsWithout(context, old(context), {n})
    {
      context := context - {n};
    }

    method Absorb(k: NodeId, remote: nat)
      modifies this
      ensures Value() == Absorbed(old(Value()), k, remote)
    {
      if k != dot.node {
        context := context[k := Max(At(context, k), remote)];
      } else if remote < dot.counter {
        context := context[k := Max(At(context, k), remote)];
      } else if remote > dot.counter {
        context := context[k := Max(At(context, k), remote - 1)];
        dot := dot.(counter := remote);
      }
    }

    /** One pass over the peer's effective map, in any order. */
    method Merge(other: Dvv)
      modifies this
      ensures Value() == Merged(old(Value()), EffectiveMap(other))
    {
      hide Merged, Absorbed;
      var eff := EffectiveMap(other);
      ghost var seen: VersionVector := map[];
      var todo := eff.Keys;
      MergedNothing(Value());
      while todo != {}
        invariant todo <= eff.Keys
        invariant seen == map k | k in eff.Keys - todo :: eff[k]
        invariant Value() == Merged(old(Value()), seen)
      {
        var k :| k in todo;
        AbsorbOneMore(old(Value()), seen, k, eff[k]);
        Absorb(k, eff[k]);
        seen := seen[k := eff[k]];
        todo := todo - {k};
      }
      assert seen == eff;
    }

    method DeltaSince(known: VersionVector) returns (delta: Dvv)
      ensures delta == DvvDelta(Value(), known)
    {
      var eff := EffectiveMapNow();
      var ctx: VersionVector := map[];
      var todo := eff.Keys;
      while todo != {}
        invariant todo <= eff.Keys
        invariant forall k :: k in ctx <==> k in eff && k !in todo && eff[k] > At(known, k) && k != dot.node
        invariant forall k :: k in ctx ==> ctx[k] == eff[k]
      {
        var k :| k in todo;
        if eff[k] > At(known, k) && k != dot.node {
          ctx := ctx[k := eff[k]];
        }
        todo := todo - {k};
      }
      delta := Dvv(Dot(dot.node, if dot.counter > At(known, dot.node) then dot.counter else 0), ctx);
    }
  }
}
