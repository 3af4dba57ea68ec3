/** Version vectors: finite maps from node ids to event counters, where an absent
    entry reads as 0.  `Join` and `Meet` are the mathematical operations; `VvJoin`
    and `VvMeet` are the entry-by-entry loops that compute them. */
module Clocks {
  type NodeId = string
  type VersionVector = map<NodeId, nat>

  datatype Option<+T> = None | Some(value: T)

  function Max(a: nat, b: nat): nat {
    if a < b then b else a
  }

  function Min(a: nat, b: nat): nat {
    if a < b then a else b
  }

  /** The counter recorded for `n`, 0 when there is none. */
  function At(v: VersionVector, n: NodeId): nat {
    if n in v then v[n] else 0
  }

  /** Pointwise order, absent entries read as 0. */
  ghost predicate Leq(a: VersionVector, b: VersionVector) {
    forall n :: At(a, n) <= At(b, n)
  }

  /** Equal as clocks, though one may store zeros that the other leaves out. */
  ghost predicate Same(a: VersionVector, b: VersionVector) {
    forall n :: At(a, n) == At(b, n)
  }

  /** `after` is `before` less the entries of `gone`. */
  ghost predicate IsWithout<T>(after: map<NodeId, T>, before: map<NodeId, T>, gone: set<NodeId>) {
    && (forall k :: k in after <==> k in before && k !in gone)
    && (forall k :: k in after ==> after[k] == before[k])
  }

  function Join(a: VersionVector, b: VersionVector): (r: VersionVector)
    ensures forall n :: At(r, n) == Max(At(a, n), At(b, n))
  {
    map k | k in a.Keys + b.Keys :: Max(At(a, k), At(b, k))
  }

  /** Only positive minima are stored. */
  function Meet(a: VersionVector, b: VersionVector): (r: VersionVector)
    ensures forall n :: At(r, n) == Min(At(a, n), At(b, n))
    ensures forall n :: n in r <==> Min(At(a, n), At(b, n)) > 0
  {
    map k | k in a.Keys + b.Keys && Min(At(a, k), At(b, k)) > 0 :: Min(At(a, k), At(b, k))
  }

  /** The check over the stored keys decides the pointwise order. */
  predicate VvLeq(a: VersionVector, b: VersionVector)
    ensures VvLeq(a, b) <==> Leq(a, b)
  {
    assert (forall k | k in a.Keys + b.Keys :: At(a, k) <= At(b, k)) ==> Leq(a, b) by {
      if forall k | k in a.Keys + b.Keys :: At(a, k) <= At(b, k) {
        forall n ensures At(a, n) <= At(b, n) {
          if n in a.Keys + b.Keys {}
        }
      }
    }
    forall k | k in a.Keys + b.Keys :: At(a, k) <= At(b, k)
  }

  method VvJoin(a: VersionVector, b: VersionVector) returns (out: VersionVector)
    ensures out == Join(a, b)
  {
    out := a;
    var todo := b.Keys;
    while todo != {}
      invariant todo <= b.Keys
      invariant out.Keys == a.Keys + (b.Keys - todo)
      invariant forall k :: k in out ==> out[k] == if k in b && k !in todo then Max(At(a, k), b[k]) else At(a, k)
    {
      var k :| k in todo;
      out := out[k := Max(At(out, k), b[k])];
      todo := todo - {k};
    }
  }

  method VvMeet(a: VersionVector, b: VersionVector) returns (out: VersionVector)
    ensures out == Meet(a, b)
  {
    out := map[];
    var todo := a.Keys + b.Keys;
    while todo != {}
      invariant todo <= a.Keys + b.Keys
      invariant forall k :: k in out <==> k in a.Keys + b.Keys && k !in todo && Min(At(a, k), At(b, k)) > 0
      invariant forall k :: k in out ==> out[k] == Min(At(a, k), At(b, k))
    {
      var k :| k in todo;
      var m := Min(At(a, k), At(b, k));
      if m > 0 {
        out := out[k := m];
      }
      todo := todo - {k};
    }
  }
}
