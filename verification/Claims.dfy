/** What a claim of an epoch leads to, when the epoch read before it may be out of date. */
module Claims {
  import opened Clocks
  import opened StableTimestamps
  import opened Replicas
  import opened Systems
  import opened Executions
  import opened Attempts
  import opened Protocol
  import opened Theorems
  import opened Results

  function FromClaim(p: NodeId, listing: seq<NodeId>, order: seq<NodeId>): seq<Step> {
    [GcClaim(p), GcConfirm(p), GcCollect(p, listing, order), GcWriteState(p), GcWriteMetadata(p)]
  }

  ghost predicate AboutToClaim(s: System, p: NodeId, listing: seq<NodeId>, order: seq<NodeId>) {
    && IsActive(s, p) && s.reps[p].gc.MembersRead? && s.reps[p].gc.m0 == s.reps.Keys == NodesIn(listing)
    && s.reps[p].gc.n !in s.store.intents
    && !VvLeq(Finding(s.reps[p].core, listing, order, map[]).0, s.reps[p].gc.prev)
  }

  lemma ClaimConfirms(s: System, p: NodeId, listing: seq<NodeId>, order: seq<NodeId>)
    requires AboutToClaim(s, p, listing, order)
    ensures var g := s.reps[p].gc; var t := Execute(s, [GcClaim(p), GcConfirm(p)]);
            && t.Some? && t.value.reps == s.reps[p := s.reps[p].(gc := Confirmed(g.n, g.prev, s.reps.Keys))]
            && t.value.store.metadata == s.store.metadata
  {
    hide Finding, VvLeq, NodesIn;
    var g := s.reps[p].gc;
    var held := s.(store := s.store.(intents := s.store.intents[g.n := p]));
    var t := SetPhase(held, p, Claimed(g.n, g.prev, g.m0));
    assert Apply(s, GcClaim(p)) == t;
    PhaseTwice(held, p, t.reps[p].gc, Confirmed(g.n, g.prev, s.reps.Keys));
    assert Apply(t, GcConfirm(p)) == SetPhase(held, p, Confirmed(g.n, g.prev, s.reps.Keys));
    hide Apply, Execute;
    Execute1(t, GcConfirm(p));
    ExecuteFirst(s, GcClaim(p), [GcConfirm(p)]);
  }

  lemma ConfirmedCommits(t: System, p: NodeId, listing: seq<NodeId>, order: seq<NodeId>)
    requires p in t.reps && t.reps[p].gc.Confirmed? && NodesIn(listing) == t.reps[p].gc.m1
    requires !VvLeq(Finding(t.reps[p].core, listing, order, map[]).0, t.reps[p].gc.prev)
    ensures var w := Execute(t, [GcCollect(p, listing, order), GcWriteState(p), GcWriteMetadata(p)]);
            w.Some? && w.value.store.metadata.epoch == t.reps[p].gc.n
  {
    hide Finding, VvLeq, NodesIn, Initiated, Snapshot, Gathering;
    var u := Gathering(t, p, listing, order);
    CollectingMoves(t, p, listing, order);
    CollectingKeeps(t, p, listing, order);
    CollectingGathers(t, p, listing, order);
    GatheredCommits(u, p);
    hide Execute;
    ExecuteFirst(t, GcCollect(p, listing, order), [GcWriteState(p), GcWriteMetadata(p)]);
  }

  lemma GatheredCommits(u: System, p: NodeId)
    requires p in u.reps && u.reps[p].gc.Gathered?
    ensures var w := Execute(u, [GcWriteState(p), GcWriteMetadata(p)]);
            w.Some? && w.value.store.metadata.epoch == u.reps[p].gc.n
  {
    hide Snapshot;
    var v := WritingState(u, p);
    assert Apply(u, GcWriteState(p)) == v;
    assert Apply(v, GcWriteMetadata(p)) == WritingMetadata(v, p);
    hide Execute, Apply;
    Execute1(v, GcWriteMetadata(p));
    ExecuteFirst(u, GcWriteState(p), [GcWriteMetadata(p)]);
  }

  /** A claim that succeeds commits the epoch it named, whatever is stored by then.  So
      the commit raises the epoch by one exactly when the claim met the epoch before. */
  lemma CommitRaisesEpochIff(s: System, p: NodeId, listing: seq<NodeId>, order: seq<NodeId>)
    requires AboutToClaim(s, p, listing, order)
    ensures var w := Execute(s, FromClaim(p, listing, order));
            w.Some? && w.value.store.metadata.epoch == s.reps[p].gc.n
            && (w.value.store.metadata.epoch == s.store.metadata.epoch + 1
                <==> s.reps[p].gc.n == s.store.metadata.epoch + 1)
  {
    hide Apply, Enabled, Execute, Finding, VvLeq, NodesIn;
    ClaimConfirms(s, p, listing, order);
    var rest := [GcCollect(p, listing, order), GcWriteState(p), GcWriteMetadata(p)];
    ConfirmedCommits(Execute(s, [GcClaim(p), GcConfirm(p)]).value, p, listing, order);
    ExecuteSplits(s, [GcClaim(p), GcConfirm(p)], rest);
    assert [GcClaim(p), GcConfirm(p)] + rest == FromClaim(p, listing, order);
  }

  // ---- all that may happen after a claim ----

  /** From here on, in every continuation that meets the hypotheses, each metadata write
      raises the stored epoch by one. */
  ghost predicate EveryCommitRaises(t: System, h: Hypotheses) {
    forall u, q :: Leads(t, u, h) && Enabled(u, GcWriteMetadata(q)) ==>
      Apply(u, GcWriteMetadata(q)).store.metadata.epoch == u.store.metadata.epoch + 1
  }

  lemma {:induction false} FollowsKeepsProtocol(s: System, steps: seq<Step>, h: Hypotheses)
    requires ProtocolOk(s) && h.claims && Follows(s, steps, h)
    ensures Execute(s, steps).Some? && ProtocolOk(Execute(s, steps).value)
    decreases |steps|
  {
    hide ProtocolOk, Apply, Enabled, ClaimMet, InFlightMet;
    if steps != [] {
      StepKeepsProtocol(s, steps[0]);
      FollowsKeepsProtocol(Apply(s, steps[0]), steps[1..], h);
    }
  }

  lemma CurrentClaimRaises(s: System, h: Hypotheses, p: NodeId)
    requires ProtocolOk(s) && h.claims && Enabled(s, GcClaim(p)) && s.reps[p].gc.n == s.store.metadata.epoch + 1
    ensures EveryCommitRaises(Apply(s, GcClaim(p)), h)
  {
    hide ProtocolOk;
    StepKeepsProtocol(s, GcClaim(p));
    var t := Apply(s, GcClaim(p));
    hide Apply, Enabled, Execute, Follows;
    forall u, q | Leads(t, u, h) && Enabled(u, GcWriteMetadata(q))
      ensures Apply(u, GcWriteMetadata(q)).store.metadata.epoch == u.store.metadata.epoch + 1
    {
      var more :| Follows(t, more, h) && Execute(t, more) == Some(u);
      FollowsKeepsProtocol(t, more, h);
      WriteRaises(u, q);
    }
  }

  lemma {:induction false} LoseAll(s: System, t: System, h: Hypotheses)
    requires Leads(s, t, h)
    ensures Leads(s, t.(net := {}), h)
    decreases |t.net|
  {
    hide Leads;
    if m :| m in t.net {
      LeadsStep(s, t, Lose(m), h);
      LoseAll(s, t.(net := t.net - {m}), h);
    } else {
      assert t.(net := {}) == t;
    }
  }

  /** The claim of any epoch can go through to its metadata write. */
  lemma ClaimReachesWrite(s: System, h: Hypotheses, p: NodeId, listing: seq<NodeId>, order: seq<NodeId>)
    returns (u: System)
    requires AboutToClaim(s, p, listing, order)
    ensures Leads(Apply(s, GcClaim(p)), u, h) && Enabled(u, GcWriteMetadata(p))
    ensures u.reps[p].gc.n == s.reps[p].gc.n && u.store.metadata == s.store.metadata
  {
    hide Leads, Finding, VvLeq, NodesIn, Initiated, Join, Snapshot;
    var t := Apply(s, GcClaim(p));
    LeadsNowhere(t, h);
    LoseAll(t, t, h);
    u := t.(net := {});
    LeadsStep(t, u, GcConfirm(p), h);
    u := Confirming(u, p);
    u := ConfirmedReachesWrite(t, u, h, p, listing, order);
  }

  lemma ConfirmedReachesWrite(t: System, c: System, h: Hypotheses, p: NodeId, listing: seq<NodeId>, order: seq<NodeId>)
    returns (u: System)
    requires Leads(t, c, h) && c.net == {}
    requires p in c.reps && c.reps[p].gc.Confirmed? && NodesIn(listing) == c.reps[p].gc.m1
    requires !VvLeq(Finding(c.reps[p].core, listing, order, map[]).0, c.reps[p].gc.prev)
    ensures Leads(t, u, h) && Enabled(u, GcWriteMetadata(p))
    ensures u.reps[p].gc.n == c.reps[p].gc.n && u.store.metadata == c.store.metadata
  {
    hide Leads, Finding, VvLeq, NodesIn, Initiated, Snapshot, Gathering;
    CollectingMoves(c, p, listing, order);
    CollectingKeeps(c, p, listing, order);
    LeadsStep(t, c, GcCollect(p, listing, order), h);
    var g := Gathering(c, p, listing, order);
    LeadsStep(t, g, GcWriteState(p), h);
    u := WritingState(g, p);
  }

  /** The code reads the epoch, and does not read it again when it claims the next one.
      After any run with current claims, every commit in every such continuation of one
      more claim raises the stored epoch by one if and only if that claim is current too. */
  lemma ClaimSafeIff(steps: seq<Step>, h: Hypotheses, p: NodeId, listing: seq<NodeId>, order: seq<NodeId>)
    requires IsRun(steps, h) && h.claims && AboutToClaim(End(steps), p, listing, order)
    ensures EveryCommitRaises(Apply(End(steps), GcClaim(p)), h)
       <==> End(steps).reps[p].gc.n == End(steps).store.metadata.epoch + 1
  {
    hide ProtocolOk, IsRun, Leads, Apply, NodesIn, Finding;
    var s := End(steps);
    RunKeepsProtocol(steps, h);
    if s.reps[p].gc.n == s.store.metadata.epoch + 1 {
      CurrentClaimRaises(s, h, p);
    } else {
      var u := ClaimReachesWrite(s, h, p, listing, order);
      WriteStores(u, p);
    }
  }

  lemma WriteStores(u: System, q: NodeId)
    requires Enabled(u, GcWriteMetadata(q))
    ensures Apply(u, GcWriteMetadata(q)).store.metadata.epoch == u.reps[q].gc.n
  {
  }
}
