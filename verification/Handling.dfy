/** An envelope handled is the system's steps. */
module Handling {
  import opened Clocks
  import opened OrSets
  import opened StableTimestamps
  import opened Replicas
  import opened Systems
  import opened Executions
  import opened Exchanges

  /** The request that rides on a delta, as an envelope of its own. */
  function Rider(m: Envelope): Envelope
    requires m.CrdtOp? && m.requester.Some?
  {
    PullRequest(m.origin, m.to, m.requester.value)
  }

  function HandlingSteps(m: Envelope, view: View): seq<Step> {
    if m.PullRequest? then [Serve(m, view.peerIsGc, view.peers)]
    else if RiddenRequest(m.origin, m.requester) == [] then [Deliver(m)]
    else [Deliver(m)] + [Serve(Rider(m), view.peerIsGc, view.peers)]
  }

  /** A delta step followed by a request step, when one came along, does to the receiver
      what the handler's requests do, and puts the same answer on the wire. */
  lemma HandlingIsSteps(s: System, m: Envelope, view: View)
    requires m in s.net && IsReady(s, m.to) && s.reps[m.to].core.id == m.to
    ensures var t := Execute(s, HandlingSteps(m, view)); var (c, out) := Received(s.reps[m.to].core, Some(m), view);
            && t.Some? && t.value.reps == s.reps[m.to := s.reps[m.to].(core := c)]
            && (out.Some? ==> out.value in t.value.net) && t.value.store == s.store && t.value.history == s.history
  {
    hide AfterDelta, AfterRequest, ReplyTo, Respond;
    var c := s.reps[m.to].core;
    if m.PullRequest? {
      Execute1(s, Serve(m, view.peerIsGc, view.peers));
      OneRequest(c, DeltaRequest(m.origin, m.knowledge), view);
    } else if RiddenRequest(m.origin, m.requester) == [] {
      Execute1(s, Deliver(m));
      OneRequest(c, DeltaResponse(m.origin, m.delta, m.rows), view);
    } else {
      DeliverThenServe(s, m, view);
    }
  }

  lemma DeliverThenServe(s: System, m: Envelope, view: View)
    requires m in s.net && m.CrdtOp? && RiddenRequest(m.origin, m.requester) != []
    requires IsReady(s, m.to) && s.reps[m.to].core.id == m.to
    ensures var t := Execute(s, [Deliver(m)] + [Serve(Rider(m), view.peerIsGc, view.peers)]);
            var (c, out) := Received(s.reps[m.to].core, Some(m), view);
            && t.Some? && t.value.reps == s.reps[m.to := s.reps[m.to].(core := c)]
            && (out.Some? ==> out.value in t.value.net) && t.value.store == s.store && t.value.history == s.history
  {
    hide AfterRequest, ReplyTo, Respond, AfterDelta;
    var c := s.reps[m.to].core;
    var q := Rider(m);
    var s1 := Delivering(s, m);
    assert s1.reps == s.reps[m.to := s.reps[m.to].(core := AfterDelta(c, m.delta, m.rows))] && q in s1.net;
    IdStays(c, m.delta, m.rows);
    ExecuteFirst(s, Deliver(m), [Serve(q, view.peerIsGc, view.peers)]);
    Execute1(s1, Serve(q, view.peerIsGc, view.peers));
    TwoRequests(c, DeltaResponse(m.origin, m.delta, m.rows), DeltaRequest(m.origin, m.requester.value), view);
    assert RequestsOf(m) == [DeltaResponse(m.origin, m.delta, m.rows), DeltaRequest(m.origin, m.requester.value)];
  }

  lemma IdStays(c: Core, d: Delta, rows: Option<MatrixClock>)
    ensures AfterDelta(c, d, rows).id == c.id
  {
  }
}
