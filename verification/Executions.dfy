/** Sequences of steps run from any state, hypotheses or not. */
module Executions {
  import opened Clocks
  import opened Systems

  function Execute(s: System, steps: seq<Step>): Option<System>
    decreases |steps|
  {
    if steps == [] then Some(s)
    else if Enabled(s, steps[0]) then Execute(Apply(s, steps[0]), steps[1..]) else None
  }

  lemma Execute1(s: System, a: Step)
    requires Enabled(s, a)
    ensures Execute(s, [a]) == Some(Apply(s, a))
  {
    hide Apply, Enabled;
    assert [a][1..] == [];
  }

  lemma ExecuteFirst(s: System, a: Step, rest: seq<Step>)
    requires Enabled(s, a)
    ensures Execute(s, [a] + rest) == Execute(Apply(s, a), rest)
  {
    hide Apply, Enabled;
    assert ([a] + rest)[1..] == rest;
  }

  lemma {:induction false} ExecuteSplits(s: System, front: seq<Step>, back: seq<Step>)
    ensures Execute(s, front + back)
         == if Execute(s, front).Some? then Execute(Execute(s, front).value, back) else None
    decreases |front|
  {
    hide Apply, Enabled;
    if front == [] {
      assert front + back == back;
    } else {
      assert (front + back)[1..] == front[1..] + back;
      if Enabled(s, front[0]) { ExecuteSplits(Apply(s, front[0]), front[1..], back); }
    }
  }

  /** From the initial state this is what `After` computes. */
  lemma {:induction false} ExecuteIsAfter(steps: seq<Step>)
    ensures Execute(INITIAL, steps) == After(steps)
  {
    hide Apply, Enabled;
    if steps != [] {
      var front, last := steps[..|steps| - 1], steps[|steps| - 1];
      ExecuteIsAfter(front);
      ExecuteSplits(INITIAL, front, [last]);
      assert front + [last] == steps;
      if After(front).Some? && Enabled(After(front).value, last) {
        assert [last][1..] == [];
      }
    }
  }

  // ---- continuations that meet the hypotheses ----

  ghost predicate Follows(s: System, steps: seq<Step>, h: Hypotheses)
    decreases |steps|
  {
    steps != [] ==>
      Enabled(s, steps[0]) && Assumed(s, steps[0], h) && Follows(Apply(s, steps[0]), steps[1..], h)
  }

  /** Some continuation of `s` that meets the hypotheses ends in `t`. */
  ghost predicate Leads(s: System, t: System, h: Hypotheses) {
    exists steps :: Follows(s, steps, h) && Execute(s, steps) == Some(t)
  }

  lemma {:induction false} FollowsSplits(s: System, front: seq<Step>, back: seq<Step>, h: Hypotheses)
    ensures Follows(s, front, h) ==> Execute(s, front).Some?
    ensures Follows(s, front + back, h) <==> Follows(s, front, h) && Follows(Execute(s, front).value, back, h)
    decreases |front|
  {
    hide Apply, Enabled, Assumed;
    if front == [] {
      assert front + back == back;
    } else {
      assert (front + back)[1..] == front[1..] + back;
      if Enabled(s, front[0]) { FollowsSplits(Apply(s, front[0]), front[1..], back, h); }
    }
  }

  lemma LeadsNowhere(s: System, h: Hypotheses)
    ensures Leads(s, s, h)
  {
    assert Follows(s, [], h) && Execute(s, []) == Some(s);
  }

  lemma LeadsStep(s: System, t: System, step: Step, h: Hypotheses)
    requires Leads(s, t, h) && Enabled(t, step) && Assumed(t, step, h)
    ensures Leads(s, Apply(t, step), h)
  {
    hide Apply, Enabled, Assumed;
    var steps :| Follows(s, steps, h) && Execute(s, steps) == Some(t);
    FollowsSplits(s, steps, [step], h);
    ExecuteSplits(s, steps, [step]);
    Execute1(t, step);
    assert [step][1..] == [];
    assert Follows(s, steps + [step], h) && Execute(s, steps + [step]) == Some(Apply(t, step));
  }

  lemma LeadsOn(s: System, t: System, u: System, h: Hypotheses)
    requires Leads(s, t, h) && Leads(t, u, h)
    ensures Leads(s, u, h)
  {
    hide Execute, Follows;
    var xs :| Follows(s, xs, h) && Execute(s, xs) == Some(t);
    var ys :| Follows(t, ys, h) && Execute(t, ys) == Some(u);
    FollowsSplits(s, xs, ys, h);
    ExecuteSplits(s, xs, ys);
    assert Follows(s, xs + ys, h) && Execute(s, xs + ys) == Some(u);
  }

  /** The runs that begin with a given run are its continuations. */
  lemma {:induction false} RunContinues(steps: seq<Step>, more: seq<Step>, h: Hypotheses)
    requires IsRun(steps, h)
    ensures IsRun(steps + more, h) <==> Follows(End(steps), more, h)
    ensures IsRun(steps + more, h) ==> After(steps + more) == Execute(End(steps), more)
    decreases |more|
  {
    hide Apply, Enabled, Assumed;
    var s := End(steps);
    if more == [] {
      assert steps + more == steps;
    } else {
      var front, last := more[..|more| - 1], more[|more| - 1];
      RunContinues(steps, front, h);
      FollowsSplits(s, front, [last], h);
      ExecuteSplits(s, front, [last]);
      assert front + [last] == more && [last][1..] == [];
      assert (steps + more)[..|steps + more| - 1] == steps + front;
    }
  }
}
