/** Runs with all their states, for laws about what happens between two steps. */
module ChannelTraces {
  import opened Channel

  ghost predicate StepAt(c: Params, states: seq<State>, steps: seq<Step>, k: nat)
    requires |states| == |steps| + 1 && k < |steps|
  {
    Enabled(c, states[k], steps[k]) && states[k + 1] == Apply(c, states[k], steps[k])
  }

  /** The steps lead from each state to the next, starting from the initial one. */
  ghost predicate Trace(c: Params, states: seq<State>, steps: seq<Step>) {
    && |states| == |steps| + 1 && states[0] == Init(c)
    && forall k :: 0 <= k < |steps| ==> StepAt(c, states, steps, k)
  }

  /** Every run has its trace. */
  lemma {:induction false} TraceOf(c: Params, steps: seq<Step>, s: State) returns (states: seq<State>)
    requires Run(c, Init(c), steps, s)
    ensures Trace(c, states, steps) && states[|steps|] == s
  {
    if steps == [] {
      states := [s];
    } else {
      var n := |steps| - 1;
      var m :| Run(c, Init(c), steps[..n], m) && Enabled(c, m, steps[n]) && s == Apply(c, m, steps[n]);
      var before := TraceOf(c, steps[..n], m);
      states := before + [s];
      forall k | 0 <= k < |steps|
        ensures StepAt(c, states, steps, k)
      {
        assert k < n ==> StepAt(c, before, steps[..n], k);
      }
    }
  }

  lemma {:induction false} ReachesNext(c: Params, s: State, e: Step, t: State)
    requires Reachable(c, s) && Enabled(c, s, e) && t == Apply(c, s, e)
    ensures Reachable(c, t)
  {
    var steps :| Run(c, Init(c), steps, s);
    var all := steps + [e];
    assert all[..|all| - 1] == steps && all[|all| - 1] == e;
    assert Run(c, Init(c), all, t);
  }

  /** Every state of a trace is reachable. */
  lemma {:induction false} StatesReachable(c: Params, states: seq<State>, steps: seq<Step>, k: nat)
    requires Trace(c, states, steps) && k <= |steps|
    ensures Reachable(c, states[k])
  {
    if k == 0 {
      assert Run(c, Init(c), [], states[0]);
    } else {
      StatesReachable(c, states, steps, k - 1);
      assert StepAt(c, states, steps, k - 1);
      ReachesNext(c, states[k - 1], steps[k - 1], states[k]);
    }
  }
}
