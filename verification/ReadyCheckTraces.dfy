/** Runs with their actions, and ways from one state to another. */
module ReadyCheckTraces {
  import opened ReadyCheck
  import opened ReadyCheckInvariant
  import opened ReadyCheckPool
  import opened ReadyCheckGuarantees

  // ------------------------------------------------------------------
  // Runs with their actions
  // ------------------------------------------------------------------

  /** A run, and the action each step of it took. */
  ghost predicate IsTrace(run: seq<State>, acts: seq<Action>) {
    && |run| == |acts| + 1 && run[0] == INIT
    && forall i | 0 <= i < |acts| :: Took(run, acts, i)
  }

  ghost predicate Took(run: seq<State>, acts: seq<Action>, i: nat)
    requires i < |acts| == |run| - 1
  {
    Enabled(run[i], acts[i]) && run[i + 1] == Apply(run[i], acts[i])
  }

  lemma TracesAreRuns(run: seq<State>, acts: seq<Action>)
    requires IsTrace(run, acts)
    ensures IsRun(run)
  {
    hide Enabled, Apply;
    forall i | 0 <= i < |run| - 1 ensures Next(run[i], run[i + 1]) {
      assert Took(run, acts, i);
    }
  }

  /** Every run has its actions. */
  lemma {:induction false} RunsHaveTraces(run: seq<State>) returns (acts: seq<Action>)
    requires IsRun(run)
    ensures IsTrace(run, acts)
    decreases |run|
  {
    hide Enabled, Apply;
    var n := |run| - 1;
    if n == 0 {
      acts := [];
    } else {
      FrontIsRun(run);
      var before := RunsHaveTraces(run[..n]);
      assert Next(run[n - 1], run[n - 1 + 1]);
      var a :| Enabled(run[n - 1], a) && run[n] == Apply(run[n - 1], a);
      acts := before + [a];
      forall i | 0 <= i < |acts| ensures Took(run, acts, i) {
        if i < n - 1 {
          assert Took(run[..n], before, i);
        }
      }
    }
  }

  lemma FrontIsRun(run: seq<State>)
    requires IsRun(run) && |run| > 1
    ensures IsRun(run[..|run| - 1])
  {
    var front := run[..|run| - 1];
    forall i | 0 <= i < |front| - 1 ensures Next(front[i], front[i + 1]) {
      assert Next(run[i], run[i + 1]);
    }
    hide Next;
  }

  lemma StepOf(run: seq<State>, acts: seq<Action>, i: nat)
    requires IsTrace(run, acts) && i < |acts|
    ensures Inv(run[i]) && Enabled(run[i], acts[i]) && run[i + 1] == Apply(run[i], acts[i])
  {
    hide Enabled, Apply, Inv;
    TracesAreRuns(run, acts);
    RunsOk(run, i);
    assert Took(run, acts, i);
  }

  // ------------------------------------------------------------------
  // Ways from one state to another
  // ------------------------------------------------------------------

  ghost predicate IsPath(path: seq<State>, s: State, t: State) {
    && path != [] && path[0] == s && path[|path| - 1] == t
    && forall i | 0 <= i < |path| - 1 :: Next(path[i], path[i + 1])
  }

  /** Some actions, one after another, lead from `s` to `t`. */
  ghost predicate Leads(s: State, t: State) {
    exists path :: IsPath(path, s, t)
  }

  lemma LeadsNowhere(s: State)
    ensures Leads(s, s)
  {
    assert IsPath([s], s, s);
  }

  lemma LeadsOn(s: State, t: State, a: Action)
    requires Leads(s, t) && Enabled(t, a)
    ensures Leads(s, Apply(t, a))
  {
    hide Enabled, Apply;
    var path :| IsPath(path, s, t);
    var longer := path + [Apply(t, a)];
    forall i | 0 <= i < |longer| - 1 ensures Next(longer[i], longer[i + 1]) {
      if i < |path| - 1 {
        assert Next(path[i], path[i + 1]);
      } else {
        assert longer[i] == t && longer[i + 1] == Apply(t, a);
      }
    }
    assert IsPath(longer, s, Apply(t, a));
  }

  lemma {:induction false} PathReachable(path: seq<State>, i: nat)
    requires path != [] && Reachable(path[0]) && i < |path|
    requires forall j | 0 <= j < |path| - 1 :: Next(path[j], path[j + 1])
    ensures Reachable(path[i])
  {
    hide Reachable, Enabled, Apply;
    if i > 0 {
      PathReachable(path, i - 1);
      assert Next(path[i - 1], path[i - 1 + 1]);
      var a :| Enabled(path[i - 1], a) && path[i] == Apply(path[i - 1], a);
      ReachableNext(path[i - 1], a);
    }
  }

  lemma LeadsReachable(s: State, t: State)
    requires Reachable(s) && Leads(s, t)
    ensures Reachable(t)
  {
    hide Reachable, Next;
    var path :| IsPath(path, s, t);
    PathReachable(path, |path| - 1);
  }
}
