/** Runs of a machine given by its step function. */
module Runs {

  /** Step `i` of a run leads from state `i` to state `i + 1`. */
  ghost predicate StepAt<S(!new), E(!new)>(step: (S, E) -> S, run: seq<E>, st: seq<S>, i: nat) {
    i < |run| && |st| == |run| + 1 && st[i + 1] == step(st[i], run[i])
  }

  /** `st` are the states that `run` goes through from `init`. */
  ghost predicate IsRun<S(!new), E(!new)>(step: (S, E) -> S, init: S, run: seq<E>, st: seq<S>) {
    && |st| == |run| + 1 && st[0] == init
    && forall i: nat {:trigger StepAt(step, run, st, i)} :: i < |run| ==> StepAt(step, run, st, i)
  }

  /** The state after the first `n` events. */
  ghost function StateAt<S, E>(step: (S, E) -> S, init: S, run: seq<E>, n: nat): S
    requires n <= |run|
  {
    if n == 0 then init else step(StateAt(step, init, run, n - 1), run[n - 1])
  }

  /** It is the state a run goes through. */
  lemma {:induction false} StatesAreStateAt<S(!new), E(!new)>(step: (S, E) -> S, init: S, run: seq<E>, st: seq<S>,
                                                              n: nat)
    requires IsRun(step, init, run, st) && n <= |run|
    ensures st[n] == StateAt(step, init, run, n)
  {
    if n > 0 {
      StatesAreStateAt(step, init, run, st, n - 1);
      assert StepAt(step, run, st, n - 1);
    }
  }

  /** Later events do not change earlier states. */
  lemma {:induction false} StatePrefix<S, E>(step: (S, E) -> S, init: S, run: seq<E>, more: seq<E>, n: nat)
    requires n <= |run|
    ensures StateAt(step, init, run + more, n) == StateAt(step, init, run, n)
  {
    if n > 0 {
      StatePrefix(step, init, run, more, n - 1);
    }
  }

  /** Every run can go on with any event. */
  lemma Extend<S(!new), E(!new)>(step: (S, E) -> S, init: S, run: seq<E>, st: seq<S>, e: E)
    returns (run': seq<E>, st': seq<S>)
    requires IsRun(step, init, run, st)
    ensures IsRun(step, init, run', st') && run' == run + [e] && st' == st + [step(st[|run|], e)]
  {
    run', st' := run + [e], st + [step(st[|run|], e)];
    forall i: nat | i < |run'|
      ensures StepAt(step, run', st', i)
    {
      if i < |run| {
        assert StepAt(step, run, st, i);
      }
    }
  }

  /** Every event sequence is a run. */
  lemma {:induction false} RunExists<S(!new), E(!new)>(step: (S, E) -> S, init: S, run: seq<E>) returns (st: seq<S>)
    ensures IsRun(step, init, run, st)
  {
    if run == [] {
      st := [init];
    } else {
      var before := RunExists(step, init, run[..|run| - 1]);
      var run';
      run', st := Extend(step, init, run[..|run| - 1], before, run[|run| - 1]);
      assert run' == run;
    }
  }
}
