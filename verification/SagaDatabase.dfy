/** The database that the imperative code works on, with the run that has led to its state. */
module SagaDatabase {
  import opened Saga
  import opened SagaInvariant
  import opened SagaSteps

  /** The states and steps of a run. */
  datatype Trace = Trace(states: seq<State>, steps: seq<Step>)

  /** A trace that has grown, step by step, from an earlier one. */
  ghost predicate Extends(before: Trace, after: Trace)
    decreases |after.steps|
  {
    before == after
    || (after.steps != [] && after.states != []
        && Extends(before, Trace(after.states[..|after.states| - 1], after.steps[..|after.steps| - 1])))
  }

  lemma {:induction false} ExtendsByOne(trace: Trace, state: State, step: Step)
    ensures Extends(trace, Trace(trace.states + [state], trace.steps + [step]))
  {
    var after := Trace(trace.states + [state], trace.steps + [step]);
    assert after.states[..|after.states| - 1] == trace.states && after.steps[..|after.steps| - 1] == trace.steps;
  }

  lemma {:induction false} ExtendsOn(a: Trace, b: Trace, c: Trace)
    requires Extends(a, b) && Extends(b, c)
    ensures Extends(a, c)
    decreases |c.steps|
  {
    if b != c {
      ExtendsOn(a, b, Trace(c.states[..|c.states| - 1], c.steps[..|c.steps| - 1]));
    }
  }

  lemma {:induction false} ExtendsIsPrefix(before: Trace, after: Trace)
    requires Extends(before, after)
    ensures before.states <= after.states && before.steps <= after.steps
    decreases |after.steps|
  {
    if before != after {
      ExtendsIsPrefix(before, Trace(after.states[..|after.states| - 1], after.steps[..|after.steps| - 1]));
    }
  }

  /** The database, with the run that has led to its state. */
  class Database {
    const env: Env
    var state: State
    ghost var trace: Trace

    ghost predicate Valid()
      reads this
    {
      IsRun(env, trace.states, trace.steps) && state == trace.states[|trace.steps|] && Inv(env, state)
    }

    constructor (env: Env)
      ensures this.env == env && Valid() && state == INITIAL && trace == Trace([INITIAL], [])
    {
      this.env, state, trace := env, INITIAL, Trace([INITIAL], []);
    }

    method Take(step: Step)
      requires Valid() && Enabled(state, step)
      modifies this
      ensures Valid() && state == Apply(env, old(state), step)
      ensures Extends(old(trace), trace)
    {
      StepKeepsInv(env, state, step);
      ghost var before := trace;
      state := Apply(env, state, step);
      trace := Trace(trace.states + [state], trace.steps + [step]);
      RunGrows(env, before.states, before.steps, step);
      ExtendsByOne(before, state, step);
    }
  }

  lemma {:induction false} RunGrows(env: Env, states: seq<State>, steps: seq<Step>, step: Step)
    requires IsRun(env, states, steps) && Enabled(states[|steps|], step)
    ensures IsRun(env, states + [Apply(env, states[|steps|], step)], steps + [step])
  {
    hide Apply, Enabled;
  }
}
