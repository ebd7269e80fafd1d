/** What the plan runner guarantees: retry counting, backoff, abort and ordering. */
module ExecutorProperties {
  import opened Wrappers
  import opened Values
  import opened Planner
  import opened Executor

  // ---------------------------------------------------------------------------
  // Registry

  /** For each name among `defs`, the last definition of that name. */
  function LastDefs(defs: seq<SkillDefinition>): (m: map<string, SkillDefinition>)
    ensures forall k :: 0 <= k < |defs| ==> defs[k].name in m
    decreases |defs|
  {
    if defs == [] then map[]
    else LastDefs(defs[..|defs| - 1])[defs[|defs| - 1].name := defs[|defs| - 1]]
  }

  /** After registering `defs`, each of their names maps to its last definition; other names are untouched. */
  lemma {:induction false} RegisterAllSkills(t: RegistryTable, defs: seq<SkillDefinition>)
    ensures RegisterAll(t, defs).skills == t.skills + LastDefs(defs)
    decreases |defs|
  {
    if defs != [] {
      var init, d := defs[..|defs| - 1], defs[|defs| - 1];
      RegisterAllSkills(t, init);
      var lhs := RegisterAll(t, init).skills[d.name := d];
      var rhs := t.skills + LastDefs(init)[d.name := d];
      assert lhs.Keys == rhs.Keys;
      forall n | n in lhs
        ensures lhs[n] == rhs[n]
      {
      }
      assert RegisterAll(t, defs).skills == lhs;
    }
  }

  /** The names of a list of definitions, in order. */
  function NamesOf(defs: seq<SkillDefinition>): (r: seq<string>)
    ensures |r| == |defs| && forall k :: 0 <= k < |defs| ==> r[k] == defs[k].name
  {
    seq(|defs|, k requires 0 <= k < |defs| => defs[k].name)
  }

  /** After registering `defs`, the registered names are the old ones and theirs, and no others. */
  lemma {:induction false} RegisterAllKeys(t: RegistryTable, defs: seq<SkillDefinition>)
    ensures forall n :: n in RegisterAll(t, defs).skills <==> n in t.skills || n in NamesOf(defs)
    decreases |defs|
  {
    if defs != [] {
      var init := defs[..|defs| - 1];
      RegisterAllKeys(t, init);
      assert NamesOf(defs) == NamesOf(init) + [defs[|defs| - 1].name];
    }
  }

  /** Registering names that are all present already leaves the listing order as it was. */
  lemma {:induction false} RegisterAllKeepsOrder(t: RegistryTable, defs: seq<SkillDefinition>)
    requires forall k :: 0 <= k < |defs| ==> defs[k].name in t.skills
    ensures RegisterAll(t, defs).names == t.names
    decreases |defs|
  {
    if defs != [] {
      RegisterAllKeepsOrder(t, defs[..|defs| - 1]);
      RegisterAllSkills(t, defs[..|defs| - 1]);
    }
  }

  /** Registering the same definitions twice leaves the registry as registering them once. */
  lemma RegisterAllIdempotent(t: RegistryTable, defs: seq<SkillDefinition>)
    ensures RegisterAll(RegisterAll(t, defs), defs) == RegisterAll(t, defs)
  {
    var once := RegisterAll(t, defs);
    RegisterAllSkills(t, defs);
    RegisterAllSkills(once, defs);
    assert forall k :: 0 <= k < |defs| ==> defs[k].name in once.skills;
    RegisterAllKeepsOrder(once, defs);
    assert (t.skills + LastDefs(defs)) + LastDefs(defs) == t.skills + LastDefs(defs);
  }

  /** With distinct names, every registered definition is what its name maps to. */
  lemma {:induction false} RegisterAllMapsEach(t: RegistryTable, defs: seq<SkillDefinition>, k: nat)
    requires k < |defs|
    requires forall p, q :: 0 <= p < q < |defs| ==> defs[p].name != defs[q].name
    ensures defs[k].name in RegisterAll(t, defs).skills
    ensures RegisterAll(t, defs).skills[defs[k].name] == defs[k]
    decreases |defs|
  {
    if k < |defs| - 1 {
      RegisterAllMapsEach(t, defs[..|defs| - 1], k);
    }
  }

  // ---------------------------------------------------------------------------
  // Backoff

  /** The backoff never shrinks as the attempt number grows. */
  lemma BackoffDelayMonotone(m: int, n: int)
    requires 0 <= m <= n
    ensures BackoffDelay(m) <= BackoffDelay(n)
  {
    assert m * m <= m * n <= n * n;
    assert 200 * m * m <= 200 * n * n;
  }

  /** 200, 800, 1800, then the 2000 cap from the fourth failure on. */
  lemma BackoffDelaySchedule(n: int)
    requires n >= 4
    ensures BackoffDelay(1) == 200 && BackoffDelay(2) == 800 && BackoffDelay(3) == 1800
    ensures BackoffDelay(n) == 2000
  {
    assert n * n >= 4 * n >= 16;
    assert 200 * n * n >= 3200;
  }

  // ---------------------------------------------------------------------------
  // Reading the event log

  /** The attempt numbers of the invocations in the log, in order. */
  function Attempts(log: seq<Event>): (r: seq<int>)
    ensures |r| <= |log|
  {
    if log == [] then []
    else (if log[0].Attempted? then [log[0].attempt] else []) + Attempts(log[1..])
  }

  /** The waits in the log, in order. */
  function Delays(log: seq<Event>): (r: seq<int>)
    ensures |r| <= |log|
  {
    if log == [] then []
    else (if log[0].Slept? then [log[0].ms] else []) + Delays(log[1..])
  }

  /** `from, from + 1, ..., to`. */
  function Range(from: int, to: int): (r: seq<int>)
    requires from <= to + 1
  {
    seq(to - from + 1, j requires 0 <= j < to - from + 1 => from + j)
  }

  /** The waits after failed attempts `from..to - 1`. */
  function Backoffs(from: int, to: int): (r: seq<int>)
    requires from <= to
  {
    seq(to - from, j requires 0 <= j < to - from => BackoffDelay(from + j))
  }

  lemma {:induction false} AttemptsConcat(a: seq<Event>, b: seq<Event>)
    ensures Attempts(a + b) == Attempts(a) + Attempts(b)
    ensures Delays(a + b) == Delays(a) + Delays(b)
  {
    AttemptsOfConcat(a, b);
    DelaysOfConcat(a, b);
  }

  lemma {:induction false} AttemptsOfConcat(a: seq<Event>, b: seq<Event>)
    ensures Attempts(a + b) == Attempts(a) + Attempts(b)
    decreases |a|
  {
    if a == [] {
      assert a + b == b;
    } else {
      var head := if a[0].Attempted? then [a[0].attempt] else [];
      assert (a + b)[0] == a[0];
      assert (a + b)[1..] == a[1..] + b;
      AttemptsOfConcat(a[1..], b);
      assert Attempts(a + b) == head + (Attempts(a[1..]) + Attempts(b));
      assert head + (Attempts(a[1..]) + Attempts(b)) == (head + Attempts(a[1..])) + Attempts(b);
    }
  }

  lemma {:induction false} DelaysOfConcat(a: seq<Event>, b: seq<Event>)
    ensures Delays(a + b) == Delays(a) + Delays(b)
    decreases |a|
  {
    if a == [] {
      assert a + b == b;
    } else {
      var head := if a[0].Slept? then [a[0].ms] else [];
      assert (a + b)[0] == a[0];
      assert (a + b)[1..] == a[1..] + b;
      DelaysOfConcat(a[1..], b);
      assert Delays(a + b) == head + (Delays(a[1..]) + Delays(b));
      assert head + (Delays(a[1..]) + Delays(b)) == (head + Delays(a[1..])) + Delays(b);
    }
  }

  /** The invocation at position `k` of the log is of step `i`, within `from..cap`, and was not aborted. */
  ghost predicate AttemptEventOk(e: Event, i: nat, from: int, cap: int, options: RunOptions) {
    e.Attempted? ==> e.step == i && from <= e.attempt <= cap && !AbortedBefore(options, i, e.attempt)
  }

  // ---------------------------------------------------------------------------
  // One step

  /**
   * Every invocation of one step's attempt loop is of that step, numbered
   * within the cap and not vetoed by the signal; a step that ends in an
   * execution error ends with its cap-th attempt failing with that cause.
   */
  lemma {:induction false} AttemptsShape(def: SkillDefinition, rc: RunContext, i: nat, cap: int, attempt: int, state: State)
    requires i < |rc.plan.steps| && 1 <= attempt
    ensures var (end, log) := RunAttempts(def, rc, i, cap, attempt, state);
      && (forall k :: 0 <= k < |log| ==> AttemptEventOk(log[k], i, attempt, cap, rc.options))
      && (end.Stopped? ==> end.error.AbortError? || end.error.ExecutionError?)
      && (end.Stopped? && end.error.ExecutionError? ==>
            && end.error.step == rc.plan.steps[i]
            && end.error.attempt == cap
            && |log| > 0 && log[|log| - 1] == Attempted(i, cap, Some(end.error.cause)))
    decreases if attempt <= cap then cap - attempt + 1 else 0
  {
    var step := rc.plan.steps[i];
    if attempt <= cap && !AbortedBefore(rc.options, i, attempt) {
      var out := def.run(step.args, SkillContext(rc.request, rc.plan, step, attempt, cap, state));
      if out.Failed? && attempt < cap {
        AttemptsShape(def, rc, i, cap, attempt + 1, out.state);
        var (end, rest) := RunAttempts(def, rc, i, cap, attempt + 1, out.state);
        var log := [Attempted(i, attempt, Some(out.cause)), Slept(BackoffDelay(attempt))] + rest;
        assert RunAttempts(def, rc, i, cap, attempt, state) == (end, log);
        forall k | 0 <= k < |log|
          ensures AttemptEventOk(log[k], i, attempt, cap, rc.options)
        {
          if k >= 2 {
            assert log[k] == rest[k - 2];
          }
        }
        if end.Stopped? && end.error.ExecutionError? {
          assert log[|log| - 1] == rest[|rest| - 1];
        }
      }
    }
  }

  /**
   * On the contexts the run builds for step `i`, the handler fails on
   * attempts `1..k - 1` and succeeds on attempt `k`, whatever the state.
   */
  ghost predicate SucceedsFirstAt(run: SkillHandler, rc: RunContext, i: nat, cap: int, k: int)
    requires i < |rc.plan.steps|
  {
    forall a: int, s: State :: 1 <= a <= k ==> (run(rc.plan.steps[i].args, SkillContext(rc.request, rc.plan, rc.plan.steps[i], a, cap, s)).Succeeded? <==> a == k)
  }

  /** The signal stays clear before attempts `from..to` of step `i`. */
  ghost predicate NotAbortedBetween(options: RunOptions, i: nat, from: int, to: int) {
    forall a: nat :: from <= a <= to ==> !AbortedBefore(options, i, a)
  }

  /**
   * A handler that first succeeds on attempt `k <= cap` is invoked exactly
   * for attempts `1..k`, and the waits between them are
   * `backoffDelay(1)..backoffDelay(k - 1)`, none before the first attempt.
   */
  lemma {:induction false} SucceedsOnAttempt(def: SkillDefinition, rc: RunContext, i: nat, cap: int, k: int, from: int, state: State)
    requires i < |rc.plan.steps| && 1 <= from <= k <= cap
    requires SucceedsFirstAt(def.run, rc, i, cap, k)
    requires NotAbortedBetween(rc.options, i, from, k)
    ensures var (end, log) := RunAttempts(def, rc, i, cap, from, state);
      end.Finished? && Attempts(log) == Range(from, k) && Delays(log) == Backoffs(from, k)
      && (|log| > 0 && log[0].Attempted?)
    decreases k - from
  {
    var step := rc.plan.steps[i];
    var ctx := SkillContext(rc.request, rc.plan, step, from, cap, state);
    var out := def.run(step.args, ctx);
    assert !AbortedBefore(rc.options, i, from);
    if from == k {
      assert out.Succeeded?;
      var log := [Attempted(i, from, None)];
      assert Attempts(log) == [from] + Attempts([]);
      assert Delays(log) == Delays([]);
    } else {
      assert out.Failed?;
      SucceedsOnAttempt(def, rc, i, cap, k, from + 1, out.state);
      var (end, rest) := RunAttempts(def, rc, i, cap, from + 1, out.state);
      var head := [Attempted(i, from, Some(out.cause)), Slept(BackoffDelay(from))];
      assert RunAttempts(def, rc, i, cap, from, state) == (end, head + rest);
      AttemptsConcat(head, rest);
      assert Attempts(head) == [from] + Attempts(head[1..]);
      assert Attempts(head[1..]) == Attempts([]);
      assert Delays(head) == [] + Delays(head[1..]);
      assert Delays(head[1..]) == [BackoffDelay(from)] + Delays([]);
      assert Range(from, k) == [from] + Range(from + 1, k);
      assert Backoffs(from, k) == [BackoffDelay(from)] + Backoffs(from + 1, k);
    }
  }

  /**
   * On the contexts the run builds for step `i` under the cap `cap`, the
   * handler fails on every attempt `1..upTo`, whatever the state.
   */
  ghost predicate FailsThrough(run: SkillHandler, rc: RunContext, i: nat, cap: int, upTo: int)
    requires i < |rc.plan.steps|
  {
    forall a: int, s: State :: 1 <= a <= upTo ==> run(rc.plan.steps[i].args, SkillContext(rc.request, rc.plan, rc.plan.steps[i], a, cap, s)).Failed?
  }

  /**
   * A handler failing every attempt up to the cap is invoked for attempts
   * `1..cap` and the step ends in an execution error naming the step, the
   * attempt `cap`, and the cause of that last failure.
   */
  lemma {:induction false} ExhaustsAttempts(def: SkillDefinition, rc: RunContext, i: nat, cap: int, from: int, state: State)
    requires i < |rc.plan.steps| && 1 <= from <= cap
    requires FailsThrough(def.run, rc, i, cap, cap)
    requires NotAbortedBetween(rc.options, i, from, cap)
    ensures var (end, log) := RunAttempts(def, rc, i, cap, from, state);
      && end.Stopped? && end.error.ExecutionError?
      && end.error.step == rc.plan.steps[i] && end.error.attempt == cap
      && |log| > 0 && log[|log| - 1] == Attempted(i, cap, Some(end.error.cause))
      && Attempts(log) == Range(from, cap) && Delays(log) == Backoffs(from, cap)
    decreases cap - from
  {
    var step := rc.plan.steps[i];
    var ctx := SkillContext(rc.request, rc.plan, step, from, cap, state);
    var out := def.run(step.args, ctx);
    assert !AbortedBefore(rc.options, i, from);
    assert out.Failed?;
    if from == cap {
      var log := [Attempted(i, from, Some(out.cause))];
      assert Attempts(log) == [from] + Attempts([]);
      assert Delays(log) == Delays([]);
    } else {
      ExhaustsAttempts(def, rc, i, cap, from + 1, out.state);
      var (end, rest) := RunAttempts(def, rc, i, cap, from + 1, out.state);
      var head := [Attempted(i, from, Some(out.cause)), Slept(BackoffDelay(from))];
      assert RunAttempts(def, rc, i, cap, from, state) == (end, head + rest);
      AttemptsConcat(head, rest);
      assert Attempts(head) == [from] + Attempts(head[1..]);
      assert Attempts(head[1..]) == Attempts([]);
      assert Delays(head) == [] + Delays(head[1..]);
      assert Delays(head[1..]) == [BackoffDelay(from)] + Delays([]);
      assert Range(from, cap) == [from] + Range(from + 1, cap);
      assert Backoffs(from, cap) == [BackoffDelay(from)] + Backoffs(from + 1, cap);
      assert (head + rest)[|head + rest| - 1] == rest[|rest| - 1];
    }
  }

  /** An attempt the signal vetoes is never invoked: the step stops with an abort error and logs nothing more. */
  lemma AbortedAttemptStops(def: SkillDefinition, rc: RunContext, i: nat, cap: int, attempt: int, state: State)
    requires i < |rc.plan.steps| && 1 <= attempt <= cap
    requires AbortedBefore(rc.options, i, attempt)
    ensures RunAttempts(def, rc, i, cap, attempt, state) == (Stopped(AbortError), [])
  {
  }

  /**
   * A handler failing attempts `from..k - 1` whose attempt `k <= cap` is
   * vetoed by the signal: attempts `from..k - 1` are invoked, each followed
   * by its backoff wait, and the step stops with an abort error instead of
   * an execution error.
   */
  lemma {:induction false} AbortDuringRetries(def: SkillDefinition, rc: RunContext, i: nat, cap: int, k: int, from: int, state: State)
    requires i < |rc.plan.steps| && 1 <= from <= k <= cap
    requires FailsThrough(def.run, rc, i, cap, k - 1)
    requires NotAbortedBetween(rc.options, i, from, k - 1)
    requires AbortedBefore(rc.options, i, k)
    ensures RunAttempts(def, rc, i, cap, from, state).0 == Stopped(AbortError)
    ensures Attempts(RunAttempts(def, rc, i, cap, from, state).1) == Range(from, k - 1)
    ensures Delays(RunAttempts(def, rc, i, cap, from, state).1) == Backoffs(from, k)
    decreases k - from
  {
    if from < k {
      var step := rc.plan.steps[i];
      var out := def.run(step.args, SkillContext(rc.request, rc.plan, step, from, cap, state));
      assert !AbortedBefore(rc.options, i, from);
      assert out.Failed?;
      AbortDuringRetries(def, rc, i, cap, k, from + 1, out.state);
      FailedAttemptRetries(def, rc, i, cap, from, state);
      FailedAttemptLog(i, from, out.cause, RunAttempts(def, rc, i, cap, from + 1, out.state).1);
      RangeCons(from, k);
    } else {
      AbortedAttemptStops(def, rc, i, cap, k, state);
      assert Range(from, k - 1) == [];
      assert Backoffs(from, k) == [];
    }
  }

  lemma RangeCons(from: int, to: int)
    requires from < to
    ensures Range(from, to - 1) == [from] + Range(from + 1, to - 1)
    ensures Backoffs(from, to) == [BackoffDelay(from)] + Backoffs(from + 1, to)
  {
  }

  /** A failed attempt below the cap is logged with its wait, then the next attempt runs from the state it left. */
  lemma FailedAttemptRetries(def: SkillDefinition, rc: RunContext, i: nat, cap: int, attempt: int, state: State)
    requires i < |rc.plan.steps| && 1 <= attempt < cap && !AbortedBefore(rc.options, i, attempt)
    requires def.run(rc.plan.steps[i].args, SkillContext(rc.request, rc.plan, rc.plan.steps[i], attempt, cap, state)).Failed?
    ensures var out := def.run(rc.plan.steps[i].args, SkillContext(rc.request, rc.plan, rc.plan.steps[i], attempt, cap, state));
      var next := RunAttempts(def, rc, i, cap, attempt + 1, out.state);
      RunAttempts(def, rc, i, cap, attempt, state) == (next.0, [Attempted(i, attempt, Some(out.cause)), Slept(BackoffDelay(attempt))] + next.1)
  {
  }

  /**
   * A handler that fails attempt 1, leaving the bag as it was, and succeeds
   * on attempt 2 is invoked twice, with the first backoff wait between.
   */
  lemma FailsOnceThenSucceeds(def: SkillDefinition, rc: RunContext, i: nat, cap: int, state: State, cause: string, after: State)
    requires i < |rc.plan.steps| && 2 <= cap
    requires !AbortedBefore(rc.options, i, 1) && !AbortedBefore(rc.options, i, 2)
    requires def.run(rc.plan.steps[i].args, SkillContext(rc.request, rc.plan, rc.plan.steps[i], 1, cap, state)) == Failed(cause, state)
    requires def.run(rc.plan.steps[i].args, SkillContext(rc.request, rc.plan, rc.plan.steps[i], 2, cap, state)) == Succeeded(after)
    ensures RunAttempts(def, rc, i, cap, 1, state) ==
      (Finished(after), [Attempted(i, 1, Some(cause)), Slept(BackoffDelay(1)), Attempted(i, 2, None)])
  {
    FailedAttemptRetries(def, rc, i, cap, 1, state);
    var next := RunAttempts(def, rc, i, cap, 2, state);
    assert next == (Finished(after), [Attempted(i, 2, None)]);
    assert RunAttempts(def, rc, i, cap, 1, state) == (next.0, [Attempted(i, 1, Some(cause)), Slept(BackoffDelay(1))] + next.1);
    assert [Attempted(i, 1, Some(cause)), Slept(BackoffDelay(1))] + next.1 ==
      [Attempted(i, 1, Some(cause)), Slept(BackoffDelay(1)), Attempted(i, 2, None)];
  }

  /** A failed attempt followed by its wait adds one attempt number and one delay in front. */
  lemma FailedAttemptLog(i: nat, attempt: nat, cause: string, rest: seq<Event>)
    ensures Attempts([Attempted(i, attempt, Some(cause)), Slept(BackoffDelay(attempt))] + rest) == [attempt] + Attempts(rest)
    ensures Delays([Attempted(i, attempt, Some(cause)), Slept(BackoffDelay(attempt))] + rest) == [BackoffDelay(attempt)] + Delays(rest)
  {
    var head := [Attempted(i, attempt, Some(cause)), Slept(BackoffDelay(attempt))];
    AttemptsConcat(head, rest);
    assert Attempts(head) == [attempt] + Attempts(head[1..]);
    assert Attempts(head[1..]) == Attempts([]);
    assert Delays(head) == [] + Delays(head[1..]);
    assert Delays(head[1..]) == [BackoffDelay(attempt)] + Delays([]);
  }

  /** A step stops with an abort error only when the signal vetoed one of its attempts within the cap. */
  lemma {:induction false} AbortStopNeedsVeto(def: SkillDefinition, rc: RunContext, i: nat, cap: int, attempt: int, state: State)
    requires i < |rc.plan.steps| && 1 <= attempt
    requires RunAttempts(def, rc, i, cap, attempt, state).0 == Stopped(AbortError)
    ensures exists a: nat :: attempt <= a <= cap && AbortedBefore(rc.options, i, a)
    decreases if attempt <= cap then cap - attempt + 1 else 0
  {
    var step := rc.plan.steps[i];
    if !AbortedBefore(rc.options, i, attempt) {
      var out := def.run(step.args, SkillContext(rc.request, rc.plan, step, attempt, cap, state));
      AbortStopNeedsVeto(def, rc, i, cap, attempt + 1, out.state);
    }
  }

  /** A resolved cap of 0 (or less) runs no attempt: the step is passed over with the state untouched. */
  lemma ZeroCapSkipsStep(skills: map<string, SkillDefinition>, rc: RunContext, i: nat, state: State)
    requires i < |rc.plan.steps| && rc.plan.steps[i].use in skills
    requires ResolveMaxAttempts(skills[rc.plan.steps[i].use].maxAttempts, rc.options.maxAttempts) <= 0
    ensures RunSteps(skills, rc, i, state) == RunSteps(skills, rc, i + 1, state)
  {
    PrefixedNil(RunSteps(skills, rc, i + 1, state));
  }

  /** The skill's own cap wins, even when it is 0; then the run option; then 3. */
  lemma MaxAttemptsPrecedence(skillCap: Option<int>, optionCap: Option<int>)
    ensures skillCap.Some? ==> ResolveMaxAttempts(skillCap, optionCap) == skillCap.value
    ensures skillCap.None? && optionCap.Some? ==> ResolveMaxAttempts(skillCap, optionCap) == optionCap.value
    ensures skillCap.None? && optionCap.None? ==> ResolveMaxAttempts(skillCap, optionCap) == 3
  {
  }

  // ---------------------------------------------------------------------------
  // The whole plan

  /** Invocation step indices never go down along the log. */
  ghost predicate InPlanOrder(log: seq<Event>) {
    forall p, q :: 0 <= p < q < |log| && log[p].Attempted? && log[q].Attempted? ==> log[p].step <= log[q].step
  }

  /** Every invocation is of a step in `lo..hi`, with attempt at least 1, not vetoed by the signal. */
  ghost predicate InvocationsWithin(log: seq<Event>, lo: nat, hi: nat, options: RunOptions) {
    forall k :: 0 <= k < |log| && log[k].Attempted? ==>
      lo <= log[k].step <= hi && 1 <= log[k].attempt && !AbortedBefore(options, log[k].step, log[k].attempt)
  }

  lemma StepLogWithin(def: SkillDefinition, rc: RunContext, i: nat, state: State)
    requires i < |rc.plan.steps|
    ensures InvocationsWithin(RunStep(def, rc, i, state).1, i, i, rc.options)
  {
    AttemptsShape(def, rc, i, ResolveMaxAttempts(def.maxAttempts, rc.options.maxAttempts), 1, state);
  }

  lemma ConcatInPlanOrder(a: seq<Event>, b: seq<Event>, i: nat, hi: nat, options: RunOptions)
    requires i <= hi
    requires InvocationsWithin(a, i, i, options)
    requires InvocationsWithin(b, i + 1, hi, options) && InPlanOrder(b)
    ensures InPlanOrder(a + b) && InvocationsWithin(a + b, i, hi, options)
  {
    var c := a + b;
    forall p, q | 0 <= p < q < |c| && c[p].Attempted? && c[q].Attempted?
      ensures c[p].step <= c[q].step
    {
      if q < |a| {
        assert c[p] == a[p] && c[q] == a[q];
      } else if p < |a| {
        assert c[p] == a[p] && c[q] == b[q - |a|];
      } else {
        assert c[p] == b[p - |a|] && c[q] == b[q - |a|];
      }
    }
    forall k | 0 <= k < |c| && c[k].Attempted?
      ensures i <= c[k].step <= hi && 1 <= c[k].attempt && !AbortedBefore(options, c[k].step, c[k].attempt)
    {
      if k < |a| { assert c[k] == a[k]; } else { assert c[k] == b[k - |a|]; }
    }
  }

  /**
   * Steps run in plan order, and a halted run invokes nothing after the step
   * that halted it: that step's index bounds every invocation in the log.
   */
  lemma {:induction false} StepsInOrder(skills: map<string, SkillDefinition>, rc: RunContext, i: nat, state: State)
    requires i <= |rc.plan.steps|
    ensures var (end, log) := RunSteps(skills, rc, i, state);
      && InPlanOrder(log)
      && (end.AllDone? ==> InvocationsWithin(log, i, |rc.plan.steps|, rc.options))
      && (end.Halted? ==> i <= end.at < |rc.plan.steps| && InvocationsWithin(log, i, end.at, rc.options))
    decreases |rc.plan.steps| - i
  {
    if i < |rc.plan.steps| && rc.plan.steps[i].use in skills {
      var def := skills[rc.plan.steps[i].use];
      var (end, log) := RunStep(def, rc, i, state);
      StepLogWithin(def, rc, i, state);
      if end.Stopped? {
        assert RunSteps(skills, rc, i, state) == (Halted(i, end.error), log);
      } else {
        StepsInOrder(skills, rc, i + 1, end.state);
        var (end2, rest) := RunSteps(skills, rc, i + 1, end.state);
        assert RunSteps(skills, rc, i, state) == (end2, log + rest);
        var hi := if end2.AllDone? then |rc.plan.steps| else end2.at;
        ConcatInPlanOrder(log, rest, i, hi, rc.options);
      }
    }
  }

  /**
   * What halts a run at step `at`: an unregistered skill (attempt 0, no
   * invocation of that step), an exhausted cap (the step's last invocation
   * failed with the recorded cause), or the abort signal.
   */
  lemma {:induction false} HaltReason(skills: map<string, SkillDefinition>, rc: RunContext, i: nat, state: State)
    requires i <= |rc.plan.steps|
    ensures var (end, log) := RunSteps(skills, rc, i, state);
      end.Halted? ==>
        && end.at < |rc.plan.steps|
        && (end.error.AbortError? || end.error.ExecutionError?)
        && (end.error.ExecutionError? ==>
              && end.error.step == rc.plan.steps[end.at]
              && end.error.attempt >= 0
              && (end.error.attempt == 0 <==> rc.plan.steps[end.at].use !in skills)
              && (end.error.attempt == 0 ==>
                    end.error.cause == NoSkillMessage(rc.plan.steps[end.at].use) &&
                    forall k :: 0 <= k < |log| && log[k].Attempted? ==> log[k].step < end.at)
              && (end.error.attempt > 0 ==>
                    |log| > 0 && log[|log| - 1] == Attempted(end.at, end.error.attempt, Some(end.error.cause))))
    decreases |rc.plan.steps| - i
  {
    StepsInOrder(skills, rc, i, state);
    if i < |rc.plan.steps| {
      if rc.plan.steps[i].use in skills {
        var def := skills[rc.plan.steps[i].use];
        var cap := ResolveMaxAttempts(def.maxAttempts, rc.options.maxAttempts);
        AttemptsShape(def, rc, i, cap, 1, state);
        var (end, log) := RunStep(def, rc, i, state);
        if end.Finished? {
          HaltReason(skills, rc, i + 1, end.state);
          StepsInOrder(skills, rc, i + 1, end.state);
          var (end2, rest) := RunSteps(skills, rc, i + 1, end.state);
          assert RunSteps(skills, rc, i, state) == (end2, log + rest);
          if end2.Halted? && end2.error.ExecutionError? {
            if end2.error.attempt == 0 {
              StepLogWithin(def, rc, i, state);
              forall k | 0 <= k < |log + rest| && (log + rest)[k].Attempted?
                ensures (log + rest)[k].step < end2.at
              {
                if k < |log| { assert (log + rest)[k] == log[k]; } else { assert (log + rest)[k] == rest[k - |log|]; }
              }
            } else {
              assert (log + rest)[|log + rest| - 1] == rest[|rest| - 1];
            }
          }
        }
      }
    }
  }

  /**
   * While a step of the plan names an unregistered skill, the plan cannot
   * complete: the run halts at that step or earlier, and if at that step,
   * with attempt 0.
   */
  lemma {:induction false} MissingSkillBlocksCompletion(skills: map<string, SkillDefinition>, rc: RunContext, i: nat, m: nat, state: State)
    requires i <= m < |rc.plan.steps| && rc.plan.steps[m].use !in skills
    ensures var end := RunSteps(skills, rc, i, state).0;
      end.Halted? && end.at <= m &&
      (end.at == m ==> end.error == ExecutionError(rc.plan.steps[m], 0, NoSkillMessage(rc.plan.steps[m].use)))
    decreases m - i
  {
    if i < m && rc.plan.steps[i].use in skills {
      var (end, log) := RunStep(skills[rc.plan.steps[i].use], rc, i, state);
      if end.Finished? {
        MissingSkillBlocksCompletion(skills, rc, i + 1, m, end.state);
      }
    }
  }

  /** An already-aborted signal ends the run before any plan is built or any step invoked. */
  lemma AbortOnEntry(skills: map<string, SkillDefinition>, request: TaskRequest, options: RunOptions, now: string)
    requires AbortedOnEntry(options)
    ensures RunSpec(skills, request, options, now) == (Threw(AbortError), [])
  {
  }

  /**
   * A completed run returns the plan it ran (the override when one is given)
   * with the state bag grown from empty; the steps ran in plan order and no
   * attempt the signal vetoed was invoked.
   */
  lemma CompletedRun(skills: map<string, SkillDefinition>, request: TaskRequest, options: RunOptions, now: string)
    requires RunSpec(skills, request, options, now).0.Completed?
    ensures var (outcome, log) := RunSpec(skills, request, options, now);
      && !AbortedOnEntry(options)
      && PlanFor(request, options, now) == Success(outcome.plan)
      && (options.planOverride.Some? ==> outcome.plan == options.planOverride.value)
      && (options.planOverride.None? ==> |outcome.plan.steps| > 0)
      && RunSteps(skills, RunContext(request, options, outcome.plan), 0, map[]) == (AllDone(outcome.state), log)
      && InPlanOrder(log)
      && InvocationsWithin(log, 0, |outcome.plan.steps|, options)
  {
    var plan := PlanFor(request, options, now).value;
    StepsInOrder(skills, RunContext(request, options, plan), 0, map[]);
  }

  /**
   * A run that throws an execution error names a step of its plan; every
   * invocation in the log is of that step or an earlier one, and for attempt
   * `a > 0` the last invocation is attempt `a` of that step, failing with the
   * error's cause.
   */
  lemma ExecutionErrorIsLast(skills: map<string, SkillDefinition>, request: TaskRequest, options: RunOptions, now: string)
    requires RunSpec(skills, request, options, now).0.Threw?
    requires RunSpec(skills, request, options, now).0.error.ExecutionError?
    ensures var (outcome, log) := RunSpec(skills, request, options, now);
      var plan := PlanFor(request, options, now).value;
      PlanFor(request, options, now).Success? &&
      exists at :: 0 <= at < |plan.steps| && plan.steps[at] == outcome.error.step &&
        InvocationsWithin(log, 0, at, options) &&
        (outcome.error.attempt > 0 ==> |log| > 0 && log[|log| - 1] == Attempted(at, outcome.error.attempt, Some(outcome.error.cause)))
  {
    var plan := PlanFor(request, options, now).value;
    var rc := RunContext(request, options, plan);
    StepsInOrder(skills, rc, 0, map[]);
    HaltReason(skills, rc, 0, map[]);
    var end := RunSteps(skills, rc, 0, map[]).0;
    assert end.Halted?;
    var at := end.at;
    assert plan.steps[at] == RunSpec(skills, request, options, now).0.error.step;
  }

  /**
   * The abort check before an attempt is the only other way a registered step
   * halts the run: when its handler fails attempts `1..k - 1` and the signal
   * vetoes attempt `k` within the cap, the run halts at that step with an
   * abort error after invoking exactly attempts `1..k - 1` of it.
   */
  lemma VetoHaltsRun(skills: map<string, SkillDefinition>, rc: RunContext, i: nat, k: int, state: State)
    requires i < |rc.plan.steps| && rc.plan.steps[i].use in skills
    requires 1 <= k <= ResolveMaxAttempts(skills[rc.plan.steps[i].use].maxAttempts, rc.options.maxAttempts)
    requires FailsThrough(skills[rc.plan.steps[i].use].run, rc, i, ResolveMaxAttempts(skills[rc.plan.steps[i].use].maxAttempts, rc.options.maxAttempts), k - 1)
    requires NotAbortedBetween(rc.options, i, 1, k - 1)
    requires AbortedBefore(rc.options, i, k)
    ensures var (end, log) := RunSteps(skills, rc, i, state);
      end == Halted(i, AbortError) && Attempts(log) == Range(1, k - 1)
  {
    var def := skills[rc.plan.steps[i].use];
    AbortDuringRetries(def, rc, i, ResolveMaxAttempts(def.maxAttempts, rc.options.maxAttempts), k, 1, state);
  }

  /** A run halted by an abort error halted at a step whose attempt the signal vetoed. */
  lemma {:induction false} AbortHaltNeedsVeto(skills: map<string, SkillDefinition>, rc: RunContext, i: nat, state: State)
    requires i <= |rc.plan.steps|
    requires RunSteps(skills, rc, i, state).0.Halted? && RunSteps(skills, rc, i, state).0.error.AbortError?
    ensures var at := RunSteps(skills, rc, i, state).0.at;
      i <= at < |rc.plan.steps| && exists a: nat :: 1 <= a && AbortedBefore(rc.options, at, a)
    decreases |rc.plan.steps| - i
  {
    var def := skills[rc.plan.steps[i].use];
    var (end, log) := RunStep(def, rc, i, state);
    if end.Stopped? {
      AbortStopNeedsVeto(def, rc, i, ResolveMaxAttempts(def.maxAttempts, rc.options.maxAttempts), 1, state);
    } else {
      AbortHaltNeedsVeto(skills, rc, i + 1, end.state);
    }
  }

  /**
   * A run throws an abort error only when the signal was already aborted on
   * entry, or it vetoed some attempt of a step of the plan.
   */
  lemma AbortErrorMeansSignal(skills: map<string, SkillDefinition>, request: TaskRequest, options: RunOptions, now: string)
    requires RunSpec(skills, request, options, now).0 == Threw(AbortError)
    ensures AbortedOnEntry(options) ||
      (PlanFor(request, options, now).Success? &&
       exists at: nat, a: nat :: at < |PlanFor(request, options, now).value.steps| && 1 <= a && AbortedBefore(options, at, a))
  {
    if !AbortedOnEntry(options) {
      var plan := PlanFor(request, options, now).value;
      AbortHaltNeedsVeto(skills, RunContext(request, options, plan), 0, map[]);
    }
  }

  /**
   * A signal raised before the first attempt of the first step, after the
   * plan is built, makes the run throw an abort error with an empty log.
   */
  lemma AbortBeforeFirstStep(skills: map<string, SkillDefinition>, request: TaskRequest, options: RunOptions, now: string, plan: Plan)
    requires !AbortedOnEntry(options) && PlanFor(request, options, now) == Success(plan)
    requires |plan.steps| > 0 && plan.steps[0].use in skills
    requires ResolveMaxAttempts(skills[plan.steps[0].use].maxAttempts, options.maxAttempts) >= 1
    requires AbortedBefore(options, 0, 1)
    ensures RunSpec(skills, request, options, now) == (Threw(AbortError), [])
  {
    var rc := RunContext(request, options, plan);
    var def := skills[plan.steps[0].use];
    AbortedAttemptStops(def, rc, 0, ResolveMaxAttempts(def.maxAttempts, options.maxAttempts), 1, map[]);
  }
}
