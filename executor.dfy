/**
 * The skill registry and the plan runner (lib/agents/executor.ts).
 *
 * A skill handler is a function of its arguments and its context, which
 * carries the shared state bag; the handler hands back the bag as it left
 * it, whether it returned or threw.  Waiting and invoking are recorded in an
 * event log instead of being performed.
 */
module Executor {
  import opened Wrappers
  import opened Values
  import opened Planner

  /** `SkillContext` (the logger and the signal object are not part of it here). */
  datatype SkillContext = SkillContext(
    task: TaskRequest,
    plan: Plan,
    step: PlanStep,
    attempt: int,
    maxAttempts: int,
    state: State)

  /** How one attempt of a handler ended, and the state bag it left behind. */
  datatype AttemptOutcome =
    | Succeeded(state: State)
    | Failed(cause: string, state: State)

  type SkillHandler = (Option<StepArgs>, SkillContext) -> AttemptOutcome

  /** `SkillDefinition`. */
  datatype SkillDefinition = SkillDefinition(name: string, run: SkillHandler, maxAttempts: Option<int>)

  /**
   * The abort signal as seen at its two check points: once on entry, and
   * before attempt `a` of the step at index `i`.
   */
  datatype Signal = Signal(abortedOnEntry: bool, abortedBefore: (nat, nat) -> bool)

  /** `RunPlanOptions` (the logger is left out). */
  datatype RunOptions = RunOptions(signal: Option<Signal>, planOverride: Option<Plan>, maxAttempts: Option<int>)

  /** What `runPlan` can throw. */
  datatype RunError =
    | AbortError
    | PlanningFailed(planning: PlanningError)
    | ExecutionError(step: PlanStep, attempt: int, cause: string)

  /** A run returns `{ plan, state }` or throws. */
  datatype RunOutcome =
    | Completed(plan: Plan, state: State)
    | Threw(error: RunError)

  /** What the runner did: invoke a handler (and how it ended) or wait. */
  datatype Event =
    | Attempted(step: nat, attempt: nat, failure: Option<string>)
    | Slept(ms: int)

  // ---------------------------------------------------------------------------
  // Registry

  /** The registry's contents: definitions by name, and the names in insertion order. */
  datatype RegistryTable = RegistryTable(skills: map<string, SkillDefinition>, names: seq<string>)

  predicate NoDuplicates(s: seq<string>) {
    forall i, j :: 0 <= i < j < |s| ==> s[i] != s[j]
  }

  /** Each name is listed once, the listed names are the keys, and a key maps to the definition of that name. */
  ghost predicate ValidTable(t: RegistryTable) {
    && NoDuplicates(t.names)
    && (forall n :: n in t.skills <==> n in t.names)
    && (forall n :: n in t.skills ==> t.skills[n].name == n)
  }

  /** `skills.set(definition.name, definition)`: a known name keeps its place in the order. */
  function Register(t: RegistryTable, def: SkillDefinition): (r: RegistryTable)
    ensures ValidTable(t) ==> ValidTable(r)
    ensures r.skills.Keys == t.skills.Keys + {def.name}
    ensures r.skills[def.name] == def
    ensures forall n :: n in t.skills && n != def.name ==> r.skills[n] == t.skills[n]
    ensures def.name !in t.skills ==> r.names == t.names + [def.name]
    ensures def.name in t.skills ==> r.names == t.names
  {
    RegistryTable(t.skills[def.name := def], if def.name in t.skills then t.names else t.names + [def.name])
  }

  /** Registering a list of definitions one after another. */
  function RegisterAll(t: RegistryTable, defs: seq<SkillDefinition>): (r: RegistryTable)
    ensures ValidTable(t) ==> ValidTable(r)
    decreases |defs|
  {
    if defs == [] then t else Register(RegisterAll(t, defs[..|defs| - 1]), defs[|defs| - 1])
  }

  /** The module-level `skills` map of executor.ts. */
  class SkillRegistry {
    var skills: map<string, SkillDefinition>
    var names: seq<string>

    ghost function Table(): RegistryTable
      reads this
    {
      RegistryTable(skills, names)
    }

    ghost predicate Valid()
      reads this
    {
      ValidTable(Table())
    }

    constructor ()
      ensures Valid() && skills == map[] && names == []
    {
      skills := map[];
      names := [];
    }

    /** `registerSkill`: the last registration of a name wins. */
    method RegisterSkill(definition: SkillDefinition)
      requires Valid()
      modifies this
      ensures Valid()
      ensures Table() == Register(old(Table()), definition)
    {
      if definition.name !in skills {
        names := names + [definition.name];
      }
      skills := skills[definition.name := definition];
    }

    /** `getRegisteredSkills`: every registered name once, in insertion order. */
    method GetRegisteredSkills() returns (r: seq<string>)
      requires Valid()
      ensures NoDuplicates(r)
      ensures forall n :: n in r <==> n in skills
      ensures r == names
    {
      r := names;
    }

    /** `clearSkills`. */
    method ClearSkills()
      modifies this
      ensures Valid() && skills == map[] && names == []
    {
      skills := map[];
      names := [];
    }
  }

  // ---------------------------------------------------------------------------
  // Run semantics

  /** `backoffDelay`: the wait after failed attempt `attempt`. */
  function BackoffDelay(attempt: int): (ms: int)
    ensures 0 <= ms <= 2000
  {
    var base := 200;
    if base * attempt * attempt < 2000 then base * attempt * attempt else 2000
  }

  /** `skill.maxAttempts ?? options.maxAttempts ?? 3`. */
  function ResolveMaxAttempts(skillCap: Option<int>, optionCap: Option<int>): int {
    skillCap.OrElse(optionCap).GetOr(3)
  }

  predicate AbortedOnEntry(options: RunOptions) {
    options.signal.Some? && options.signal.value.abortedOnEntry
  }

  predicate AbortedBefore(options: RunOptions, i: nat, attempt: nat) {
    options.signal.Some? && options.signal.value.abortedBefore(i, attempt)
  }

  function NoSkillMessage(use: string): string {
    "No skill registered for '" + use + "'"
  }

  /** The fixed inputs of one run. */
  datatype RunContext = RunContext(request: TaskRequest, options: RunOptions, plan: Plan)

  /** How the attempts of one step ended. */
  datatype StepEnd = Finished(state: State) | Stopped(error: RunError)

  /** How the steps from some index on ended; `at` is the step that halted the run. */
  datatype StepsEnd = AllDone(state: State) | Halted(at: nat, error: RunError)

  function Prefixed<R>(log: seq<Event>, p: (R, seq<Event>)): (R, seq<Event>) {
    (p.0, log + p.1)
  }

  lemma PrefixedNil<R>(p: (R, seq<Event>))
    ensures Prefixed([], p) == p
  {
    assert [] + p.1 == p.1;
  }

  lemma PrefixedConcat<R>(a: seq<Event>, b: seq<Event>, p: (R, seq<Event>))
    ensures Prefixed(a, Prefixed(b, p)) == Prefixed(a + b, p)
  {
    assert a + (b + p.1) == (a + b) + p.1;
  }

  /** Attempts `attempt..cap` of the step at index `i`, from bag `state`. */
  function RunAttempts(def: SkillDefinition, rc: RunContext, i: nat, cap: int, attempt: int, state: State): (StepEnd, seq<Event>)
    requires i < |rc.plan.steps| && 1 <= attempt
    decreases if attempt <= cap then cap - attempt + 1 else 0
  {
    var step := rc.plan.steps[i];
    if attempt > cap then (Finished(state), [])
    else if AbortedBefore(rc.options, i, attempt) then (Stopped(AbortError), [])
    else match def.run(step.args, SkillContext(rc.request, rc.plan, step, attempt, cap, state))
      case Succeeded(s) => (Finished(s), [Attempted(i, attempt, None)])
      case Failed(cause, s) =>
        if attempt >= cap then
          (Stopped(ExecutionError(step, attempt, cause)), [Attempted(i, attempt, Some(cause))])
        else
          Prefixed([Attempted(i, attempt, Some(cause)), Slept(BackoffDelay(attempt))],
                   RunAttempts(def, rc, i, cap, attempt + 1, s))
  }

  /** The capped attempts of a step whose skill is `def`. */
  function RunStep(def: SkillDefinition, rc: RunContext, i: nat, state: State): (StepEnd, seq<Event>)
    requires i < |rc.plan.steps|
  {
    RunAttempts(def, rc, i, ResolveMaxAttempts(def.maxAttempts, rc.options.maxAttempts), 1, state)
  }

  /** Steps `i..` of the plan, in order, from bag `state`. */
  function RunSteps(skills: map<string, SkillDefinition>, rc: RunContext, i: nat, state: State): (StepsEnd, seq<Event>)
    requires i <= |rc.plan.steps|
    decreases |rc.plan.steps| - i
  {
    if i == |rc.plan.steps| then (AllDone(state), [])
    else
      var step := rc.plan.steps[i];
      if step.use !in skills then (Halted(i, ExecutionError(step, 0, NoSkillMessage(step.use))), [])
      else
        var (end, log) := RunStep(skills[step.use], rc, i, state);
        match end
        case Stopped(e) => (Halted(i, e), log)
        case Finished(s) => Prefixed(log, RunSteps(skills, rc, i + 1, s))
  }

  /** `options.planOverride ?? buildPlan(request)`. */
  function PlanFor(request: TaskRequest, options: RunOptions, now: string): Result<Plan, PlanningError> {
    if options.planOverride.Some? then Success(options.planOverride.value) else BuildPlan(request, now)
  }

  /** What `runPlan` does with a registry holding `skills`. */
  function RunSpec(skills: map<string, SkillDefinition>, request: TaskRequest, options: RunOptions, now: string): (RunOutcome, seq<Event>) {
    if AbortedOnEntry(options) then (Threw(AbortError), [])
    else match PlanFor(request, options, now)
      case Failure(e) => (Threw(PlanningFailed(e)), [])
      case Success(plan) =>
        var (end, log) := RunSteps(skills, RunContext(request, options, plan), 0, map[]);
        match end
        case AllDone(s) => (Completed(plan, s), log)
        case Halted(_, e) => (Threw(e), log)
  }

  /**
   * The attempt loop of `runPlan` for the step at index `i`: attempts
   * `1..maxAttempts`, each preceded by the abort check, with a backoff wait
   * after every failure but the last.
   */
  method RunStepAttempts(skill: SkillDefinition, rc: RunContext, i: nat, entry: State)
    returns (end: StepEnd, stepLog: seq<Event>)
    requires i < |rc.plan.steps|
    ensures (end, stepLog) == RunStep(skill, rc, i, entry)
  {
    var step := rc.plan.steps[i];
    var maxAttempts := ResolveMaxAttempts(skill.maxAttempts, rc.options.maxAttempts);
    var state := entry;
    stepLog := [];
    var attempt := 1;
    PrefixedNil(RunStep(skill, rc, i, entry));
    while attempt <= maxAttempts
      invariant 1 <= attempt
      invariant RunStep(skill, rc, i, entry) == Prefixed(stepLog, RunAttempts(skill, rc, i, maxAttempts, attempt, state))
      decreases maxAttempts - attempt
    {
      if AbortedBefore(rc.options, i, attempt) {
        assert stepLog + [] == stepLog;
        return Stopped(AbortError), stepLog;
      }
      var result := skill.run(step.args, SkillContext(rc.request, rc.plan, step, attempt, maxAttempts, state));
      ghost var before := stepLog;
      ghost var rest := RunAttempts(skill, rc, i, maxAttempts, attempt, state);
      state := result.state;
      if result.Succeeded? {
        assert rest == (Finished(state), [Attempted(i, attempt, None)]);
        stepLog := stepLog + [Attempted(i, attempt, None)];
        break;
      }
      stepLog := stepLog + [Attempted(i, attempt, Some(result.cause))];
      if attempt >= maxAttempts {
        assert rest == (Stopped(ExecutionError(step, attempt, result.cause)), [Attempted(i, attempt, Some(result.cause))]);
        return Stopped(ExecutionError(step, attempt, result.cause)), stepLog;
      }
      ghost var pair := [Attempted(i, attempt, Some(result.cause)), Slept(BackoffDelay(attempt))];
      assert rest == Prefixed(pair, RunAttempts(skill, rc, i, maxAttempts, attempt + 1, state));
      PrefixedConcat(before, pair, RunAttempts(skill, rc, i, maxAttempts, attempt + 1, state));
      stepLog := stepLog + [Slept(BackoffDelay(attempt))];
      assert stepLog == before + pair;
      attempt := attempt + 1;
    }
    if attempt > maxAttempts {
      assert stepLog + [] == stepLog;
    }
    end := Finished(state);
  }

  /**
   * `runPlan`: the steps strictly in order, each through at most its cap of
   * attempts, with a fresh state bag threaded through them.
   */
  method RunPlan(registry: SkillRegistry, request: TaskRequest, options: RunOptions, now: string)
    returns (outcome: RunOutcome, log: seq<Event>)
    ensures (outcome, log) == RunSpec(registry.skills, request, options, now)
  {
    log := [];
    if AbortedOnEntry(options) {
      outcome := Threw(AbortError);
      return;
    }
    var plan: Plan;
    if options.planOverride.Some? {
      plan := options.planOverride.value;
    } else {
      var built := BuildPlan(request, now);
      if built.Failure? {
        outcome := Threw(PlanningFailed(built.error));
        return;
      }
      plan := built.value;
    }
    var rc := RunContext(request, options, plan);
    var state: State := map[];
    var i := 0;
    PrefixedNil(RunSteps(registry.skills, rc, 0, map[]));
    while i < |plan.steps|
      invariant i <= |plan.steps|
      invariant RunSteps(registry.skills, rc, 0, map[]) == Prefixed(log, RunSteps(registry.skills, rc, i, state))
    {
      var step := plan.steps[i];
      if step.use !in registry.skills {
        outcome := Threw(ExecutionError(step, 0, NoSkillMessage(step.use)));
        assert log + [] == log;
        return;
      }
      var end, stepLog := RunStepAttempts(registry.skills[step.use], rc, i, state);
      if end.Stopped? {
        outcome := Threw(end.error);
        log := log + stepLog;
        return;
      }
      PrefixedConcat(log, stepLog, RunSteps(registry.skills, rc, i + 1, end.state));
      log := log + stepLog;
      state := end.state;
      i := i + 1;
    }
    assert log + [] == log;
    outcome := Completed(plan, state);
  }
}
