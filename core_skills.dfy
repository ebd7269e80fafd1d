/**
 * The core skill set and its registration (lib/agents/skills/index.ts):
 * `parse_url`, `hydrate_provider` and `upsert_link` as skill definitions the
 * plan runner can call, and what a run of the `hydrate` plan does with them.
 */
module CoreSkills {
  import opened Wrappers
  import opened SkillTypes
  import opened Values
  import opened Planner
  import opened Executor
  import opened ExecutorProperties
  import opened ParseUrl
  import opened HydrateProvider
  import opened UpsertLink

  /** What the core skills reach outside the model: the URL parser, the provider clients and the environment. */
  datatype Externals = Externals(parse: UrlParser, client: ProviderClient, env: Env)

  /** A skill's return or throw as the runner sees it; a throw leaves the bag as it was on entry. */
  function Outcome<T>(r: SkillReturn<T>, entry: State): (o: AttemptOutcome)
    ensures r.Done? ==> o == Succeeded(r.state)
    ensures r.Raised? ==> o == Failed(r.message, entry)
  {
    match r
    case Done(_, state) => Succeeded(state)
    case Raised(message) => Failed(message, entry)
  }

  /** `parseUrlSkill`. */
  function ParseUrlSkill(x: Externals): SkillDefinition {
    SkillDefinition("parse_url", (args: Option<StepArgs>, ctx: SkillContext) => Outcome(ParseUrlRun(x.parse, args, ctx.task, ctx.state), ctx.state), None)
  }

  /** `hydrateProviderSkill`. */
  function HydrateProviderSkill(x: Externals): SkillDefinition {
    SkillDefinition("hydrate_provider", (args: Option<StepArgs>, ctx: SkillContext) => Outcome(HydrateProviderRun(x.client, x.env, args, ctx.state, ctx.attempt), ctx.state), None)
  }

  /** `upsertLinkSkill` (it ignores its arguments). */
  function UpsertLinkSkill(): SkillDefinition {
    SkillDefinition("upsert_link", (args: Option<StepArgs>, ctx: SkillContext) => Outcome(UpsertLinkRun(ctx.task, ctx.state), ctx.state), None)
  }

  /** `coreSkills`. */
  function CoreSkillList(x: Externals): (skills: seq<SkillDefinition>)
    ensures NamesOf(skills) == ["parse_url", "hydrate_provider", "upsert_link"]
    ensures forall k :: 0 <= k < |skills| ==> skills[k].maxAttempts.None?
  {
    [ParseUrlSkill(x), HydrateProviderSkill(x), UpsertLinkSkill()]
  }

  /** `registerCoreSkills`: each core skill registered in turn. */
  method RegisterCoreSkills(registry: SkillRegistry, x: Externals)
    requires registry.Valid()
    modifies registry
    ensures registry.Valid()
    ensures registry.Table() == RegisterAll(old(registry.Table()), CoreSkillList(x))
  {
    var core := CoreSkillList(x);
    for k := 0 to |core|
      invariant registry.Valid()
      invariant registry.Table() == RegisterAll(old(registry.Table()), core[..k])
    {
      registry.RegisterSkill(core[k]);
      assert core[..k + 1][..k] == core[..k];
    }
    assert core[..|core|] == core;
  }

  /** After registration each core name maps to its own definition, and the other names are as before. */
  lemma CoreSkillsRegistered(t: RegistryTable, x: Externals)
    ensures var r := RegisterAll(t, CoreSkillList(x)).skills;
      && "parse_url" in r && r["parse_url"] == ParseUrlSkill(x)
      && "hydrate_provider" in r && r["hydrate_provider"] == HydrateProviderSkill(x)
      && "upsert_link" in r && r["upsert_link"] == UpsertLinkSkill()
      && forall n :: n in r <==> n in t.skills || n in ["parse_url", "hydrate_provider", "upsert_link"]
  {
    var core := CoreSkillList(x);
    assert forall p, q :: 0 <= p < q < |core| ==> core[p].name != core[q].name;
    RegisterAllMapsEach(t, core, 0);
    RegisterAllMapsEach(t, core, 1);
    RegisterAllMapsEach(t, core, 2);
    RegisterAllKeys(t, core);
  }

  /** Registering the core skills twice leaves the registry as registering them once. */
  lemma RegisterCoreSkillsTwice(t: RegistryTable, x: Externals)
    ensures RegisterAll(RegisterAll(t, CoreSkillList(x)), CoreSkillList(x)) == RegisterAll(t, CoreSkillList(x))
  {
    RegisterAllIdempotent(t, CoreSkillList(x));
  }

  /** `upsert_embedding` is not among the core skills. */
  lemma EmbeddingNotCore(x: Externals)
    ensures "upsert_embedding" !in RegisterAll(RegistryTable(map[], []), CoreSkillList(x)).skills
  {
    CoreSkillsRegistered(RegistryTable(map[], []), x);
  }

  /**
   * Without an `upsert_embedding` skill the steps of a `hydrate` plan cannot
   * all finish: the run halts at the fourth step with attempt 0, or earlier.
   */
  lemma HydrateStepsHalt(skills: map<string, SkillDefinition>, rc: RunContext)
    requires "upsert_embedding" !in skills
    requires Uses(rc.plan.steps) == ["parse_url", "hydrate_provider", "upsert_link", "upsert_embedding"]
    ensures var end := RunSteps(skills, rc, 0, map[]).0;
      && end.Halted?
      && (end.error.ExecutionError? && end.error.step.use == "upsert_embedding" ==>
            end.error.attempt == 0 && end.error.cause == NoSkillMessage("upsert_embedding"))
  {
    assert rc.plan.steps[3].use == "upsert_embedding";
    MissingSkillBlocksCompletion(skills, rc, 0, 3, map[]);
    HaltReason(skills, rc, 0, map[]);
    var end := RunSteps(skills, rc, 0, map[]).0;
    if end.error.ExecutionError? && end.error.step.use == "upsert_embedding" {
      assert Uses(rc.plan.steps)[end.at] == "upsert_embedding";
    }
  }

  /**
   * Without an `upsert_embedding` skill a run of the built `hydrate` plan
   * throws; when the error names `upsert_embedding`, it carries attempt 0.
   */
  lemma HydratePlanNeedsEmbedding(skills: map<string, SkillDefinition>, request: TaskRequest, options: RunOptions, now: string)
    requires "upsert_embedding" !in skills
    requires request.kind == Some("hydrate") && options.planOverride.None?
    ensures var outcome := RunSpec(skills, request, options, now).0;
      && outcome.Threw?
      && (outcome.error.ExecutionError? && outcome.error.step.use == "upsert_embedding" ==>
            outcome.error.attempt == 0 && outcome.error.cause == "No skill registered for 'upsert_embedding'")
  {
    BuildPlanSupportedKinds(request, now);
    NoEmbeddingMessage();
    if !AbortedOnEntry(options) {
      var plan := BuildPlan(request, now).value;
      HydrateStepsHalt(skills, RunContext(request, options, plan));
    }
  }

  lemma NoEmbeddingMessage()
    ensures NoSkillMessage("upsert_embedding") == "No skill registered for 'upsert_embedding'"
  {
  }

  /** With only the core skills registered, a `hydrate` plan cannot complete. */
  lemma CoreOnlyHydratePlanFails(x: Externals, request: TaskRequest, options: RunOptions, now: string)
    requires request.kind == Some("hydrate") && options.planOverride.None?
    ensures var skills := RegisterAll(RegistryTable(map[], []), CoreSkillList(x)).skills;
      RunSpec(skills, request, options, now).0.Threw?
  {
    EmbeddingNotCore(x);
    HydratePlanNeedsEmbedding(RegisterAll(RegistryTable(map[], []), CoreSkillList(x)).skills, request, options, now);
  }

  /**
   * A rejecting provider client fails the `hydrate_provider` attempt with the
   * client's message and the bag as it was on entry, so the runner retries
   * the step (or gives up with that message once the cap is reached).
   */
  lemma HydrateClientFailureFailsAttempt(x: Externals, args: Option<StepArgs>, ctx: SkillContext, message: string)
    requires UrlInfoIn(ctx.state).Some? && !UrlInfoIn(ctx.state).value.provider.Unknown?
    requires ResolveRequest(UrlInfoIn(ctx.state).value.provider, UrlInfoIn(ctx.state).value, args, ctx.state, x.env).Call?
    requires x.client(ResolveRequest(UrlInfoIn(ctx.state).value.provider, UrlInfoIn(ctx.state).value, args, ctx.state, x.env).request, ctx.attempt)
      == Failure(message)
    ensures HydrateProviderSkill(x).run(args, ctx) == Failed(message, ctx.state)
    ensures "hydration" in ctx.state <==> "hydration" in HydrateProviderSkill(x).run(args, ctx).state
  {
    ClientFailureRaises(x.client, x.env, args, ctx.state, ctx.attempt, message);
  }

  /**
   * A provider fetch that rejects on the first attempt and succeeds on the
   * second is retried after the first backoff wait: the step finishes with
   * the second answer stored, as if the first call had not happened.
   */
  lemma HydrateRetryRecovers(x: Externals, rc: RunContext, i: nat, state: State, message: string, result: HydrationResult)
    requires i < |rc.plan.steps|
    requires UrlInfoIn(state).Some? && !UrlInfoIn(state).value.provider.Unknown?
    requires ResolveRequest(UrlInfoIn(state).value.provider, UrlInfoIn(state).value, rc.plan.steps[i].args, state, x.env).Call?
    requires x.client(ResolveRequest(UrlInfoIn(state).value.provider, UrlInfoIn(state).value, rc.plan.steps[i].args, state, x.env).request, 1)
      == Failure(message)
    requires x.client(ResolveRequest(UrlInfoIn(state).value.provider, UrlInfoIn(state).value, rc.plan.steps[i].args, state, x.env).request, 2)
      == Success(result)
    requires ResolveMaxAttempts(None, rc.options.maxAttempts) >= 2
    requires !AbortedBefore(rc.options, i, 1) && !AbortedBefore(rc.options, i, 2)
    ensures RunStep(HydrateProviderSkill(x), rc, i, state) ==
      (Finished(HydrationWrites(state, result)), [Attempted(i, 1, Some(message)), Slept(200), Attempted(i, 2, None)])
  {
    var cap := ResolveMaxAttempts(None, rc.options.maxAttempts);
    var step := rc.plan.steps[i];
    HydrateClientFailureFailsAttempt(x, step.args, SkillContext(rc.request, rc.plan, step, 1, cap, state), message);
    ClientSuccessStores(x.client, x.env, step.args, state, 2, result);
    FailsOnceThenSucceeds(HydrateProviderSkill(x), rc, i, cap, state, message, HydrationWrites(state, result));
  }

  // ---------------------------------------------------------------------------
  // The Reddit example end to end

  /** A skill that succeeds at once and leaves the bag as it is. */
  function NoOpSkill(name: string): SkillDefinition {
    SkillDefinition(name, (args: Option<StepArgs>, ctx: SkillContext) => Succeeded(ctx.state), None)
  }

  const SampleUrl := "https://www.reddit.com/r/webdev/comments/abc123/my_project/"

  /** The `hydrate` plan with a Reddit access token passed to its `hydrate_provider` step. */
  function SamplePlan(now: string): Plan {
    Plan(1, now, [
      Step("parse_url", "Normalize the URL and detect provider"),
      PlanStep("hydrate_provider", Some(StepArgs(None, Some(RedditArgs(Some("token"), None, None)), None)),
               Some("Fetch provider-specific content and metadata")),
      Step("upsert_link", "Persist link shell, content payload, and status"),
      Step("upsert_embedding", "Store embeddings for hybrid search")])
  }

  /** The sample plan is the built `hydrate` plan with the Reddit token set on its `hydrate_provider` step. */
  lemma SamplePlanIsHydratePlan(request: TaskRequest, now: string)
    requires request.kind == Some("hydrate")
    ensures BuildPlan(request, now).Success?
    ensures var built := BuildPlan(request, now).value;
      && built.steps[1].use == "hydrate_provider"
      && SamplePlan(now) == built.(steps := built.steps[1 := built.steps[1].(args := SamplePlan(now).steps[1].args)])
  {
    assert PlanBuilders()["hydrate"](request) == HydrateSteps();
  }

  /** A step whose skill succeeds on its first attempt is done after that one invocation. */
  lemma FirstAttemptFinishes(def: SkillDefinition, rc: RunContext, i: nat, state: State, after: State)
    requires i < |rc.plan.steps| && rc.options.signal.None?
    requires ResolveMaxAttempts(def.maxAttempts, rc.options.maxAttempts) >= 1
    requires def.run(rc.plan.steps[i].args, SkillContext(rc.request, rc.plan, rc.plan.steps[i], 1,
                     ResolveMaxAttempts(def.maxAttempts, rc.options.maxAttempts), state)) == Succeeded(after)
    ensures RunStep(def, rc, i, state) == (Finished(after), [Attempted(i, 1, None)])
  {
  }

  /** A step whose registered skill finishes hands its bag to the next step. */
  lemma StepThenRest(skills: map<string, SkillDefinition>, rc: RunContext, i: nat, state: State, after: State)
    requires i < |rc.plan.steps| && rc.plan.steps[i].use in skills
    requires RunStep(skills[rc.plan.steps[i].use], rc, i, state) == (Finished(after), [Attempted(i, 1, None)])
    ensures RunSteps(skills, rc, i, state).0 == RunSteps(skills, rc, i + 1, after).0
  {
  }

  /** The four skills of the smoke run, each under its own name. */
  lemma SmokeRegistry(x: Externals)
    ensures var skills := RegisterAll(RegistryTable(map[], []), CoreSkillList(x) + [NoOpSkill("upsert_embedding")]).skills;
      && "parse_url" in skills && skills["parse_url"] == ParseUrlSkill(x)
      && "hydrate_provider" in skills && skills["hydrate_provider"] == HydrateProviderSkill(x)
      && "upsert_link" in skills && skills["upsert_link"] == UpsertLinkSkill()
      && "upsert_embedding" in skills && skills["upsert_embedding"] == NoOpSkill("upsert_embedding")
  {
    var defs := CoreSkillList(x) + [NoOpSkill("upsert_embedding")];
    assert NamesOf(defs) == ["parse_url", "hydrate_provider", "upsert_link", "upsert_embedding"];
    assert forall p, q :: 0 <= p < q < |defs| ==> defs[p].name != defs[q].name;
    RegisterAllMapsEach(RegistryTable(map[], []), defs, 0);
    RegisterAllMapsEach(RegistryTable(map[], []), defs, 1);
    RegisterAllMapsEach(RegistryTable(map[], []), defs, 2);
    RegisterAllMapsEach(RegistryTable(map[], []), defs, 3);
  }

  /** `hydrate_provider` on the parsed example sends the token and stores the content. */
  lemma SmokeHydrate(client: ProviderClient, env: Env, args: Option<StepArgs>, info: ParsedUrlInfo, content: HydratedContent)
    requires info.provider == Reddit && info.providerId == Some("abc123")
    requires info.normalized == "https://www.reddit.com/r/webdev/comments/abc123/my_project"
    requires args == Some(StepArgs(None, Some(RedditArgs(Some("token"), None, None)), None))
    requires client(RedditRequest(info.normalized, Some("abc123"), Some("token"), None, None), 1) == Success(Ok(content))
    ensures var s1 := map["urlInfo" := UrlInfo(info)];
      HydrateProviderRun(client, env, args, s1, 1) == Done(Some(Ok(content)), HydrationWrites(s1, Ok(content)))
  {
    var s1 := map["urlInfo" := UrlInfo(info)];
    assert ResolveRequest(Reddit, info, args, s1, env) ==
      Call(RedditRequest(info.normalized, info.providerId, Some("token"), None, None));
  }

  /** `upsert_link` after hydration builds the payload from the parsed URL and the content. */
  lemma SmokeUpsert(request: TaskRequest, info: ParsedUrlInfo, content: HydratedContent)
    requires info.provider == Reddit && info.providerId == Some("abc123")
    ensures var s2 := HydrationWrites(map["urlInfo" := UrlInfo(info)], Ok(content));
      var r := UpsertLinkRun(request, s2);
      && r.Done?
      && r.state == s2["persistLink" := PersistLink(r.value)]
      && r.value.provider == Reddit && r.value.providerId == Some("abc123") && r.value.title == Some(content.title)
      && UrlInfoIn(r.state) == Some(info) && HydratedIn(r.state) == Some(AsPartial(content))
  {
    var s2 := HydrationWrites(map["urlInfo" := UrlInfo(info)], Ok(content));
    assert UrlInfoIn(s2) == Some(info);
    assert HydratedIn(s2) == Some(AsPartial(content));
  }

  /** Four steps that each finish on their first attempt make the steps from 0 end with the last bag. */
  lemma FourStepsFinish(skills: map<string, SkillDefinition>, rc: RunContext, s0: State, s1: State, s2: State, s3: State, s4: State)
    requires |rc.plan.steps| == 4
    requires forall k :: 0 <= k < 4 ==> rc.plan.steps[k].use in skills
    requires RunStep(skills[rc.plan.steps[0].use], rc, 0, s0) == (Finished(s1), [Attempted(0, 1, None)])
    requires RunStep(skills[rc.plan.steps[1].use], rc, 1, s1) == (Finished(s2), [Attempted(1, 1, None)])
    requires RunStep(skills[rc.plan.steps[2].use], rc, 2, s2) == (Finished(s3), [Attempted(2, 1, None)])
    requires RunStep(skills[rc.plan.steps[3].use], rc, 3, s3) == (Finished(s4), [Attempted(3, 1, None)])
    ensures RunSteps(skills, rc, 0, s0).0 == AllDone(s4)
  {
    StepThenRest(skills, rc, 0, s0, s1);
    StepThenRest(skills, rc, 1, s1, s2);
    StepThenRest(skills, rc, 2, s2, s3);
    StepThenRest(skills, rc, 3, s3, s4);
  }

  /** Step 0 of the smoke run: `parse_url` on the sample URL. */
  lemma SmokeParseStep(x: Externals, rc: RunContext, parts: UrlParts)
    requires |rc.plan.steps| > 0 && rc.plan.steps[0].args.None?
    requires rc.options.signal.None? && rc.options.maxAttempts.None?
    requires rc.request.url == Some(SampleUrl) && rc.request.linkId.None?
    requires parts == UrlParts("https:", "www.reddit.com", "www.reddit.com", "/r/webdev/comments/abc123/my_project/", "", "")
    requires x.parse(SampleUrl) == Success(parts)
    ensures var info := UrlInfoOf(SampleUrl, parts);
      && info.provider == Reddit && info.providerId == Some("abc123")
      && info.normalized == "https://www.reddit.com/r/webdev/comments/abc123/my_project"
      && RunStep(ParseUrlSkill(x), rc, 0, map[]) == (Finished(map["urlInfo" := UrlInfo(info)]), [Attempted(0, 1, None)])
  {
    RedditExample(x.parse, rc.request, map[], parts);
    RedditExampleInfo(SampleUrl, parts);
    var info := UrlInfoOf(SampleUrl, parts);
    assert ParseUrlRun(x.parse, None, rc.request, map[]) == Done(info, map["urlInfo" := UrlInfo(info)]);
    FirstAttemptFinishes(ParseUrlSkill(x), rc, 0, map[], map["urlInfo" := UrlInfo(info)]);
  }

  /** Step 1 of the smoke run: `hydrate_provider` with the Reddit token. */
  lemma SmokeHydrateStep(x: Externals, rc: RunContext, info: ParsedUrlInfo, content: HydratedContent)
    requires |rc.plan.steps| > 1
    requires rc.plan.steps[1].args == Some(StepArgs(None, Some(RedditArgs(Some("token"), None, None)), None))
    requires rc.options.signal.None? && rc.options.maxAttempts.None?
    requires info.provider == Reddit && info.providerId == Some("abc123")
    requires info.normalized == "https://www.reddit.com/r/webdev/comments/abc123/my_project"
    requires x.client(RedditRequest(info.normalized, Some("abc123"), Some("token"), None, None), 1) == Success(Ok(content))
    ensures var s1 := map["urlInfo" := UrlInfo(info)];
      RunStep(HydrateProviderSkill(x), rc, 1, s1) == (Finished(HydrationWrites(s1, Ok(content))), [Attempted(1, 1, None)])
  {
    var s1 := map["urlInfo" := UrlInfo(info)];
    SmokeHydrate(x.client, x.env, rc.plan.steps[1].args, info, content);
    FirstAttemptFinishes(HydrateProviderSkill(x), rc, 1, s1, HydrationWrites(s1, Ok(content)));
  }

  /** Step 2 of the smoke run: `upsert_link`. */
  lemma SmokeUpsertStep(rc: RunContext, info: ParsedUrlInfo, content: HydratedContent)
    requires |rc.plan.steps| > 2
    requires rc.options.signal.None? && rc.options.maxAttempts.None?
    requires info.provider == Reddit && info.providerId == Some("abc123")
    ensures var s2 := HydrationWrites(map["urlInfo" := UrlInfo(info)], Ok(content));
      var r := UpsertLinkRun(rc.request, s2);
      && r.Done?
      && RunStep(UpsertLinkSkill(), rc, 2, s2) == (Finished(r.state), [Attempted(2, 1, None)])
  {
    var s2 := HydrationWrites(map["urlInfo" := UrlInfo(info)], Ok(content));
    SmokeUpsert(rc.request, info, content);
    FirstAttemptFinishes(UpsertLinkSkill(), rc, 2, s2, UpsertLinkRun(rc.request, s2).state);
  }

  /** The smoke run's steps over any registry that maps each step to the expected skill. */
  lemma SmokeSteps(x: Externals, skills: map<string, SkillDefinition>, rc: RunContext, parts: UrlParts, content: HydratedContent)
    requires |rc.plan.steps| == 4 && forall k :: 0 <= k < 4 ==> rc.plan.steps[k].use in skills
    requires skills[rc.plan.steps[0].use] == ParseUrlSkill(x)
    requires skills[rc.plan.steps[1].use] == HydrateProviderSkill(x)
    requires skills[rc.plan.steps[2].use] == UpsertLinkSkill()
    requires skills[rc.plan.steps[3].use] == NoOpSkill(rc.plan.steps[3].use)
    requires rc.plan.steps[0].args.None?
    requires rc.plan.steps[1].args == Some(StepArgs(None, Some(RedditArgs(Some("token"), None, None)), None))
    requires rc.options.signal.None? && rc.options.maxAttempts.None?
    requires rc.request.url == Some(SampleUrl) && rc.request.linkId.None?
    requires parts == UrlParts("https:", "www.reddit.com", "www.reddit.com", "/r/webdev/comments/abc123/my_project/", "", "")
    requires x.parse(SampleUrl) == Success(parts)
    requires x.client(RedditRequest("https://www.reddit.com/r/webdev/comments/abc123/my_project", Some("abc123"),
                                    Some("token"), None, None), 1) == Success(Ok(content))
    ensures var end := RunSteps(skills, rc, 0, map[]).0;
      && end.AllDone?
      && UrlInfoIn(end.state).Some? && UrlInfoIn(end.state).value.provider == Reddit
      && HydratedIn(end.state) == Some(AsPartial(content))
      && "persistLink" in end.state && end.state["persistLink"].PersistLink?
      && end.state["persistLink"].payload.provider == Reddit
      && end.state["persistLink"].payload.providerId == Some("abc123")
      && end.state["persistLink"].payload.title == Some(content.title)
  {
    SmokeParseStep(x, rc, parts);
    var info := UrlInfoOf(SampleUrl, parts);
    var s1 := map["urlInfo" := UrlInfo(info)];
    SmokeHydrateStep(x, rc, info, content);
    var s2 := HydrationWrites(s1, Ok(content));
    SmokeUpsertStep(rc, info, content);
    SmokeUpsert(rc.request, info, content);
    var s3 := UpsertLinkRun(rc.request, s2).state;
    FirstAttemptFinishes(NoOpSkill(rc.plan.steps[3].use), rc, 3, s3, s3);
    FourStepsFinish(skills, rc, map[], s1, s2, s3, s3);
  }

  /**
   * The smoke run: over a registry holding the core skills and a no-op
   * `upsert_embedding` (as `SmokeRegistry` shows registering them gives), and
   * a Reddit client that answers the normalised URL with content titled
   * `Sample Reddit Post`, the run completes; `urlInfo` names Reddit, and
   * `persistLink` carries provider Reddit, id `abc123` and that title.
   */
  lemma RedditSmokeRun(x: Externals, skills: map<string, SkillDefinition>, parts: UrlParts, content: HydratedContent, now: string)
    requires "parse_url" in skills && skills["parse_url"] == ParseUrlSkill(x)
    requires "hydrate_provider" in skills && skills["hydrate_provider"] == HydrateProviderSkill(x)
    requires "upsert_link" in skills && skills["upsert_link"] == UpsertLinkSkill()
    requires "upsert_embedding" in skills && skills["upsert_embedding"] == NoOpSkill("upsert_embedding")
    requires parts == UrlParts("https:", "www.reddit.com", "www.reddit.com", "/r/webdev/comments/abc123/my_project/", "", "")
    requires x.parse(SampleUrl) == Success(parts)
    requires x.client(RedditRequest("https://www.reddit.com/r/webdev/comments/abc123/my_project", Some("abc123"),
                                    Some("token"), None, None), 1) == Success(Ok(content))
    requires content.title == "Sample Reddit Post"
    ensures var request := TaskRequest(Some("hydrate"), None, Some(SampleUrl), None, None);
      var outcome := RunSpec(skills, request, RunOptions(None, Some(SamplePlan(now)), None), now).0;
      && outcome.Completed?
      && UrlInfoIn(outcome.state).Some? && UrlInfoIn(outcome.state).value.provider == Reddit
      && HydratedIn(outcome.state).Some? && HydratedIn(outcome.state).value.title == Some("Sample Reddit Post")
      && "persistLink" in outcome.state && outcome.state["persistLink"].PersistLink?
      && outcome.state["persistLink"].payload.provider == Reddit
      && outcome.state["persistLink"].payload.providerId == Some("abc123")
      && outcome.state["persistLink"].payload.title == Some("Sample Reddit Post")
  {
    var request := TaskRequest(Some("hydrate"), None, Some(SampleUrl), None, None);
    var options := RunOptions(None, Some(SamplePlan(now)), None);
    var rc := RunContext(request, options, SamplePlan(now));
    SmokeSteps(x, skills, rc, parts, content);
  }
}
