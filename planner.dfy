/** Task request to ordered plan (lib/agents/planner.ts). */
module Planner {
  import opened Wrappers
  import opened Values

  /**
   * `AgentTaskRequest`.  The kind is typed as one of three strings in the
   * source, but `buildPlan` guards against a missing or unlisted kind, so it
   * is any optional string here.
   */
  datatype TaskRequest = TaskRequest(
    kind: Option<string>,
    linkId: Option<string>,
    url: Option<string>,
    query: Option<string>,
    note: Option<string>)

  /** `PlanStep`: `use` names the skill; args and description are optional. */
  datatype PlanStep = PlanStep(use: string, args: Option<StepArgs>, description: Option<string>)

  /** `AgentPlan`. */
  datatype Plan = Plan(version: int, createdAt: string, steps: seq<PlanStep>)

  /** `AgentPlanningError` with its message. */
  datatype PlanningError = PlanningError(message: string)

  type PlanBuilder = TaskRequest -> seq<PlanStep>

  function Step(use: string, description: string): PlanStep {
    PlanStep(use, None, Some(description))
  }

  function HydrateSteps(): seq<PlanStep> {
    [ Step("parse_url", "Normalize the URL and detect provider"),
      Step("hydrate_provider", "Fetch provider-specific content and metadata"),
      Step("upsert_link", "Persist link shell, content payload, and status"),
      Step("upsert_embedding", "Store embeddings for hybrid search") ]
  }

  function SummarizeSteps(): seq<PlanStep> {
    [ Step("load_link", "Load link and contents for summarization"),
      Step("summarize_on_open", "Generate or refresh cached summary via LLM") ]
  }

  function SearchSteps(): seq<PlanStep> {
    [ Step("search_rewrite", "Rewrite user query into structured intents"),
      Step("search_merge", "Blend hybrid search results") ]
  }

  /** `PLAN_BUILDERS`: each builder ignores the request it is given. */
  function PlanBuilders(): map<string, PlanBuilder> {
    map[ "hydrate" := (_: TaskRequest) => HydrateSteps(),
         "summarize" := (_: TaskRequest) => SummarizeSteps(),
         "search" := (_: TaskRequest) => SearchSteps() ]
  }

  /** The skill names of a step list, in order. */
  function Uses(steps: seq<PlanStep>): (r: seq<string>)
    ensures |r| == |steps|
    ensures forall k :: 0 <= k < |steps| ==> r[k] == steps[k].use
  {
    seq(|steps|, k requires 0 <= k < |steps| => steps[k].use)
  }

  /**
   * `buildPlan` over a given builder table, with its three guards: a missing
   * (or empty) kind, a kind without a builder, and a builder that yields no
   * steps.  `now` stands for `new Date().toISOString()`.
   */
  function BuildPlanWith(builders: map<string, PlanBuilder>, request: TaskRequest, now: string): (r: Result<Plan, PlanningError>)
    ensures r.Success? <==>
      request.kind.Some? && request.kind.value != "" && request.kind.value in builders &&
      |builders[request.kind.value](request)| > 0
    ensures r.Success? ==>
      r.value == Plan(1, now, builders[request.kind.value](request)) && |r.value.steps| > 0
    ensures (request.kind.None? || request.kind.value == "") ==>
      r == Failure(PlanningError("Agent task kind is required"))
    ensures request.kind.Some? && request.kind.value != "" && request.kind.value !in builders ==>
      r == Failure(PlanningError("No plan builder registered for kind '" + request.kind.value + "'"))
    ensures request.kind.Some? && request.kind.value != "" && request.kind.value in builders
              && |builders[request.kind.value](request)| == 0
            ==> r == Failure(PlanningError("Plan builder for '" + request.kind.value + "' produced no steps"))
  {
    if request.kind.None? || request.kind.value == "" then
      Failure(PlanningError("Agent task kind is required"))
    else
      var kind := request.kind.value;
      if kind !in builders then
        Failure(PlanningError("No plan builder registered for kind '" + kind + "'"))
      else
        var steps := builders[kind](request);
        if |steps| == 0 then
          Failure(PlanningError("Plan builder for '" + kind + "' produced no steps"))
        else
          Success(Plan(1, now, steps))
  }

  /** `buildPlan(request)` with the built-in table. */
  function BuildPlan(request: TaskRequest, now: string): Result<Plan, PlanningError> {
    BuildPlanWith(PlanBuilders(), request, now)
  }

  /** The table holds exactly the three kinds. */
  lemma PlanBuildersKinds()
    ensures PlanBuilders().Keys == {"hydrate", "summarize", "search"}
  {
  }

  /** Each supported kind yields version 1 and its fixed, ordered step list. */
  lemma BuildPlanSupportedKinds(request: TaskRequest, now: string)
    requires request.kind.Some?
    ensures request.kind.value == "hydrate" ==>
      BuildPlan(request, now).Success? && BuildPlan(request, now).value.version == 1 &&
      Uses(BuildPlan(request, now).value.steps) == ["parse_url", "hydrate_provider", "upsert_link", "upsert_embedding"]
    ensures request.kind.value == "summarize" ==>
      BuildPlan(request, now).Success? && BuildPlan(request, now).value.version == 1 &&
      Uses(BuildPlan(request, now).value.steps) == ["load_link", "summarize_on_open"]
    ensures request.kind.value == "search" ==>
      BuildPlan(request, now).Success? && BuildPlan(request, now).value.version == 1 &&
      Uses(BuildPlan(request, now).value.steps) == ["search_rewrite", "search_merge"]
  {
    var steps := if request.kind.value == "hydrate" then HydrateSteps()
      else if request.kind.value == "summarize" then SummarizeSteps() else SearchSteps();
    if request.kind.value in PlanBuilders() {
      assert PlanBuilders()[request.kind.value](request) == steps;
    }
  }

  /** Any kind other than the three is refused with a planning error. */
  lemma BuildPlanUnsupportedKind(request: TaskRequest, now: string)
    requires request.kind.None? || request.kind.value !in {"hydrate", "summarize", "search"}
    ensures BuildPlan(request, now).Failure?
  {
    PlanBuildersKinds();
  }

  /** The steps depend on the kind alone, never on url, query, linkId or note. */
  lemma BuildPlanDependsOnlyOnKind(r1: TaskRequest, r2: TaskRequest, now: string)
    requires r1.kind == r2.kind
    ensures BuildPlan(r1, now) == BuildPlan(r2, now)
  {
    if r1.kind.Some? && r1.kind.value in PlanBuilders() {
      var k := r1.kind.value;
      assert PlanBuilders()[k](r1) == PlanBuilders()[k](r2);
    }
  }

  /** A builder that yields no steps is refused; the built-in table has none. */
  lemma EmptyBuilderRefused(request: TaskRequest, now: string)
    requires request.kind == Some("hydrate")
    ensures BuildPlanWith(map["hydrate" := (_: TaskRequest) => []], request, now)
      == Failure(PlanningError("Plan builder for 'hydrate' produced no steps"))
    ensures forall k :: k in PlanBuilders() ==> |PlanBuilders()[k](request)| > 0
  {
    PlanBuildersKinds();
    assert "Plan builder for '" + "hydrate" + "' produced no steps" == "Plan builder for 'hydrate' produced no steps";
  }
}
