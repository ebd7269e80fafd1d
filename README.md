# Shelf agent plan engine, modelled in Dafny

This project models the agent layer of Shelf, a link-saving application. It
covers five parts:

- the planner, which turns a task request (`hydrate`, `summarize`, `search`)
  into an ordered list of named steps;
- the executor, which keeps a registry of named skills and runs a plan step
  by step over a shared state bag, with a per-step retry cap, quadratic
  backoff between failed attempts, and an abort signal;
- the URL parsing skill (`parse_url`);
- the provider hydration skill (`hydrate_provider`);
- the link persistence skill (`upsert_link`), together with the list that
  registers the three core skills.

Module layout, one module per source file:

| module | file | source |
|---|---|---|
| `Planner` | `planner.dfy` | `lib/agents/planner.ts` |
| `Executor` | `executor.dfy` | `lib/agents/executor.ts` (properties in `ExecutorProperties`, `executor_properties.dfy`) |
| `ParseUrl` | `parse_url.dfy` | `lib/agents/skills/parseUrl.ts` |
| `HydrateProvider` | `hydrate_provider.dfy` | `lib/agents/skills/hydrateProvider.ts` |
| `UpsertLink` | `upsert_link.dfy` | `lib/agents/skills/upsertLink.ts` |
| `SkillTypes` | `skill_types.dfy` | `lib/agents/skills/types.ts` |
| `CoreSkills` | `core_skills.dfy` | `lib/agents/skills/index.ts` |

Three helper modules support them:

- `Wrappers`: `Option` and `Result`.
- `Strings`: prefix and suffix tests, ASCII lower-casing, greedy character
  runs and the last path segment.
- `Values`: the values the state bag holds, and the step arguments.

How the model treats the source's behaviour:

- **Registry.** The module-level `skills` map of the executor is the class
  `Executor.SkillRegistry`. It has a `map` from name to definition and a
  `seq` of names in insertion order, because a JavaScript `Map` keeps a
  re-registered name in its first position.
- **Runs.** `Executor.RunPlan` is the imperative runner. It is proved equal
  to the specification function `Executor.RunSpec`, and the properties of
  runs are proved about `RunSpec`.
- **Skill handlers.** A handler is a function of its arguments and its
  context. It returns the state bag as it left it: the in-place writes of
  the source become a returned map.
- **Attempts and waits.** Each attempt and each backoff wait is recorded in
  an event log (`Attempted`, `Slept`); the waits are not performed.
- **Outside the model.** Three things are parameters instead:
  - the WHATWG URL parser (`ParseUrl.UrlParser`);
  - the three provider clients (`HydrateProvider.ProviderClient`);
  - `process.env` (`HydrateProvider.Env`).

  The abort signal is given by what it reports at its two check points.

## Model

| member | source | states |
|---|---|---|
| Executor.SkillRegistry.RegisterSkill | lib/agents/executor.ts:70-72 | the registry stays well formed; the name now maps to the new definition, other names keep theirs, and a new name is appended to the order while a known one keeps its place |
| Executor.SkillRegistry.GetRegisteredSkills | lib/agents/executor.ts:74-76 | the listing holds every registered name exactly once, in insertion order |
| Executor.SkillRegistry.ClearSkills | lib/agents/executor.ts:78-80 | the registry is empty afterwards |
| Executor.Register | lib/agents/executor.ts:70-72 | one `set`: the keys gain the name, the name maps to the definition, other names are unchanged, well-formedness is kept; a new name is appended to the insertion order and a known name keeps its place |
| Executor.RegisterAll | lib/agents/executor.ts:70-72 | registering a list one by one keeps the registry well formed |
| ExecutorProperties.RegisterAllSkills | lib/agents/executor.ts:70-72 | after registering a list, each of its names maps to the last definition of that name, and other names are untouched |
| ExecutorProperties.RegisterAllKeys | lib/agents/executor.ts:70-72 | the registered names are exactly the old ones plus the list's |
| ExecutorProperties.RegisterAllKeepsOrder | lib/agents/executor.ts:70-72 | re-registering names already present leaves the listing order unchanged |
| ExecutorProperties.RegisterAllIdempotent | lib/agents/executor.ts:70-72 | registering the same list twice gives the same registry as once |
| ExecutorProperties.RegisterAllMapsEach | lib/agents/executor.ts:70-72 | with distinct names, every definition of the list is what its name maps to |
| Executor.BackoffDelay | lib/agents/executor.ts:154-157 | the wait is between 0 and 2000 ms |
| ExecutorProperties.BackoffDelayMonotone | lib/agents/executor.ts:154-157 | the wait never shrinks as the attempt number grows |
| ExecutorProperties.BackoffDelaySchedule | lib/agents/executor.ts:154-157 | the waits are 200, 800 and 1800 ms, then capped at 2000 ms from the fourth failure on |
| ExecutorProperties.MaxAttemptsPrecedence | lib/agents/executor.ts:102 | the skill's cap wins (even 0), then the run option, then 3 |
| Executor.RunStepAttempts | lib/agents/executor.ts:104-140 | the attempt loop of one step produces exactly the end and log of the specification `RunStep` |
| Executor.RunPlan | lib/agents/executor.ts:82-146 | the runner's outcome and log equal `RunSpec`: abort on entry, the plan override or the built plan, then the steps in order over a bag that starts empty |
| ExecutorProperties.AttemptsShape | lib/agents/executor.ts:104-140 | every invocation of a step's loop is of that step, numbered within the cap, and not vetoed by the signal; an execution error is the cap-th attempt failing with that cause |
| ExecutorProperties.SucceedsOnAttempt | lib/agents/executor.ts:104-140 | a handler that, on the contexts the run builds for the step, first succeeds on attempt k is invoked exactly for attempts 1..k, with the backoff waits 1..k-1 between them |
| ExecutorProperties.FailsOnceThenSucceeds | lib/agents/executor.ts:104-140 | a handler that fails attempt 1 leaving the bag as it was and succeeds on attempt 2 is invoked twice, with the first backoff wait between, and the step finishes with the second attempt's bag |
| ExecutorProperties.ExhaustsAttempts | lib/agents/executor.ts:125-138 | a handler failing on every attempt up to the cap, on the contexts the run builds for the step, is invoked for attempts 1..cap and the step ends in an execution error naming the step, the cap and the last failure |
| ExecutorProperties.AbortedAttemptStops | lib/agents/executor.ts:104-107 | an attempt within the cap that the signal vetoes is not invoked: the step stops with an abort error and logs nothing more |
| ExecutorProperties.AbortDuringRetries | lib/agents/executor.ts:104-138 | a handler failing attempts from..k-1 with attempt k vetoed: exactly those attempts are invoked, each followed by its backoff wait, and the step stops with an abort error, not an execution error |
| ExecutorProperties.AbortStopNeedsVeto | lib/agents/executor.ts:104-107 | a step stops with an abort error only if the signal vetoed one of its attempts within the cap |
| ExecutorProperties.ZeroCapSkipsStep | lib/agents/executor.ts:102-104 | a resolved cap of 0 runs no attempt, and the step is passed over with the bag unchanged |
| ExecutorProperties.StepLogWithin | lib/agents/executor.ts:104-140 | one step's log only invokes that step, with attempts at least 1 that the signal allowed |
| ExecutorProperties.StepsInOrder | lib/agents/executor.ts:96-141 | steps run in plan order; a halted run invokes nothing after the step that halted it |
| ExecutorProperties.HaltReason | lib/agents/executor.ts:96-141 | a run halts only for three reasons: an unregistered skill (attempt 0, never invoked), an exhausted cap (the last invocation failed with the recorded cause), or the abort signal |
| ExecutorProperties.MissingSkillBlocksCompletion | lib/agents/executor.ts:97-100 | while a plan step names an unregistered skill the plan cannot complete; it halts there with attempt 0 or earlier |
| ExecutorProperties.AbortOnEntry | lib/agents/executor.ts:86-88 | an already-aborted signal throws before any planning or invocation |
| ExecutorProperties.CompletedRun | lib/agents/executor.ts:90-145 | a completed run returns the plan it ran, with the override taking precedence; its steps ran in order and no vetoed attempt was invoked |
| ExecutorProperties.ExecutionErrorIsLast | lib/agents/executor.ts:96-141 | an execution error names a step of the plan; every invocation is of that step or an earlier one, and for attempt a > 0 the last invocation is attempt a of that step, failing with the recorded cause |
| ExecutorProperties.VetoHaltsRun | lib/agents/executor.ts:104-107 | a registered step whose handler fails attempts 1..k-1 and whose attempt k is vetoed halts the run at that step with an abort error, after invoking exactly attempts 1..k-1 |
| ExecutorProperties.AbortHaltNeedsVeto | lib/agents/executor.ts:96-107 | a run halted by an abort error halted at a step of the plan whose attempt the signal vetoed |
| ExecutorProperties.AbortErrorMeansSignal | lib/agents/executor.ts:86-107 | a run throws an abort error only if the signal was aborted on entry or vetoed an attempt of some step |
| ExecutorProperties.AbortBeforeFirstStep | lib/agents/executor.ts:104-107 | a signal raised after planning but before the first attempt of the first step makes the run throw an abort error with nothing invoked |
| Planner.BuildPlanWith | lib/agents/planner.ts:67-87 | success iff the kind is present, non-empty, has a builder, and the builder yields steps; a success is version 1 with the given time and the builder's steps; a missing or empty kind gives "Agent task kind is required", a kind without a builder "No plan builder registered for kind '<kind>'", and a builder with no steps "Plan builder for '<kind>' produced no steps" |
| Planner.PlanBuildersKinds | lib/agents/planner.ts:25-58 | the builder table holds exactly hydrate, summarize and search |
| Planner.BuildPlanSupportedKinds | lib/agents/planner.ts:25-58 | each supported kind yields version 1 and its fixed, ordered list of skill names |
| Planner.BuildPlanUnsupportedKind | lib/agents/planner.ts:72-75 | any other or missing kind is refused with a planning error |
| Planner.BuildPlanDependsOnlyOnKind | lib/agents/planner.ts:77 | the plan depends on the kind alone, never on url, query, linkId or note |
| Planner.EmptyBuilderRefused | lib/agents/planner.ts:77-80 | a builder that yields no steps is refused with the "produced no steps" message; no built-in builder does |
| ParseUrl.StripWww | lib/agents/skills/parseUrl.ts:77 | the domain differs from the hostname iff the hostname starts with `www.`, and then by exactly that prefix |
| ParseUrl.InferProvider | lib/agents/skills/parseUrl.ts:4-25 | detection on the lower-cased host, in precedence order: the `reddit.com` suffix, then the X hosts, then the `arxiv.org` suffix or a dotless host, else unknown (each as an iff) |
| ParseUrl.InferProviderIgnoresCase | lib/agents/skills/parseUrl.ts:5 | hosts equal up to ASCII case get the same provider |
| ParseUrl.RedditSuffix | lib/agents/skills/parseUrl.ts:7-9 | any host ending in `reddit.com`, in any case and with no dot boundary, is Reddit |
| ParseUrl.XHosts | lib/agents/skills/parseUrl.ts:11-13 | every subdomain of `x.com`, and `twitter.com` in any case, is X |
| ParseUrl.TwitterSubdomainsUnknown | lib/agents/skills/parseUrl.ts:11-24 | subdomains of `twitter.com` are not X: they come out unknown |
| ParseUrl.ArxivSuffix | lib/agents/skills/parseUrl.ts:15-17 | any host ending in `arxiv.org` is arXiv |
| ParseUrl.DotlessIsArxiv | lib/agents/skills/parseUrl.ts:19-22 | a host without a dot is taken for arXiv |
| ParseUrl.FindFrom | lib/agents/skills/parseUrl.ts:29-39 | the search finds the leftmost position at or after `from` where the pattern matches, or reports that none matches |
| ParseUrl.Match | lib/agents/skills/parseUrl.ts:29-39 | `match(...)?.[1]` is absent iff the pattern matches nowhere; otherwise it is the capture at the leftmost matching position |
| ParseUrl.MatchIsLeftmost | lib/agents/skills/parseUrl.ts:29-39 | a match with none before it is the one reported |
| ParseUrl.CaptureAt | lib/agents/skills/parseUrl.ts:29-39 | a capture is non-empty and drawn from the pattern's character class |
| ParseUrl.CaptureAtMeaning | lib/agents/skills/parseUrl.ts:29-39 | a match at a position is one of the pattern's literals there, ignoring case, with the capture the non-empty greedy run of the pattern's class after it (`/statuses/` or `/status/` for X); there is no match when no literal is followed by such a run |
| ParseUrl.RootSegment | lib/agents/skills/parseUrl.ts:39 | the first path segment after a leading `/`, absent when the path does not start with `/` or the segment is empty |
| ParseUrl.ExtractProviderId | lib/agents/skills/parseUrl.ts:27-44 | the Reddit id is the `/comments/` capture and the X id the `/status/` or `/statuses/` capture; the arXiv id is the `/abs/` capture when there is one and otherwise the root segment; no id for an unknown provider; an id is non-empty and slash-free, and an X id is all digits |
| ParseUrl.StatusPathId | lib/agents/skills/parseUrl.ts:33-35 | `/status/<digits>` yields those digits as the X id |
| ParseUrl.StatusesPathId | lib/agents/skills/parseUrl.ts:33-35 | `/statuses/<digits>` yields those digits as the X id |
| ParseUrl.AbsPathId | lib/agents/skills/parseUrl.ts:38-40 | `/abs/<id>` yields the id up to the next slash as the arXiv id |
| ParseUrl.AbsRootSegment | lib/agents/skills/parseUrl.ts:39 | the root segment of such a path is `abs`, so the `/abs/` capture is what prevents `abs` from becoming the id |
| ParseUrl.CommentsPathId | lib/agents/skills/parseUrl.ts:28-30 | `/comments/<id>` with an alphanumeric id yields that id as the Reddit id |
| ParseUrl.NormalizeUrl | lib/agents/skills/parseUrl.ts:46-60 | X and arXiv URLs with a non-empty id become `https://x.com/i/web/status/<id>` and `https://arxiv.org/abs/<id>`; a Reddit URL is exactly `https://www.reddit.com` + `DropTrailingSlash(pathname)`: the path unchanged unless it ends in `/`, and then with that one slash removed; every other URL, X and arXiv without an id included, keeps its own scheme, host and path |
| ParseUrl.NormalizeUrlDropsQuery | lib/agents/skills/parseUrl.ts:46-60 | query and fragment never affect the normalised URL |
| ParseUrl.UrlInfoOf | lib/agents/skills/parseUrl.ts:77-88 | the record keeps the raw URL; the domain is the hostname without `www.`; the provider is inferred from the domain, the id extracted from the path, and the normalised URL built from the parts, the provider and that id |
| ParseUrl.NormalizedEndsWithId | lib/agents/skills/parseUrl.ts:46-57 | for X and arXiv with an id, the normalised URL is the canonical one and its last segment is the id |
| ParseUrl.UnknownProviderInfo | lib/agents/skills/parseUrl.ts:20-24 | an unknown provider has a dotted host and no id, and keeps its own scheme, host and path |
| ParseUrl.XWithoutIdKeepsUrl | lib/agents/skills/parseUrl.ts:46-59 | an X URL with no status id has no id and keeps its own scheme, host and path instead of an `x.com` status URL |
| ParseUrl.RawUrl | lib/agents/skills/parseUrl.ts:65 | the step's url wins when present (even empty), else the task's |
| ParseUrl.ParseUrlRun | lib/agents/skills/parseUrl.ts:62-102 | a missing or empty URL throws the "requires a URL" error and an unparsable one the "Invalid URL" error; otherwise it succeeds, writes `urlInfo`, writes `linkId` only for a non-empty task link id, and leaves every other key as it was |
| ParseUrl.RedditExample | lib/agents/skills/parseUrl.ts:62-102 | the sample Reddit URL parses to provider reddit, id `abc123`, domain `reddit.com` and the URL without its trailing slash |
| ParseUrl.RedditCommentsId | lib/agents/skills/parseUrl.ts:28-30 | the sample path's leftmost `/comments/` capture is `abc123` |
| HydrateProvider.Credential | lib/agents/skills/hydrateProvider.ts:60-63 | the step argument wins, then the stored credentials, then the environment |
| HydrateProvider.IdentifierOf | lib/agents/skills/hydrateProvider.ts:71 | the stored id when present; otherwise the whole last `/`-segment of the normalised URL: a slash-free tail that is either the whole URL or preceded by `/` |
| HydrateProvider.ResolveRequest | lib/agents/skills/hydrateProvider.ts:49-103 | Reddit always calls its client with the URL, the id and the resolved token; X and arXiv skip with their own message when the identifier is empty, and otherwise call with it |
| HydrateProvider.ResolveHydration | lib/agents/skills/hydrateProvider.ts:49-103 | a skip becomes `skipped` with the reason and no content, with no client called; otherwise the result is the client's answer to the request on this attempt, a result or a rejection |
| HydrateProvider.HydrateProviderRun | lib/agents/skills/hydrateProvider.ts:13-47 | it throws iff there is no `urlInfo` (with its own message) or a known provider's client rejects (with the client's message); an unknown provider only clears `hydratedContent`; otherwise it stores the result, stores its content (or clears the key), and leaves every other key as it was |
| HydrateProvider.UnknownProviderCallsNoClient | lib/agents/skills/hydrateProvider.ts:21-25 | for an unknown provider no client is consulted, and `hydration` is not written |
| HydrateProvider.EmptyIdentifierSkips | lib/agents/skills/hydrateProvider.ts:70-98 | an X or arXiv URL without an identifier is skipped with its message, with no client consulted and no content stored |
| HydrateProvider.EmptyIdentifier | lib/agents/skills/hydrateProvider.ts:71-74 | the identifier is empty iff the stored id is empty, or there is none and the normalised URL is empty or ends in `/` |
| HydrateProvider.SkippedIsReturned | lib/agents/skills/hydrateProvider.ts:30-36 | a client resolving to `skipped` with partial content: the result is returned, not thrown, and stored, and its partial content is stored |
| HydrateProvider.OkStoresContent | lib/agents/skills/hydrateProvider.ts:30-36 | a client resolving to `ok` makes the skill store its full content |
| HydrateProvider.ClientFailureRaises | lib/agents/skills/hydrateProvider.ts:28-36 | a client that rejects makes the skill throw the client's message, before `hydration` or `hydratedContent` is written |
| HydrateProvider.ClientSuccessStores | lib/agents/skills/hydrateProvider.ts:28-36 | a client that resolves makes the skill return its result and write it, with its content, to the bag |
| HydrateProvider.RedditAlwaysCalls | lib/agents/skills/hydrateProvider.ts:56-68 | the Reddit branch always calls its client and passes the id through, absent or empty |
| HydrateProvider.ArgumentTokenWins | lib/agents/skills/hydrateProvider.ts:60-63 | a token in the step arguments wins for both Reddit and X |
| HydrateProvider.StoredTokenWins | lib/agents/skills/hydrateProvider.ts:60-63 | without arguments, stored credentials win over the environment |
| SkillTypes.ResultContent | lib/agents/skills/types.ts:22-24 | `result.content`: the full content of `ok`, the optional partial content of `skipped` |
| UpsertLink.Payload | lib/agents/skills/upsertLink.ts:16-28 | the payload takes url, provider, id and domain from the parsed URL; linkId and note come from the bag or else the task; title, text and raw come from the hydrated content when present; there is no summary |
| UpsertLink.UpsertLinkRun | lib/agents/skills/upsertLink.ts:4-33 | it throws iff `urlInfo` is missing or its provider is unknown (each with its own message); otherwise it returns the payload and stores it under `persistLink` |
| UpsertLink.OnlyPersistLinkWritten | lib/agents/skills/upsertLink.ts:30-31 | the only key written is `persistLink`, holding the returned payload |
| UpsertLink.StateWinsOverTask | lib/agents/skills/upsertLink.ts:19-27 | the bag's link id and note win over the task's, even when empty |
| UpsertLink.TaskFallback | lib/agents/skills/upsertLink.ts:19-27 | without them in the bag, the task's are used |
| UpsertLink.UpsertLinkIdempotent | lib/agents/skills/upsertLink.ts:4-33 | running again on its own output gives the same payload and the same bag |
| CoreSkills.Outcome | lib/agents/executor.ts:111-125 | a returning handler hands on its bag; a throwing one fails with its message and the bag as it was |
| CoreSkills.HydrateClientFailureFailsAttempt | lib/agents/skills/hydrateProvider.ts:28 | a rejecting provider client fails the `hydrate_provider` attempt with the client's message and the bag as it was on entry, so the runner retries the step |
| CoreSkills.HydrateRetryRecovers | lib/agents/executor.ts:104-140 | a provider fetch that rejects on attempt 1 and succeeds on attempt 2 is retried after a 200 ms wait, and the step finishes with the second answer stored |
| CoreSkills.CoreSkillList | lib/agents/skills/index.ts:6 | the core skills are parse_url, hydrate_provider and upsert_link, in that order, none with its own cap |
| CoreSkills.RegisterCoreSkills | lib/agents/skills/index.ts:8-12 | the loop registers each core skill in turn and keeps the registry well formed |
| CoreSkills.CoreSkillsRegistered | lib/agents/skills/index.ts:8-12 | afterwards each core name maps to its skill, and the registered names are the old ones plus the three |
| CoreSkills.RegisterCoreSkillsTwice | lib/agents/skills/index.ts:8-12 | registering the core skills twice equals registering them once |
| CoreSkills.HydratePlanNeedsEmbedding | lib/agents/executor.ts:96-100 | a `hydrate` run cannot complete without an `upsert_embedding` skill registered; if it halts there, it does so with attempt 0 and the "No skill registered" cause |
| CoreSkills.CoreOnlyHydratePlanFails | lib/agents/skills/index.ts:6 | with only the core skills registered, a `hydrate` run throws |
| CoreSkills.SamplePlanIsHydratePlan | tests/agents.smoke.ts:32-42 | the end-to-end example's plan is the built `hydrate` plan with the Reddit token set on its hydration step |
| CoreSkills.SmokeRegistry | tests/agents.smoke.ts:24-29 | registering the three core skills and a no-op `upsert_embedding` maps each name to its skill |
| CoreSkills.RedditSmokeRun | tests/agents.smoke.ts:44-67 | with that registry and a Reddit client answering the normalised URL, the run completes; `urlInfo` is Reddit, the stored content has the client's title, and `persistLink` carries reddit, `abc123` and that title |

## Left out

- Logging: the logger, the fallback console logger and every log call are not modelled; they have no effect on results.
- Timers: `delay` and `await` are not modelled. Each backoff wait is an `Slept` event in the log, and asynchronous handlers are treated as synchronous.
- The abort signal: only its `aborted` flag at the two check points is modelled. The `AbortSignal` object and the `DOMException` type are not.
- Error objects: the message text of `AgentExecutionError` and the JavaScript error objects are not modelled. A handler's failure cause is a string.
- URL parsing: `new URL` is a parameter (`ParseUrl.UrlParser`); WHATWG parsing and the text of its error messages are not modelled.
- Provider clients: `hydrateReddit`, `hydrateX` and `hydrateArxiv` are not part of this model. Their calls are a parameter (`HydrateProvider.ProviderClient`) that either resolves to a result or rejects with an error message. The attempt number is passed to it to stand for the moment of the call, so a fetch may reject on one attempt and succeed on a later one; which requests make them reject is not modelled. The fetcher functions passed through step arguments are left out with them.
- `process.env` is a parameter (`HydrateProvider.Env`).
- `createdAt`: the plan's timestamp (`new Date().toISOString()`) is a parameter.
- Case folding: `toLowerCase` and the `i` flag of the regular expressions are modelled on ASCII letters only.
- Task kinds that name `Object.prototype` members (such as `toString`): these would find an inherited property in `PLAN_BUILDERS`. They are not modelled, and only the table's own keys count.
- Numbers: `maxAttempts` is an integer; fractional and non-finite caps are not modelled.
- The state bag: a bag value of the wrong shape is read as absent, whereas the source's unchecked casts would use it as present. This affects the reads of `urlInfo` and `hydratedContent` (lib/agents/skills/upsertLink.ts:7,16, lib/agents/skills/hydrateProvider.ts:16), `linkId` and `note` (lib/agents/skills/upsertLink.ts:19,27) and `credentials` (lib/agents/skills/hydrateProvider.ts:62,80). For example, any truthy `urlInfo` passes the `!urlInfo` guard, and `??` keeps any non-nullish `linkId` or `note`, a number included, where the model falls back to the task's own value. Writes to the bag are returned maps, not updates in place, so aliasing of the bag between handlers is not captured.
- Handler return values: those of the core skills are modelled (`SkillReturn`), but the executor ignores them.
- The `default` branch of `resolveHydration` is not modelled: its argument is a supported provider, so the branch cannot be reached.
- ParseUrl.InferProvider: the unused `pathname` parameter of `inferProvider` is dropped.
- `LinkDraft` in types.ts is not used by the core and is not modelled.
- The text checks of the end-to-end example on the hydrated body (`Post body`, `First comment`) depend on the Reddit client, which is not part of this model.
