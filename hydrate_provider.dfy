/**
 * The `hydrate_provider` skill (lib/agents/skills/hydrateProvider.ts): the
 * choice of provider request from the parsed URL, the step arguments, the
 * stored credentials and the environment, and the skill's writes to the
 * state bag.  The provider clients themselves are an input:
 * `ProviderClient` stands for `hydrateReddit`, `hydrateX` and `hydrateArxiv`,
 * each of which either resolves to a result or rejects with an error message,
 * and may answer differently from one call to the next.
 */
module HydrateProvider {
  import opened Wrappers
  import opened Strings
  import opened SkillTypes
  import opened Values

  /** The options `resolveHydration` hands to a provider client (fetchers left out). */
  datatype ProviderRequest =
    | RedditRequest(url: string, providerId: Option<string>, accessToken: Option<string>,
                    userAgent: Option<string>, limitComments: Option<int>)
    | XRequest(id: string, bearerToken: Option<string>)
    | ArxivRequest(id: string)

  /**
   * The three provider clients, as one function of the request and of the
   * attempt of the step making the call: a result (`ok` or `skipped`), or the
   * message of the error the client's promise rejects with (a failed fetch,
   * an HTTP error status, a missing token).  The attempt number stands for
   * the moment of the call, so that a fetch that rejects once and succeeds
   * when retried can be expressed.
   */
  type ProviderClient = (ProviderRequest, int) -> Result<HydrationResult, string>

  /** `process.env.REDDIT_ACCESS_TOKEN` and `process.env.X_BEARER_TOKEN`. */
  datatype Env = Env(redditAccessToken: Option<string>, xBearerToken: Option<string>)

  /** Either the request to send, or the reason to skip without calling any client. */
  datatype Resolution = Call(request: ProviderRequest) | Skip(reason: string)

  /** `args.reddit`, or an empty record when the step has none. */
  function RedditArgsOf(args: Option<StepArgs>): RedditArgs {
    if args.Some? && args.value.reddit.Some? then args.value.reddit.value else RedditArgs(None, None, None)
  }

  /** `args.x`, or an empty record when the step has none. */
  function XArgsOf(args: Option<StepArgs>): XArgs {
    if args.Some? && args.value.x.Some? then args.value.x.value else XArgs(None)
  }

  /**
   * `a ?? b ?? c` for the credentials: the step argument when given, else the
   * one stored in the bag, else the environment.  An empty string counts as
   * given.
   */
  function Credential(fromArgs: Option<string>, fromState: Option<string>, fromEnv: Option<string>): (r: Option<string>)
    ensures fromArgs.Some? ==> r == fromArgs
    ensures fromArgs.None? && fromState.Some? ==> r == fromState
    ensures fromArgs.None? && fromState.None? ==> r == fromEnv
  {
    fromArgs.OrElse(fromState).OrElse(fromEnv)
  }

  /** `state.credentials?.reddit?.accessToken`. */
  function StoredRedditToken(state: State): Option<string> {
    if CredentialsIn(state).Some? then CredentialsIn(state).value.redditAccessToken else None
  }

  /** `state.credentials?.x?.bearerToken`. */
  function StoredXToken(state: State): Option<string> {
    if CredentialsIn(state).Some? then CredentialsIn(state).value.xBearerToken else None
  }

  /**
   * `urlInfo.providerId ?? urlInfo.normalized.split("/").pop() ?? ""`: the
   * stored id, else the last segment of the normalised URL (`pop` on the
   * result of `split` is never undefined, so the final `""` is never used).
   */
  function IdentifierOf(info: ParsedUrlInfo): (id: string)
    ensures info.providerId.Some? ==> id == info.providerId.value
    ensures info.providerId.None? ==> EndsWith(info.normalized, id) && forall k :: 0 <= k < |id| ==> id[k] != '/'
    ensures info.providerId.None? ==>
      id == info.normalized || info.normalized[|info.normalized| - |id| - 1] == '/'
  {
    info.providerId.GetOr(LastSegment(info.normalized))
  }

  /** The `switch` of `resolveHydration`, up to the client call. */
  function ResolveRequest(provider: SupportedProvider, info: ParsedUrlInfo, args: Option<StepArgs>, state: State, env: Env): (r: Resolution)
    ensures provider.Reddit? ==> r == Call(RedditRequest(info.normalized, info.providerId,
      Credential(RedditArgsOf(args).accessToken, StoredRedditToken(state), env.redditAccessToken),
      RedditArgsOf(args).userAgent, RedditArgsOf(args).limitComments))
    ensures provider.X? ==>
      if IdentifierOf(info) == "" then r == Skip("Missing X provider identifier")
      else r == Call(XRequest(IdentifierOf(info), Credential(XArgsOf(args).bearerToken, StoredXToken(state), env.xBearerToken)))
    ensures provider.Arxiv? ==>
      if IdentifierOf(info) == "" then r == Skip("Missing arXiv identifier")
      else r == Call(ArxivRequest(IdentifierOf(info)))
  {
    match provider
    case Reddit =>
      var reddit := RedditArgsOf(args);
      Call(RedditRequest(info.normalized, info.providerId,
        Credential(reddit.accessToken, StoredRedditToken(state), env.redditAccessToken),
        reddit.userAgent, reddit.limitComments))
    case X =>
      var providerId := IdentifierOf(info);
      if providerId == "" then Skip("Missing X provider identifier")
      else Call(XRequest(providerId, Credential(XArgsOf(args).bearerToken, StoredXToken(state), env.xBearerToken)))
    case Arxiv =>
      var providerId := IdentifierOf(info);
      if providerId == "" then Skip("Missing arXiv identifier")
      else Call(ArxivRequest(providerId))
  }

  /**
   * `resolveHydration`: the client's result or rejection, or `skipped` with
   * the reason and no content when no client is called.
   */
  function ResolveHydration(provider: SupportedProvider, info: ParsedUrlInfo, args: Option<StepArgs>, state: State,
                            env: Env, client: ProviderClient, attempt: int): (r: Result<HydrationResult, string>)
    ensures ResolveRequest(provider, info, args, state, env).Skip? ==>
      r == Success(Skipped(ResolveRequest(provider, info, args, state, env).reason, None))
    ensures ResolveRequest(provider, info, args, state, env).Call? ==>
      r == client(ResolveRequest(provider, info, args, state, env).request, attempt)
  {
    match ResolveRequest(provider, info, args, state, env)
    case Skip(reason) => Success(Skipped(reason, None))
    case Call(request) => client(request, attempt)
  }

  const MissingUrlInfoMessage := "hydrate_provider requires urlInfo in state"

  /** The bag after hydration: the result, and its content (or undefined when it has none). */
  function HydrationWrites(state: State, result: HydrationResult): State {
    var content := ResultContent(result);
    state["hydration" := Hydration(result)]["hydratedContent" := if content.Some? then Hydrated(content.value) else Undefined]
  }

  /**
   * `hydrateProviderSkill.run`: the value is the returned result, `None` for
   * `undefined`.  A rejected client call propagates out of the skill before
   * anything is written.  `attempt` is the step's attempt number, handed to
   * the client.
   */
  function HydrateProviderRun(client: ProviderClient, env: Env, args: Option<StepArgs>, state: State, attempt: int): (r: SkillReturn<Option<HydrationResult>>)
    ensures r.Raised? <==>
      UrlInfoIn(state).None? ||
      (!UrlInfoIn(state).value.provider.Unknown? &&
       ResolveHydration(UrlInfoIn(state).value.provider, UrlInfoIn(state).value, args, state, env, client, attempt).Failure?)
    ensures r.Raised? && UrlInfoIn(state).None? ==> r.message == MissingUrlInfoMessage
    ensures r.Raised? && UrlInfoIn(state).Some? ==>
      r.message == ResolveHydration(UrlInfoIn(state).value.provider, UrlInfoIn(state).value, args, state, env, client, attempt).error
    ensures r.Done? && UrlInfoIn(state).value.provider.Unknown? ==>
      r.value.None? && r.state == state["hydratedContent" := Undefined]
    ensures r.Done? && !UrlInfoIn(state).value.provider.Unknown? ==>
      && r.value.Some?
      && Success(r.value.value) == ResolveHydration(UrlInfoIn(state).value.provider, UrlInfoIn(state).value, args, state, env, client, attempt)
      && r.state.Keys == state.Keys + {"hydration", "hydratedContent"}
      && r.state["hydration"] == Hydration(r.value.value)
      && (ResultContent(r.value.value).Some? ==> r.state["hydratedContent"] == Hydrated(ResultContent(r.value.value).value))
      && (ResultContent(r.value.value).None? ==> r.state["hydratedContent"] == Undefined)
      && forall k :: k in state && k != "hydration" && k != "hydratedContent" ==> r.state[k] == state[k]
  {
    match UrlInfoIn(state)
    case None => Raised(MissingUrlInfoMessage)
    case Some(info) =>
      if info.provider.Unknown? then Done(None, state["hydratedContent" := Undefined])
      else
        match ResolveHydration(info.provider, info, args, state, env, client, attempt)
        case Failure(message) => Raised(message)
        case Success(result) => Done(Some(result), HydrationWrites(state, result))
  }

  /** For an unknown provider no client is called: any two clients give the same run. */
  lemma UnknownProviderCallsNoClient(c1: ProviderClient, c2: ProviderClient, env: Env, args: Option<StepArgs>, state: State, attempt: int)
    requires UrlInfoIn(state).Some? && UrlInfoIn(state).value.provider.Unknown?
    ensures HydrateProviderRun(c1, env, args, state, attempt) == HydrateProviderRun(c2, env, args, state, attempt)
    ensures HydrateProviderRun(c1, env, args, state, attempt).Done?
    ensures "hydration" in HydrateProviderRun(c1, env, args, state, attempt).state <==> "hydration" in state
  {
  }

  /**
   * For X and arXiv an empty identifier skips without calling a client; the
   * run still succeeds and records the `skipped` result.
   */
  lemma EmptyIdentifierSkips(c1: ProviderClient, c2: ProviderClient, env: Env, args: Option<StepArgs>, state: State, attempt: int)
    requires UrlInfoIn(state).Some?
    requires UrlInfoIn(state).value.provider in {X, Arxiv}
    requires IdentifierOf(UrlInfoIn(state).value) == ""
    ensures HydrateProviderRun(c1, env, args, state, attempt) == HydrateProviderRun(c2, env, args, state, attempt)
    ensures var r := HydrateProviderRun(c1, env, args, state, attempt);
      r.Done? && r.value.Some? && r.value.value.Skipped? && r.value.value.partial.None? &&
      r.value.value.reason == (if UrlInfoIn(state).value.provider.X? then "Missing X provider identifier" else "Missing arXiv identifier") &&
      r.state["hydratedContent"] == Undefined
  {
  }

  /** An identifier is empty only when the stored id is empty, or absent with a URL ending in `/`. */
  lemma EmptyIdentifier(info: ParsedUrlInfo)
    ensures IdentifierOf(info) == "" <==>
      info.providerId == Some("") || (info.providerId.None? && (info.normalized == "" || EndsWith(info.normalized, "/")))
  {
    if info.providerId.None? && info.normalized != "" && !EndsWith(info.normalized, "/") {
      var s := info.normalized;
      assert s[|s| - 1..] != "/";
      assert s[|s| - 1] != '/';
    }
  }

  /**
   * A `skipped` result is returned, not thrown; partial content it carries
   * becomes `hydratedContent`.
   */
  lemma SkippedIsReturned(client: ProviderClient, env: Env, args: Option<StepArgs>, state: State,
                          attempt: int, reason: string, partial: PartialContent)
    requires UrlInfoIn(state).Some? && !UrlInfoIn(state).value.provider.Unknown?
    requires ResolveRequest(UrlInfoIn(state).value.provider, UrlInfoIn(state).value, args, state, env).Call?
    requires client(ResolveRequest(UrlInfoIn(state).value.provider, UrlInfoIn(state).value, args, state, env).request, attempt)
      == Success(Skipped(reason, Some(partial)))
    ensures var r := HydrateProviderRun(client, env, args, state, attempt);
      r.Done? && r.value == Some(Skipped(reason, Some(partial))) &&
      r.state["hydratedContent"] == Hydrated(partial) &&
      r.state["hydration"] == Hydration(Skipped(reason, Some(partial)))
  {
  }

  /** An `ok` result stores its full content, every field present. */
  lemma OkStoresContent(client: ProviderClient, env: Env, args: Option<StepArgs>, state: State, attempt: int, content: HydratedContent)
    requires UrlInfoIn(state).Some? && !UrlInfoIn(state).value.provider.Unknown?
    requires ResolveRequest(UrlInfoIn(state).value.provider, UrlInfoIn(state).value, args, state, env).Call?
    requires client(ResolveRequest(UrlInfoIn(state).value.provider, UrlInfoIn(state).value, args, state, env).request, attempt)
      == Success(Ok(content))
    ensures var r := HydrateProviderRun(client, env, args, state, attempt);
      r.Done? && r.state["hydratedContent"] == Hydrated(AsPartial(content)) &&
      HydratedIn(r.state) == Some(AsPartial(content)) &&
      HydratedIn(r.state).value.title == Some(content.title)
  {
  }

  /**
   * A client that rejects makes the skill throw that client's message,
   * whatever the provider, before `hydration` or `hydratedContent` is written.
   */
  lemma ClientFailureRaises(client: ProviderClient, env: Env, args: Option<StepArgs>, state: State, attempt: int, message: string)
    requires UrlInfoIn(state).Some? && !UrlInfoIn(state).value.provider.Unknown?
    requires ResolveRequest(UrlInfoIn(state).value.provider, UrlInfoIn(state).value, args, state, env).Call?
    requires client(ResolveRequest(UrlInfoIn(state).value.provider, UrlInfoIn(state).value, args, state, env).request, attempt)
      == Failure(message)
    ensures HydrateProviderRun(client, env, args, state, attempt) == Raised(message)
  {
  }

  /** A client that resolves makes the skill return its result and write it, with its content, to the bag. */
  lemma ClientSuccessStores(client: ProviderClient, env: Env, args: Option<StepArgs>, state: State, attempt: int, result: HydrationResult)
    requires UrlInfoIn(state).Some? && !UrlInfoIn(state).value.provider.Unknown?
    requires ResolveRequest(UrlInfoIn(state).value.provider, UrlInfoIn(state).value, args, state, env).Call?
    requires client(ResolveRequest(UrlInfoIn(state).value.provider, UrlInfoIn(state).value, args, state, env).request, attempt)
      == Success(result)
    ensures HydrateProviderRun(client, env, args, state, attempt) == Done(Some(result), HydrationWrites(state, result))
  {
  }

  /** The Reddit branch always calls its client, passing the id through even when absent or empty. */
  lemma RedditAlwaysCalls(info: ParsedUrlInfo, args: Option<StepArgs>, state: State, env: Env)
    ensures ResolveRequest(Reddit, info, args, state, env).Call?
    ensures ResolveRequest(Reddit, info, args, state, env).request.providerId == info.providerId
    ensures ResolveRequest(Reddit, info, args, state, env).request.url == info.normalized
  {
  }

  /** A token in the step arguments wins over the stored credentials and the environment. */
  lemma ArgumentTokenWins(info: ParsedUrlInfo, state: State, env: Env, token: string)
    requires info.providerId.Some? && info.providerId.value != ""
    ensures var args := Some(StepArgs(None, Some(RedditArgs(Some(token), None, None)), Some(XArgs(Some(token)))));
      ResolveRequest(Reddit, info, args, state, env).request.accessToken == Some(token) &&
      ResolveRequest(X, info, args, state, env).request.bearerToken == Some(token)
  {
  }

  /** Without step arguments the stored credentials win over the environment. */
  lemma StoredTokenWins(info: ParsedUrlInfo, state: State, env: Env, creds: Credentials)
    requires info.providerId.Some? && info.providerId.value != ""
    requires "credentials" in state && state["credentials"] == CredentialsValue(creds)
    requires creds.redditAccessToken.Some? && creds.xBearerToken.Some?
    ensures ResolveRequest(Reddit, info, None, state, env).request.accessToken == creds.redditAccessToken
    ensures ResolveRequest(X, info, None, state, env).request.bearerToken == creds.xBearerToken
  {
  }
}
