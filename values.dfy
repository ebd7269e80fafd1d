/**
 * The shared state bag (`AgentState = Record<string, unknown>`) and the
 * per-step arguments, restricted to the shapes the core skills put in them.
 */
module Values {
  import opened Wrappers
  import opened SkillTypes

  /** `state.credentials`: `{ reddit?: { accessToken? }, x?: { bearerToken? } }`. */
  datatype Credentials = Credentials(redditAccessToken: Option<string>, xBearerToken: Option<string>)

  /** A value stored under a key of the state bag. */
  datatype Value =
    | Undefined                         // a key assigned `undefined`
    | Text(text: string)                // `linkId`, `note`
    | UrlInfo(info: ParsedUrlInfo)      // `urlInfo`
    | Hydration(result: HydrationResult) // `hydration`
    | Hydrated(content: PartialContent) // `hydratedContent`
    | PersistLink(payload: PersistLinkInput) // `persistLink`
    | CredentialsValue(credentials: Credentials) // `credentials`

  type State = map<string, Value>

  /** `args.reddit`: the options the step may pass to the Reddit client. */
  datatype RedditArgs = RedditArgs(accessToken: Option<string>, userAgent: Option<string>, limitComments: Option<int>)

  /** `args.x`: the options the step may pass to the X client. */
  datatype XArgs = XArgs(bearerToken: Option<string>)

  /** `PlanStep.args` as the core skills read it. */
  datatype StepArgs = StepArgs(url: Option<string>, reddit: Option<RedditArgs>, x: Option<XArgs>)

  /** `state.urlInfo as ParsedUrlInfo | undefined`. */
  function UrlInfoIn(state: State): (r: Option<ParsedUrlInfo>)
    ensures r.Some? <==> "urlInfo" in state && state["urlInfo"].UrlInfo?
    ensures r.Some? ==> state["urlInfo"] == UrlInfo(r.value)
  {
    if "urlInfo" in state && state["urlInfo"].UrlInfo? then Some(state["urlInfo"].info) else None
  }

  /** `state[key] as string | undefined`. */
  function TextIn(state: State, key: string): (r: Option<string>)
    ensures r.Some? <==> key in state && state[key].Text?
    ensures r.Some? ==> state[key] == Text(r.value)
  {
    if key in state && state[key].Text? then Some(state[key].text) else None
  }

  /** `state.hydratedContent as HydratedContent | undefined`. */
  function HydratedIn(state: State): (r: Option<PartialContent>)
    ensures r.Some? <==> "hydratedContent" in state && state["hydratedContent"].Hydrated?
    ensures r.Some? ==> state["hydratedContent"] == Hydrated(r.value)
  {
    if "hydratedContent" in state && state["hydratedContent"].Hydrated? then Some(state["hydratedContent"].content) else None
  }

  /** `state.credentials`, when it holds the credentials record. */
  function CredentialsIn(state: State): (r: Option<Credentials>)
    ensures r.Some? <==> "credentials" in state && state["credentials"].CredentialsValue?
  {
    if "credentials" in state && state["credentials"].CredentialsValue? then Some(state["credentials"].credentials) else None
  }

  /**
   * How a core skill's `run` ended: it returned `value` and left the bag as
   * `state`, or it threw `message` before writing to the bag.
   */
  datatype SkillReturn<T> = Done(value: T, state: State) | Raised(message: string)
}
