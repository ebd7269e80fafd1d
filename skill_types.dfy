/** The records skills exchange through the shared state (lib/agents/skills/types.ts). */
module SkillTypes {
  import opened Wrappers

  /** `DetectedProvider`: a supported provider or `unknown`. */
  datatype Provider = Reddit | X | Arxiv | Unknown

  /** `SupportedProvider`: every provider but `unknown`. */
  type SupportedProvider = p: Provider | !p.Unknown? witness Reddit

  /** The provider's undecoded response, kept opaque. */
  type RawPayload = string

  /** `ParsedUrlInfo`: the provider may be `unknown` and the id may be absent. */
  datatype ParsedUrlInfo = ParsedUrlInfo(
    raw: string,
    normalized: string,
    domain: string,
    provider: Provider,
    providerId: Option<string>)

  /** `HydratedContent`: always names a supported provider. */
  datatype HydratedContent = HydratedContent(
    provider: SupportedProvider,
    providerId: string,
    title: string,
    text: string,
    raw: RawPayload,
    embedHtml: Option<string>)

  /** `Partial<HydratedContent>`: every field optional. */
  datatype PartialContent = PartialContent(
    provider: Option<SupportedProvider>,
    providerId: Option<string>,
    title: Option<string>,
    text: Option<string>,
    raw: Option<RawPayload>,
    embedHtml: Option<string>)

  /** `HydrationResult`: `ok` carries full content, `skipped` a reason and maybe partial content. */
  datatype HydrationResult =
    | Ok(content: HydratedContent)
    | Skipped(reason: string, partial: Option<PartialContent>)

  /** A full record read through the partial view: every field present. */
  function AsPartial(c: HydratedContent): (p: PartialContent)
    ensures p.title == Some(c.title) && p.text == Some(c.text) && p.raw == Some(c.raw)
    ensures p.provider == Some(c.provider) && p.providerId == Some(c.providerId)
  {
    PartialContent(Some(c.provider), Some(c.providerId), Some(c.title), Some(c.text), Some(c.raw), c.embedHtml)
  }

  /** `result.content`: the full content of `ok`, the optional partial content of `skipped`. */
  function ResultContent(r: HydrationResult): (c: Option<PartialContent>)
    ensures r.Ok? ==> c == Some(AsPartial(r.content))
    ensures r.Skipped? ==> c == r.partial
  {
    match r
    case Ok(content) => Some(AsPartial(content))
    case Skipped(_, partial) => partial
  }

  /** `PersistLinkInput`: `url` and a supported provider are required, the rest optional. */
  datatype PersistLinkInput = PersistLinkInput(
    linkId: Option<string>,
    url: string,
    provider: SupportedProvider,
    providerId: Option<string>,
    domain: Option<string>,
    title: Option<string>,
    summary: Option<string>,
    note: Option<string>,
    text: Option<string>,
    raw: Option<RawPayload>)
}
