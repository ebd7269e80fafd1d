/**
 * The `parse_url` skill (lib/agents/skills/parseUrl.ts): provider detection,
 * provider id extraction and URL normalisation, and the skill's writes to
 * the state bag.  The URL parser itself is an input: `UrlParser` stands for
 * `new URL(raw)` and hands back the components the skill reads.
 */
module ParseUrl {
  import opened Wrappers
  import opened Strings
  import opened SkillTypes
  import opened Values
  import opened Planner

  /** The components of a parsed `URL` that the skill reads. */
  datatype UrlParts = UrlParts(
    protocol: string,  // e.g. "https:"
    host: string,      // hostname and port
    hostname: string,
    pathname: string,
    search: string,
    hash: string)

  /** `new URL(raw)`: the components, or the message of the error it throws. */
  type UrlParser = string -> Result<UrlParts, string>

  /** `hostname.replace(/^www\./, "")`: one leading lower-case `www.` removed. */
  function StripWww(hostname: string): (domain: string)
    ensures domain == hostname <==> !StartsWith(hostname, "www.")
    ensures domain != hostname ==> "www." + domain == hostname
  {
    if StartsWith(hostname, "www.") then hostname[4..] else hostname
  }

  predicate IsXHost(host: string) {
    host == "x.com" || host == "twitter.com" || EndsWith(host, ".x.com")
  }

  /**
   * `inferProvider` (its unused `pathname` parameter dropped): the first of
   * four rules that fits the lower-cased host decides.
   */
  function InferProvider(domain: string): (p: Provider)
    ensures var host := Lower(domain);
      && (p.Reddit? <==> EndsWith(host, "reddit.com"))
      && (p.X? <==> !EndsWith(host, "reddit.com") && IsXHost(host))
      && (p.Arxiv? <==> !EndsWith(host, "reddit.com") && !IsXHost(host) &&
                        (EndsWith(host, "arxiv.org") || '.' !in host))
      && (p.Unknown? <==> !EndsWith(host, "reddit.com") && !IsXHost(host) &&
                          !EndsWith(host, "arxiv.org") && '.' in host)
  {
    var host := Lower(domain);
    if EndsWith(host, "reddit.com") then Reddit
    else if IsXHost(host) then X
    else if EndsWith(host, "arxiv.org") then Arxiv
    else if '.' !in host then Arxiv
    else Unknown
  }

  /** Detection ignores the case of ASCII letters in the host. */
  lemma InferProviderIgnoresCase(d1: string, d2: string)
    requires Lower(d1) == Lower(d2)
    ensures InferProvider(d1) == InferProvider(d2)
    ensures InferProvider(Lower(d1)) == InferProvider(d1)
  {
    LowerIdempotent(d1);
  }

  /** Any host ending in `reddit.com`, in any case and with no dot boundary, is Reddit: `notreddit.com` too. */
  lemma RedditSuffix(sub: string)
    ensures InferProvider(sub + "reddit.com") == Reddit
    ensures InferProvider(sub + "REDDIT.COM") == Reddit
  {
    LowerConcat(sub, "reddit.com");
    LowerConcat(sub, "REDDIT.COM");
    assert Lower("reddit.com") == "reddit.com";
    assert Lower("REDDIT.COM") == "reddit.com";
    assert (Lower(sub) + "reddit.com")[|sub|..] == "reddit.com";
  }

  /** Every subdomain of `x.com` is X, and so is `twitter.com` in any case. */
  lemma XHosts(sub: string, host: string)
    requires Lower(host) == "twitter.com"
    ensures InferProvider(sub + ".x.com") == X
    ensures InferProvider(host) == X
  {
    LowerConcat(sub, ".x.com");
    assert Lower(".x.com") == ".x.com";
    var l := Lower(sub) + ".x.com";
    assert l[|l| - 6..] == ".x.com";
    assert l[|l| - 5] == 'x';
    assert !EndsWith(l, "reddit.com") by {
      if |l| >= 10 {
        assert l[|l| - 10..][5] == l[|l| - 5];
      }
    }
  }

  /** `twitter.com` only counts exactly: its subdomains are unknown. */
  lemma TwitterSubdomainsUnknown(sub: string)
    ensures InferProvider(sub + ".twitter.com") == Unknown
  {
    LowerConcat(sub, ".twitter.com");
    assert Lower(".twitter.com") == ".twitter.com";
    var l := Lower(sub) + ".twitter.com";
    assert l[|l| - 10..][0] == 'w' != "reddit.com"[0];
    assert l[|l| - 6..][0] == 'e' != ".x.com"[0];
    assert l[|l| - 9..][0] == 'i' != "arxiv.org"[0];
    assert l[|l| - 4] == '.';
  }

  /** Any host ending in `arxiv.org`, with no dot boundary, is arXiv. */
  lemma ArxivSuffix(sub: string)
    ensures InferProvider(sub + "arxiv.org") == Arxiv
  {
    LowerConcat(sub, "arxiv.org");
    assert Lower("arxiv.org") == "arxiv.org";
    var l := Lower(sub) + "arxiv.org";
    assert l[|l| - 9..] == "arxiv.org";
    assert l[|l| - 1] == 'g';
  }

  /** A host without a dot is taken for an arXiv id. */
  lemma DotlessIsArxiv(domain: string)
    requires '.' !in domain
    ensures InferProvider(domain) == Arxiv
  {
    var l := Lower(domain);
    forall k | 0 <= k < |l|
      ensures l[k] != '.'
    {
      assert domain[k] != '.';
    }
    assert !EndsWith(l, "reddit.com") by {
      if |l| >= 10 {
        assert l[|l| - 10..][6] == l[|l| - 4];
      }
    }
    assert !IsXHost(l) by {
      if |l| >= 6 {
        assert l[|l| - 6..][0] == l[|l| - 6];
      }
      if |l| >= 2 {
        assert l[1] != "x.com"[1];
      }
      if |l| >= 8 {
        assert l[7] != "twitter.com"[7];
      }
    }
    assert '.' !in l;
  }

  // ---------------------------------------------------------------------------
  // Regular expressions

  /**
   * The three capturing patterns, all with the `i` flag:
   * `/\/comments\/([a-z0-9]+)/i`, `/\/status(?:es)?\/(\d+)/i` and
   * `/\/abs\/([^/]+)/i`.
   */
  datatype Pattern = Comments | Status | Abs

  /** The literal `lit` (ignoring case) at `p`, then a non-empty greedy run of `cls`: the run. */
  function Capture(path: string, p: nat, lit: string, cls: CharClass): (r: Option<string>)
    requires p <= |path|
    ensures r.Some? ==> MatchesAtIgnoringCase(path, p, lit) && r.value == Run(path, p + |lit|, cls) && |r.value| > 0
    ensures r.None? ==> !MatchesAtIgnoringCase(path, p, lit) || |Run(path, p + |lit|, cls)| == 0
  {
    if MatchesAtIgnoringCase(path, p, lit) && |Run(path, p + |lit|, cls)| > 0 then Some(Run(path, p + |lit|, cls))
    else None
  }

  /**
   * The capture of `pat` when a match starts at `p`.  For `Status` the
   * optional `es` is tried first; both spellings cannot match at one place.
   */
  function CaptureAt(pat: Pattern, path: string, p: nat): (r: Option<string>)
    requires p <= |path|
    ensures r.Some? ==> |r.value| > 0
    ensures r.Some? ==> forall k :: 0 <= k < |r.value| ==> InClass(r.value[k], ClassOf(pat))
  {
    match pat
    case Comments => Capture(path, p, "/comments/", AlphaNum)
    case Status =>
      if Capture(path, p, "/statuses/", Digit).Some? then Capture(path, p, "/statuses/", Digit)
      else Capture(path, p, "/status/", Digit)
    case Abs => Capture(path, p, "/abs/", NotSlash)
  }

  /** The literal `lit` occurs at `p`, ignoring case, and `v` is the non-empty greedy run of `cls` after it. */
  predicate LiteralThenRun(path: string, p: nat, lit: string, cls: CharClass, v: string) {
    MatchesAtIgnoringCase(path, p, lit) && |v| > 0 && v == Run(path, p + |lit|, cls)
  }

  /**
   * What a match at `p` is: one of the pattern's literals occurs there,
   * ignoring case, and the capture is the non-empty greedy run of the
   * pattern's class after it; and there is no match when no literal of the
   * pattern is followed there by such a run.
   */
  lemma CaptureAtMeaning(pat: Pattern, path: string, p: nat)
    requires p <= |path|
    ensures CaptureAt(pat, path, p).Some? ==>
      exists lit :: lit in LiteralsOf(pat) && LiteralThenRun(path, p, lit, ClassOf(pat), CaptureAt(pat, path, p).value)
    ensures CaptureAt(pat, path, p).None? ==>
      forall lit, v :: lit in LiteralsOf(pat) ==> !LiteralThenRun(path, p, lit, ClassOf(pat), v)
  {
    var r := CaptureAt(pat, path, p);
    var lits := LiteralsOf(pat);
    if r.Some? {
      var lit := if pat.Comments? then "/comments/"
        else if pat.Abs? then "/abs/"
        else if Capture(path, p, "/statuses/", Digit).Some? then "/statuses/"
        else "/status/";
      assert lit in lits;
      assert LiteralThenRun(path, p, lit, ClassOf(pat), r.value);
    } else {
      forall lit, v | lit in lits
        ensures !LiteralThenRun(path, p, lit, ClassOf(pat), v)
      {
        assert Capture(path, p, lit, ClassOf(pat)).None?;
      }
    }
  }

  /** The literal part of each pattern, lower-cased: `/status/` and `/statuses/` for `Status`. */
  function LiteralsOf(pat: Pattern): set<string> {
    match pat
    case Comments => {"/comments/"}
    case Status => {"/statuses/", "/status/"}
    case Abs => {"/abs/"}
  }

  /** The character class of each pattern's capture group. */
  function ClassOf(pat: Pattern): CharClass {
    match pat
    case Comments => AlphaNum
    case Status => Digit
    case Abs => NotSlash
  }

  /** The leftmost match of `pat` at or after `from`: its position and capture. */
  function FindFrom(pat: Pattern, path: string, from: nat): (r: Option<(nat, string)>)
    requires from <= |path|
    ensures r.Some? ==> from <= r.value.0 <= |path| && CaptureAt(pat, path, r.value.0) == Some(r.value.1)
    ensures r.Some? ==> forall q :: from <= q < r.value.0 ==> CaptureAt(pat, path, q).None?
    ensures r.None? ==> forall q :: from <= q <= |path| ==> CaptureAt(pat, path, q).None?
    decreases |path| - from
  {
    if CaptureAt(pat, path, from).Some? then Some((from, CaptureAt(pat, path, from).value))
    else if from == |path| then None
    else FindFrom(pat, path, from + 1)
  }

  /** `path.match(pattern)?.[1]`: the capture of the leftmost match, if any. */
  function Match(pat: Pattern, path: string): (r: Option<string>)
    ensures r.None? <==> forall p :: 0 <= p <= |path| ==> CaptureAt(pat, path, p).None?
    ensures r.Some? ==>
      exists p :: 0 <= p <= |path| && CaptureAt(pat, path, p) == r &&
        forall q :: 0 <= q < p ==> CaptureAt(pat, path, q).None?
  {
    var found := FindFrom(pat, path, 0);
    if found.Some? then Some(found.value.1) else None
  }

  /** A match at `p` with none before it is the one `Match` reports. */
  lemma MatchIsLeftmost(pat: Pattern, path: string, p: nat)
    requires p <= |path| && CaptureAt(pat, path, p).Some?
    requires forall q :: 0 <= q < p ==> CaptureAt(pat, path, q).None?
    ensures Match(pat, path) == CaptureAt(pat, path, p)
  {
    var r := Match(pat, path);
    var p' :| 0 <= p' <= |path| && CaptureAt(pat, path, p') == r &&
      forall q :: 0 <= q < p' ==> CaptureAt(pat, path, q).None?;
  }

  /** `path.match(/^\/([^/]+)/)?.[1]`: the first segment of a path that starts with `/`. */
  function RootSegment(path: string): (r: Option<string>)
    ensures r.Some? ==> StartsWith(path, "/") && r.value == Run(path, 1, NotSlash) && |r.value| > 0
    ensures r.None? ==> !StartsWith(path, "/") || |path| == 1 || path[1] == '/'
  {
    if StartsWith(path, "/") && |Run(path, 1, NotSlash)| > 0 then Some(Run(path, 1, NotSlash)) else None
  }

  /** `extractProviderId`. */
  function ExtractProviderId(provider: Provider, pathname: string): (r: Option<string>)
    ensures provider.Unknown? ==> r.None?
    ensures provider.Reddit? ==> r == Match(Comments, pathname)
    ensures provider.X? ==> r == Match(Status, pathname)
    ensures provider.Arxiv? && Match(Abs, pathname).Some? ==> r == Match(Abs, pathname)
    ensures r.Some? ==> |r.value| > 0 && forall k :: 0 <= k < |r.value| ==> r.value[k] != '/'
    ensures r.Some? && provider.X? ==> forall k :: 0 <= k < |r.value| ==> IsAsciiDigit(r.value[k])
    ensures provider.Arxiv? && Match(Abs, pathname).None? ==> r == RootSegment(pathname)
  {
    match provider
    case Reddit => Match(Comments, pathname)
    case X => Match(Status, pathname)
    case Arxiv => Match(Abs, pathname).OrElse(RootSegment(pathname))
    case Unknown => None
  }

  /**
   * `normalizeUrl`; query and fragment never appear in the result.  X and
   * arXiv URLs with a non-empty id become canonical URLs ending in `/` and
   * the id; Reddit URLs move to `www.reddit.com` less one trailing `/`; every
   * other URL, including X and arXiv URLs without an id, keeps its own
   * scheme, host and path.
   */
  function NormalizeUrl(url: UrlParts, provider: Provider, providerId: Option<string>): (r: string)
    ensures provider.X? && providerId.Some? && providerId.value != "" ==>
      r == "https://x.com/i/web/status/" + providerId.value
    ensures provider.Reddit? ==> r == "https://www.reddit.com" + DropTrailingSlash(url.pathname)
    ensures provider.Reddit? && EndsWith(url.pathname, "/") ==> r + "/" == "https://www.reddit.com" + url.pathname
    ensures provider.Reddit? && !EndsWith(url.pathname, "/") ==> r == "https://www.reddit.com" + url.pathname
    ensures provider.Reddit? ==>
      StartsWith(r, "https://www.reddit.com") &&
      (r == "https://www.reddit.com" + url.pathname || r + "/" == "https://www.reddit.com" + url.pathname)
    ensures provider.Arxiv? && providerId.Some? && providerId.value != "" ==>
      r == "https://arxiv.org/abs/" + providerId.value
    ensures !provider.Reddit? && !((provider.X? || provider.Arxiv?) && providerId.Some? && providerId.value != "") ==>
      r == url.protocol + "//" + url.host + url.pathname
  {
    if provider.X? && providerId.Some? && providerId.value != "" then "https://x.com/i/web/status/" + providerId.value
    else if provider.Reddit? then "https://www.reddit.com" + DropTrailingSlash(url.pathname)
    else if provider.Arxiv? && providerId.Some? && providerId.value != "" then "https://arxiv.org/abs/" + providerId.value
    else url.protocol + "//" + url.host + url.pathname
  }

  /** The search and hash components never reach the normalised URL. */
  lemma NormalizeUrlDropsQuery(url: UrlParts, search: string, hash: string, provider: Provider, providerId: Option<string>)
    ensures NormalizeUrl(url.(search := search, hash := hash), provider, providerId) == NormalizeUrl(url, provider, providerId)
  {
  }

  /** The `ParsedUrlInfo` the skill builds from the raw string and its components. */
  function UrlInfoOf(raw: string, parts: UrlParts): (info: ParsedUrlInfo)
    ensures info.raw == raw && info.domain == StripWww(parts.hostname)
    ensures info.provider == InferProvider(info.domain)
    ensures info.providerId == ExtractProviderId(info.provider, parts.pathname)
    ensures info.normalized == NormalizeUrl(parts, info.provider, info.providerId)
  {
    var domain := StripWww(parts.hostname);
    var provider := InferProvider(domain);
    var providerId := ExtractProviderId(provider, parts.pathname);
    ParsedUrlInfo(raw, NormalizeUrl(parts, provider, providerId), domain, provider, providerId)
  }

  /**
   * For X and arXiv with an extracted id, the normalised URL ends in `/` and
   * the id, so its last `/`-segment gives the id back.
   */
  lemma NormalizedEndsWithId(raw: string, parts: UrlParts)
    requires UrlInfoOf(raw, parts).provider in {X, Arxiv}
    requires UrlInfoOf(raw, parts).providerId.Some?
    ensures var info := UrlInfoOf(raw, parts);
      LastSegment(info.normalized) == info.providerId.value &&
      info.normalized == (if info.provider.X? then "https://x.com/i/web/status/" else "https://arxiv.org/abs/") + info.providerId.value
  {
    var info := UrlInfoOf(raw, parts);
    var prefix := if info.provider.X? then "https://x.com/i/web/status/" else "https://arxiv.org/abs/";
    LastSegmentAfterSlash(prefix, info.providerId.value);
  }

  /**
   * An X URL with no status id (a profile or the home page, say) keeps its
   * own scheme, host and path: it is not rewritten to `x.com`.
   */
  lemma XWithoutIdKeepsUrl(raw: string, parts: UrlParts)
    requires UrlInfoOf(raw, parts).provider.X?
    requires Match(Status, parts.pathname).None?
    ensures UrlInfoOf(raw, parts).providerId.None?
    ensures UrlInfoOf(raw, parts).normalized == parts.protocol + "//" + parts.host + parts.pathname
  {
  }

  /** A dotted host of no known provider: no id, and the URL keeps its own scheme, host and path. */
  lemma UnknownProviderInfo(raw: string, parts: UrlParts)
    requires UrlInfoOf(raw, parts).provider.Unknown?
    ensures UrlInfoOf(raw, parts).providerId.None?
    ensures UrlInfoOf(raw, parts).normalized == parts.protocol + "//" + parts.host + parts.pathname
    ensures '.' in Lower(StripWww(parts.hostname))
  {
  }

  // ---------------------------------------------------------------------------
  // The skill

  /** `(args?.url) ?? context.task.url`: an empty step URL is kept, not replaced. */
  function RawUrl(args: Option<StepArgs>, task: TaskRequest): (r: Option<string>)
    ensures args.Some? && args.value.url.Some? ==> r == args.value.url
    ensures (args.None? || args.value.url.None?) ==> r == task.url
  {
    (if args.Some? then args.value.url else None).OrElse(task.url)
  }

  const MissingUrlMessage := "parse_url requires a URL on the task or step args"

  /** The bag after a successful run: `urlInfo`, and `linkId` when the task has a non-empty one. */
  function ParseUrlWrites(state: State, info: ParsedUrlInfo, task: TaskRequest): State {
    var withInfo := state["urlInfo" := UrlInfo(info)];
    if task.linkId.Some? && task.linkId.value != "" then withInfo["linkId" := Text(task.linkId.value)] else withInfo
  }

  /** `parseUrlSkill.run`. */
  function ParseUrlRun(parse: UrlParser, args: Option<StepArgs>, task: TaskRequest, state: State): (r: SkillReturn<ParsedUrlInfo>)
    ensures var raw := RawUrl(args, task);
      && ((raw.None? || raw.value == "") ==> r == Raised(MissingUrlMessage))
      && (raw.Some? && raw.value != "" && parse(raw.value).Failure? ==>
            r == Raised("Invalid URL provided to parse_url: " + parse(raw.value).error))
      && (r.Done? <==> raw.Some? && raw.value != "" && parse(raw.value).Success?)
    ensures r.Done? ==>
      && r.value == UrlInfoOf(RawUrl(args, task).value, parse(RawUrl(args, task).value).value)
      && r.state.Keys == state.Keys + {"urlInfo"} + (if task.linkId.Some? && task.linkId.value != "" then {"linkId"} else {})
      && r.state["urlInfo"] == UrlInfo(r.value)
      && (task.linkId.Some? && task.linkId.value != "" ==> r.state["linkId"] == Text(task.linkId.value))
      && (forall k :: k in state && k != "urlInfo" && k != "linkId" ==> r.state[k] == state[k])
      && (!(task.linkId.Some? && task.linkId.value != "") && "linkId" in state ==> r.state["linkId"] == state["linkId"])
  {
    var raw := RawUrl(args, task);
    if raw.None? || raw.value == "" then Raised(MissingUrlMessage)
    else match parse(raw.value)
      case Failure(message) => Raised("Invalid URL provided to parse_url: " + message)
      case Success(parts) =>
        var info := UrlInfoOf(raw.value, parts);
        Done(info, ParseUrlWrites(state, info, task))
  }

  /**
   * `https://www.reddit.com/r/webdev/comments/abc123/my_project/`: provider
   * Reddit, id `abc123`, and the trailing slash dropped.
   */
  lemma RedditExample(parse: UrlParser, task: TaskRequest, state: State, parts: UrlParts)
    requires task.url == Some("https://www.reddit.com/r/webdev/comments/abc123/my_project/")
    requires parts == UrlParts("https:", "www.reddit.com", "www.reddit.com", "/r/webdev/comments/abc123/my_project/", "", "")
    requires parse("https://www.reddit.com/r/webdev/comments/abc123/my_project/") == Success(parts)
    ensures var r := ParseUrlRun(parse, None, task, state);
      && r.Done?
      && r.value.raw == "https://www.reddit.com/r/webdev/comments/abc123/my_project/"
      && r.value.provider == Reddit
      && r.value.providerId == Some("abc123")
      && r.value.domain == "reddit.com"
      && r.value.normalized == "https://www.reddit.com/r/webdev/comments/abc123/my_project"
  {
    RedditExampleInfo(task.url.value, parts);
  }

  lemma RedditExampleInfo(raw: string, parts: UrlParts)
    requires parts == UrlParts("https:", "www.reddit.com", "www.reddit.com", "/r/webdev/comments/abc123/my_project/", "", "")
    ensures var info := UrlInfoOf(raw, parts);
      && info.provider == Reddit
      && info.providerId == Some("abc123")
      && info.domain == "reddit.com"
      && info.normalized == "https://www.reddit.com/r/webdev/comments/abc123/my_project"
  {
    ExampleDomain(parts.hostname);
    RedditCommentsId(parts.pathname);
    ExampleNormalized(parts.pathname);
  }

  lemma ExampleDomain(hostname: string)
    requires hostname == "www.reddit.com"
    ensures StripWww(hostname) == "reddit.com" && InferProvider(StripWww(hostname)) == Reddit
  {
    assert hostname == "www." + "reddit.com";
    RedditSuffix("");
    assert "" + "reddit.com" == "reddit.com";
  }

  lemma ExampleNormalized(path: string)
    requires path == "/r/webdev/comments/abc123/my_project/"
    ensures "https://www.reddit.com" + DropTrailingSlash(path) == "https://www.reddit.com/r/webdev/comments/abc123/my_project"
  {
    var stem := "/r/webdev/comments/abc123/my_project";
    assert path == stem + "/";
    assert path[|path| - 1] == '/';
    assert DropTrailingSlash(path) == path[..|path| - 1] == stem;
    assert "https://www.reddit.com" + stem == "https://www.reddit.com/r/webdev/comments/abc123/my_project";
  }

  /** The leftmost `/comments/` of the example path is at offset 9, followed by `abc123`. */
  lemma RedditCommentsId(path: string)
    requires path == "/r/webdev/comments/abc123/my_project/"
    ensures Match(Comments, path) == Some("abc123")
  {
    NoCommentsBefore(path);
    CommentsAtNine(path);
    MatchIsLeftmost(Comments, path, 9);
  }

  lemma CommentsAtNine(path: string)
    requires path == "/r/webdev/comments/abc123/my_project/"
    ensures CaptureAt(Comments, path, 9) == Some("abc123")
  {
    var a, b, c := "/r/webdev", "/comments/", "abc123/my_project/";
    assert path == a + b + c;
    assert path[9..19] == b;
    assert Lower(b) == b;
    ExampleRun(path);
  }

  /** A greedy run started right after `prefix` over `id`, with `rest` not continuing the class, is `id`. */
  lemma RunOverId(prefix: string, id: string, rest: string, cls: CharClass)
    requires forall k :: 0 <= k < |id| ==> InClass(id[k], cls)
    requires rest == [] || !InClass(rest[0], cls)
    ensures Run(prefix + id + rest, |prefix|, cls) == id
  {
    var s := prefix + id + rest;
    assert s[|prefix|..|prefix| + |id|] == id;
    forall k | |prefix| <= k < |prefix| + |id|
      ensures InClass(s[k], cls)
    {
      assert s[k] == id[k - |prefix|];
    }
    if rest != [] {
      assert s[|prefix| + |id|] == rest[0];
    }
    RunExactly(s, |prefix|, cls, |id|);
  }

  lemma ExampleRun(path: string)
    requires path == "/r/webdev/comments/abc123/my_project/"
    ensures Run(path, 19, AlphaNum) == "abc123"
  {
    var prefix, id, rest := "/r/webdev/comments/", "abc123", "/my_project/";
    assert path == prefix + id + rest;
    assert forall k :: 0 <= k < |id| ==> InClass(id[k], AlphaNum);
    RunOverId(prefix, id, rest, AlphaNum);
  }

  lemma NoCommentsBefore(path: string)
    requires path == "/r/webdev/comments/abc123/my_project/"
    ensures forall q :: 0 <= q < 9 ==> CaptureAt(Comments, path, q).None?
  {
    forall q | 0 <= q < 9
      ensures !MatchesAtIgnoringCase(path, q, "/comments/")
    {
      assert path[q] != '/' || path[q + 1] != 'c';
      var w := Lower(path[q..q + 10]);
      assert w[0] == LowerChar(path[q]) && w[1] == LowerChar(path[q + 1]);
    }
  }

  /** A path that starts `/status/<digits>` yields those digits as the X id. */
  lemma StatusPathId(digits: string, rest: string)
    requires |digits| > 0 && forall k :: 0 <= k < |digits| ==> IsAsciiDigit(digits[k])
    requires rest == [] || !IsAsciiDigit(rest[0])
    ensures Match(Status, "/status/" + digits + rest) == Some(digits)
    ensures ExtractProviderId(X, "/status/" + digits + rest) == Some(digits)
  {
    var path := "/status/" + digits + rest;
    assert path[..8] == "/status/";
    assert Lower("/status/") == "/status/";
    RunExactly(path, 8, Digit, |digits|);
    assert path[8..8 + |digits|] == digits;
    if |path| >= 10 {
      assert Lower(path[..10])[7] == LowerChar(path[7]) == '/';
    }
    MatchIsLeftmost(Status, path, 0);
  }

  /** A path that starts `/statuses/<digits>` yields those digits as the X id. */
  lemma StatusesPathId(digits: string, rest: string)
    requires |digits| > 0 && forall k :: 0 <= k < |digits| ==> IsAsciiDigit(digits[k])
    requires rest == [] || !IsAsciiDigit(rest[0])
    ensures Match(Status, "/statuses/" + digits + rest) == Some(digits)
    ensures ExtractProviderId(X, "/statuses/" + digits + rest) == Some(digits)
  {
    var path := "/statuses/" + digits + rest;
    assert path[..10] == "/statuses/";
    assert Lower("/statuses/") == "/statuses/";
    RunExactly(path, 10, Digit, |digits|);
    assert path[10..10 + |digits|] == digits;
    MatchIsLeftmost(Status, path, 0);
  }

  /**
   * A path that starts `/abs/<id>` yields the id, up to the next `/`, as the
   * arXiv id: the `/abs/` capture wins over the first path segment `abs`.
   */
  lemma AbsPathId(id: string, rest: string)
    requires |id| > 0 && forall k :: 0 <= k < |id| ==> id[k] != '/'
    requires rest == [] || rest[0] == '/'
    ensures Match(Abs, "/abs/" + id + rest) == Some(id)
    ensures ExtractProviderId(Arxiv, "/abs/" + id + rest) == Some(id)
  {
    var path := "/abs/" + id + rest;
    assert path[..5] == "/abs/";
    assert Lower("/abs/") == "/abs/";
    RunExactly(path, 5, NotSlash, |id|);
    assert path[5..5 + |id|] == id;
    MatchIsLeftmost(Abs, path, 0);
  }

  /** The first segment of such a path is `abs`, which the `/abs/` capture therefore has to win over. */
  lemma AbsRootSegment(id: string, rest: string)
    ensures RootSegment("/abs/" + id + rest) == Some("abs")
  {
    var path := "/abs/" + id + rest;
    assert path[..1] == "/";
    RunExactly(path, 1, NotSlash, 3);
    assert path[1..4] == "abs";
  }

  /** A path that starts `/comments/<id>`, the id alphanumeric, yields the id as the Reddit id. */
  lemma CommentsPathId(id: string, rest: string)
    requires |id| > 0 && forall k :: 0 <= k < |id| ==> InClass(id[k], AlphaNum)
    requires rest == [] || !InClass(rest[0], AlphaNum)
    ensures Match(Comments, "/comments/" + id + rest) == Some(id)
    ensures ExtractProviderId(Reddit, "/comments/" + id + rest) == Some(id)
  {
    var path := "/comments/" + id + rest;
    assert path[..10] == "/comments/";
    assert Lower("/comments/") == "/comments/";
    RunExactly(path, 10, AlphaNum, |id|);
    assert path[10..10 + |id|] == id;
    MatchIsLeftmost(Comments, path, 0);
  }
}
