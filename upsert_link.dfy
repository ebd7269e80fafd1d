/**
 * The `upsert_link` skill (lib/agents/skills/upsertLink.ts): the payload for
 * persisting a link, assembled from the parsed URL, the hydrated content and
 * the link id and note, and stored under `persistLink`.
 */
module UpsertLink {
  import opened Wrappers
  import opened SkillTypes
  import opened Values
  import opened Planner

  const MissingUrlInfoMessage := "upsert_link requires urlInfo in state"
  const UnknownProviderMessage := "Cannot upsert link for unknown provider"

  /** The payload for a parsed URL of a supported provider. */
  function Payload(info: ParsedUrlInfo, task: TaskRequest, state: State): (p: PersistLinkInput)
    requires !info.provider.Unknown?
    ensures p.url == info.normalized && p.provider == info.provider
    ensures p.providerId == info.providerId && p.domain == Some(info.domain)
    ensures p.linkId == (if TextIn(state, "linkId").Some? then TextIn(state, "linkId") else task.linkId)
    ensures p.note == (if TextIn(state, "note").Some? then TextIn(state, "note") else task.note)
    ensures HydratedIn(state).None? ==> p.title.None? && p.text.None? && p.raw.None?
    ensures HydratedIn(state).Some? ==>
      p.title == HydratedIn(state).value.title && p.text == HydratedIn(state).value.text &&
      p.raw == HydratedIn(state).value.raw
    ensures p.summary.None?
  {
    var hydrated := HydratedIn(state);
    PersistLinkInput(
      linkId := TextIn(state, "linkId").OrElse(task.linkId),
      url := info.normalized,
      provider := info.provider,
      providerId := info.providerId,
      domain := Some(info.domain),
      title := if hydrated.Some? then hydrated.value.title else None,
      summary := None,
      note := TextIn(state, "note").OrElse(task.note),
      text := if hydrated.Some? then hydrated.value.text else None,
      raw := if hydrated.Some? then hydrated.value.raw else None)
  }

  /** `upsertLinkSkill.run`. */
  function UpsertLinkRun(task: TaskRequest, state: State): (r: SkillReturn<PersistLinkInput>)
    ensures r.Raised? <==> UrlInfoIn(state).None? || UrlInfoIn(state).value.provider.Unknown?
    ensures UrlInfoIn(state).None? ==> r == Raised(MissingUrlInfoMessage)
    ensures UrlInfoIn(state).Some? && UrlInfoIn(state).value.provider.Unknown? ==> r == Raised(UnknownProviderMessage)
    ensures r.Done? ==>
      && r.value == Payload(UrlInfoIn(state).value, task, state)
      && r.state == state["persistLink" := PersistLink(r.value)]
  {
    match UrlInfoIn(state)
    case None => Raised(MissingUrlInfoMessage)
    case Some(info) =>
      if info.provider.Unknown? then Raised(UnknownProviderMessage)
      else
        var payload := Payload(info, task, state);
        Done(payload, state["persistLink" := PersistLink(payload)])
  }

  /** The only key written is `persistLink`, and it holds the returned payload. */
  lemma OnlyPersistLinkWritten(task: TaskRequest, state: State)
    requires UpsertLinkRun(task, state).Done?
    ensures var r := UpsertLinkRun(task, state);
      && r.state.Keys == state.Keys + {"persistLink"}
      && r.state["persistLink"] == PersistLink(r.value)
      && forall k :: k in state && k != "persistLink" ==> r.state[k] == state[k]
  {
  }

  /** The bag's link id and note win over the task's; an empty string in the bag still wins. */
  lemma StateWinsOverTask(task: TaskRequest, state: State, linkId: string, note: string)
    requires UrlInfoIn(state).Some? && !UrlInfoIn(state).value.provider.Unknown?
    requires "linkId" in state && state["linkId"] == Text(linkId)
    requires "note" in state && state["note"] == Text(note)
    ensures UpsertLinkRun(task, state).value.linkId == Some(linkId)
    ensures UpsertLinkRun(task, state).value.note == Some(note)
  {
  }

  /** Without a link id or note in the bag, the task's are used, even when absent. */
  lemma TaskFallback(task: TaskRequest, state: State)
    requires UrlInfoIn(state).Some? && !UrlInfoIn(state).value.provider.Unknown?
    requires "linkId" !in state && "note" !in state
    ensures UpsertLinkRun(task, state).value.linkId == task.linkId
    ensures UpsertLinkRun(task, state).value.note == task.note
  {
  }

  /** Running again on its own output gives the same payload and the same bag. */
  lemma UpsertLinkIdempotent(task: TaskRequest, state: State)
    requires UpsertLinkRun(task, state).Done?
    ensures UpsertLinkRun(task, UpsertLinkRun(task, state).state) == UpsertLinkRun(task, state)
  {
    var r := UpsertLinkRun(task, state);
    assert UrlInfoIn(r.state) == UrlInfoIn(state);
    assert TextIn(r.state, "linkId") == TextIn(state, "linkId");
    assert TextIn(r.state, "note") == TextIn(state, "note");
    assert HydratedIn(r.state) == HydratedIn(state);
    assert r.state["persistLink" := PersistLink(r.value)] == r.state;
  }
}
