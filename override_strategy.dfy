/**
 * OverrideStrategy.route: when an explicit model is in force (requested for this call, or
 * configured), route straight to it and bypass every later strategy; when the model is the
 * auto sentinel, decline so that later strategies decide.
 */
module OverrideStrategy {
  import opened Wrappers
  import opened Text
  import opened Models
  import opened RoutingStrategy

  const OverrideSource := "override"
  const BypassPhrase := "Routing bypassed by forced model directive"
  const CliFlagPhrase := "explicit CLI model flag"

  /** The model under consideration: the request's own model wins over the configured one. */
  function Candidate(context: RoutingContext, config: Config): string {
    match context.requestedModel
    case Some(m) => m
    case None => config.model
  }

  /** What every override decision carries, whatever model it names. */
  ghost predicate IsOverride(d: RoutingDecision) {
    && d.metadata.source == OverrideSource
    && Contains(d.metadata.reasoning, BypassPhrase)
    && Contains(d.metadata.reasoning, d.model)
  }

  /** An override decision for `model`, with `note` appended to the standard reasoning. */
  function Forced(model: string, note: string): (d: RoutingDecision)
    ensures d.model == model && IsOverride(d)
    ensures Contains(d.metadata.reasoning, note)
  {
    var sep := ": ";
    ContainsInfix([], BypassPhrase, sep + model + note);
    ContainsInfix(BypassPhrase + sep, model, note);
    ContainsInfix(BypassPhrase + sep + model, note, []);
    assert [] + BypassPhrase + (sep + model + note) == BypassPhrase + sep + model + note;
    assert BypassPhrase + sep + model + note + [] == BypassPhrase + sep + model + note;
    RoutingDecision(model, RoutingMetadata(OverrideSource, BypassPhrase + sep + model + note))
  }

  /** The reasoning added when an explicit flag keeps the preview model. */
  function PreservedNote(): (note: string)
    ensures Contains(note, CliFlagPhrase)
  {
    var pre := " (kept as given: exact model preserved because of an ";
    ContainsInfix(pre, CliFlagPhrase, ")");
    pre + CliFlagPhrase + ")"
  }

  /** The reasoning added when the preview model is resolved to the newer generation. */
  function ResolvedNote(from: string): (note: string)
    ensures Contains(note, from)
  {
    var pre := " (resolved automatically from ";
    var post := " because Gemini 3.1 has launched)";
    ContainsInfix(pre, from, post);
    pre + from + post
  }

  /**
   * `route(context, config, client)`. The client is passed through untouched. The flag
   * accessors are called only for the preview model; an accessor the configuration lacks
   * throws, and the error reaches the caller. Declining only on the auto sentinel is this
   * model's choice where the candidate was requested; the test fixes it for the configured one.
   */
  function Route<Client>(ids: ModelIds, context: RoutingContext, config: Config, client: Client)
    : (r: RouteResult)
    ensures context.requestedModel.None? && config.model == ids.auto ==> r == Ok(None)
    ensures r == Ok(None) ==> Candidate(context, config) == ids.auto
    ensures r.Ok? && r.value.Some? ==> IsOverride(r.value.value)
    ensures Candidate(context, config) != ids.preview ==> r.Ok?
  {
    var candidate := Candidate(context, config);
    if candidate == ids.auto then
      Ok(None)
    else if candidate != ids.preview then
      Ok(Some(Forced(candidate, "")))
    else
      match Gemini31LaunchedSync(config)
      case Err(e) => Err(e)
      case Ok(false) => Ok(Some(Forced(candidate, "")))
      case Ok(true) =>
        match ShouldPreserveExactModel(config)
        case Err(e) => Err(e)
        case Ok(true) => Ok(Some(PreservedDecision(candidate)))
        case Ok(false) => Ok(Some(Forced(ids.preview31, ResolvedNote(candidate))))
  }

  /** The decision that keeps the preview model because exact preservation was requested. */
  function PreservedDecision(model: string): (d: RoutingDecision)
    ensures d.model == model && IsOverride(d)
    ensures Contains(d.metadata.reasoning, CliFlagPhrase)
  {
    var d := Forced(model, PreservedNote());
    ContainsTransitive(d.metadata.reasoning, PreservedNote(), CliFlagPhrase);
    d
  }

  /**
   * The behaviour the unit test asserts, stated as a relation between the inputs and a
   * result `r`; the second clause extends the source and reasoning checks made for one
   * forced model to every decision. Unconstrained on purpose: a preview model when 3.1 has
   * not launched, a requested model equal to the auto sentinel, and an empty model name.
   */
  ghost predicate Admitted(ids: ModelIds, context: RoutingContext, config: Config, r: RouteResult) {
    var candidate := Candidate(context, config);
    // the configured auto sentinel, with nothing requested: no decision
    && (context.requestedModel.None? && config.model == ids.auto ==> r == Ok(None))
    // every decision is an override naming its model and the bypass directive
    && (r.Ok? && r.value.Some? ==> IsOverride(r.value.value))
    // any other model, requested or configured, is forced as it is
    && (candidate != ids.auto && candidate != ids.preview && candidate != "" ==>
          r.Ok? && r.value.Some? && r.value.value.model == candidate)
    // the preview model with 3.1 launched and exact preservation requested: kept
    && (candidate == ids.preview && config.gemini31LaunchedSync == Some(true)
        && config.preserveExactModel == Some(true) ==>
          && r.Ok? && r.value.Some? && r.value.value.model == ids.preview
          && r.value.value.model != ids.preview31
          && Contains(r.value.value.metadata.reasoning, CliFlagPhrase))
    // the preview model with 3.1 launched and no preservation: resolved to 3.1
    && (candidate == ids.preview && config.gemini31LaunchedSync == Some(true)
        && config.preserveExactModel == Some(false) ==>
          r.Ok? && r.value.Some? && r.value.value.model == ids.preview31)
  }

  /** Route meets everything the test asserts, on every input. */
  lemma RouteAdmitted<Client>(ids: ModelIds, context: RoutingContext, config: Config, client: Client)
    requires Distinguishable(ids)
    ensures Admitted(ids, context, config, Route(ids, context, config, client))
  {
  }

  /** With nothing requested and the auto sentinel configured, the strategy declines. */
  lemma AutoConfigDefers<Client>(ids: ModelIds, config: Config, client: Client)
    requires config.model == ids.auto
    ensures Route(ids, RoutingContext(None), config, client) == Ok(None)
  {
  }

  /**
   * Any configured model other than the auto sentinel and the preview model is forced as it
   * is, even when the configuration lacks both flag accessors.
   */
  lemma ConfiguredModelForced<Client>(ids: ModelIds, config: Config, client: Client)
    requires config.model != ids.auto && config.model != ids.preview
    ensures var r := Route(ids, RoutingContext(None), config, client);
      && r.Ok? && r.value.Some?
      && r.value.value.model == config.model
      && r.value.value.metadata.source == "override"
      && Contains(r.value.value.metadata.reasoning, "Routing bypassed by forced model directive")
      && Contains(r.value.value.metadata.reasoning, config.model)
  {
  }

  /** A requested model takes precedence over whatever model is configured. */
  lemma RequestedModelWins<Client>(ids: ModelIds, requested: string, config: Config, client: Client)
    requires requested != ids.auto && requested != ids.preview
    ensures var r := Route(ids, RoutingContext(Some(requested)), config, client);
      r.Ok? && r.value.Some? && r.value.value.model == requested
  {
  }

  /** The preview model is kept, not resolved to 3.1, when exact preservation is requested. */
  lemma PreviewPreserved<Client>(ids: ModelIds, context: RoutingContext, config: Config, client: Client)
    requires Distinguishable(ids)
    requires Candidate(context, config) == ids.preview
    requires config.preserveExactModel == Some(true) && config.gemini31LaunchedSync == Some(true)
    ensures var r := Route(ids, context, config, client);
      && r.Ok? && r.value.Some?
      && r.value.value.model == ids.preview
      && r.value.value.model != ids.preview31
      && Contains(r.value.value.metadata.reasoning, "explicit CLI model flag")
  {
  }

  /** Once 3.1 has launched, the preview model resolves to it unless preservation is requested. */
  lemma PreviewResolved<Client>(ids: ModelIds, context: RoutingContext, config: Config, client: Client)
    requires Candidate(context, config) == ids.preview && ids.preview != ids.auto
    requires config.preserveExactModel == Some(false) && config.gemini31LaunchedSync == Some(true)
    ensures var r := Route(ids, context, config, client);
      r.Ok? && r.value.Some? && r.value.value.model == ids.preview31
  {
  }

  /**
   * Off the preview model, the result is a function of the candidate alone: neither flag,
   * nor whether its accessor exists, nor the configured model once a model is requested.
   */
  lemma FlagsNotRead<Client>(ids: ModelIds, context: RoutingContext, c1: Config, c2: Config, client: Client)
    requires Candidate(context, c1) == Candidate(context, c2) != ids.preview
    ensures Route(ids, context, c1, client) == Route(ids, context, c2, client)
  {
  }

  /** The LLM client has no influence on the decision. */
  lemma ClientIrrelevant<Client>(ids: ModelIds, context: RoutingContext, config: Config, a: Client, b: Client)
    ensures Route(ids, context, config, a) == Route(ids, context, config, b)
  {
  }

  /** For a requested auto sentinel, declining and forcing it are both admitted by the test. */
  lemma OpenOnRequestedAuto(ids: ModelIds, config: Config)
    requires Distinguishable(ids)
    ensures var context := RoutingContext(Some(ids.auto));
      && Admitted(ids, context, config, Ok(None))
      && Admitted(ids, context, config, Ok(Some(Forced(ids.auto, ""))))
  {
  }

  /** For the preview model before 3.1 launches, keeping and resolving it are both admitted. */
  lemma OpenOnPreviewBeforeLaunch(ids: ModelIds, context: RoutingContext, config: Config)
    requires Distinguishable(ids)
    requires Candidate(context, config) == ids.preview && config.gemini31LaunchedSync == Some(false)
    ensures Admitted(ids, context, config, Ok(Some(Forced(ids.preview, ""))))
    ensures Admitted(ids, context, config, Ok(Some(Forced(ids.preview31, ""))))
  {
  }

  /**
   * For an empty candidate, declining, forcing the empty name and, when it was requested,
   * falling back to the configured model are all admitted by the test.
   */
  lemma OpenOnEmptyModel(ids: ModelIds, requested: Option<string>, config: Config)
    requires Distinguishable(ids)
    requires "" != ids.auto && "" != ids.preview
    requires Candidate(RoutingContext(requested), config) == ""
    ensures Admitted(ids, RoutingContext(requested), config, Ok(None))
    ensures Admitted(ids, RoutingContext(requested), config, Ok(Some(Forced("", ""))))
    ensures requested.Some? && config.model != ids.auto && config.model != ids.preview ==>
      Admitted(ids, RoutingContext(requested), config, Ok(Some(Forced(config.model, ""))))
  {
  }
}
