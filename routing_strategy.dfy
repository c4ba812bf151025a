/**
 * The values a routing strategy consumes and produces: the per-request context, the read-only
 * view of the configuration, and the routing decision with its metadata.
 */
module RoutingStrategy {
  import opened Wrappers

  /** Per-request facts; `requestedModel` is an explicit model chosen at the call site. */
  datatype RoutingContext = RoutingContext(requestedModel: Option<string>)

  /**
   * The three configuration accessors a strategy may call. `getModel` always exists; the two
   * flag accessors are `None` when the configuration object does not provide them, in which
   * case calling them throws.
   */
  datatype Config = Config(
    model: string,
    preserveExactModel: Option<bool>,
    gemini31LaunchedSync: Option<bool>)

  /** Why calling into the configuration failed: the named accessor is not a function. */
  datatype AccessorError = MissingAccessor(accessor: string)

  datatype RoutingMetadata = RoutingMetadata(source: string, reasoning: string)

  /** The model a request is sent to, and where that choice came from. */
  datatype RoutingDecision = RoutingDecision(model: string, metadata: RoutingMetadata)

  /** A strategy either decides (`Some`), defers to the next strategy (`None`), or throws. */
  type RouteResult = Result<Option<RoutingDecision>, AccessorError>

  /** Calls `config.shouldPreserveExactModel()`. */
  function ShouldPreserveExactModel(config: Config): Result<bool, AccessorError>
  {
    match config.preserveExactModel
    case Some(b) => Ok(b)
    case None => Err(MissingAccessor("shouldPreserveExactModel"))
  }

  /** Calls `config.getGemini31LaunchedSync()`. */
  function Gemini31LaunchedSync(config: Config): Result<bool, AccessorError>
  {
    match config.gemini31LaunchedSync
    case Some(b) => Ok(b)
    case None => Err(MissingAccessor("getGemini31LaunchedSync"))
  }
}
