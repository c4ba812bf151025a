# OverrideStrategy routing model

A Dafny model of `OverrideStrategy.route` from the model-routing subsystem of gemini-cli. The
router asks a chain of strategies, one at a time, which backend model should serve a request.
When an explicit model is in force, the override strategy forces that model and bypasses
routing. When the model is the auto sentinel, it declines, so other strategies decide.

The implementation file `overrideStrategy.ts` is not part of this model. What is modelled is the
behaviour its unit test `overrideStrategy.test.ts` asserts:

- The candidate model is the request's `requestedModel` when there is one, and the configured
  model otherwise.
- The auto sentinel (`DEFAULT_GEMINI_MODEL_AUTO`) gives no decision (`null`, here `Ok(None)`).
- Any other model gives a decision whose `metadata.source` is `"override"`. Its reasoning
  contains both `"Routing bypassed by forced model directive"` and the chosen model.
- The preview model (`PREVIEW_GEMINI_MODEL`) becomes `PREVIEW_GEMINI_3_1_MODEL` once 3.1 has
  launched, unless exact-model preservation is requested. When preservation is requested after
  3.1 has launched, the preview model is kept and the reasoning names the `"explicit CLI model flag"`.

Files:

- `wrappers.dfy`: `Option` and `Result`.
- `text.dfy`: substring containment, the test's `toContain`.
- `models.dfy`: the three model-id constants as a record `ModelIds`. Their string values are not
  known. Where a lemma needs it, it requires `Distinguishable`: the preview model differs from
  the auto sentinel and from the 3.1 model.
- `routing_strategy.dfy`: `RoutingContext`, the configuration view `Config`, `RoutingDecision`.
  The two flag accessors are `Option<bool>`. `None` means the configuration object does not
  provide that accessor, as in the test's mocks. Calling a missing accessor throws, which is
  modelled as `Err(MissingAccessor(name))` returned to the caller.
- `override_strategy.dfy`: `Route`, the predicate `Admitted`, and the lemmas.

`Admitted` is the relation the test's assertions describe, written on its own, with one
generalisation: its second clause extends the checks of test lines 42-46 (source `"override"`,
reasoning containing the bypass phrase and the model) from the one forced model tested there to
every decision, the preview cases included. `RouteAdmitted` proves that `Route` satisfies it on
every input. `Admitted` leaves three cases free on purpose: the preview model before 3.1 has
launched, a `requestedModel` equal to the auto sentinel, and an empty model name. `Route` needs a
body, so it picks one behaviour there: it keeps the preview model, it declines on a requested
auto, and it forces an empty name. `Route`'s own contract records one of these choices: it
declines only when the candidate is the auto sentinel. `OpenOnRequestedAuto`,
`OpenOnPreviewBeforeLaunch` and `OpenOnEmptyModel` prove that the test admits the other
behaviours too.

## Model

| member | source | states |
|---|---|---|
| OverrideStrategy.Route | packages/core/src/routing/strategies/overrideStrategy.test.ts:23-107 | no decision when the auto sentinel is configured and nothing is requested; a decline only ever happens for an auto candidate (the model's own choice for a requested auto); every decision is an override naming its model and the bypass directive; off the preview model the flag accessors are never called, so the result is never an error |
| OverrideStrategy.Forced | packages/core/src/routing/strategies/overrideStrategy.test.ts:40-46 | the decision built for a forced model has that model, source "override", and reasoning containing the bypass phrase, the model and any extra note |
| OverrideStrategy.PreservedDecision | packages/core/src/routing/strategies/overrideStrategy.test.ts:88-93 | the decision that keeps a model under exact preservation names that model and its reasoning contains "explicit CLI model flag" |
| OverrideStrategy.Candidate | packages/core/src/routing/strategies/overrideStrategy.test.ts:61-79 | the definition `requestedModel ?? getModel()`; its precedence is stated on `Route` by `RequestedModelWins` and `ConfiguredModelForced` |
| RoutingStrategy.ShouldPreserveExactModel | packages/core/src/routing/strategies/overrideStrategy.test.ts:82-86 | the definition of calling a possibly missing accessor; its flag values are pinned on `Route` by `PreviewPreserved` and `PreviewResolved`; that it is never called off the preview model is stated by `Route` and `FlagsNotRead` |
| RoutingStrategy.Gemini31LaunchedSync | packages/core/src/routing/strategies/overrideStrategy.test.ts:97-101 | the definition of calling a possibly missing accessor; its flag values are pinned on `Route` by `PreviewPreserved` and `PreviewResolved`; that it is never called off the preview model is stated by `Route` and `FlagsNotRead` |
| OverrideStrategy.PreservedNote | packages/core/src/routing/strategies/overrideStrategy.test.ts:93 | the note added when the preview model is kept contains "explicit CLI model flag" |
| OverrideStrategy.ResolvedNote | packages/core/src/routing/strategies/overrideStrategy.test.ts:96-107 | the note added when the preview model is resolved to 3.1 names the model it was resolved from |
| OverrideStrategy.Admitted | packages/core/src/routing/strategies/overrideStrategy.test.ts:23-107 | the six test cases as one relation between inputs and result, with the source and reasoning checks of lines 42-46 extended to every decision, and with the preview model before launch, a requested auto and an empty name left free |
| OverrideStrategy.RouteAdmitted | packages/core/src/routing/strategies/overrideStrategy.test.ts:23-107 | when the preview model is neither the auto sentinel nor the 3.1 model, Route satisfies on every input all six assertions of the test, as generalised in Admitted |
| OverrideStrategy.AutoConfigDefers | packages/core/src/routing/strategies/overrideStrategy.test.ts:23-30 | auto sentinel configured and nothing requested: no decision, whatever the flags |
| OverrideStrategy.ConfiguredModelForced | packages/core/src/routing/strategies/overrideStrategy.test.ts:32-59 | any configured model other than auto and preview (the empty name included, as `Route` chooses) is the decision's model, with source "override" and reasoning containing the bypass phrase and the model; this holds with the flag accessors missing |
| OverrideStrategy.RequestedModelWins | packages/core/src/routing/strategies/overrideStrategy.test.ts:61-79 | a requested model other than auto and preview is the decision's model whatever the configured model |
| OverrideStrategy.PreviewPreserved | packages/core/src/routing/strategies/overrideStrategy.test.ts:81-94 | preview candidate, 3.1 launched, preservation requested: the decision keeps the preview model, is not the 3.1 model, and its reasoning contains "explicit CLI model flag" |
| OverrideStrategy.PreviewResolved | packages/core/src/routing/strategies/overrideStrategy.test.ts:96-107 | preview candidate, 3.1 launched, no preservation: the decision's model is the 3.1 preview model |
| OverrideStrategy.FlagsNotRead | packages/core/src/routing/strategies/overrideStrategy.test.ts:24-36 | for a candidate other than the preview model, two configurations giving the same candidate give the same result, whatever their flags and whether their flag accessors exist |
| OverrideStrategy.ClientIrrelevant | packages/core/src/routing/strategies/overrideStrategy.test.ts:19-21 | the LLM client argument does not change the result |
| OverrideStrategy.OpenOnRequestedAuto | packages/core/src/routing/strategies/overrideStrategy.test.ts:61-79 | for a requested auto sentinel, both declining and forcing auto satisfy every assertion of the test |
| OverrideStrategy.OpenOnPreviewBeforeLaunch | packages/core/src/routing/strategies/overrideStrategy.test.ts:81-107 | for the preview model before 3.1 launches, both keeping it and resolving it satisfy every assertion of the test |
| OverrideStrategy.OpenOnEmptyModel | packages/core/src/routing/strategies/overrideStrategy.test.ts:32-79 | for an empty candidate, declining, forcing the empty name and falling back from an empty request to the configured model all satisfy every assertion of the test |
| Text.ContainsInfix | packages/core/src/routing/strategies/overrideStrategy.test.ts:43-46 | a string is contained in any concatenation that has it in the middle (the `toContain` the reasoning checks use) |
| Text.ContainsTransitive | packages/core/src/routing/strategies/overrideStrategy.test.ts:93 | a substring of a substring is a substring |

## Left out

- The implementation file `overrideStrategy.ts` is not part of this model. The behaviour is the one its unit test asserts. Where the test is silent, `Route` follows this order: pick the candidate, decline if it is the auto sentinel, then apply the preview substitution.
- `route` is asynchronous (`await`, test line 28). The model is a plain total function.
- `BaseLlmClient` and the real `Config` class are foreign types. The client is a type parameter the strategy never uses. `Config` is reduced to the model string and the two flag accessors.
- The string values of `DEFAULT_GEMINI_MODEL_AUTO`, `PREVIEW_GEMINI_MODEL` and `PREVIEW_GEMINI_3_1_MODEL` live in `config/models.js`, which is not part of this model. They are a parameter. Where a property needs it, the preview model is assumed to differ from the auto sentinel and from the 3.1 model; nothing is assumed about the 3.1 model and the auto sentinel.
- The full reasoning text is not known. Only the tested substrings are promised. The rest of the wording in `Forced`, `PreservedNote` and `ResolvedNote` is the model's own.
- The order in which the two flag accessors are called is not known. `Route` calls `getGemini31LaunchedSync` first and `shouldPreserveExactModel` only once 3.1 has launched. Which error comes first when both are missing is therefore the model's choice.
- Cases the test does not fix are left out of `Admitted`: the preview model before 3.1 launches, a requested model equal to the auto sentinel, and an empty model name. `Route` picks one behaviour for each; its contract states only that it declines on nothing but the auto sentinel.
- The router chain and the other strategies are not part of this model.
- The vitest harness itself.
