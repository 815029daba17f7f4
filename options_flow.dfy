/** The options flow (`DeepSeekOptionsFlow`): one re-entrant `init` step that
    re-renders the form when the user flips the `recommended` toggle and
    persists the submission otherwise. */
module OptionsFlow {
  import opened PyValues
  import opened Const
  import opened FormSchema
  import opened Flow
  import ConfigFlow

  /** What one call of `async_step_init` does: return a flow result, or raise
      `KeyError` for a key the submission lacks. */
  datatype StepOutcome = Returned(result: FlowResult) | Raised(missingKey: string)

  /** The value of `last_rendered_recommended` after a step, and the step's outcome. */
  datatype Transition = Transition(lastRendered: Value, outcome: StepOutcome)

  /** Seed of `last_rendered_recommended`: the stored flag, `False` when absent. */
  function InitialLastRendered(options: Options): (r: Value)
    ensures CONF_RECOMMENDED in options ==> r == options[CONF_RECOMMENDED]
    ensures CONF_RECOMMENDED !in options ==> r == Bool(false)
  {
    GetOr(options, CONF_RECOMMENDED, Bool(false))
  }

  /** The options a final submission persists: the submission itself, without
      the `llm_hass_api` key when it selects "none". */
  function FinalOptions(u: Options): (r: Options)
    requires CONF_LLM_HASS_API in u
    ensures forall k :: k in r <==> k in u && !(k == CONF_LLM_HASS_API && u[k] == Str(NO_API))
    ensures forall k :: k in r ==> r[k] == u[k]
    ensures CONF_LLM_HASS_API in r ==> r[CONF_LLM_HASS_API] != Str(NO_API)
  {
    EqualString(u[CONF_LLM_HASS_API], NO_API);
    if Equal(u[CONF_LLM_HASS_API], Str(NO_API)) then u - {CONF_LLM_HASS_API} else u
  }

  /** The options a toggle re-renders the form from: the three base keys of the submission. */
  function Narrowed(u: Options): (r: Options)
    requires CONF_RECOMMENDED in u && CONF_PROMPT in u && CONF_LLM_HASS_API in u
    ensures r.Keys == BASE_KEYS
    ensures forall k :: k in r ==> r[k] == u[k]
  {
    map[CONF_RECOMMENDED := u[CONF_RECOMMENDED], CONF_PROMPT := u[CONF_PROMPT],
        CONF_LLM_HASS_API := u[CONF_LLM_HASS_API]]
  }

  /** A submission is final when its flag equals (Python `==`) the flag last rendered. */
  predicate IsFinal(u: Options, last: Value)
    requires CONF_RECOMMENDED in u
  {
    Equal(u[CONF_RECOMMENDED], last)
  }

  /** `async_step_init` as a function of `last_rendered_recommended`, the
      entry's stored options, the submission and the API registry. */
  function InitStep(last: Value, entryOptions: Options, userInput: Option<Options>, apis: seq<HostApi>): (t: Transition)
    ensures userInput.None? ==>
      t == Transition(last, Returned(ShowForm("init", ConfigOptionSchema(entryOptions, apis), map[])))
    ensures t.outcome.Returned? && t.outcome.result.CreateEntry? <==>
      userInput.Some? && CONF_RECOMMENDED in userInput.value && IsFinal(userInput.value, last)
      && CONF_LLM_HASS_API in userInput.value
    ensures t.outcome.Returned? && t.outcome.result.CreateEntry? ==>
      t.outcome.result == CreateEntry("", FinalOptions(userInput.value), None) && t.lastRendered == last
    ensures t.outcome.Returned? && t.outcome.result.ShowForm? ==>
      t.outcome.result.stepId == "init" && t.outcome.result.errors == map[]
    ensures t.outcome.Raised? ==> userInput.Some? && t.outcome.missingKey !in userInput.value
    ensures userInput.Some? && CONF_RECOMMENDED !in userInput.value ==>
      t == Transition(last, Raised(CONF_RECOMMENDED))
    ensures (userInput.Some? && CONF_RECOMMENDED in userInput.value && IsFinal(userInput.value, last)
             && CONF_LLM_HASS_API !in userInput.value) ==>
      t == Transition(last, Raised(CONF_LLM_HASS_API))
    ensures userInput.Some? && CONF_RECOMMENDED in userInput.value && !IsFinal(userInput.value, last) ==>
      && t.lastRendered == userInput.value[CONF_RECOMMENDED]
      && (t.outcome.Returned? <==> CONF_PROMPT in userInput.value && CONF_LLM_HASS_API in userInput.value)
      && (CONF_PROMPT !in userInput.value ==> t.outcome == Raised(CONF_PROMPT))
      && (CONF_PROMPT in userInput.value && CONF_LLM_HASS_API !in userInput.value ==>
            t.outcome == Raised(CONF_LLM_HASS_API))
      && (t.outcome.Returned? ==>
            t.outcome.result == ShowForm("init", ConfigOptionSchema(Narrowed(userInput.value), apis), map[]))
  {
    match userInput
    case None =>
      Transition(last, Returned(ShowForm("init", ConfigOptionSchema(entryOptions, apis), map[])))
    case Some(u) =>
      if CONF_RECOMMENDED !in u then Transition(last, Raised(CONF_RECOMMENDED))
      else if IsFinal(u, last) then
        if CONF_LLM_HASS_API !in u then Transition(last, Raised(CONF_LLM_HASS_API))
        else Transition(last, Returned(CreateEntry("", FinalOptions(u), None)))
      else if CONF_PROMPT !in u then Transition(u[CONF_RECOMMENDED], Raised(CONF_PROMPT))
      else if CONF_LLM_HASS_API !in u then Transition(u[CONF_RECOMMENDED], Raised(CONF_LLM_HASS_API))
      else Transition(u[CONF_RECOMMENDED], Returned(ShowForm("init", ConfigOptionSchema(Narrowed(u), apis), map[])))
  }

  /** `DeepSeekOptionsFlow`: the flow object the host keeps between steps. */
  class DeepSeekOptionsFlow {
    /** The `recommended` flag of the form rendered last. */
    var lastRenderedRecommended: Value
    /** `config_entry.options` of the entry being edited. */
    const entryOptions: Options

    constructor (configEntry: ConfigEntry)
      ensures entryOptions == configEntry.options
      ensures lastRenderedRecommended == InitialLastRendered(configEntry.options)
    {
      entryOptions := configEntry.options;
      lastRenderedRecommended := GetOr(configEntry.options, CONF_RECOMMENDED, Bool(false));
    }

    /** `async_step_init`; `apis` is what `llm.async_get_apis` returns at render time. */
    method StepInit(userInput: Option<Options>, apis: seq<HostApi>) returns (r: StepOutcome)
      modifies this
      ensures Transition(lastRenderedRecommended, r)
        == InitStep(old(lastRenderedRecommended), entryOptions, userInput, apis)
    {
      var options := entryOptions;
      if userInput.Some? {
        var u := userInput.value;
        if CONF_RECOMMENDED !in u {
          return Raised(CONF_RECOMMENDED);
        }
        if Equal(u[CONF_RECOMMENDED], lastRenderedRecommended) {
          if CONF_LLM_HASS_API !in u {
            return Raised(CONF_LLM_HASS_API);
          }
          if Equal(u[CONF_LLM_HASS_API], Str(NO_API)) {
            u := u - {CONF_LLM_HASS_API};
          }
          return Returned(CreateEntry("", u, None));
        }
        lastRenderedRecommended := u[CONF_RECOMMENDED];
        if CONF_PROMPT !in u {
          return Raised(CONF_PROMPT);
        }
        if CONF_LLM_HASS_API !in u {
          return Raised(CONF_LLM_HASS_API);
        }
        options := map[CONF_RECOMMENDED := u[CONF_RECOMMENDED], CONF_PROMPT := u[CONF_PROMPT],
                       CONF_LLM_HASS_API := u[CONF_LLM_HASS_API]];
      }
      var schema := ConfigOptionSchema(options, apis);
      r := Returned(ShowForm("init", schema, map[]));
    }
  }

  /** After a toggle the form shows the mode just chosen, and its `recommended`
      field defaults to the new `last_rendered_recommended`. */
  lemma ToggleRendersChosenMode(last: Value, entryOptions: Options, u: Options, apis: seq<HostApi>)
    requires CONF_RECOMMENDED in u && CONF_PROMPT in u && CONF_LLM_HASS_API in u
    requires !IsFinal(u, last)
    ensures var t := InitStep(last, entryOptions, Some(u), apis);
      && t.outcome.Returned? && t.outcome.result.ShowForm?
      && t.outcome.result.schema.fields[CONF_RECOMMENDED].default == Some(t.lastRendered)
      && (ADVANCED_KEYS <= t.outcome.result.schema.fields.Keys <==> !Truthy(u[CONF_RECOMMENDED]))
      && (forall k :: k in ADVANCED_KEYS && k in t.outcome.result.schema.fields ==>
            t.outcome.result.schema.fields[k].suggested.None?)
  {
    KeysDistinct();
  }

  /** On a freshly opened flow, the first form offers the seeded flag as the
      `recommended` default, so a submission that keeps it is final. */
  lemma KeepingFirstDefaultIsFinal(entryOptions: Options, u: Options, apis: seq<HostApi>)
    requires CONF_RECOMMENDED in u && CONF_LLM_HASS_API in u
    requires Equal(u[CONF_RECOMMENDED], GetOr(entryOptions, CONF_RECOMMENDED, Bool(false)))
    ensures ConfigOptionSchema(entryOptions, apis).fields[CONF_RECOMMENDED].default
      == Some(InitialLastRendered(entryOptions))
    ensures InitStep(InitialLastRendered(entryOptions), entryOptions, Some(u), apis).outcome
      == Returned(CreateEntry("", FinalOptions(u), None))
  {
  }

  /** After a toggle, a submission that keeps the re-rendered `recommended`
      default is final: a toggle costs exactly one extra render. */
  lemma KeepingToggledDefaultIsFinal(last: Value, entryOptions: Options, u: Options, u2: Options, apis: seq<HostApi>)
    requires CONF_RECOMMENDED in u && CONF_PROMPT in u && CONF_LLM_HASS_API in u
    requires !IsFinal(u, last)
    requires CONF_RECOMMENDED in u2 && CONF_LLM_HASS_API in u2
    requires Equal(u2[CONF_RECOMMENDED], u[CONF_RECOMMENDED])
    ensures var t := InitStep(last, entryOptions, Some(u), apis);
      InitStep(t.lastRendered, entryOptions, Some(u2), apis).outcome
        == Returned(CreateEntry("", FinalOptions(u2), None))
  {
  }

  /** An options flow opened on an entry the setup step just created starts in
      recommended mode: no tuning fields on the first form. */
  lemma NewEntryStartsRecommended(data: Options, remote: Value -> ConfigFlow.Validation, apis: seq<HostApi>)
    requires ConfigFlow.StepUser(Some(data), remote).CreateEntry?
    ensures var options := ConfigFlow.StepUser(Some(data), remote).options.value;
      && InitialLastRendered(options) == Bool(true)
      && ConfigOptionSchema(options, apis).fields.Keys == BASE_KEYS
      && ConfigOptionSchema(options, apis).fields[CONF_LLM_HASS_API].suggested == Some(Str(LLM_API_ASSIST))
  {
  }
}
