/** The setup step of the integration (`DeepSeekConfigFlow.async_step_user`):
    collect an API key, check it against the provider, create the entry. */
module ConfigFlow {
  import opened PyValues
  import opened Const
  import opened FormSchema
  import opened Flow

  /** How the provider's model-listing call ended for a given key. */
  datatype Validation = Ok | ConnectionError | AuthError | Other

  /** The setup form: one required `api_key` text field. */
  const STEP_USER_DATA_SCHEMA: Schema :=
    Schema([CONF_API_KEY], map[CONF_API_KEY := FieldSpec(true, None, None, Text)])

  /** The options every new entry starts with. */
  const RECOMMENDED_OPTIONS: Options := map[
    CONF_RECOMMENDED := Bool(true),
    CONF_LLM_HASS_API := Str(LLM_API_ASSIST),
    CONF_PROMPT := Str(DEFAULT_INSTRUCTIONS_PROMPT)
  ]

  /** `validate_input`: the provider sees only the submitted key. A submission
      without `api_key` fails the lookup with a `KeyError`, which the step
      reports like any unexpected exception. */
  function ValidateInput(data: Options, remote: Value -> Validation): (r: Validation)
    ensures CONF_API_KEY in data ==> r == remote(data[CONF_API_KEY])
    ensures CONF_API_KEY !in data ==> r == Other
  {
    if CONF_API_KEY in data then remote(data[CONF_API_KEY]) else Other
  }

  /** `async_step_user`. `remote` is the provider's verdict on a key. */
  function StepUser(userInput: Option<Options>, remote: Value -> Validation): (r: FlowResult)
    ensures userInput.None? ==> r == ShowForm("user", STEP_USER_DATA_SCHEMA, map[])
    ensures r.CreateEntry? <==> userInput.Some? && ValidateInput(userInput.value, remote) == Ok
    ensures r.CreateEntry? ==>
      r == CreateEntry("DeepSeek", userInput.value, Some(RECOMMENDED_OPTIONS))
    ensures r.ShowForm? ==> r.stepId == "user" && r.schema == STEP_USER_DATA_SCHEMA
    ensures userInput.Some? && r.ShowForm? ==> r.errors.Keys == {"base"}
    ensures userInput.Some? && ValidateInput(userInput.value, remote) == ConnectionError ==>
      r.ShowForm? && r.errors == map["base" := "cannot_connect"]
    ensures userInput.Some? && ValidateInput(userInput.value, remote) == AuthError ==>
      r.ShowForm? && r.errors == map["base" := "invalid_auth"]
    ensures userInput.Some? && ValidateInput(userInput.value, remote) == Other ==>
      r.ShowForm? && r.errors == map["base" := "unknown"]
    ensures userInput.Some? && CONF_API_KEY !in userInput.value ==>
      r == ShowForm("user", STEP_USER_DATA_SCHEMA, map["base" := "unknown"])
  {
    match userInput
    case None => ShowForm("user", STEP_USER_DATA_SCHEMA, map[])
    case Some(data) =>
      match ValidateInput(data, remote)
      case Ok => CreateEntry("DeepSeek", data, Some(RECOMMENDED_OPTIONS))
      case ConnectionError => ShowForm("user", STEP_USER_DATA_SCHEMA, map["base" := "cannot_connect"])
      case AuthError => ShowForm("user", STEP_USER_DATA_SCHEMA, map["base" := "invalid_auth"])
      case Other => ShowForm("user", STEP_USER_DATA_SCHEMA, map["base" := "unknown"])
  }

  /** The created entry's options do not depend on what was submitted. */
  lemma CreatedOptionsIgnoreInput(u1: Options, u2: Options, remote: Value -> Validation)
    requires StepUser(Some(u1), remote).CreateEntry? && StepUser(Some(u2), remote).CreateEntry?
    ensures StepUser(Some(u1), remote).options == StepUser(Some(u2), remote).options
    ensures StepUser(Some(u1), remote).options.value.Keys == {CONF_RECOMMENDED, CONF_LLM_HASS_API, CONF_PROMPT}
  {
  }

  /** Two submissions with the same `api_key` (or both without one) meet the
      same fate whatever the provider answers: both create an entry, or both
      get the same form with the same error. */
  lemma OnlyTheKeyDecides(u1: Options, u2: Options, remote: Value -> Validation)
    requires CONF_API_KEY in u1 <==> CONF_API_KEY in u2
    requires CONF_API_KEY in u1 ==> u1[CONF_API_KEY] == u2[CONF_API_KEY]
    ensures StepUser(Some(u1), remote).CreateEntry? <==> StepUser(Some(u2), remote).CreateEntry?
    ensures StepUser(Some(u1), remote).ShowForm? ==> StepUser(Some(u1), remote) == StepUser(Some(u2), remote)
  {
  }
}
