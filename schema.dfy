/** The voluptuous form schemas the flows render, reduced to what the flow
    decides about each field: its key, whether it is required, its default,
    its suggested value and the kind of widget. */
module FormSchema {
  import opened PyValues
  import opened Const

  /** One entry of a select widget (`SelectOptionDict`). */
  datatype SelectOption = SelectOption(caption: string, value: string)

  /** One LLM API registered with the host platform (`llm.async_get_apis`). */
  datatype HostApi = HostApi(id: string, name: string)

  datatype Selector =
    | Template
    | Select(choices: seq<SelectOption>)
    | Boolean
    | Text
    | Integer
    | Slider(min: real, max: real, step: real)

  /** A `vol.Required`/`vol.Optional` marker together with its widget.
      `suggested` holds the `suggested_value` of the field's description. */
  datatype FieldSpec = FieldSpec(required: bool, default: Option<Value>, suggested: Option<Value>, selector: Selector)

  /** A schema dict: its keys in insertion order and the field under each key. */
  datatype Schema = Schema(order: seq<string>, fields: map<string, FieldSpec>)

  ghost predicate Distinct(s: seq<string>) {
    forall i, j :: 0 <= i < j < |s| ==> s[i] != s[j]
  }

  /** A dict lists each of its keys exactly once. */
  ghost predicate Valid(s: Schema) {
    && Distinct(s.order)
    && forall k :: k in s.fields <==> k in s.order
  }

  lemma DistinctConcat(a: seq<string>, b: seq<string>)
    requires Distinct(a) && Distinct(b)
    requires forall k :: k in b ==> k !in a
    ensures Distinct(a + b)
  {
    forall i, j | 0 <= i < j < |a + b| ensures (a + b)[i] != (a + b)[j] {
      if j >= |a| {
        assert (a + b)[j] == b[j - |a|] && b[j - |a|] in b;
        if i >= |a| {
          assert (a + b)[i] == b[i - |a|];
        } else {
          assert (a + b)[i] == a[i] && a[i] in a;
        }
      }
    }
  }

  /** One select entry per registered API, in registry order. */
  function ApiOptions(apis: seq<HostApi>): (r: seq<SelectOption>)
    ensures |r| == |apis|
    ensures forall i :: 0 <= i < |apis| ==> r[i] == SelectOption(apis[i].name, apis[i].id)
  {
    if apis == [] then [] else [SelectOption(apis[0].name, apis[0].id)] + ApiOptions(apis[1..])
  }

  /** The choices of the `llm_hass_api` field: "No control" first, then the registry. */
  function HassApiChoices(apis: seq<HostApi>): (r: seq<SelectOption>)
    ensures |r| == |apis| + 1
    ensures r[0] == SelectOption("No control", NO_API)
    ensures forall i :: 0 <= i < |apis| ==> r[i + 1] == SelectOption(apis[i].name, apis[i].id)
  {
    [SelectOption("No control", NO_API)] + ApiOptions(apis)
  }

  /** The values of a choice list, in order. */
  function ChoiceValues(c: seq<SelectOption>): (r: seq<string>)
    ensures |r| == |c|
  {
    seq(|c|, i requires 0 <= i < |c| => c[i].value)
  }

  /** The ids of the registered APIs, in registry order. */
  function ApiIds(apis: seq<HostApi>): (r: seq<string>)
    ensures |r| == |apis|
  {
    seq(|apis|, i requires 0 <= i < |apis| => apis[i].id)
  }

  /** The values a user can pick are "none" followed by every API id, in registry order. */
  lemma ChoiceValuesAreNoneThenIds(apis: seq<HostApi>)
    ensures ChoiceValues(HassApiChoices(apis)) == [NO_API] + ApiIds(apis)
  {
    var c := HassApiChoices(apis);
    forall i | 0 <= i < |c| ensures ChoiceValues(c)[i] == ([NO_API] + ApiIds(apis))[i] {
      if i > 0 {
        assert c[(i - 1) + 1] == SelectOption(apis[i - 1].name, apis[i - 1].id);
      }
    }
  }

  /** `options.get(CONF_RECOMMENDED)` is truthy: the form hides the tuning fields. */
  predicate RecommendedMode(options: Options) {
    GetTruthy(options, CONF_RECOMMENDED)
  }

  /** Display order of the three fields every options form has. */
  const BASE_ORDER: seq<string> := [CONF_PROMPT, CONF_LLM_HASS_API, CONF_RECOMMENDED]

  /** Display order of the four tuning fields added in advanced mode. */
  const ADVANCED_ORDER: seq<string> := [CONF_CHAT_MODEL, CONF_MAX_TOKENS, CONF_TOP_P, CONF_TEMPERATURE]

  lemma OrdersDistinct()
    ensures Distinct(BASE_ORDER) && Distinct(ADVANCED_ORDER) && Distinct(BASE_ORDER + ADVANCED_ORDER)
    ensures forall k :: k in BASE_ORDER <==> k in BASE_KEYS
    ensures forall k :: k in ADVANCED_ORDER <==> k in ADVANCED_KEYS
  {
    KeysDistinct();
    DistinctConcat(BASE_ORDER, ADVANCED_ORDER);
  }

  /** The marker and widget declared for `key` in the options form. */
  function OptionField(options: Options, apis: seq<HostApi>, key: string): (r: FieldSpec)
    requires key in BASE_KEYS + ADVANCED_KEYS
    ensures r.required <==> key == CONF_RECOMMENDED
    ensures key in ADVANCED_KEYS ==>
      r.default == Some(RECOMMENDED_DEFAULTS[key]) && r.suggested == Get(options, key)
  {
    KeysDistinct();
    if key == CONF_PROMPT then
      FieldSpec(false, None, Some(GetOr(options, CONF_PROMPT, Str(DEFAULT_INSTRUCTIONS_PROMPT))), Template)
    else if key == CONF_LLM_HASS_API then
      FieldSpec(false, Some(Str(NO_API)), Get(options, CONF_LLM_HASS_API), Select(HassApiChoices(apis)))
    else if key == CONF_RECOMMENDED then
      FieldSpec(true, Some(GetOr(options, CONF_RECOMMENDED, Bool(false))), None, Boolean)
    else if key == CONF_CHAT_MODEL then
      FieldSpec(false, Some(Str(RECOMMENDED_CHAT_MODEL)), Get(options, key), Text)
    else if key == CONF_MAX_TOKENS then
      FieldSpec(false, Some(Int(RECOMMENDED_MAX_TOKENS)), Get(options, key), Integer)
    else if key == CONF_TOP_P then
      FieldSpec(false, Some(Real(RECOMMENDED_TOP_P)), Get(options, key), Slider(0.0, 1.0, 0.05))
    else
      FieldSpec(false, Some(Real(RECOMMENDED_TEMPERATURE)), Get(options, key), Slider(0.0, 2.0, 0.05))
  }

  /** `deepseek_config_option_schema`: the options form for the given options
      and API registry. The source builds the three base fields and, unless
      recommended mode is on, `update`s the dict with the four tuning fields;
      their keys are new, so the update appends them in order. */
  function ConfigOptionSchema(options: Options, apis: seq<HostApi>): (r: Schema)
    ensures Valid(r)
    ensures r.fields.Keys == BASE_KEYS + (if RecommendedMode(options) then {} else ADVANCED_KEYS)
    ensures r.order == BASE_ORDER + (if RecommendedMode(options) then [] else ADVANCED_ORDER)
    ensures forall k :: k in r.fields ==> (r.fields[k].required <==> k == CONF_RECOMMENDED)
    ensures r.fields[CONF_RECOMMENDED].default == Some(GetOr(options, CONF_RECOMMENDED, Bool(false)))
    ensures r.fields[CONF_RECOMMENDED].suggested == None
    ensures r.fields[CONF_PROMPT].default == None
    ensures r.fields[CONF_PROMPT].suggested == Some(GetOr(options, CONF_PROMPT, Str(DEFAULT_INSTRUCTIONS_PROMPT)))
    ensures r.fields[CONF_LLM_HASS_API].default == Some(Str(NO_API))
    ensures r.fields[CONF_LLM_HASS_API].suggested == Get(options, CONF_LLM_HASS_API)
    ensures r.fields[CONF_LLM_HASS_API].selector == Select(HassApiChoices(apis))
    ensures forall k :: k in ADVANCED_KEYS && k in r.fields ==>
      r.fields[k].default == Some(RECOMMENDED_DEFAULTS[k]) && r.fields[k].suggested == Get(options, k)
  {
    KeysDistinct();
    OrdersDistinct();
    var keys := BASE_KEYS + (if RecommendedMode(options) then {} else ADVANCED_KEYS);
    var order := BASE_ORDER + (if RecommendedMode(options) then [] else ADVANCED_ORDER);
    Schema(order, map k | k in keys :: OptionField(options, apis, k))
  }

  /** Advanced options with the recommended values: all four tuning fields are
      shown, each suggesting the stored value. */
  lemma AdvancedOptionsShowTheirValues(apis: seq<HostApi>)
    ensures var options := map[
        CONF_RECOMMENDED := Bool(false), CONF_CHAT_MODEL := Str("deepseek-chat"),
        CONF_MAX_TOKENS := Int(4096), CONF_TOP_P := Real(1.0), CONF_TEMPERATURE := Real(0.7)];
      var schema := ConfigOptionSchema(options, apis);
      && ADVANCED_KEYS <= schema.fields.Keys
      && forall k :: k in ADVANCED_KEYS ==> schema.fields[k].suggested == Some(options[k])
  {
  }
}
