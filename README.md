# DeepSeek conversation integration: configuration flow model

A Dafny model of the configuration wizard of a home-automation plugin that
connects the platform to the DeepSeek chat API. The model covers two flows:

- **the setup flow** (`DeepSeekConfigFlow.async_step_user`). It asks for an
  API key and checks it with the provider. It then creates the config entry
  with the recommended options, or shows the form again with one error tag.
- **the options flow** (`DeepSeekOptionsFlow`). Its single `init` step
  remembers the `recommended` flag of the form it last rendered
  (`last_rendered_recommended`). A submission with the same flag is persisted.
  A submission with a different flag re-renders the form in the other mode,
  built from the three base options only.

`deepseek_config_option_schema` builds the options form. It always has
`prompt`, `llm_hass_api` and `recommended`. It adds `chat_model`,
`max_tokens`, `top_p` and `temperature` exactly when `options.get("recommended")`
is falsy.

Modules:

- `PyValues` (values.dfy): option values (`bool`, `int`, `float` as an exact
  real, `str`), Python truthiness, Python `==` (so `True == 1 == 1.0`), and
  `dict.get`.
- `Const` (constants.dfy): the option keys and the recommended values of
  const.py, plus the host constants the flow uses (`api_key`,
  `llm_hass_api`, the `assist` API id, the default instructions prompt).
- `FormSchema` (schema.dfy): a form schema is an ordered dict of field
  descriptors. Each descriptor holds the required flag, the default, the
  suggested value and the widget. This module also has the API choice list
  and `ConfigOptionSchema`.
- `Flow` (flow.dfy): flow results (`ShowForm`, `CreateEntry`) and the config
  entry an options flow is opened on.
- `ConfigFlow` (config_flow.dfy): the setup step, as a pure function of the
  submission and of the provider's verdict on a key.
- `OptionsFlow` (options_flow.dfy): the `init` step. `InitStep` is a pure
  transition function. The class `DeepSeekOptionsFlow` has the mutable field
  `lastRenderedRecommended`, and its method `StepInit` is proved to follow
  `InitStep`.

Inputs that come from outside the source become parameters:

- the provider check is `remote: Value -> Validation`, the verdict on the
  submitted key;
- the host's API registry (`llm.async_get_apis`) is `apis: seq<HostApi>`;
- the entry's stored options come from the `ConfigEntry` passed to the
  constructor.

Behaviour of the source worth knowing, which the model keeps:

- `async_step_user` only tests `user_input is None` (config_flow.py:90). A
  submission without `api_key` hits a `KeyError` in `validate_input`
  (config_flow.py:71), which `except Exception` reports as `unknown`
  (config_flow.py:103-105).
- `prompt` has only a suggested value, the stored prompt or the default
  template, and no default (config_flow.py:194-201). `recommended` has a
  default and no suggested value (config_flow.py:207-209).
- `async_step_init` indexes the submission directly. A submission without
  `recommended` raises `KeyError` (config_flow.py:147). So does a final
  submission without `llm_hass_api` (config_flow.py:148). A toggle raises for
  a missing `prompt` first and then for a missing `llm_hass_api`
  (config_flow.py:157-158). The model returns these as `Raised(key)`. On a
  toggle, the field is reassigned (config_flow.py:153) before those lookups,
  so it changes even when the step raises.

## Model

| member | source | states |
|---|---|---|
| FormSchema.ApiOptions | custom_components/deepseek_conversation/config_flow.py:185-191 | one select entry per registered API, in registry order, labelled by the API name and valued by its id |
| FormSchema.HassApiChoices | custom_components/deepseek_conversation/config_flow.py:179-191 | the choice list is "No control"/"none" first, followed by one entry per registered API in order |
| FormSchema.ChoiceValuesAreNoneThenIds | custom_components/deepseek_conversation/config_flow.py:179-191 | the selectable values are exactly "none" followed by the registry's ids in registry order |
| FormSchema.OptionField | custom_components/deepseek_conversation/config_flow.py:193-236 | only `recommended` is a required field; each tuning field defaults to its recommended constant and suggests the current option value (absent when the key is absent) |
| FormSchema.ConfigOptionSchema | custom_components/deepseek_conversation/config_flow.py:168-239 | the schema has distinct keys in order `prompt`, `llm_hass_api`, `recommended` and then the four tuning fields; the tuning fields are present iff `options.get("recommended")` is falsy; `recommended` defaults to the stored value or `False` and suggests nothing; `prompt` has no default and suggests the stored prompt or the default template; `llm_hass_api` defaults to "none", suggests the stored value and offers the API choice list; tuning defaults are the recommended constants and their suggestions are the stored values |
| FormSchema.AdvancedOptionsShowTheirValues | custom_components/deepseek_conversation/config_flow.py:212-236 | for options `{recommended: false, chat_model: "deepseek-chat", max_tokens: 4096, top_p: 1.0, temperature: 0.7}` all four tuning fields are present and suggest those values |
| ConfigFlow.StepUser | custom_components/deepseek_conversation/config_flow.py:81-115 | no input gives the blank `user` form whatever the provider would say; an entry is created iff validation succeeds, titled "DeepSeek", with the submission as data and exactly the recommended options; a connection failure, an authentication failure and any other failure give the `user` form with the single error `base` set to `cannot_connect`, `invalid_auth` and `unknown`; a submission without `api_key` gets the `unknown` error |
| ConfigFlow.OnlyTheKeyDecides | custom_components/deepseek_conversation/config_flow.py:61-72 | the provider sees only the submitted key: two submissions with the same `api_key`, or both without one, both create an entry or both get the same form with the same error, for every provider answer |
| ConfigFlow.CreatedOptionsIgnoreInput | custom_components/deepseek_conversation/config_flow.py:54-58 | any two successful setups create entries with the same options, whose keys are exactly `recommended`, `llm_hass_api` and `prompt` |
| OptionsFlow.InitialLastRendered | custom_components/deepseek_conversation/config_flow.py:136-138 | the seed is the stored `recommended` value, or `False` when the key is absent |
| OptionsFlow.FinalOptions | custom_components/deepseek_conversation/config_flow.py:147-150 | the persisted options are the submission minus `llm_hass_api` exactly when its value is "none"; every kept key keeps its submitted value, and a kept `llm_hass_api` is never "none" |
| OptionsFlow.Narrowed | custom_components/deepseek_conversation/config_flow.py:155-159 | the re-render options have exactly the keys `recommended`, `prompt`, `llm_hass_api`, each with its submitted value |
| OptionsFlow.InitStep | custom_components/deepseek_conversation/config_flow.py:140-165 | no input renders the `init` form from the stored options and keeps the field; an entry is created iff the submitted flag equals the last rendered one and `llm_hass_api` is present, with title "" and the final options, and the field unchanged; a toggle sets the field to the submitted flag, never creates an entry, and re-renders `init` from the narrowed submission; a submission without `recommended` raises for it, a final one without `llm_hass_api` raises for it and keeps the field, and a toggle raises for a missing `prompt` before a missing `llm_hass_api`; a raised key is always one the submission lacks |
| OptionsFlow.DeepSeekOptionsFlow.constructor | custom_components/deepseek_conversation/config_flow.py:131-138 | the flow keeps the entry's options and seeds `lastRenderedRecommended` with the stored flag or `False` |
| OptionsFlow.DeepSeekOptionsFlow.StepInit | custom_components/deepseek_conversation/config_flow.py:140-165 | the new value of `lastRenderedRecommended` and the step's outcome are exactly those of `InitStep` on the old value |
| OptionsFlow.ToggleRendersChosenMode | custom_components/deepseek_conversation/config_flow.py:152-165 | after a toggle, the re-rendered form's `recommended` default is the new field value; it shows the tuning fields iff the new flag is falsy, and none of them suggests a value |
| OptionsFlow.KeepingFirstDefaultIsFinal | custom_components/deepseek_conversation/config_flow.py:136-150 | on a freshly opened flow the first form's `recommended` default is the seeded flag, and a submission whose flag equals it (Python `==`) is final and persists the final options |
| OptionsFlow.KeepingToggledDefaultIsFinal | custom_components/deepseek_conversation/config_flow.py:147-158 | after a toggle, a submission whose flag equals (Python `==`) the newly rendered flag is final and persists the final options |
| OptionsFlow.NewEntryStartsRecommended | custom_components/deepseek_conversation/config_flow.py:106-111 | an options flow opened on an entry the setup step created starts with the flag `True`; its first form has only the three base fields and suggests the assist API |

## Left out

- The provider call (`openai.AsyncOpenAI(...).models.list` with its 10-second timeout, run in the executor) is network I/O through a foreign library. Only its outcome is modelled, as the input `remote`.
- The host calls `async_show_form`, `async_create_entry`, `config_entry.options` and `llm.async_get_apis` are modelled as result constructors and inputs, not as behaviour. `async_get_options_flow` only constructs the class, which the constructor models.
- Voluptuous validation and the selector widgets are not modelled. A field is its key, required flag, default, suggested value and widget kind. The slider ranges are recorded as constants, and no float arithmetic is done.
- `FormSchema.ConfigOptionSchema` builds the dict in one step. The source builds it by a `dict.update` that adds only fresh keys, and the result is the same.
- `OptionsFlow.DeepSeekOptionsFlow.StepInit` pops `llm_hass_api` from a local copy of the submission. The source mutates the caller's dict in place, and that aliasing is not modelled.
- `_LOGGER.exception` on an unexpected failure, and the async scheduling, are I/O and concurrency details.
- The text of the default instructions prompt and the `assist` API id come from `homeassistant.helpers.llm`. They are written out here as that module defines them.
- `homeassistant.helpers.llm` and the other host files are not part of this model.
- `OptionsFlow.DeepSeekOptionsFlow.constructor` stores the entry's options once. The source stores nothing in `__init__` besides the flag and re-reads `self.config_entry.options` on every step (config_flow.py:144). The two agree only while the entry's options do not change during the flow.
