/** Option keys and recommended values of the integration, plus the two
    host-platform constants the config flow uses. */
module Const {
  import opened PyValues

  const CONF_RECOMMENDED: string := "recommended"
  const CONF_PROMPT: string := "prompt"
  const CONF_CHAT_MODEL: string := "chat_model"
  const CONF_MAX_TOKENS: string := "max_tokens"
  const CONF_TOP_P: string := "top_p"
  const CONF_TEMPERATURE: string := "temperature"

  const RECOMMENDED_CHAT_MODEL: string := "deepseek-chat"
  const RECOMMENDED_MAX_TOKENS: int := 4096
  const RECOMMENDED_TOP_P: real := 1.0
  const RECOMMENDED_TEMPERATURE: real := 0.7

  /** Keys defined by the host platform (`homeassistant.const`). */
  const CONF_API_KEY: string := "api_key"
  const CONF_LLM_HASS_API: string := "llm_hass_api"

  /** Constants of the host platform's LLM helper module. */
  const LLM_API_ASSIST: string := "assist"
  const DEFAULT_INSTRUCTIONS_PROMPT: string :=
    "You are a voice assistant for Home Assistant.\nAnswer questions about the world truthfully.\nAnswer in plain text. Keep it simple and to the point.\n"

  /** Sentinel choice meaning "no control API". */
  const NO_API: string := "none"

  /** The advanced tuning keys and the defaults their form fields carry. */
  const RECOMMENDED_DEFAULTS: map<string, Value> := map[
    CONF_CHAT_MODEL := Str(RECOMMENDED_CHAT_MODEL),
    CONF_MAX_TOKENS := Int(RECOMMENDED_MAX_TOKENS),
    CONF_TOP_P := Real(RECOMMENDED_TOP_P),
    CONF_TEMPERATURE := Real(RECOMMENDED_TEMPERATURE)
  ]

  const ADVANCED_KEYS: set<string> := {CONF_CHAT_MODEL, CONF_MAX_TOKENS, CONF_TOP_P, CONF_TEMPERATURE}

  /** The fields every options form shows. */
  const BASE_KEYS: set<string> := {CONF_PROMPT, CONF_LLM_HASS_API, CONF_RECOMMENDED}

  /** The option keys are pairwise different strings. */
  lemma KeysDistinct()
    ensures CONF_PROMPT != CONF_LLM_HASS_API && CONF_PROMPT != CONF_RECOMMENDED
    ensures CONF_LLM_HASS_API != CONF_RECOMMENDED
    ensures BASE_KEYS !! ADVANCED_KEYS
    ensures CONF_CHAT_MODEL != CONF_MAX_TOKENS && CONF_CHAT_MODEL != CONF_TOP_P
    ensures CONF_CHAT_MODEL != CONF_TEMPERATURE && CONF_MAX_TOKENS != CONF_TOP_P
    ensures CONF_MAX_TOKENS != CONF_TEMPERATURE && CONF_TOP_P != CONF_TEMPERATURE
  {
    assert CONF_PROMPT[0] == 'p' && CONF_LLM_HASS_API[0] == 'l' && CONF_RECOMMENDED[0] == 'r';
    assert CONF_CHAT_MODEL[0] == 'c' && CONF_MAX_TOKENS[0] == 'm';
    assert CONF_TOP_P[0] == 't' && CONF_TEMPERATURE[0] == 't' && CONF_TOP_P[1] != CONF_TEMPERATURE[1];
  }
}
