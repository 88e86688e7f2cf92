/** The configuration record (`Settings` in settings.py): connection-mode
    selection and the range checks run when a record is constructed. The
    environment defaults are not modelled: a record is built from explicit
    field values. */
module Settings {
  import opened Wrappers

  /** The placeholder token that selects the local vLLM server. */
  const DummyToken: string := "dummy_token"
  /** The API key sent in vLLM mode. */
  const EmptyApiKey: string := "EMPTY"

  datatype Settings = Settings(
    hfToken: string,
    hfModelName: string,
    hfTimeout: int,
    vllmBaseUrl: string,
    hfRouterUrl: string,
    temperature: real,
    maxTokens: int,
    rateLimitDelay: real,
    logLevel: string)

  /** The three `ValueError`s of `__post_init__`, in the order it checks them. */
  datatype SettingsError = TemperatureOutOfRange | MaxTokensTooSmall | TimeoutTooSmall

  /** Local (vLLM) mode: the token is the placeholder. */
  predicate IsVllmMode(s: Settings)
  {
    s.hfToken == DummyToken
  }

  /** The `base_url` property. */
  function BaseUrl(s: Settings): (url: string)
    ensures IsVllmMode(s) ==> url == s.vllmBaseUrl
    ensures !IsVllmMode(s) ==> url == s.hfRouterUrl
  {
    if s.hfToken == DummyToken then s.vllmBaseUrl else s.hfRouterUrl
  }

  /** The `api_key` property: never the placeholder token itself. */
  function ApiKey(s: Settings): (key: string)
    ensures IsVllmMode(s) ==> key == EmptyApiKey
    ensures !IsVllmMode(s) ==> key == s.hfToken
    ensures key != DummyToken
  {
    if s.hfToken == DummyToken then EmptyApiKey else s.hfToken
  }

  /** Both properties test the same condition, so the URL and the key always
      belong to the same mode. */
  lemma ModesAgree(s: Settings)
    ensures (BaseUrl(s) == s.vllmBaseUrl && ApiKey(s) == EmptyApiKey) ||
            (BaseUrl(s) == s.hfRouterUrl && ApiKey(s) == s.hfToken && s.hfToken != DummyToken)
  {
  }

  /** Constructing a record with these field values: `__post_init__` either
      accepts it unchanged or raises the first failing check's error. */
  function New(s: Settings): (r: Result<Settings, SettingsError>)
    ensures r.Success? <==> 0.0 <= s.temperature <= 2.0 && s.maxTokens >= 1 && s.hfTimeout >= 1
    ensures r.Success? ==> r.value == s
    ensures r == Failure(TemperatureOutOfRange) <==> s.temperature < 0.0 || s.temperature > 2.0
    ensures r == Failure(MaxTokensTooSmall) <==>
              0.0 <= s.temperature <= 2.0 && s.maxTokens < 1
    ensures r == Failure(TimeoutTooSmall) <==>
              0.0 <= s.temperature <= 2.0 && s.maxTokens >= 1 && s.hfTimeout < 1
  {
    if s.temperature < 0.0 || s.temperature > 2.0 then Failure(TemperatureOutOfRange)
    else if s.maxTokens < 1 then Failure(MaxTokensTooSmall)
    else if s.hfTimeout < 1 then Failure(TimeoutTooSmall)
    else Success(s)
  }

  /** Validation looks only at temperature, max_tokens and the timeout: the
      delay, log level, URLs, model name and token are not constrained. */
  lemma ValidationIgnoresOtherFields(s: Settings, token: string, model: string, vllm: string,
                                     router: string, delay: real, level: string)
    ensures New(s).Success? ==
            New(s.(hfToken := token, hfModelName := model, vllmBaseUrl := vllm,
                   hfRouterUrl := router, rateLimitDelay := delay, logLevel := level)).Success?
  {
  }
}
