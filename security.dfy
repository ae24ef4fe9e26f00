/**
 * The API-key check every command request goes through.  The request's
 * header is looked up by the caller: the check sees only the value found
 * under the configured header name, or `None` when there is no such header.
 */
module Security {
  import opened Wrappers

  /** The part of the application settings the check reads. */
  datatype Settings = Settings(apiKeyEnabled: bool, apiKey: string, apiKeyHeader: string)

  /** An `HTTPException`: status code, detail text and response headers. */
  datatype HttpError = HttpError(status: int, detail: string, headers: map<string, string>)

  /** The settings when no environment variable overrides them: the check is off. */
  const DefaultSettings := Settings(false, "2907", "X-API-Key")

  const Unauthorized: int := 401

  /** Python's truth value of an optional string: `None` and `""` are false. */
  predicate Truthy(value: Option<string>)
  {
    value.Some? && value.value != ""
  }

  /**
   * `check_api_key`: `None` when the request may go on, otherwise the
   * exception it raises.  The check is switched off entirely by
   * `apiKeyEnabled`; when it is on, the header must be present, non-empty and
   * equal to the configured key.
   */
  function CheckApiKey(settings: Settings, header: Option<string>): (r: Option<HttpError>)
    ensures r.None? <==> !settings.apiKeyEnabled || (header.Some? && header.value != "" && header.value == settings.apiKey)
    ensures r.Some? ==> r.value.status == 401 && r.value.detail == "Invalid API Key"
    ensures r.Some? ==> r.value.headers == map["WWW-Authenticate" := settings.apiKeyHeader]
  {
    if !settings.apiKeyEnabled then None
    else if !Truthy(header) || header.value != settings.apiKey then
      Some(HttpError(Unauthorized, "Invalid API Key", map["WWW-Authenticate" := settings.apiKeyHeader]))
    else None
  }

  /** With the check switched off every request is accepted, whatever its header. */
  lemma DisabledAcceptsAll(settings: Settings, header: Option<string>)
    requires !settings.apiKeyEnabled
    ensures CheckApiKey(settings, header) == None
  {
  }

  /** Under the default settings the check is off, so every request goes through. */
  lemma DefaultSettingsAcceptAll(header: Option<string>)
    ensures CheckApiKey(DefaultSettings, header) == None
  {
  }

  /**
   * With the check on and no key configured, no request gets through: an
   * empty header is rejected like a missing one, even though it equals the
   * configured key.
   */
  lemma EmptyKeyRejectsAll(settings: Settings, header: Option<string>)
    requires settings.apiKeyEnabled && settings.apiKey == ""
    ensures CheckApiKey(settings, header).Some?
  {
  }

  /** A request accepted while the check is on carried exactly the configured key. */
  lemma AcceptedCarriesKey(settings: Settings, header: Option<string>)
    requires settings.apiKeyEnabled && CheckApiKey(settings, header).None?
    ensures header == Some(settings.apiKey)
  {
  }
}
