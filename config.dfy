/** The application settings (app/config.py): the fields the rest of the
    model reads, their defaults, the credential check run after loading, and
    the choice between a personal access token and the OAuth flow. */
module Config {
  import opened Common

  datatype Settings = Settings(
    personalAccessToken: Option<string>,
    clientId: Option<string>,
    clientSecret: Option<string>,
    openaiApiKey: string,
    openaiModel: string,
    appTimezone: string,
    cacheTtlMinutes: int,
    dataFallbackDays: int,
    publicBaseUrl: string,
    appSecretKey: string,
    authUsername: string,
    authPassword: string,
    tokenStorePath: string,
    authorizeUrl: string,
    tokenUrl: string,
    scopes: Option<string>)

  const CredentialsMessage := "Provide OURA_PERSONAL_ACCESS_TOKEN or both OURA_CLIENT_ID and OURA_CLIENT_SECRET."

  /** The settings obtained when only the fields without a default are set
      in the environment (the three Oura credentials are optional and given here). */
  function WithDefaults(
    personalAccessToken: Option<string>, clientId: Option<string>, clientSecret: Option<string>,
    openaiApiKey: string, appSecretKey: string, authUsername: string, authPassword: string): (s: Settings)
    ensures s.appTimezone == "UTC" && s.cacheTtlMinutes == 15 && s.dataFallbackDays == 1
    ensures s.openaiModel == "gpt-5" && s.publicBaseUrl == "http://localhost:8000"
    ensures s.tokenStorePath == "var/tokens.json" && s.scopes == None
    ensures s.authorizeUrl == "https://cloud.ouraring.com/oauth/authorize"
    ensures s.tokenUrl == "https://cloud.ouraring.com/oauth/token"
    ensures s.personalAccessToken == personalAccessToken && s.clientId == clientId && s.clientSecret == clientSecret
  {
    Settings(personalAccessToken, clientId, clientSecret, openaiApiKey, "gpt-5", "UTC", 15, 1,
             "http://localhost:8000", appSecretKey, authUsername, authPassword, "var/tokens.json",
             "https://cloud.ouraring.com/oauth/authorize", "https://cloud.ouraring.com/oauth/token", None)
  }

  /** The model validator run after loading: the settings pass unchanged when a
      personal token is set, or both client id and secret are; otherwise loading
      fails with a ValueError. */
  function ValidateCredentials(s: Settings): (r: Result<Settings, Error>)
    ensures r.Ok? <==> Given(s.personalAccessToken) || (Given(s.clientId) && Given(s.clientSecret))
    ensures r.Ok? ==> r.value == s
    ensures r.Err? ==> r.error == Error(ValueError, CredentialsMessage)
  {
    if Given(s.personalAccessToken) || (Given(s.clientId) && Given(s.clientSecret)) then Ok(s)
    else Err(Error(ValueError, CredentialsMessage))
  }

  /** The `use_oauth` property. */
  predicate UseOAuth(s: Settings)
  {
    Given(s.clientId) && Given(s.clientSecret) && !Given(s.personalAccessToken)
  }

  /** Settings that select OAuth always pass the credential check. */
  lemma OAuthSettingsAreValid(s: Settings)
    requires UseOAuth(s)
    ensures ValidateCredentials(s) == Ok(s)
  {
  }

  /** A personal token disables OAuth whatever the client credentials are. */
  lemma PersonalTokenDisablesOAuth(s: Settings)
    requires Given(s.personalAccessToken)
    ensures !UseOAuth(s)
    ensures ValidateCredentials(s) == Ok(s)
  {
  }

  /** Settings that load select exactly one way to authenticate to the API:
      the OAuth flow or the personal token. */
  lemma ValidSettingsChooseOneMode(s: Settings)
    ensures ValidateCredentials(s).Ok? <==> UseOAuth(s) || Given(s.personalAccessToken)
    ensures !(UseOAuth(s) && Given(s.personalAccessToken))
  {
  }
}
