/**
 * GET /config: the runtime configuration document the frontend loads.
 * Two settings are default-filled and passed through as they are; the
 * backend URL is a constant and the feature flags follow from the
 * authentication type by exact string comparison.
 */
module ConfigRoutes {
  import opened Wrappers
  import opened PyStr
  import opened AppConfig

  const DefaultAuthType := "GOOGLE"
  const DefaultEtlService := "UNSTRUCTURED"
  const BackendUrl := "http://localhost:8000"

  datatype Features = Features(googleAuthEnabled: bool, localAuthEnabled: bool)

  /** The returned JSON object; its four fields are its only keys. */
  datatype FrontendConfig = FrontendConfig(
    authType: string,
    etlService: string,
    backendUrl: string,
    features: Features)

  function GetFrontendConfig(config: Settings): (r: FrontendConfig)
    // a non-empty setting passes through unchanged: no case folding, no validation
    ensures Truthy(config.authType) ==> r.authType == config.authType.value
    ensures !Truthy(config.authType) ==> r.authType == DefaultAuthType
    ensures Truthy(config.etlService) ==> r.etlService == config.etlService.value
    ensures !Truthy(config.etlService) ==> r.etlService == DefaultEtlService
    ensures r.backendUrl == BackendUrl
    ensures r.features.googleAuthEnabled <==> r.authType == "GOOGLE"
    ensures r.features.localAuthEnabled <==> r.authType == "LOCAL"
  {
    var authType := Or(config.authType, DefaultAuthType);
    var etlService := Or(config.etlService, DefaultEtlService);
    FrontendConfig(
      authType,
      etlService,
      BackendUrl,
      Features(authType == "GOOGLE", authType == "LOCAL"))
  }

  /** The two authentication flags are never both on; exactly one is on iff
      the authentication type is spelt exactly GOOGLE or LOCAL. */
  lemma FlagsExclusive(config: Settings)
    ensures var f := GetFrontendConfig(config).features;
      !(f.googleAuthEnabled && f.localAuthEnabled)
    ensures var r := GetFrontendConfig(config);
      (r.features.googleAuthEnabled || r.features.localAuthEnabled)
      <==> r.authType in {"GOOGLE", "LOCAL"}
  {
  }

  /** With no authentication type configured, Google sign-in is the one enabled. */
  lemma DefaultEnablesGoogle(config: Settings)
    requires !Truthy(config.authType)
    ensures GetFrontendConfig(config).features == Features(true, false)
  {
  }

  /** Matching is case-sensitive: a setting spelt in any other case than
      GOOGLE or LOCAL leaves both flags off and is reported as spelt. */
  lemma OtherSpellingDisablesBoth(config: Settings)
    requires Truthy(config.authType)
    requires config.authType.value !in {"GOOGLE", "LOCAL"}
    ensures var r := GetFrontendConfig(config);
      r.authType == config.authType.value && r.features == Features(false, false)
  {
  }

  /** The document depends on AUTH_TYPE and ETL_SERVICE alone. */
  lemma DependsOnlyOnAuthAndEtl(c1: Settings, c2: Settings)
    requires c1.authType == c2.authType && c1.etlService == c2.etlService
    ensures GetFrontendConfig(c1) == GetFrontendConfig(c2)
  {
  }

  /** The strings that may appear in the document: the two exposed settings,
      their defaults and the constant URL. */
  function Exposable(config: Settings): set<string> {
    {DefaultAuthType, DefaultEtlService, BackendUrl}
    + (if config.authType.Some? then {config.authType.value} else {})
    + (if config.etlService.Some? then {config.etlService.value} else {})
  }

  /** No other setting leaks: every string in the document is exposable. */
  lemma NoSecretLeaks(config: Settings)
    ensures var r := GetFrontendConfig(config);
      {r.authType, r.etlService, r.backendUrl} <= Exposable(config)
  {
  }
}
