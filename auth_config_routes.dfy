/**
 * GET /auth/config: the authentication type alone, default-filled and
 * upper-cased — unlike GET /config, which passes it through as spelt.
 */
module AuthConfigRoutes {
  import opened Wrappers
  import opened PyStr
  import opened AppConfig
  import ConfigRoutes

  const DefaultAuthType := "GOOGLE"

  /** The returned JSON object; authType is its only key. */
  datatype AuthConfig = AuthConfig(authType: string)

  function GetAuthConfig(config: Settings): (r: AuthConfig)
    ensures !Truthy(config.authType) ==> r.authType == DefaultAuthType
    ensures Truthy(config.authType) ==> r.authType == Upper(config.authType.value)
    ensures NoLower(r.authType)
  {
    AuthConfig(Upper(Or(config.authType, DefaultAuthType)))
  }

  /** The answer is already upper case: upper-casing it again changes nothing. */
  lemma AuthTypeIsUpperFixedPoint(config: Settings)
    ensures Upper(GetAuthConfig(config).authType) == GetAuthConfig(config).authType
  {
  }

  /** Only AUTH_TYPE influences the answer. */
  lemma DependsOnlyOnAuthType(c1: Settings, c2: Settings)
    requires c1.authType == c2.authType
    ensures GetAuthConfig(c1) == GetAuthConfig(c2)
  {
  }

  /** The two endpoints report the same authentication type exactly when
      AUTH_TYPE is unset, empty, or already free of lower-case letters. */
  lemma AgreesWithFrontendConfig(config: Settings)
    ensures GetAuthConfig(config).authType == ConfigRoutes.GetFrontendConfig(config).authType
      <==> !Truthy(config.authType) || NoLower(config.authType.value)
  {
  }

  /** AUTH_TYPE=local: this endpoint says LOCAL while GET /config reports
      "local" with both sign-in flags off. */
  lemma LowerCaseLocalDiverges()
    ensures var config := Settings(Some("local"), None, map[]);
      && GetAuthConfig(config).authType == "LOCAL"
      && ConfigRoutes.GetFrontendConfig(config).authType == "local"
      && ConfigRoutes.GetFrontendConfig(config).features
         == ConfigRoutes.Features(false, false)
  {
  }
}
