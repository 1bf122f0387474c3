/** Configuration loading of the CLI: the three environment variables, checked in a fixed order.
 *  Ending the process with status 1 is an error value naming the first check that failed, and the
 *  `new URL` parse is a validity predicate given by the caller. */
module ConfigManager {
  import opened Common

  const DokployUrlVar: string := "DOKPLOY_URL"
  const DokployApiKeyVar: string := "DOKPLOY_API_KEY"
  const DokployDomainVar: string := "DOKPLOY_DOMAIN"

  /** The environment variables of the process. */
  type Env = map<string, string>

  /** A variable that is set to a non-empty value; an unset or empty variable is falsy. */
  predicate IsSet(env: Env, name: string)
  {
    name in env && env[name] != ""
  }

  /** The value of a variable, or the empty string when it is unset. */
  function Lookup(env: Env, name: string): (v: string)
    ensures v != "" <==> IsSet(env, name)
    ensures IsSet(env, name) ==> v == env[name]
  {
    if name in env then env[name] else ""
  }

  /** The fatal configuration errors, one per check. */
  datatype ConfigError = MissingUrl | MissingApiKey | InvalidUrl | MissingDomain

  datatype Config = Config(dokployUrl: string, apiToken: string, domain: string)

  /** `s.replace(/\/$/, '')`: a single `/` at the very end is removed. */
  function StripTrailingSlash(s: string): (r: string)
    ensures s != "" && s[|s| - 1] == '/' ==> s == r + "/"
    ensures s == "" || s[|s| - 1] != '/' ==> r == s
  {
    if s != "" && s[|s| - 1] == '/' then s[..|s| - 1] else s
  }

  /** `ConfigManager.loadConfiguration`. The checks run in the order URL present, API key
   *  present, URL valid, domain present; the first that fails is the error, and a success
   *  returns the URL less one trailing slash with the key and the domain unchanged. */
  function LoadConfiguration(env: Env, isValidUrl: string -> bool): (r: Result<Config, ConfigError>)
    ensures r == Err(MissingUrl) <==> !IsSet(env, DokployUrlVar)
    ensures r == Err(MissingApiKey) <==> IsSet(env, DokployUrlVar) && !IsSet(env, DokployApiKeyVar)
    ensures r == Err(InvalidUrl) <==>
              IsSet(env, DokployUrlVar) && IsSet(env, DokployApiKeyVar) && !isValidUrl(env[DokployUrlVar])
    ensures r == Err(MissingDomain) <==>
              IsSet(env, DokployUrlVar) && IsSet(env, DokployApiKeyVar) && isValidUrl(env[DokployUrlVar])
              && !IsSet(env, DokployDomainVar)
    ensures r.Ok? ==> r.value.dokployUrl == StripTrailingSlash(env[DokployUrlVar])
                      && r.value.apiToken == env[DokployApiKeyVar] && r.value.domain == env[DokployDomainVar]
  {
    var dokployUrl := Lookup(env, DokployUrlVar);
    var apiToken := Lookup(env, DokployApiKeyVar);
    var customDomain := Lookup(env, DokployDomainVar);
    if dokployUrl == "" then Err(MissingUrl)
    else if apiToken == "" then Err(MissingApiKey)
    else if !isValidUrl(dokployUrl) then Err(InvalidUrl)
    else
      var finalUrl := StripTrailingSlash(dokployUrl);
      if customDomain == "" then Err(MissingDomain)
      else Ok(Config(finalUrl, apiToken, customDomain))
  }

  /** Loading succeeds exactly when all four checks pass; the values then are all non-empty. */
  lemma LoadConfigurationSucceeds(env: Env, isValidUrl: string -> bool)
    ensures LoadConfiguration(env, isValidUrl).Ok? <==>
              IsSet(env, DokployUrlVar) && IsSet(env, DokployApiKeyVar) && isValidUrl(env[DokployUrlVar])
              && IsSet(env, DokployDomainVar)
    ensures LoadConfiguration(env, isValidUrl).Ok? ==>
              var c := LoadConfiguration(env, isValidUrl).value;
              c.apiToken != "" && c.domain != ""
  {
  }

  /** A URL in the usual form `https://host/` loses its one trailing slash, and no more. */
  lemma {:induction false} StripTrailingSlashOnce(s: string)
    ensures StripTrailingSlash(s + "/") == s
    ensures StripTrailingSlash(s + "//") == s + "/"
  {
    assert (s + "//")[..|s + "//"| - 1] == s + "/";
    assert (s + "/")[..|s + "/"| - 1] == s;
  }
}
