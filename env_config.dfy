/** Start-up configuration of src/config/env.ts: the required variables,
    the order in which they are checked, and the mode flags. The
    environment is a map from variable name to value (a name not in the
    map is unset); whether a string parses as a URL is the input `validUrl`. */
module EnvConfig {
  import opened Common

  const SupabaseUrlKey := "VITE_SUPABASE_URL"
  const AnonKeyKey := "VITE_SUPABASE_ANON_KEY"
  const LiveKitUrlKey := "VITE_LIVEKIT_URL"
  const ApiBaseUrlKey := "VITE_API_BASE_URL"
  const ModeKey := "MODE"

  /** The shortest anon key accepted. */
  const MinAnonKeyLength := 20

  datatype EnvError = Missing(key: string) | InvalidUrl(name: string, url: string) | AnonKeyTooShort

  datatype EnvVars = EnvVars(
    supabaseUrl: string,
    anonKey: string,
    liveKitUrl: string,
    apiBaseUrl: Option<string>,
    nodeEnv: string)

  /** `import.meta.env[key]`: the value, or None when unset. */
  function Lookup(env: map<string, string>, key: string): (v: Option<string>)
    ensures v.Some? <==> key in env
    ensures v.Some? ==> v.value == env[key]
  {
    if key in env then Some(env[key]) else None
  }

  /** requireEnv: an unset or empty variable is an error naming it. */
  function RequireEnv(env: map<string, string>, key: string): (r: Result<string, EnvError>)
    ensures r.Err? <==> !Truthy(Lookup(env, key))
    ensures r.Err? ==> r.error == Missing(key)
    ensures r.Ok? ==> r.value == env[key] && r.value != ""
  {
    if !Truthy(Lookup(env, key)) then Err(Missing(key)) else Ok(env[key])
  }

  /** `import.meta.env.MODE || 'development'`. */
  function NodeEnv(env: map<string, string>): (mode: string)
    ensures mode != ""
    ensures !Truthy(Lookup(env, ModeKey)) ==> mode == "development"
    ensures Truthy(Lookup(env, ModeKey)) ==> mode == env[ModeKey]
  {
    OrElse(Lookup(env, ModeKey), "development")
  }

  /** validateEnv: the three presence checks in order, then the two URL
      checks, then the key length; the optional base URL is passed through
      as it is. */
  function ValidateEnv(env: map<string, string>, validUrl: string -> bool): (r: Result<EnvVars, EnvError>)
    ensures r.Ok? ==> validUrl(r.value.supabaseUrl) && validUrl(r.value.liveKitUrl)
    ensures r.Ok? ==> |r.value.anonKey| >= MinAnonKeyLength
    ensures r.Err? && r.error.Missing? ==> !Set(env, r.error.key)
    ensures r.Err? && r.error.InvalidUrl? ==> !validUrl(r.error.url)
  {
    var url := RequireEnv(env, SupabaseUrlKey);
    if url.Err? then Err(url.error) else
    var key := RequireEnv(env, AnonKeyKey);
    if key.Err? then Err(key.error) else
    var liveKit := RequireEnv(env, LiveKitUrlKey);
    if liveKit.Err? then Err(liveKit.error) else
    if !validUrl(url.value) then Err(InvalidUrl(SupabaseUrlKey, url.value)) else
    if !validUrl(liveKit.value) then Err(InvalidUrl(LiveKitUrlKey, liveKit.value)) else
    if |key.value| < MinAnonKeyLength then Err(AnonKeyTooShort) else
    Ok(EnvVars(url.value, key.value, liveKit.value, Lookup(env, ApiBaseUrlKey), NodeEnv(env)))
  }

  predicate Set(env: map<string, string>, key: string)
  {
    Truthy(Lookup(env, key))
  }

  /** Which check fails first, and what a successful validation returns. */
  lemma CheckOrder(env: map<string, string>, validUrl: string -> bool)
    ensures ValidateEnv(env, validUrl) == Err(Missing(SupabaseUrlKey)) <==> !Set(env, SupabaseUrlKey)
    ensures ValidateEnv(env, validUrl) == Err(Missing(AnonKeyKey)) <==> Set(env, SupabaseUrlKey) && !Set(env, AnonKeyKey)
    ensures ValidateEnv(env, validUrl) == Err(Missing(LiveKitUrlKey)) <==>
      Set(env, SupabaseUrlKey) && Set(env, AnonKeyKey) && !Set(env, LiveKitUrlKey)
    ensures ValidateEnv(env, validUrl).Err? && ValidateEnv(env, validUrl).error.InvalidUrl? <==>
      Set(env, SupabaseUrlKey) && Set(env, AnonKeyKey) && Set(env, LiveKitUrlKey) &&
      (!validUrl(env[SupabaseUrlKey]) || !validUrl(env[LiveKitUrlKey]))
    ensures var r := ValidateEnv(env, validUrl); r.Err? && r.error.InvalidUrl? && r.error.name == SupabaseUrlKey <==>
      Set(env, SupabaseUrlKey) && Set(env, AnonKeyKey) && Set(env, LiveKitUrlKey) && !validUrl(env[SupabaseUrlKey])
    ensures var r := ValidateEnv(env, validUrl); r.Err? && r.error.InvalidUrl? && r.error.name == LiveKitUrlKey <==>
      Set(env, SupabaseUrlKey) && Set(env, AnonKeyKey) && Set(env, LiveKitUrlKey) &&
      validUrl(env[SupabaseUrlKey]) && !validUrl(env[LiveKitUrlKey])
    ensures ValidateEnv(env, validUrl) == Err(AnonKeyTooShort) <==>
      Set(env, SupabaseUrlKey) && Set(env, AnonKeyKey) && Set(env, LiveKitUrlKey) &&
      validUrl(env[SupabaseUrlKey]) && validUrl(env[LiveKitUrlKey]) && |env[AnonKeyKey]| < MinAnonKeyLength
    ensures ValidateEnv(env, validUrl).Ok? ==>
      var v := ValidateEnv(env, validUrl).value;
      v.supabaseUrl == env[SupabaseUrlKey] && v.anonKey == env[AnonKeyKey] && v.liveKitUrl == env[LiveKitUrlKey] &&
      |v.anonKey| >= MinAnonKeyLength && v.apiBaseUrl == Lookup(env, ApiBaseUrlKey) && v.nodeEnv == NodeEnv(env)
  {
    assert SupabaseUrlKey != AnonKeyKey && AnonKeyKey != LiveKitUrlKey && SupabaseUrlKey != LiveKitUrlKey;
  }

  /** An anon key of exactly twenty characters passes the length check. */
  lemma AnonKeyBoundary(env: map<string, string>, validUrl: string -> bool)
    requires Set(env, SupabaseUrlKey) && Set(env, AnonKeyKey) && Set(env, LiveKitUrlKey)
    requires validUrl(env[SupabaseUrlKey]) && validUrl(env[LiveKitUrlKey])
    ensures |env[AnonKeyKey]| == 20 ==> ValidateEnv(env, validUrl).Ok?
    ensures |env[AnonKeyKey]| == 19 ==> ValidateEnv(env, validUrl) == Err(AnonKeyTooShort)
  {
  }

  /** The three mode flags. */
  predicate IsDevelopment(v: EnvVars) { v.nodeEnv == "development" }
  predicate IsProduction(v: EnvVars) { v.nodeEnv == "production" }
  predicate IsTest(v: EnvVars) { v.nodeEnv == "test" }

  /** At most one mode flag holds, and an unset or empty MODE means
      development. */
  lemma ModeFlags(env: map<string, string>, validUrl: string -> bool)
    requires ValidateEnv(env, validUrl).Ok?
    ensures var v := ValidateEnv(env, validUrl).value;
      !(IsDevelopment(v) && IsProduction(v)) && !(IsDevelopment(v) && IsTest(v)) && !(IsProduction(v) && IsTest(v))
    ensures !Set(env, ModeKey) ==> IsDevelopment(ValidateEnv(env, validUrl).value)
  {
  }
}
