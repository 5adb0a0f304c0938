/** The settings of config.py: the environment-name, API-key and origin
    validators, the numeric field bounds, validation of a whole settings
    record, and the Redis configuration derived from it. */
module Config {
  import opened Common
  import opened Text

  const MinPort: int := 1024
  const MaxPort: int := 65535
  const MinMaxTokens: int := 1
  const MaxMaxTokens: int := 2000
  const MinRedisPort: int := 1
  const MaxRedisPort: int := 65535
  const MinRedisDb: int := 0
  const MaxRedisDb: int := 15
  const MinContextTtl: int := 60
  const MaxContextTtl: int := 86400
  const ApiKeyPrefix: string := "sk-"
  const MinApiKeyLength: int := 20

  /** The three environment names, in lower case. */
  predicate KnownEnvironment(name: string) {
    name == "development" || name == "staging" || name == "production"
  }

  /** A settings record as read from the environment, before validation. */
  datatype Settings = Settings(
    appName: string,
    appVersion: string,
    env: string,
    host: string,
    port: int,
    allowedOrigins: seq<string>,
    apiKey: string,
    model: string,
    temperature: real,
    maxTokens: int,
    redisHost: string,
    redisPort: int,
    redisPassword: Option<string>,
    redisDb: int,
    contextTtl: int)

  /** `validate_environment`: accepted when its lower-case form is one of
      the three names, and normalised to that form. */
  function ValidateEnvironment(v: string): (r: Result<string>)
    ensures r.Ok? <==> KnownEnvironment(Lower(v))
    ensures r.Ok? ==> KnownEnvironment(r.value) && |r.value| == |v|
    ensures r.Ok? ==> forall k :: 0 <= k < |v| ==> r.value[k] == LowerChar(v[k])
    ensures r.Err? ==> r.error.ValueError?
  {
    var lowered := Lower(v);
    if KnownEnvironment(lowered) then Ok(lowered)
    else Err(ValueError("Environment must be one of {'development', 'staging', 'production'}"))
  }

  lemma {:induction false} LowerIdempotent(s: string)
    ensures Lower(Lower(s)) == Lower(s)
  {
    if s != [] {
      LowerIdempotent(s[1..]);
    }
  }

  /** Validating an already validated environment name changes nothing. */
  lemma ValidateEnvironmentIdempotent(v: string)
    requires ValidateEnvironment(v).Ok?
    ensures ValidateEnvironment(ValidateEnvironment(v).value) == ValidateEnvironment(v)
  {
    LowerIdempotent(v);
  }

  /** Case does not matter: "Production" is accepted as "production". */
  lemma MixedCaseEnvironmentAccepted()
    ensures ValidateEnvironment("Production") == Ok("production")
  {
    LowerMatches("Production", "production");
  }

  /** Abbreviations are not accepted. */
  lemma AbbreviatedEnvironmentRejected()
    ensures ValidateEnvironment("prod").Err?
  {
    assert |Lower("prod")| == 4;
  }

  lemma LowerMatches(s: string, t: string)
    requires |s| == |t|
    requires forall k :: 0 <= k < |s| ==> LowerChar(s[k]) == t[k]
    ensures Lower(s) == t
  {
  }

  /** `validate_api_key`. */
  function ValidateApiKey(v: string): (r: Result<string>)
    ensures r.Ok? <==> StartsWith(v, ApiKeyPrefix) && |v| >= MinApiKeyLength
    ensures r.Ok? ==> r.value == v
    ensures r.Err? ==> r.error == ValueError("Invalid OpenAI API key format")
  {
    if !StartsWith(v, ApiKeyPrefix) || |v| < MinApiKeyLength then
      Err(ValueError("Invalid OpenAI API key format"))
    else
      Ok(v)
  }

  /** The scheme part of the origin pattern, matched without regard to case:
      the length of a leading "http://" or "https://", if there is one. */
  function SchemeLength(origin: string): (r: Option<nat>)
    ensures r.Some? ==> r.value <= |origin|
    ensures r == Some(7) <==> |origin| >= 7 && Lower(origin[..7]) == "http://"
    ensures r == Some(8) <==> |origin| >= 8 && Lower(origin[..7]) != "http://" && Lower(origin[..8]) == "https://"
    ensures r.Some? ==> r == Some(7) || r == Some(8)
  {
    if |origin| >= 7 && Lower(origin[..7]) == "http://" then Some(7)
    else if |origin| >= 8 && Lower(origin[..8]) == "https://" then Some(8)
    else None
  }

  /** The origin pattern: a scheme, then a remainder (host, optional port and
      path) that the regular expression's later part accepts, which is left as
      the predicate `hostPart`. */
  predicate OriginMatches(origin: string, hostPart: string -> bool) {
    var n := SchemeLength(origin);
    n.Some? && hostPart(origin[n.value..])
  }

  /** Whatever the host part accepts, an accepted origin starts with "http://"
      or "https://" (in any case). */
  lemma AcceptedOriginHasScheme(origin: string, hostPart: string -> bool)
    requires OriginMatches(origin, hostPart)
    ensures Lower(origin[..7]) == "http://" || Lower(origin[..8]) == "https://"
  {
  }

  predicate AllOriginsMatch(origins: seq<string>, hostPart: string -> bool) {
    forall k :: 0 <= k < |origins| ==> OriginMatches(origins[k], hostPart)
  }

  /** `validate_origins`: tests the origins in order and rejects the first one
      that does not match; the list is returned unchanged when all match. */
  method ValidateOrigins(origins: seq<string>, hostPart: string -> bool) returns (r: Result<seq<string>>)
    ensures r.Ok? <==> AllOriginsMatch(origins, hostPart)
    ensures r.Ok? ==> r.value == origins
    ensures r.Err? ==>
      exists k :: (0 <= k < |origins|
        && !OriginMatches(origins[k], hostPart)
        && AllOriginsMatch(origins[..k], hostPart)
        && r.error == ValueError("Invalid origin format: " + origins[k]))
  {
    var i := 0;
    while i < |origins|
      invariant 0 <= i <= |origins|
      invariant AllOriginsMatch(origins[..i], hostPart)
    {
      if !OriginMatches(origins[i], hostPart) {
        return Err(ValueError("Invalid origin format: " + origins[i]));
      }
      i := i + 1;
    }
    assert origins[..i] == origins;
    return Ok(origins);
  }

  /** The `ge`/`le` bounds of the numeric fields. */
  predicate InBounds(s: Settings) {
    && MinPort <= s.port <= MaxPort
    && 0.0 <= s.temperature <= 1.0
    && MinMaxTokens <= s.maxTokens <= MaxMaxTokens
    && MinRedisPort <= s.redisPort <= MaxRedisPort
    && MinRedisDb <= s.redisDb <= MaxRedisDb
    && MinContextTtl <= s.contextTtl <= MaxContextTtl
  }

  /** The validated fields, in declaration order, by environment name. */
  const FieldNames: seq<string> := ["ENV", "PORT", "ALLOWED_ORIGINS", "OPENAI_API_KEY",
    "OPENAI_TEMPERATURE", "OPENAI_MAX_TOKENS", "REDIS_PORT", "REDIS_DB", "CONTEXT_TTL"]

  /** The outcome of each field's validator or bound, in the order of
      `FieldNames`. */
  function FieldChecks(s: Settings, hostPart: string -> bool): (r: seq<bool>)
    ensures |r| == |FieldNames|
  {
    [ ValidateEnvironment(s.env).Ok?,
      MinPort <= s.port <= MaxPort,
      AllOriginsMatch(s.allowedOrigins, hostPart),
      ValidateApiKey(s.apiKey).Ok?,
      0.0 <= s.temperature <= 1.0,
      MinMaxTokens <= s.maxTokens <= MaxMaxTokens,
      MinRedisPort <= s.redisPort <= MaxRedisPort,
      MinRedisDb <= s.redisDb <= MaxRedisDb,
      MinContextTtl <= s.contextTtl <= MaxContextTtl ]
  }

  /** The names whose check failed, in order. */
  function Failing(names: seq<string>, oks: seq<bool>): (r: seq<string>)
    requires |names| == |oks|
    ensures r == [] <==> forall k :: 0 <= k < |oks| ==> oks[k]
    ensures forall name :: name in r ==> name in names
  {
    if names == [] then []
    else (if oks[0] then [] else [names[0]]) + Failing(names[1..], oks[1..])
  }

  predicate Distinct(names: seq<string>) {
    forall i, j :: 0 <= i < j < |names| ==> names[i] != names[j]
  }

  /** With distinct names, a name is reported exactly when its check fails. */
  lemma {:induction false} FailingNamesExactly(names: seq<string>, oks: seq<bool>)
    requires |names| == |oks| && Distinct(names)
    ensures forall k :: 0 <= k < |names| ==> (names[k] in Failing(names, oks) <==> !oks[k])
  {
    if names != [] {
      FailingNamesExactly(names[1..], oks[1..]);
      forall k | 0 <= k < |names|
        ensures names[k] in Failing(names, oks) <==> !oks[k]
      {
        if k > 0 {
          assert names[k] == names[1..][k - 1];
          assert names[k] != names[0];
        } else {
          assert names[0] !in names[1..];
        }
      }
    }
  }

  lemma FieldNamesDistinct()
    ensures Distinct(FieldNames)
  {
    var lengths := [3, 4, 15, 14, 18, 17, 10, 8, 11];
    assert forall k :: 0 <= k < |FieldNames| ==> |FieldNames[k]| == lengths[k];
  }

  /** The fields that fail validation, in declaration order: pydantic
      reports every failing field, not just the first. */
  function InvalidFields(s: Settings, hostPart: string -> bool): (r: seq<string>)
    ensures r == [] <==> forall k :: 0 <= k < |FieldNames| ==> FieldChecks(s, hostPart)[k]
    ensures forall k :: 0 <= k < |FieldNames| ==> (FieldNames[k] in r <==> !FieldChecks(s, hostPart)[k])
    ensures forall name :: name in r ==> name in FieldNames
  {
    FieldNamesDistinct();
    FailingNamesExactly(FieldNames, FieldChecks(s, hostPart));
    Failing(FieldNames, FieldChecks(s, hostPart))
  }

  /** No field is reported exactly when the environment, the origins and the
      key validate and every numeric field is within its bounds. */
  lemma NoInvalidFieldsIff(s: Settings, hostPart: string -> bool)
    ensures InvalidFields(s, hostPart) == [] <==>
      && ValidateEnvironment(s.env).Ok?
      && AllOriginsMatch(s.allowedOrigins, hostPart)
      && ValidateApiKey(s.apiKey).Ok?
      && InBounds(s)
  {
    var oks := FieldChecks(s, hostPart);
    assert oks[0] && oks[1] && oks[2] && oks[3] && oks[4] && oks[5] && oks[6] && oks[7] && oks[8]
      ==> forall k :: 0 <= k < |oks| ==> oks[k];
  }

  /** `Settings()`: the validated record, with the environment name in lower
      case, or a ValidationError naming every failing field. */
  function ValidateSettings(raw: Settings, hostPart: string -> bool): (r: Result<Settings>)
    ensures r.Ok? <==> InvalidFields(raw, hostPart) == []
    ensures r.Ok? ==> InBounds(r.value) && KnownEnvironment(r.value.env)
    ensures r.Ok? ==> r.value == raw.(env := ValidateEnvironment(raw.env).value)
    ensures r.Err? ==> r.error == ValidationError(InvalidFields(raw, hostPart))
  {
    NoInvalidFieldsIff(raw, hostPart);
    var bad := InvalidFields(raw, hostPart);
    if bad == [] then Ok(raw.(env := ValidateEnvironment(raw.env).value))
    else Err(ValidationError(bad))
  }

  /** The part of `get_redis_config` the service reads. */
  datatype RedisConfig = RedisConfig(
    host: string,
    port: int,
    password: Option<string>,
    db: int,
    contextTtl: int)

  /** `get_redis_config`: connection fields and the TTL passed through. */
  function GetRedisConfig(s: Settings): (r: RedisConfig)
    ensures InBounds(s) ==> MinContextTtl <= r.contextTtl <= MaxContextTtl
    ensures InBounds(s) ==> MinRedisPort <= r.port <= MaxRedisPort && MinRedisDb <= r.db <= MaxRedisDb
  {
    RedisConfig(s.redisHost, s.redisPort, s.redisPassword, s.redisDb, s.contextTtl)
  }

  /** Every validated settings record yields a context TTL in [60, 86400]. */
  lemma ValidatedTtlInRange(raw: Settings, hostPart: string -> bool)
    requires ValidateSettings(raw, hostPart).Ok?
    ensures var ttl := GetRedisConfig(ValidateSettings(raw, hostPart).value).contextTtl;
      MinContextTtl <= ttl <= MaxContextTtl && ttl == raw.contextTtl
  {
  }
}
