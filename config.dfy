/**
  Environment lookups shared by the handlers: `firstNonEmpty` over
  candidate variables and the two ways the store's URL and token are found
  (the REST handlers' `getRedisConfig` and the SDK handlers' `getRedis`).
*/
module Config {
  import opened Wrappers
  import opened Text

  type Env = map<string, string>

  /** `process.env[name]`. */
  function EnvVar(env: Env, name: string): Option<string> {
    if name in env then Some(env[name]) else None
  }

  /** A value `firstNonEmpty` skips: unset, or only whitespace. */
  predicate Blank(v: Option<string>) {
    v.None? || Trim(v.value) == ""
  }

  /** `firstNonEmpty(values)`, as a recursive definition. */
  function FirstNonEmpty(values: seq<Option<string>>): (r: string)
    ensures Trimmed(r)
  {
    if values == [] then ""
    else if !Blank(values[0]) then Trim(values[0].value)
    else FirstNonEmpty(values[1..])
  }

  /** The result is "" exactly when every value is blank. */
  lemma {:induction false} FirstNonEmptyBlank(values: seq<Option<string>>)
    ensures FirstNonEmpty(values) == "" <==> forall i :: 0 <= i < |values| ==> Blank(values[i])
  {
    if values != [] {
      FirstNonEmptyBlank(values[1..]);
      assert forall i :: 1 <= i < |values| ==> values[i] == values[1..][i - 1];
    }
  }

  /** Otherwise it is the trimmed first non-blank value. */
  lemma {:induction false} FirstNonEmptyPicksFirst(values: seq<Option<string>>, i: nat)
    requires i < |values| && !Blank(values[i])
    requires forall j :: 0 <= j < i ==> Blank(values[j])
    ensures FirstNonEmpty(values) == Trim(values[i].value)
  {
    if i > 0 {
      var rest := values[1..];
      assert Blank(values[0]);
      assert FirstNonEmpty(values) == FirstNonEmpty(rest);
      assert rest[i - 1] == values[i];
      forall j | 0 <= j < i - 1
        ensures Blank(rest[j])
      {
        assert rest[j] == values[j + 1];
      }
      FirstNonEmptyPicksFirst(rest, i - 1);
    }
  }

  /** The loop of `firstNonEmpty`, with its early return. */
  method ScanFirstNonEmpty(values: seq<Option<string>>) returns (r: string)
    ensures r == FirstNonEmpty(values)
  {
    var i := 0;
    while i < |values|
      invariant 0 <= i <= |values|
      invariant FirstNonEmpty(values[i..]) == FirstNonEmpty(values)
    {
      var v := values[i];
      if v.Some? && Trim(v.value) != "" {
        return Trim(v.value);
      }
      assert values[i..][1..] == values[i + 1..];
      i := i + 1;
    }
    return "";
  }

  datatype RedisConfig = RedisConfig(url: string, token: string)

  /** `getRedisConfig()` of the REST handlers: URL and token from either variable name, the URL without trailing slashes. */
  function RedisConfigOf(env: Env): (r: Option<RedisConfig>)
    ensures r.Some? ==> r.value.url != "" && r.value.url[|r.value.url| - 1] != '/' && r.value.token != ""
  {
    var url := StripTrailingSlashes(FirstNonEmpty([EnvVar(env, "UPSTASH_REDIS_REST_URL"), EnvVar(env, "KV_REST_API_URL")]));
    var token := FirstNonEmpty([EnvVar(env, "UPSTASH_REDIS_REST_TOKEN"), EnvVar(env, "KV_REST_API_TOKEN")]);
    if url == "" || token == "" then None else Some(RedisConfig(url, token))
  }

  method GetRedisConfig(env: Env) returns (r: Option<RedisConfig>)
    ensures r == RedisConfigOf(env)
  {
    var url := ScanFirstNonEmpty([EnvVar(env, "UPSTASH_REDIS_REST_URL"), EnvVar(env, "KV_REST_API_URL")]);
    url := StripTrailingSlashes(url);
    var token := ScanFirstNonEmpty([EnvVar(env, "UPSTASH_REDIS_REST_TOKEN"), EnvVar(env, "KV_REST_API_TOKEN")]);
    if url == "" || token == "" {
      return None;
    }
    return Some(RedisConfig(url, token));
  }

  /** `process.env[a] || process.env[b]`, with "" standing for a falsy result. */
  function EnvOr(env: Env, a: string, b: string): string {
    if a in env && env[a] != "" then env[a] else if b in env then env[b] else ""
  }

  /** `getRedis()` of the SDK handlers returns a client: both URL and token are set (no trimming). */
  predicate SdkRedisConfigured(env: Env) {
    && EnvOr(env, "UPSTASH_REDIS_REST_URL", "KV_REST_API_URL") != ""
    && EnvOr(env, "UPSTASH_REDIS_REST_TOKEN", "KV_REST_API_TOKEN") != ""
  }
}
