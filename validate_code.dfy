/**
  The handler of validate-code.js: the same check through the
  `@upstash/redis` client, which parses the stored text before the handler
  sees it, so `valid` is the truthiness of the parsed value. A failure
  answers 500 with no details.
*/
module ValidateCode {
  import opened Wrappers
  import opened JsValues
  import opened KeyValue
  import opened Http
  import opened Config
  import opened AccessCode
  import opened Issuance

  function InvalidBody(message: string): Json {
    JObj([("valid", JBool(false)), ("error", JStr(message))])
  }

  function Handler(env: Env, req: Request, faults: map<nat, Fault>, st: State): (Response, State) {
    if !IsPost(req) then (Response(405, ErrorBody("Method not allowed")), st)
    else if !SdkRedisConfigured(env) then (Response(500, InvalidBody("Redis non configure")), st)
    else
      var code := NormalizeCode(Field(req.body, "code"));
      if code == "" then (Response(400, InvalidBody("Code manquant")), st)
      else
        var (r, st') := GetOp(faults, st, CodeKey(code));
        match ReadAs(UpstashSdk, r)
        case Ok(data) => (Response(200, JObj([("valid", JBool(Truthy(data)))])), st')
        case Err(_) => (Response(500, InvalidBody("Validation impossible")), st')
  }

  method Handle(env: Env, req: Request, store: Store) returns (resp: Response)
    modifies store
    ensures (resp, store.Snapshot()) == Handler(env, req, store.faults, old(store.Snapshot()))
  {
    if req.verb != "POST" {
      return Response(405, ErrorBody("Method not allowed"));
    }
    var url := EnvOr(env, "UPSTASH_REDIS_REST_URL", "KV_REST_API_URL");
    var token := EnvOr(env, "UPSTASH_REDIS_REST_TOKEN", "KV_REST_API_TOKEN");
    if url == "" || token == "" {
      return Response(500, InvalidBody("Redis non configure"));
    }
    var code := NormalizeCode(Field(req.body, "code"));
    if code == "" {
      return Response(400, InvalidBody("Code manquant"));
    }
    var r := store.Get(CodeKey(code));
    var data := ReadAs(UpstashSdk, r);
    if data.Err? {
      return Response(500, InvalidBody("Validation impossible"));
    }
    resp := Response(200, JObj([("valid", JBool(Truthy(data.value)))]));
  }

  /**
    The handler never changes the data and sends at most the one GET of
    `code:` plus the normalised input; missing configuration or an empty
    code answer before any command.
  */
  lemma ReadOnly(env: Env, req: Request, faults: map<nat, Fault>, st: State)
    ensures var (resp, st') := Handler(env, req, faults, st);
      var code := NormalizeCode(Field(req.body, "code"));
      && st'.data == st.data
      && (st'.trace == st.trace || st'.trace == st.trace + [GET(CodeKey(code))])
      && (IsPost(req) && !SdkRedisConfigured(env) ==> resp == Response(500, InvalidBody("Redis non configure")) && st' == st)
      && (IsPost(req) && SdkRedisConfigured(env) && code == "" ==> resp == Response(400, InvalidBody("Code manquant")) && st' == st)
  {
    var code := NormalizeCode(Field(req.body, "code"));
    if IsPost(req) && SdkRedisConfigured(env) && code != "" {
      var (r, st') := GetOp(faults, st, CodeKey(code));
      assert Handler(env, req, faults, st).1 == st';
    }
  }

  /**
    `valid` is the truthiness of the parsed stored value on a healthy
    store; any store failure answers 500 with `valid: false` and no details.
  */
  lemma ValidIff(env: Env, req: Request, faults: map<nat, Fault>, st: State)
    requires IsPost(req) && SdkRedisConfigured(env) && NormalizeCode(Field(req.body, "code")) != ""
    ensures var (resp, st') := Handler(env, req, faults, st);
      var key := CodeKey(NormalizeCode(Field(req.body, "code")));
      && (Pending(faults, st).None? ==> resp == Response(200, JObj([("valid", JBool(Truthy(ReadValue(st.data, key))))])))
      && (Pending(faults, st).Some? ==> resp == Response(500, InvalidBody("Validation impossible")))
  {
  }
}
