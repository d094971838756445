/**
  The handler of api/validate-code.js: normalise the submitted code, read
  `code:<CODE>` once through the REST interface, and answer whether the
  raw reply is truthy. It never writes.
*/
module ApiValidateCode {
  import opened Wrappers
  import opened JsValues
  import opened KeyValue
  import opened Http
  import opened Config
  import opened AccessCode
  import opened Issuance

  /** `{valid: false, error: message}`. */
  function InvalidBody(message: string): Json {
    JObj([("valid", JBool(false)), ("error", JStr(message))])
  }

  /**
    `redisGet` of this file: an error reply throws "Redis get failed:
    <status>"; otherwise the handler sees `data.result`, the stored text
    before any parsing.
  */
  function RawRead(r: Result<Option<Val>, Fault>): Result<bool, string> {
    match r
    case Err(Unreachable(m)) => Err(m)
    case Err(HttpError(status, _)) => Err("Redis get failed: " + Decimal(status))
    case Ok(None) => Ok(false)
    case Ok(Some(v)) => Ok(RawTruthy(v))
  }

  /** The lookup inside the `try`: one GET, and the answer built from it. */
  function Check(faults: map<nat, Fault>, st: State, code: string): (r: (Response, State))
    ensures r.1 == State(st.data, st.trace + [GET(CodeKey(code))])
  {
    var (g, st') := GetOp(faults, st, CodeKey(code));
    match RawRead(g)
    case Ok(b) => (Response(200, JObj([("valid", JBool(b))])), st')
    case Err(m) => (Response(500, JObj([("valid", JBool(false)), ("error", JStr("Validation impossible")), ("details", JStr(OrUnknown(m)))])), st')
  }

  function Handler(env: Env, req: Request, faults: map<nat, Fault>, st: State): (Response, State) {
    if !IsPost(req) then (Response(405, ErrorBody("Method not allowed")), st)
    else if RedisConfigOf(env).None? then (Response(500, InvalidBody("Redis non configure")), st)
    else
      var code := NormalizeCode(Field(req.body, "code"));
      if code == "" then (Response(400, InvalidBody("Code manquant")), st)
      else Check(faults, st, code)
  }

  method Handle(env: Env, req: Request, store: Store) returns (resp: Response)
    modifies store
    ensures (resp, store.Snapshot()) == Handler(env, req, store.faults, old(store.Snapshot()))
  {
    if req.verb != "POST" {
      return Response(405, ErrorBody("Method not allowed"));
    }
    var redis := GetRedisConfig(env);
    if redis.None? {
      return Response(500, InvalidBody("Redis non configure"));
    }
    var code := NormalizeCode(Field(req.body, "code"));
    if code == "" {
      return Response(400, InvalidBody("Code manquant"));
    }
    var r := store.Get(CodeKey(code));
    var data := RawRead(r);
    if data.Err? {
      return Response(500, JObj([("valid", JBool(false)), ("error", JStr("Validation impossible")), ("details", JStr(OrUnknown(data.error)))]));
    }
    resp := Response(200, JObj([("valid", JBool(data.value))]));
  }

  /**
    The handler never changes the data; it sends at most one command, a GET
    of `code:` plus the trimmed, upper-cased input, and none when that
    input is empty.
  */
  lemma ReadOnly(env: Env, req: Request, faults: map<nat, Fault>, st: State)
    ensures var (resp, st') := Handler(env, req, faults, st);
      var code := NormalizeCode(Field(req.body, "code"));
      && st'.data == st.data
      && (st'.trace == st.trace || st'.trace == st.trace + [GET(CodeKey(code))])
      && (IsPost(req) && RedisConfigOf(env).Some? && code == "" ==> resp == Response(400, InvalidBody("Code manquant")) && st' == st)
      && (!IsPost(req) ==> resp.status == 405 && st' == st)
  {
    var code := NormalizeCode(Field(req.body, "code"));
    if IsPost(req) && RedisConfigOf(env).Some? && code != "" {
      assert Handler(env, req, faults, st) == Check(faults, st, code);
    }
  }

  /** The lookup answers whether the key holds a value, or 500 with `valid: false` and a message when the store fails. */
  lemma CheckIff(faults: map<nat, Fault>, st: State, code: string)
    ensures var resp := Check(faults, st, code).0;
      var key := CodeKey(code);
      && (Pending(faults, st).None? ==> resp == Response(200, JObj([("valid", JBool(key in st.data && RawTruthy(st.data[key])))])))
      && (Pending(faults, st).Some? ==>
            resp.status == 500 && Field(resp.body, "valid") == JBool(false) && Field(resp.body, "details") != JStr(""))
  {
    var resp := Check(faults, st, code).0;
    if Pending(faults, st).Some? {
      var fs := resp.body.fields;
      assert "valid"[0] != "details"[0] && "valid"[0] != "error"[0] && "error"[0] != "details"[0];
      FieldAt(fs, 0);
      FieldAt(fs, 2);
    }
  }

  /**
    On a healthy store a request that gets past the checks answers 200, with
    `valid` true exactly when `code:<CODE>` holds a value; a store that
    fails makes it answer 500 with `valid: false` and a details message.
  */
  lemma ValidIff(env: Env, req: Request, faults: map<nat, Fault>, st: State)
    requires IsPost(req) && RedisConfigOf(env).Some? && NormalizeCode(Field(req.body, "code")) != ""
    ensures var (resp, st') := Handler(env, req, faults, st);
      var key := CodeKey(NormalizeCode(Field(req.body, "code")));
      && (Pending(faults, st).None? ==> resp == Response(200, JObj([("valid", JBool(key in st.data && RawTruthy(st.data[key])))])))
      && (Pending(faults, st).Some? ==>
            resp.status == 500 && Field(resp.body, "valid") == JBool(false) && Field(resp.body, "details") != JStr(""))
  {
    var code := NormalizeCode(Field(req.body, "code"));
    assert Handler(env, req, faults, st) == Check(faults, st, code);
    CheckIff(faults, st, code);
  }
}
