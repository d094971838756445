/**
  The handler of api/release-code-session.js: it deletes the session lock
  `active_session:<CODE>` only when the stored lock names the caller's
  client id. Nothing in this model writes such a lock, so its contents are
  whatever the store holds.
*/
module ReleaseCodeSession {
  import opened Wrappers
  import opened JsValues
  import opened KeyValue
  import opened Http
  import opened Config
  import opened AccessCode
  import opened Text

  /**
    `safeParseJson(raw)`: the parsed value, the raw text when it does not
    parse, and `null` for a missing key.
  */
  function SafeParseJson(v: Option<Val>): Json {
    match v
    case None => JNull
    case Some(x) => Parsed(x)
  }

  function LockKey(code: string): string {
    "active_session:" + code
  }

  /** `existing && existing.client_id === clientId`. */
  predicate OwnedBy(existing: Json, clientId: string) {
    Truthy(existing) && Field(existing, "client_id") == JStr(clientId)
  }

  function Released(b: bool): Response {
    Response(200, JObj([("ok", JBool(true)), ("released", JBool(b))]))
  }

  function Failure(f: Fault): Response {
    Response(500, NotOkDetailsBody("release impossible", OrUnknown(CommandError(f))))
  }

  /**
    The `try` block: read the lock, delete it when the caller owns it. The
    data either stays as it was or loses exactly the lock, and it loses it
    only when the caller owned it and the delete went through.
  */
  function Release(faults: map<nat, Fault>, st: State, code: string, clientId: string): (r: (Response, State))
    ensures r.1.data == st.data || (r.1.data == st.data - {LockKey(code)} && r.0 == Released(true))
    ensures r.1.trace == st.trace + [GET(LockKey(code))] || r.1.trace == st.trace + [GET(LockKey(code)), DEL(LockKey(code))]
    ensures r.0 == Released(true) ==> LockKey(code) in st.data && OwnedBy(Parsed(st.data[LockKey(code)]), clientId)
  {
    var key := LockKey(code);
    var (g, st1) := GetOp(faults, st, key);
    match g
    case Err(f) => (Failure(f), st1)
    case Ok(raw) =>
      if OwnedBy(SafeParseJson(raw), clientId) then
        var (d, st2) := DelOp(faults, st1, key);
        match d
        case Err(f) => (Failure(f), st2)
        case Ok(_) => (Released(true), st2)
      else (Released(false), st1)
  }

  /** The `code` of the body, trimmed and upper-cased. */
  function RequestCode(req: Request): string {
    NormalizeCode(Field(req.body, "code"))
  }

  /** `String(client_id || "").trim()`: the text of a truthy `client_id`, trimmed; "" for a falsy one. */
  function RequestClientId(req: Request): string {
    Trim(StrOr(Field(req.body, "client_id")))
  }

  /** The answers given before any command is sent: 405, 500 without configuration, 400 without code or client id. */
  function Refusal(env: Env, req: Request): (r: Option<Response>)
    ensures r.None? <==> IsPost(req) && RedisConfigOf(env).Some? && RequestCode(req) != "" && RequestClientId(req) != ""
  {
    if !IsPost(req) then Some(Response(405, NotOkBody("Method not allowed")))
    else if RedisConfigOf(env).None? then Some(Response(500, NotOkBody("Redis non configure")))
    else if RequestCode(req) == "" || RequestClientId(req) == "" then Some(Response(400, NotOkBody("code ou client_id manquant")))
    else None
  }

  function Handler(env: Env, req: Request, faults: map<nat, Fault>, st: State): (Response, State) {
    match Refusal(env, req)
    case Some(resp) => (resp, st)
    case None => Release(faults, st, RequestCode(req), RequestClientId(req))
  }

  method Handle(env: Env, req: Request, store: Store) returns (resp: Response)
    modifies store
    ensures (resp, store.Snapshot()) == Handler(env, req, store.faults, old(store.Snapshot()))
  {
    if req.verb != "POST" {
      return Response(405, NotOkBody("Method not allowed"));
    }
    var redis := GetRedisConfig(env);
    if redis.None? {
      return Response(500, NotOkBody("Redis non configure"));
    }
    var code := RequestCode(req);
    var clientId := RequestClientId(req);
    if code == "" || clientId == "" {
      return Response(400, NotOkBody("code ou client_id manquant"));
    }
    var key := LockKey(code);
    var existingRaw := store.Get(key);
    if existingRaw.Err? {
      return Failure(existingRaw.error);
    }
    var existing := SafeParseJson(existingRaw.value);
    if OwnedBy(existing, clientId) {
      var d := store.Del(key);
      if d.Err? {
        return Failure(d.error);
      }
      return Released(true);
    }
    resp := Released(false);
  }

  /**
    On a healthy store the lock is deleted, and `released: true` answered,
    exactly when the stored lock parses to a value whose `client_id` is the
    caller's; otherwise the answer is `released: false` and the data is
    unchanged.
  */
  lemma ReleaseIff(faults: map<nat, Fault>, st: State, code: string, clientId: string)
    requires Healthy(faults, st)
    ensures var (resp, st') := Release(faults, st, code, clientId);
      var owned := LockKey(code) in st.data && OwnedBy(Parsed(st.data[LockKey(code)]), clientId);
      && resp == Released(owned)
      && st'.data == (if owned then st.data - {LockKey(code)} else st.data)
      && Healthy(faults, st')
  {
  }

  /** Text that is not JSON parses to itself, a string with no `client_id`: such a lock is never released. */
  lemma UnparseableNeverOwned(raw: string, clientId: string)
    ensures !OwnedBy(Parsed(Text(raw)), clientId)
  {
  }

  /** The owner releasing twice: the first call releases, the second finds nothing to release. */
  lemma ReleaseTwice(faults: map<nat, Fault>, st: State, code: string, clientId: string)
    requires Healthy(faults, st)
    requires LockKey(code) in st.data && OwnedBy(Parsed(st.data[LockKey(code)]), clientId)
    ensures var st1 := Release(faults, st, code, clientId).1;
      && Release(faults, st, code, clientId).0 == Released(true)
      && Release(faults, st1, code, clientId).0 == Released(false)
      && Release(faults, st1, code, clientId).1.data == st1.data
  {
    ReleaseIff(faults, st, code, clientId);
    var st1 := Release(faults, st, code, clientId).1;
    ReleaseIff(faults, st1, code, clientId);
  }

  /**
    A store failure on the read answers 500 "release impossible" with the
    failure as details and changes nothing; one on the delete does the same
    and leaves the lock in place.
  */
  lemma ReleaseFailure(faults: map<nat, Fault>, st: State, code: string, clientId: string)
    ensures var (resp, st') := Release(faults, st, code, clientId);
      && (Pending(faults, st).Some? ==> resp == Failure(Pending(faults, st).value) && st'.data == st.data)
      && (resp.status == 500 ==> st'.data == st.data && exists f :: resp == Failure(f))
  {
  }

  /** Requests refused before the `try` send no command. */
  lemma HandlerRefusals(env: Env, req: Request, faults: map<nat, Fault>, st: State)
    ensures var (resp, st') := Handler(env, req, faults, st);
      && (!IsPost(req) ==> resp.status == 405 && st' == st)
      && (IsPost(req) && RedisConfigOf(env).Some? && (RequestCode(req) == "" || RequestClientId(req) == "") ==>
            resp == Response(400, NotOkBody("code ou client_id manquant")) && st' == st)
  {
  }

  /** A request that gets through can only delete `active_session:` plus the trimmed, upper-cased code. */
  lemma HandlerEffects(env: Env, req: Request, faults: map<nat, Fault>, st: State)
    ensures var st' := Handler(env, req, faults, st).1;
      st'.data == st.data || st'.data == st.data - {LockKey(NormalizeCode(Field(req.body, "code")))}
  {
  }
}
