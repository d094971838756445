/**
  Properties that span several endpoints: a code issued for a session is
  then accepted by both validation endpoints, however the client types it,
  and the two issuance endpoints disagree on which sessions count as paid.
*/
module Lifecycle {
  import opened JsValues
  import opened Text
  import opened KeyValue
  import opened Http
  import opened Config
  import opened AccessCode
  import opened Issuance
  import ApiValidateCode
  import ValidateCode
  import IssueAccessCode
  import ApiIssueAccessCode

  /** The validation request a client sends for the text `typed`. */
  function ValidationRequest(typed: string): Request {
    Request("POST", JObj([("code", JStr(typed))]))
  }

  /** A typed text that normalises to a stored code validates on the REST endpoint. */
  lemma ApiAccepts(env: Env, faults: map<nat, Fault>, st: State, c: string, typed: string)
    requires RedisConfigOf(env).Some?
    requires NormalizeCode(JStr(typed)) == c && c != ""
    requires Healthy(faults, st)
    requires CodeKey(c) in st.data && st.data[CodeKey(c)].Stored?
    ensures ApiValidateCode.Handler(env, ValidationRequest(typed), faults, st).0 == Response(200, JObj([("valid", JBool(true))]))
  {
    var req := ValidationRequest(typed);
    assert Field(req.body, "code") == JStr(typed);
    assert Pending(faults, st).None?;
    ApiValidateCode.ValidIff(env, req, faults, st);
  }

  /** A typed text that normalises to a stored code validates on the client-library endpoint. */
  lemma SdkAccepts(env: Env, faults: map<nat, Fault>, st: State, c: string, typed: string)
    requires SdkRedisConfigured(env)
    requires NormalizeCode(JStr(typed)) == c && c != ""
    requires Healthy(faults, st)
    requires CodeKey(c) in st.data && Truthy(Parsed(st.data[CodeKey(c)]))
    ensures ValidateCode.Handler(env, ValidationRequest(typed), faults, st).0 == Response(200, JObj([("valid", JBool(true))]))
  {
    var req := ValidationRequest(typed);
    assert Field(req.body, "code") == JStr(typed);
    assert Pending(faults, st).None?;
    assert Truthy(ReadValue(st.data, CodeKey(c)));
    ValidateCode.ValidIff(env, req, faults, st);
  }

  /**
    Once `code:<c>` holds a record on a healthy store, validating `c`, typed
    in any letter case and with whitespace around it, answers
    `{valid: true}` on both validation endpoints.
  */
  lemma StoredCodeValidates(env: Env, faults: map<nat, Fault>, st: State, c: string, w1: string, t: string, w2: string)
    requires IsAccessCode(c)
    requires Healthy(faults, st)
    requires CodeKey(c) in st.data && st.data[CodeKey(c)].Stored? && Truthy(st.data[CodeKey(c)].json)
    requires AllSpace(w1) && AllSpace(w2) && SameLetters(t, c)
    ensures var req := ValidationRequest(w1 + t + w2);
      && (RedisConfigOf(env).Some? ==> ApiValidateCode.Handler(env, req, faults, st).0 == Response(200, JObj([("valid", JBool(true))])))
      && (SdkRedisConfigured(env) ==> ValidateCode.Handler(env, req, faults, st).0 == Response(200, JObj([("valid", JBool(true))])))
  {
    NormalizeIssuedCode(c, w1, t, w2);
    if RedisConfigOf(env).Some? {
      ApiAccepts(env, faults, st, c, w1 + t + w2);
    }
    if SdkRedisConfigured(env) {
      SdkAccepts(env, faults, st, c, w1 + t + w2);
    }
  }

  /**
    After a fresh issuance, the issued code validates on both validation
    endpoints, however it is typed, while the store stays healthy.
  */
  lemma IssuedCodeValidates(client: Client, faults: map<nat, Fault>, st: State, sid: Json, email: Json, now: string,
                            rolls: seq<Roll>, env: Env, w1: string, t: string, w2: string)
    requires |rolls| == 7
    requires Flow(client, faults, st, sid, email, now, rolls).0.Fresh?
    requires Healthy(faults, Flow(client, faults, st, sid, email, now, rolls).1)
    requires AllSpace(w1) && AllSpace(w2) && SameLetters(t, Flow(client, faults, st, sid, email, now, rolls).0.code)
    ensures var st1 := Flow(client, faults, st, sid, email, now, rolls).1;
      var req := ValidationRequest(w1 + t + w2);
      && (RedisConfigOf(env).Some? ==> ApiValidateCode.Handler(env, req, faults, st1).0 == Response(200, JObj([("valid", JBool(true))])))
      && (SdkRedisConfigured(env) ==> ValidateCode.Handler(env, req, faults, st1).0 == Response(200, JObj([("valid", JBool(true))])))
  {
    var r := Flow(client, faults, st, sid, email, now, rolls);
    FlowEffect(client, faults, st, sid, email, now, rolls);
    var c := r.0.code;
    KeysDiffer(c, sid);
    assert r.1.data[CodeKey(c)] == CodeRecord(c, sid, email, now);
    StoredCodeValidates(env, faults, r.1, c, w1, t, w2);
  }

  /** The root endpoint's paid check is the looser one: every session the other accepts, it accepts too. */
  lemma PaidStricterUnderApi(session: Json)
    ensures ApiIssueAccessCode.IsPaid(session) ==> IssueAccessCode.IsPaid(session)
  {
  }

  /** A completed checkout whose payment is not "paid" is accepted by the root endpoint only. */
  lemma CompleteButUnpaid()
    ensures var s := JObj([("payment_status", JStr("unpaid")), ("status", JStr("complete"))]);
      IssueAccessCode.IsPaid(s) && !ApiIssueAccessCode.IsPaid(s)
  {
    var s := JObj([("payment_status", JStr("unpaid")), ("status", JStr("complete"))]);
    assert "payment_status"[0] != "status"[0];
    FieldAt(s.fields, 0);
    FieldAt(s.fields, 1);
  }
}
