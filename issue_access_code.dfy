/**
  The handler of issue-access-code.js: after checking the method, the
  configuration and the body, it retrieves the Checkout session over
  Stripe's REST API, refuses an unpaid one, and runs the issuance flow with
  the `fetch`-based store client. Failures after the configuration checks
  answer 500 with the error message as `details`.
*/
module IssueAccessCode {
  import opened JsValues
  import opened KeyValue
  import opened Http
  import opened Config
  import opened AccessCode
  import opened Issuance
  import opened Text

  /** `isPaid`: the session exists and its payment is "paid" or the session is "complete". */
  predicate IsPaid(session: Json) {
    Truthy(session) && (Field(session, "payment_status") == JStr("paid") || Field(session, "status") == JStr("complete"))
  }

  /** The customer's email, or "" when the session has none. */
  function Email(session: Json): Json {
    var details := Field(session, "customer_details");
    if Truthy(session) && Truthy(details) && Truthy(Field(details, "email")) then Field(details, "email") else JStr("")
  }

  function StripeKey(env: Env): string {
    FirstNonEmpty([EnvVar(env, "STRIPE_SECRET_KEY"), EnvVar(env, "STRIPE_SECRET")])
  }

  /** The method, configuration and `session_id` checks all pass, so Stripe is asked. */
  predicate ReachesStripe(env: Env, req: Request) {
    IsPost(req) && StripeKey(env) != "" && RedisConfigOf(env).Some? && Truthy(Field(req.body, "session_id"))
  }

  function FailureBody(message: string): Json {
    JObj([("error", JStr("Generation code impossible")), ("details", JStr(OrUnknown(message)))])
  }

  function OutcomeResponse(o: Outcome): Response {
    match o
    case Existing(v) => Response(200, JObj([("code", v), ("existing", JBool(true))]))
    case Fresh(c) => Response(200, JObj([("code", JStr(c)), ("existing", JBool(false))]))
    case Threw(m) => Response(500, FailureBody(m))
  }

  function Handler(env: Env, req: Request, stripe: StripeReply, faults: map<nat, Fault>, st: State, now: string, rolls: seq<Roll>): Reply
    requires |rolls| == 7
  {
    if !IsPost(req) then Reply(Response(405, ErrorBody("Method not allowed")), st, false)
    else if StripeKey(env) == "" then Reply(Response(500, ErrorBody("Stripe non configure")), st, false)
    else if RedisConfigOf(env).None? then Reply(Response(500, ErrorBody("Redis non configure")), st, false)
    else
      var sid := Field(req.body, "session_id");
      if !Truthy(sid) then Reply(Response(400, ErrorBody("session_id manquant")), st, false)
      else
        match stripe
        case StripeFailed(m) => Reply(Response(500, FailureBody(m)), st, true)
        case Retrieved(session) =>
          if !IsPaid(session) then Reply(Response(402, ErrorBody("Paiement non confirme")), st, true)
          else
            var (o, st') := Flow(RestFetch, faults, st, sid, Email(session), now, rolls);
            Reply(OutcomeResponse(o), st', true)
  }

  method Handle(env: Env, req: Request, stripe: StripeReply, store: Store, now: string, rolls: seq<Roll>)
    returns (resp: Response, askedStripe: bool)
    requires |rolls| == 7
    modifies store
    ensures Reply(resp, store.Snapshot(), askedStripe) == Handler(env, req, stripe, store.faults, old(store.Snapshot()), now, rolls)
  {
    if req.verb != "POST" {
      return Response(405, ErrorBody("Method not allowed")), false;
    }
    var secretKey := ScanFirstNonEmpty([EnvVar(env, "STRIPE_SECRET_KEY"), EnvVar(env, "STRIPE_SECRET")]);
    if secretKey == "" {
      return Response(500, ErrorBody("Stripe non configure")), false;
    }
    var redis := GetRedisConfig(env);
    if redis.None? {
      return Response(500, ErrorBody("Redis non configure")), false;
    }
    var sid := Field(req.body, "session_id");
    if !Truthy(sid) {
      return Response(400, ErrorBody("session_id manquant")), false;
    }
    askedStripe := true;
    if stripe.StripeFailed? {
      return Response(500, FailureBody(stripe.message)), true;
    }
    var session := stripe.session;
    if !IsPaid(session) {
      return Response(402, ErrorBody("Paiement non confirme")), true;
    }
    var o := Issue(RestFetch, store, sid, Email(session), now, rolls);
    resp := OutcomeResponse(o);
  }

  /**
    A request refused before Stripe (wrong method, missing configuration,
    missing `session_id`) asks neither Stripe nor the store anything; an
    unpaid session or a failed retrieval answers without touching the store.
  */
  lemma RefusalsTouchNothing(env: Env, req: Request, stripe: StripeReply, faults: map<nat, Fault>, st: State, now: string, rolls: seq<Roll>)
    requires |rolls| == 7
    ensures var r := Handler(env, req, stripe, faults, st, now, rolls);
      && (!ReachesStripe(env, req) ==> r.st == st && !r.askedStripe && r.resp.status in {405, 500, 400})
      && (!IsPost(req) ==> r.resp == Response(405, ErrorBody("Method not allowed")))
      && (IsPost(req) && StripeKey(env) != "" && RedisConfigOf(env).Some? && !Truthy(Field(req.body, "session_id")) ==>
            r.resp == Response(400, ErrorBody("session_id manquant")))
      && (ReachesStripe(env, req) ==> r.askedStripe)
      && (ReachesStripe(env, req) && stripe.Retrieved? && !IsPaid(stripe.session) ==>
            r.resp == Response(402, ErrorBody("Paiement non confirme")) && r.st == st)
      && (ReachesStripe(env, req) && stripe.StripeFailed? ==>
            r.resp.status == 500 && r.st == st && Field(r.resp.body, "details") != JStr(""))
  {
  }

  /**
    The only keys a request can change are `session:<session_id>` and keys
    under `code:`; a 200 with `existing: false` carries an access code whose
    record (code, session id, email or "", creation time) and session index
    are exactly what changed.
  */
  lemma IssuedRecord(env: Env, req: Request, stripe: StripeReply, faults: map<nat, Fault>, st: State, now: string, rolls: seq<Roll>)
    requires |rolls| == 7
    ensures var r := Handler(env, req, stripe, faults, st, now, rolls);
      var sid := Field(req.body, "session_id");
      && (forall k :: k != SessionKey(sid) && !StartsWith(k, "code:") ==> Lookup(r.st.data, k) == Lookup(st.data, k))
      && (r.resp.status == 200 && Field(r.resp.body, "existing") == JBool(false) ==>
            && stripe.Retrieved? && IsPaid(stripe.session)
            && Field(r.resp.body, "code").JStr?
            && var c := Field(r.resp.body, "code").s;
            && IsAccessCode(c)
            && r.st.data == st.data[CodeKey(c) := CodeRecord(c, sid, Email(stripe.session), now)][SessionKey(sid) := Text(c)])
  {
    var r := Handler(env, req, stripe, faults, st, now, rolls);
    var sid := Field(req.body, "session_id");
    if ReachesStripe(env, req) && stripe.Retrieved? && IsPaid(stripe.session) {
      var email := Email(stripe.session);
      var (o, st') := Flow(RestFetch, faults, st, sid, email, now, rolls);
      assert r == Reply(OutcomeResponse(o), st', true);
      FlowEffect(RestFetch, faults, st, sid, email, now, rolls);
      FlowKeys(RestFetch, faults, st, sid, email, now, rolls);
      if r.resp.status == 200 && Field(r.resp.body, "existing") == JBool(false) {
        assert o.Fresh?;
        IssuedFields(JStr(o.code), false);
      }
    } else {
      assert r.st == st;
    }
  }

  /**
    Two successive successful requests for the same paid session, on a
    healthy store, return the same code, the second time with
    `existing: true`, and the second writes nothing.
  */
  lemma IssueTwice(env: Env, req: Request, session: Json, faults: map<nat, Fault>, st: State,
                   now: string, rolls: seq<Roll>, now2: string, rolls2: seq<Roll>)
    requires |rolls| == 7 && |rolls2| == 7 && Healthy(faults, st)
    requires ReachesStripe(env, req) && IsPaid(session)
    ensures var r1 := Handler(env, req, Retrieved(session), faults, st, now, rolls);
      var r2 := Handler(env, req, Retrieved(session), faults, r1.st, now2, rolls2);
      && r1.resp.status == 200 && r2.resp.status == 200
      && r2.resp.body == JObj([("code", Field(r1.resp.body, "code")), ("existing", JBool(true))])
      && r2.st.data == r1.st.data
  {
    var sid := Field(req.body, "session_id");
    var email := Email(session);
    FlowHealthy(RestFetch, faults, st, sid, email, now, rolls);
    FlowTwice(RestFetch, faults, st, sid, email, now, rolls, email, now2, rolls2);
    var (o1, st1) := Flow(RestFetch, faults, st, sid, email, now, rolls);
    var (o2, st2) := Flow(RestFetch, faults, st1, sid, email, now2, rolls2);
    assert Handler(env, req, Retrieved(session), faults, st, now, rolls) == Reply(OutcomeResponse(o1), st1, true);
    assert Handler(env, req, Retrieved(session), faults, st1, now2, rolls2) == Reply(OutcomeResponse(o2), st2, true);
    if o1.Fresh? {
      IssuedFields(JStr(o1.code), false);
    } else {
      IssuedFields(o1.held, true);
    }
  }
}
