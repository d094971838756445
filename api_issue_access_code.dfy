/**
  The handler of api/issue-access-code.js: the same issuance flow through
  the Stripe and `@upstash/redis` SDKs. Only `payment_status === "paid"`
  counts as paid, the configuration is read with `||` and no trimming, and
  every failure inside the flow answers 500 with a fixed error and no
  details.
*/
module ApiIssueAccessCode {
  import opened JsValues
  import opened KeyValue
  import opened Http
  import opened Config
  import opened AccessCode
  import opened Issuance
  import opened Text

  /** `session.payment_status === "paid"`. */
  predicate IsPaid(session: Json) {
    Field(session, "payment_status") == JStr("paid")
  }

  /** The customer's email, or "" when the session has none. */
  function Email(session: Json): Json {
    var details := Field(session, "customer_details");
    if Truthy(details) && Truthy(Field(details, "email")) then Field(details, "email") else JStr("")
  }

  /** `process.env.STRIPE_SECRET_KEY` is set and not empty. */
  predicate StripeKeySet(env: Env) {
    "STRIPE_SECRET_KEY" in env && env["STRIPE_SECRET_KEY"] != ""
  }

  predicate ReachesStripe(env: Env, req: Request) {
    IsPost(req) && StripeKeySet(env) && SdkRedisConfigured(env) && Truthy(Field(req.body, "session_id"))
  }

  const Failure: Response := Response(500, ErrorBody("Generation code impossible"))

  function OutcomeResponse(o: Outcome): Response {
    match o
    case Existing(v) => Response(200, JObj([("code", v), ("existing", JBool(true))]))
    case Fresh(c) => Response(200, JObj([("code", JStr(c)), ("existing", JBool(false))]))
    case Threw(_) => Failure
  }

  /**
    The handler. A retrieval that returns `null` makes reading
    `session.payment_status` throw, which lands in the same 500.
  */
  function Handler(env: Env, req: Request, stripe: StripeReply, faults: map<nat, Fault>, st: State, now: string, rolls: seq<Roll>): Reply
    requires |rolls| == 7
  {
    if !IsPost(req) then Reply(Response(405, ErrorBody("Method not allowed")), st, false)
    else if !StripeKeySet(env) then Reply(Response(500, ErrorBody("Stripe non configure")), st, false)
    else if !SdkRedisConfigured(env) then Reply(Response(500, ErrorBody("Redis non configure")), st, false)
    else
      var sid := Field(req.body, "session_id");
      if !Truthy(sid) then Reply(Response(400, ErrorBody("session_id manquant")), st, false)
      else
        match stripe
        case StripeFailed(_) => Reply(Failure, st, true)
        case Retrieved(session) =>
          if session == JNull then Reply(Failure, st, true)
          else if !IsPaid(session) then Reply(Response(402, ErrorBody("Paiement non confirme")), st, true)
          else
            var (o, st') := Flow(UpstashSdk, faults, st, sid, Email(session), now, rolls);
            Reply(OutcomeResponse(o), st', true)
  }

  method Handle(env: Env, req: Request, stripe: StripeReply, store: Store, now: string, rolls: seq<Roll>)
    returns (resp: Response, askedStripe: bool)
    requires |rolls| == 7
    modifies store
    ensures Reply(resp, store.Snapshot(), askedStripe) == Handler(env, req, stripe, store.faults, old(store.Snapshot()), now, rolls)
  {
    if req.verb != "POST" {
      return Response(405, ErrorBody("Method not allowed")), false;
    }
    if !("STRIPE_SECRET_KEY" in env && env["STRIPE_SECRET_KEY"] != "") {
      return Response(500, ErrorBody("Stripe non configure")), false;
    }
    var url := EnvOr(env, "UPSTASH_REDIS_REST_URL", "KV_REST_API_URL");
    var token := EnvOr(env, "UPSTASH_REDIS_REST_TOKEN", "KV_REST_API_TOKEN");
    if url == "" || token == "" {
      return Response(500, ErrorBody("Redis non configure")), false;
    }
    var sid := Field(req.body, "session_id");
    if !Truthy(sid) {
      return Response(400, ErrorBody("session_id manquant")), false;
    }
    if stripe.StripeFailed? || stripe.session == JNull {
      return Failure, true;
    }
    var session := stripe.session;
    if !IsPaid(session) {
      return Response(402, ErrorBody("Paiement non confirme")), true;
    }
    var o := Issue(UpstashSdk, store, sid, Email(session), now, rolls);
    return OutcomeResponse(o), true;
  }

  /**
    No response of this handler carries a `details` field: every failure
    after the configuration checks is the same fixed 500.
  */
  lemma NoDetails(env: Env, req: Request, stripe: StripeReply, faults: map<nat, Fault>, st: State, now: string, rolls: seq<Roll>)
    requires |rolls| == 7
    ensures var r := Handler(env, req, stripe, faults, st, now, rolls);
      && Field(r.resp.body, "details") == JNull
      && (r.resp.status == 500 && ReachesStripe(env, req) ==> r.resp == Failure)
  {
    var r := Handler(env, req, stripe, faults, st, now, rolls);
    if !IsPost(req) {
      ErrorBodyFields("Method not allowed");
    } else if !StripeKeySet(env) {
      ErrorBodyFields("Stripe non configure");
    } else if !SdkRedisConfigured(env) {
      ErrorBodyFields("Redis non configure");
    } else if !Truthy(Field(req.body, "session_id")) {
      ErrorBodyFields("session_id manquant");
    } else if stripe.StripeFailed? || stripe.session == JNull {
      ErrorBodyFields("Generation code impossible");
    } else if !IsPaid(stripe.session) {
      ErrorBodyFields("Paiement non confirme");
    } else {
      var o := Flow(UpstashSdk, faults, st, Field(req.body, "session_id"), Email(stripe.session), now, rolls).0;
      assert r.resp == OutcomeResponse(o);
      match o
      case Existing(v) => IssuedFields(v, true);
      case Fresh(c) => IssuedFields(JStr(c), false);
      case Threw(_) => ErrorBodyFields("Generation code impossible");
    }
  }

  /**
    Refusals before Stripe touch nothing; only `payment_status == "paid"`
    gets past the payment check, and an unpaid session leaves the store as
    it was.
  */
  lemma RefusalsTouchNothing(env: Env, req: Request, stripe: StripeReply, faults: map<nat, Fault>, st: State, now: string, rolls: seq<Roll>)
    requires |rolls| == 7
    ensures var r := Handler(env, req, stripe, faults, st, now, rolls);
      && (!ReachesStripe(env, req) ==> r.st == st && !r.askedStripe && r.resp.status in {405, 500, 400})
      && (IsPost(req) && StripeKeySet(env) && SdkRedisConfigured(env) && !Truthy(Field(req.body, "session_id")) ==>
            r.resp == Response(400, ErrorBody("session_id manquant")))
      && (r.st != st ==> ReachesStripe(env, req) && stripe.Retrieved? && IsPaid(stripe.session))
      && (ReachesStripe(env, req) && stripe.Retrieved? && stripe.session != JNull && !IsPaid(stripe.session) ==>
            r.resp == Response(402, ErrorBody("Paiement non confirme")) && r.st == st)
  {
  }

  /**
    The only keys a request can change are `session:<session_id>` and keys
    under `code:`; on a fresh issuance exactly `code:<code>` and
    `session:<session_id>` are written, with the code record first.
  */
  lemma IssuedRecord(env: Env, req: Request, stripe: StripeReply, faults: map<nat, Fault>, st: State, now: string, rolls: seq<Roll>)
    requires |rolls| == 7
    ensures var r := Handler(env, req, stripe, faults, st, now, rolls);
      var sid := Field(req.body, "session_id");
      && (forall k :: k != SessionKey(sid) && !StartsWith(k, "code:") ==> Lookup(r.st.data, k) == Lookup(st.data, k))
      && (r.resp.status == 200 && Field(r.resp.body, "existing") == JBool(false) ==>
            && stripe.Retrieved? && IsPaid(stripe.session)
            && Field(r.resp.body, "code").JStr?
            && var c := Field(r.resp.body, "code").s;
            && IsAccessCode(c)
            && r.st.data == st.data[CodeKey(c) := CodeRecord(c, sid, Email(stripe.session), now)][SessionKey(sid) := Text(c)]
            && r.st.trace[|r.st.trace| - 2..] == [SET(CodeKey(c), CodeRecord(c, sid, Email(stripe.session), now)), SET(SessionKey(sid), Text(c))])
  {
    var r := Handler(env, req, stripe, faults, st, now, rolls);
    var sid := Field(req.body, "session_id");
    if ReachesStripe(env, req) && stripe.Retrieved? && stripe.session != JNull && IsPaid(stripe.session) {
      var email := Email(stripe.session);
      var (o, st') := Flow(UpstashSdk, faults, st, sid, email, now, rolls);
      assert r == Reply(OutcomeResponse(o), st', true);
      FlowEffect(UpstashSdk, faults, st, sid, email, now, rolls);
      FlowKeys(UpstashSdk, faults, st, sid, email, now, rolls);
      FlowFreshTrace(UpstashSdk, faults, st, sid, email, now, rolls);
      if r.resp.status == 200 && Field(r.resp.body, "existing") == JBool(false) {
        assert o.Fresh?;
        IssuedFields(JStr(o.code), false);
      }
    } else {
      assert r.st == st;
    }
  }
}
