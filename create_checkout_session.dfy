/**
  The checkout endpoint: it checks the payment provider's configuration and
  the base URL, picks a checkout mode ("payment" or "subscription") and asks
  the provider to create a checkout session, retrying once in the other
  mode when the first refusal reads like a mode mismatch. What the
  provider answers is given as parameters.
*/
module CheckoutSession {
  import opened JsValues
  import opened Text
  import opened Config
  import opened Http

  /** A provider error: `message`, `raw.message`, `type` and `code`, "" when missing. */
  datatype ProviderError = ProviderError(message: string, rawMessage: string, kind: string, code: string)

  /** What one `checkout.sessions.create` call gives. */
  datatype CreateResult = Created(url: string) | Failed(error: ProviderError)

  /** What `prices.retrieve(priceId)` gives: it failed, or the price, recurring or not. */
  datatype PriceLookup = LookupFailed | PriceFound(recurring: bool)

  const MismatchMarkers: seq<string> := ["recurring", "one-time", "one time", "mode", "subscription", "payment mode"]

  /** The text `looksLikeModeMismatch` searches: both messages lower-cased, joined by a space. */
  function MismatchText(e: ProviderError): string {
    Lower(e.message) + " " + Lower(e.rawMessage)
  }

  /** `looksLikeModeMismatch(err)`. */
  predicate LooksLikeModeMismatch(e: ProviderError) {
    var all := MismatchText(e);
    || Contains(all, "recurring")
    || Contains(all, "one-time")
    || Contains(all, "one time")
    || Contains(all, "mode")
    || Contains(all, "subscription")
    || Contains(all, "payment mode")
  }

  /**
    The check holds exactly when the lower-cased `message + " " +
    raw.message` contains one of the markers.
  */
  lemma MismatchIff(e: ProviderError)
    ensures LooksLikeModeMismatch(e) <==>
      exists k :: 0 <= k < |MismatchMarkers| && Contains(Lower(e.message + " " + e.rawMessage), MismatchMarkers[k])
  {
    LowerConcat(e.message, " " + e.rawMessage);
    LowerConcat(" ", e.rawMessage);
    assert Lower(" ") == " ";
    assert Lower(e.message + " " + e.rawMessage) == MismatchText(e) by {
      assert e.message + " " + e.rawMessage == e.message + (" " + e.rawMessage);
    }
    if LooksLikeModeMismatch(e) {
      var all := MismatchText(e);
      if Contains(all, "recurring") {
        assert MismatchMarkers[0] == "recurring";
      } else if Contains(all, "one-time") {
        assert MismatchMarkers[1] == "one-time";
      } else if Contains(all, "one time") {
        assert MismatchMarkers[2] == "one time";
      } else if Contains(all, "mode") {
        assert MismatchMarkers[3] == "mode";
      } else if Contains(all, "subscription") {
        assert MismatchMarkers[4] == "subscription";
      } else {
        assert MismatchMarkers[5] == "payment mode";
      }
    }
  }

  /** Any text naming "payment mode" also names "mode": the last marker never decides. */
  lemma PaymentModeCovered(s: string)
    requires Contains(s, "payment mode")
    ensures Contains(s, "mode")
  {
    var i :| 0 <= i <= |s| - |"payment mode"| && OccursAt(s, "payment mode", i);
    assert s[i + 8..i + 12] == s[i..i + 12][8..12];
    assert OccursAt(s, "mode", i + 8);
  }

  /** `/^sk_(test|live)_/.test(secretKey)`. */
  predicate IsSecretKey(key: string) {
    StartsWith(key, "sk_test_") || StartsWith(key, "sk_live_")
  }

  /** `/^price_/.test(priceId)`. */
  predicate IsPriceId(price: string) {
    StartsWith(price, "price_")
  }

  /** `/^https?:\/\//.test(baseUrl)`. */
  predicate IsWebUrl(url: string) {
    StartsWith(url, "http://") || StartsWith(url, "https://")
  }

  function SecretKey(env: Env): string {
    FirstNonEmpty([EnvVar(env, "STRIPE_SECRET_KEY"), EnvVar(env, "STRIPE_SECRET")])
  }

  function PriceId(env: Env): string {
    FirstNonEmpty([EnvVar(env, "STRIPE_PRICE_ID"), EnvVar(env, "IDENTIFIANT_PRIX_BANDE")])
  }

  /** `String(req.headers.origin || appBaseUrl || "").replace(/\/+$/, "")`; `origin` is "" when the header is absent. */
  function BaseUrl(env: Env, origin: string): string {
    StripTrailingSlashes(if origin != "" then origin else FirstNonEmpty([EnvVar(env, "APP_BASE_URL")]))
  }

  /** The configured mode, lower-cased, when it names one of the two modes. */
  function ConfiguredMode(env: Env): string {
    Lower(FirstNonEmpty([EnvVar(env, "STRIPE_CHECKOUT_MODE")]))
  }

  predicate IsMode(m: string) {
    m == "payment" || m == "subscription"
  }

  /** `preferredMode`: the configured mode, else "subscription" for a recurring price, else "payment". */
  function PreferredMode(env: Env, price: PriceLookup): (r: string)
    ensures IsMode(r)
    ensures IsMode(ConfiguredMode(env)) ==> r == ConfiguredMode(env)
    ensures !IsMode(ConfiguredMode(env)) ==> (r == "subscription" <==> price == PriceFound(true))
  {
    var m := ConfiguredMode(env);
    if IsMode(m) then m
    else if price.PriceFound? && price.recurring then "subscription"
    else "payment"
  }

  /** `fallbackMode`: the other mode. */
  function FallbackMode(m: string): (r: string)
    ensures IsMode(m) ==> IsMode(r) && r != m
  {
    if m == "payment" then "subscription" else "payment"
  }

  function ConfigError(details: string): Response {
    Response(500, JObj([("error", JStr("Stripe non configure")), ("details", JStr(details))]))
  }

  const BaseUrlError: Response :=
    Response(500, JObj([("error", JStr("Base URL invalide")),
      ("details", JStr("Set APP_BASE_URL to a full URL, e.g. https://brand-studio-formation.vercel.app"))]))

  /** The catch-all 500: the error's raw message, else its message, else "unknown"; its type and code, else "unknown". */
  function CreateError(e: ProviderError): Response {
    Response(500, JObj([
      ("error", JStr("Creation checkout impossible")),
      ("details", JStr(if e.rawMessage != "" then e.rawMessage else OrUnknown(e.message))),
      ("type", JStr(OrUnknown(e.kind))),
      ("code", JStr(OrUnknown(e.code)))]))
  }

  function SessionBody(url: string, mode: string, retried: bool): Json {
    JObj([("url", JStr(url)), ("mode", JStr(mode)), ("retried", JBool(retried))])
  }

  /** The handler's answer, the modes of the create calls it made in order, and whether it looked the price up. */
  datatype Checkout = Checkout(resp: Response, modes: seq<string>, lookedUp: bool)

  /** The configuration and base-URL checks, in order: the first refusal, if any. */
  function Refusal(env: Env, req: Request, origin: string): Response {
    var key := SecretKey(env);
    var price := PriceId(env);
    if !IsPost(req) then Response(405, ErrorBody("Method not allowed"))
    else if key == "" || price == "" then ConfigError("Missing STRIPE_SECRET_KEY or STRIPE_PRICE_ID")
    else if !IsSecretKey(key) then ConfigError("STRIPE_SECRET_KEY must start with sk_test_ or sk_live_")
    else if !IsPriceId(price) then ConfigError("STRIPE_PRICE_ID must start with price_")
    else if !IsWebUrl(BaseUrl(env, origin)) then BaseUrlError
    else Response(200, JNull)
  }

  /** The mode choice and the create calls, once every check has passed. */
  function Creation(env: Env, price: PriceLookup, first: CreateResult, second: CreateResult): Checkout {
    var preferred := PreferredMode(env, price);
    var lookedUp := !IsMode(ConfiguredMode(env));
    match first
    case Created(url) => Checkout(Response(200, SessionBody(url, preferred, false)), [preferred], lookedUp)
    case Failed(e) =>
      if !LooksLikeModeMismatch(e) then Checkout(CreateError(e), [preferred], lookedUp)
      else
        var fallback := FallbackMode(preferred);
        match second
        case Created(url) => Checkout(Response(200, SessionBody(url, fallback, fallback != preferred)), [preferred, fallback], lookedUp)
        case Failed(e2) => Checkout(CreateError(e2), [preferred, fallback], lookedUp)
  }

  function Handler(env: Env, req: Request, origin: string, price: PriceLookup, first: CreateResult, second: CreateResult): Checkout {
    var refusal := Refusal(env, req, origin);
    if refusal.status != 200 then Checkout(refusal, [], false)
    else Creation(env, price, first, second)
  }

  /** The checks of the handler, in order. */
  method CheckSetup(env: Env, req: Request, origin: string) returns (refusal: Response)
    ensures refusal == Refusal(env, req, origin)
  {
    if req.verb != "POST" {
      return Response(405, ErrorBody("Method not allowed"));
    }
    var secretKey := ScanFirstNonEmpty([EnvVar(env, "STRIPE_SECRET_KEY"), EnvVar(env, "STRIPE_SECRET")]);
    var priceId := ScanFirstNonEmpty([EnvVar(env, "STRIPE_PRICE_ID"), EnvVar(env, "IDENTIFIANT_PRIX_BANDE")]);
    var appBaseUrl := ScanFirstNonEmpty([EnvVar(env, "APP_BASE_URL")]);
    if secretKey == "" || priceId == "" {
      return ConfigError("Missing STRIPE_SECRET_KEY or STRIPE_PRICE_ID");
    }
    if !IsSecretKey(secretKey) {
      return ConfigError("STRIPE_SECRET_KEY must start with sk_test_ or sk_live_");
    }
    if !IsPriceId(priceId) {
      return ConfigError("STRIPE_PRICE_ID must start with price_");
    }
    var baseUrl := StripTrailingSlashes(if origin != "" then origin else appBaseUrl);
    if !IsWebUrl(baseUrl) {
      return BaseUrlError;
    }
    return Response(200, JNull);
  }

  /** The steps that set `preferredMode`: the configured mode, else the price's kind when it can be read. */
  method ChooseMode(env: Env, price: PriceLookup) returns (preferredMode: string, lookedUp: bool)
    ensures preferredMode == PreferredMode(env, price)
    ensures lookedUp == !IsMode(ConfiguredMode(env))
  {
    var configured := ScanFirstNonEmpty([EnvVar(env, "STRIPE_CHECKOUT_MODE")]);
    preferredMode := Lower(configured);
    lookedUp := false;
    if preferredMode != "payment" && preferredMode != "subscription" {
      preferredMode := "payment";
      lookedUp := true;
      if price.PriceFound? && price.recurring {
        preferredMode := "subscription";
      }
    }
  }

  /** The steps that update `chosenMode`, `session` and `firstError`. */
  method CreateSession(env: Env, price: PriceLookup, first: CreateResult, second: CreateResult) returns (out: Checkout)
    ensures out == Creation(env, price, first, second)
  {
    var preferredMode, lookedUp := ChooseMode(env, price);
    var fallbackMode := if preferredMode == "payment" then "subscription" else "payment";
    var chosenMode := preferredMode;
    var modes := [chosenMode];
    if first.Created? {
      return Checkout(Response(200, SessionBody(first.url, chosenMode, false)), modes, lookedUp);
    }
    var firstError := first.error;
    var mismatch := LooksLikeModeMismatch(firstError);
    if !mismatch {
      return Checkout(CreateError(firstError), modes, lookedUp);
    }
    chosenMode := fallbackMode;
    modes := modes + [chosenMode];
    if second.Failed? {
      return Checkout(CreateError(second.error), modes, lookedUp);
    }
    out := Checkout(Response(200, SessionBody(second.url, chosenMode, chosenMode != preferredMode)), modes, lookedUp);
  }

  method Handle(env: Env, req: Request, origin: string, price: PriceLookup, first: CreateResult, second: CreateResult) returns (out: Checkout)
    ensures out == Handler(env, req, origin, price, first, second)
  {
    var refusal := CheckSetup(env, req, origin);
    if refusal.status != 200 {
      return Checkout(refusal, [], false);
    }
    out := CreateSession(env, price, first, second);
  }

  /** What `Refusal` answers in each case of its checks. */
  lemma RefusalCases(env: Env, req: Request, origin: string)
    ensures var r := Refusal(env, req, origin);
      && (!IsPost(req) ==> r.status == 405)
      && (IsPost(req) && !(IsSecretKey(SecretKey(env)) && IsPriceId(PriceId(env))) ==>
            r.status == 500 && r.body.JObj? && r.body.fields != [] && r.body.fields[0] == ("error", JStr("Stripe non configure")))
      && (IsPost(req) && IsSecretKey(SecretKey(env)) && IsPriceId(PriceId(env)) ==>
            r == if IsWebUrl(BaseUrl(env, origin)) then Response(200, JNull) else BaseUrlError)
  {
    var key, priceId := SecretKey(env), PriceId(env);
    if IsPost(req) && !(IsSecretKey(key) && IsPriceId(priceId)) {
      if key == "" {
        assert !IsSecretKey(key);
      } else if priceId == "" {
        assert !IsPriceId(priceId);
      }
    }
  }

  /**
    The method, key and price checks come first and the base URL after
    them; any refusal makes no provider call at all.
  */
  lemma RefusalsCallNothing(env: Env, req: Request, origin: string, price: PriceLookup, first: CreateResult, second: CreateResult)
    ensures var c := Handler(env, req, origin, price, first, second);
      && (IsPost(req) && !(IsSecretKey(SecretKey(env)) && IsPriceId(PriceId(env))) ==>
            c.resp.status == 500 && c.resp.body.JObj? && c.resp.body.fields != [] &&
            c.resp.body.fields[0] == ("error", JStr("Stripe non configure")) && c.modes == [] && !c.lookedUp)
      && (IsPost(req) && IsSecretKey(SecretKey(env)) && IsPriceId(PriceId(env)) && !IsWebUrl(BaseUrl(env, origin)) ==>
            c.resp == BaseUrlError && c.modes == [] && !c.lookedUp)
      && (c.modes != [] <==> IsPost(req) && IsSecretKey(SecretKey(env)) && IsPriceId(PriceId(env)) && IsWebUrl(BaseUrl(env, origin)))
  {
    RefusalCases(env, req, origin);
    var refusal := Refusal(env, req, origin);
    if refusal.status == 200 {
      assert Creation(env, price, first, second).modes != [];
    }
  }

  /**
    At most two create calls: the first in the preferred mode, a second,
    in the other mode, only after a first failure that reads like a mode
    mismatch; any other first failure answers its error.
  */
  lemma CreateCalls(env: Env, req: Request, origin: string, price: PriceLookup, first: CreateResult, second: CreateResult)
    ensures var c := Handler(env, req, origin, price, first, second);
      && |c.modes| <= 2
      && (forall k :: 0 <= k < |c.modes| ==> IsMode(c.modes[k]))
      && (|c.modes| >= 1 ==> c.modes[0] == PreferredMode(env, price))
      && (|c.modes| == 2 <==> |c.modes| >= 1 && first.Failed? && LooksLikeModeMismatch(first.error))
      && (|c.modes| == 2 ==> c.modes[1] != c.modes[0])
      && (|c.modes| >= 1 && first.Failed? && !LooksLikeModeMismatch(first.error) ==> c.resp == CreateError(first.error))
  {
  }

  /**
    A 200 carries the mode of the last create call, and `retried` is true
    exactly when the first create call failed.
  */
  lemma RetriedIff(env: Env, req: Request, origin: string, price: PriceLookup, first: CreateResult, second: CreateResult)
    requires Handler(env, req, origin, price, first, second).resp.status == 200
    ensures var c := Handler(env, req, origin, price, first, second);
      && |c.modes| >= 1
      && c.resp.body.JObj? && |c.resp.body.fields| == 3
      && c.resp.body.fields[1] == ("mode", JStr(c.modes[|c.modes| - 1]))
      && c.resp.body.fields[2] == ("retried", JBool(first.Failed?))
  {
    var c := Handler(env, req, origin, price, first, second);
    match first
    case Created(url) =>
      assert c.resp.body == SessionBody(url, c.modes[0], false);
    case Failed(e) =>
      assert c.resp.body == SessionBody(second.url, c.modes[1], true);
  }

  /** The price is looked up only when no valid mode is configured, and a configured mode is always the one tried first. */
  lemma LookupOnlyUnconfigured(env: Env, req: Request, origin: string, price: PriceLookup, first: CreateResult, second: CreateResult)
    ensures var c := Handler(env, req, origin, price, first, second);
      && (c.lookedUp ==> !IsMode(ConfiguredMode(env)))
      && (IsMode(ConfiguredMode(env)) && c.modes != [] ==> c.modes[0] == ConfiguredMode(env))
  {
  }
}
