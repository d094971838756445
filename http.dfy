/** Requests and JSON responses as the handlers exchange them. */
module Http {
  import opened JsValues

  /**
    A request: its HTTP method (`verb`) and its body once `req.body || {}` and the
    string-body `JSON.parse` (an unparseable body becomes `{}`) have run.
    A text body `null` parses to `JNull`; property access on it throws in
    JavaScript, while the handlers here read it like an empty object.
  */
  datatype Request = Request(verb: string, body: Json)

  datatype Response = Response(status: nat, body: Json)

  predicate IsPost(req: Request) {
    req.verb == "POST"
  }

  /** `{error: message}`. */
  function ErrorBody(message: string): Json {
    JObj([("error", JStr(message))])
  }

  /** An error body carries its message and no `details`. */
  lemma ErrorBodyFields(message: string)
    ensures Field(ErrorBody(message), "error") == JStr(message)
    ensures Field(ErrorBody(message), "details") == JNull
  {
    assert "details"[0] != "error"[0];
    FieldAbsent([("error", JStr(message))], "details");
  }

  /** `{ok: false, error: message}`. */
  function NotOkBody(message: string): Json {
    JObj([("ok", JBool(false)), ("error", JStr(message))])
  }

  /** `{ok: false, error: message, details: details}`. */
  function NotOkDetailsBody(message: string, details: string): Json {
    JObj([("ok", JBool(false)), ("error", JStr(message)), ("details", JStr(details))])
  }
}
