/**
  The handler of api/zone-inputs.js: per access code and per page path, it
  loads or saves a small map of form fields under
  `zone_inputs:<CODE>:<path>`, after checking that `code:<CODE>` exists.
  `cleanZoneData` caps what is kept: keys of 1 to 80 characters, values cut
  to 6000 characters, at most 800 entries.
*/
module ZoneInputs {
  import opened Wrappers
  import opened JsValues
  import opened KeyValue
  import opened Http
  import opened Config
  import opened AccessCode
  import opened Issuance
  import opened Text

  /** `toSafePath(input)`: the trimmed text when it has 1 to 260 characters, otherwise "". */
  function ToSafePath(input: Json): (r: string)
    ensures |r| <= 260 && Trimmed(r)
    ensures r == "" || r == Trim(StrOr(input))
    ensures r == "" <==> AllSpace(StrOr(input)) || |Trim(StrOr(input))| > 260
  {
    var p := Trim(StrOr(input));
    if p == "" then ""
    else if |p| > 260 then ""
    else p
  }

  /** `safeParseJson` of this file: text that does not parse becomes `null`. */
  function SafeParseJson(v: Option<Val>): Json {
    match v
    case None => JNull
    case Some(Stored(j)) => j
    case Some(Text(_)) => JNull
  }

  function Keys<V>(s: seq<(string, V)>): (ks: seq<string>)
    ensures |ks| == |s| && forall i :: 0 <= i < |s| ==> ks[i] == s[i].0
  {
    seq(|s|, i requires 0 <= i < |s| => s[i].0)
  }

  predicate Distinct(ks: seq<string>) {
    forall i, j :: 0 <= i < j < |ks| ==> ks[i] != ks[j]
  }

  /** `Object.keys` of a parsed object: each name once, where it first appears. */
  function ObjectKeys(fields: seq<(string, Json)>): (ks: seq<string>)
    ensures Distinct(ks)
    ensures forall k :: k in ks <==> k in Keys(fields)
  {
    if fields == [] then []
    else
      var ks := ObjectKeys(fields[..|fields| - 1]);
      var k := fields[|fields| - 1].0;
      assert Keys(fields) == Keys(fields[..|fields| - 1]) + [k];
      if k in ks then ks else ks + [k]
  }

  /**
    The entries `cleanZoneData` walks: `Object.keys(raw)` with `raw[k]`,
    for an object or an array (whose keys are its indices); nothing for any
    other value, `null` included.
  */
  function Entries(raw: Json): seq<(string, Json)> {
    match raw
    case JObj(fields) =>
      var ks := ObjectKeys(fields);
      seq(|ks|, i requires 0 <= i < |ks| => (ks[i], FieldIn(fields, ks[i])))
    case JArr(items) => seq(|items|, i requires 0 <= i < |items| => (Decimal(i), items[i]))
    case _ => []
  }

  lemma EntriesDistinct(raw: Json)
    ensures Distinct(Keys(Entries(raw)))
  {
    if raw.JArr? {
      forall i, j | 0 <= i < j < |raw.items| ensures Decimal(i) != Decimal(j) {
        DecimalInjective(i, j);
      }
    }
  }

  /** For an object, `raw[k]` is the parsed field `k`. */
  lemma EntriesOfObject(fields: seq<(string, Json)>, k: string)
    requires k in ObjectKeys(fields)
    ensures FieldIn(Entries(JObj(fields)), k) == FieldIn(fields, k)
  {
    var es := Entries(JObj(fields));
    var ks := ObjectKeys(fields);
    var i :| 0 <= i < |ks| && ks[i] == k;
    FieldAt(es, i);
  }

  predicate ValidKey(k: string) {
    k != "" && |k| <= 80
  }

  /** `String(raw[k] == null ? "" : raw[k])`. */
  function ValueText(v: Json): string {
    if v == JNull then "" else JsString(v)
  }

  /** `v.slice(0, 6000)` once `v` is longer than 6000. */
  function Cap(v: string): (r: string)
    ensures |r| <= 6000 && |r| <= |v| && r == v[..|r|]
    ensures |v| <= 6000 ==> r == v
  {
    if |v| > 6000 then v[..6000] else v
  }

  /**
    The one key a plain `{}` does not take as its own: assigning a string to
    `__proto__` runs the inherited setter, which ignores values that are not
    objects, so no entry is added.
  */
  const ProtoKey := "__proto__"

  /**
    `out[k] = v`: replaces the value of an existing key in place, adds the
    key at the end, or does nothing for `__proto__`.
  */
  function Put(out: seq<(string, string)>, k: string, v: string): (r: seq<(string, string)>)
    ensures k == ProtoKey ==> r == out
    ensures k != ProtoKey && k !in Keys(out) ==> r == out + [(k, v)]
    ensures |r| <= |out| + 1
  {
    if k == ProtoKey then out
    else if out == [] then [(k, v)]
    else if out[0].0 == k then [(k, v)] + out[1..]
    else
      assert Keys(out) == [out[0].0] + Keys(out[1..]);
      [out[0]] + Put(out[1..], k, v)
  }

  /** The loop of `cleanZoneData` from entry `i` on, with `out` built so far. */
  function CleanFrom(es: seq<(string, Json)>, i: nat, out: seq<(string, string)>): seq<(string, string)>
    requires i <= |es|
    decreases |es| - i
  {
    if i == |es| then out
    else if !ValidKey(es[i].0) then CleanFrom(es, i + 1, out)
    else
      var out' := Put(out, es[i].0, Cap(ValueText(es[i].1)));
      if |out'| >= 800 then out' else CleanFrom(es, i + 1, out')
  }

  /** `cleanZoneData(raw)`, as a list of entries in the order they were added. */
  function Clean(raw: Json): seq<(string, string)> {
    CleanFrom(Entries(raw), 0, [])
  }

  method CleanZoneData(raw: Json) returns (out: seq<(string, string)>)
    ensures out == Clean(raw)
  {
    out := [];
    if !raw.JObj? && !raw.JArr? {
      return;
    }
    var es := Entries(raw);
    for i := 0 to |es|
      invariant CleanFrom(es, i, out) == Clean(raw)
      invariant |out| < 800
    {
      var k := es[i].0;
      if k == "" || |k| > 80 {
        continue;
      }
      var v := ValueText(es[i].1);
      if |v| > 6000 {
        v := v[..6000];
      }
      out := Put(out, k, v);
      if |out| >= 800 {
        break;
      }
    }
  }

  /**
    The entries with a usable key other than `__proto__`, each value capped:
    the reference for what `cleanZoneData` keeps.
  */
  function Kept(es: seq<(string, Json)>): seq<(string, string)> {
    if es == [] then []
    else
      var last := es[|es| - 1];
      Kept(es[..|es| - 1]) + (if ValidKey(last.0) && last.0 != ProtoKey then [(last.0, Cap(ValueText(last.1)))] else [])
  }

  lemma {:induction false} KeptPrefix(es: seq<(string, Json)>, j: nat)
    requires j <= |es|
    ensures Kept(es[..j]) <= Kept(es)
    decreases |es|
  {
    if j < |es| {
      KeptPrefix(es[..|es| - 1], j);
      assert es[..|es| - 1][..j] == es[..j];
    } else {
      assert es[..j] == es;
    }
  }

  /**
    Every kept entry has a usable key taken from the input, and its value
    is the capped text of the input's value for that key; with distinct
    input keys the kept keys are distinct too.
  */
  lemma {:induction false} KeptFacts(es: seq<(string, Json)>)
    ensures |Kept(es)| <= |es|
    ensures forall n :: 0 <= n < |Kept(es)| ==> ValidKey(Kept(es)[n].0) && Kept(es)[n].0 != ProtoKey && Kept(es)[n].0 in Keys(es)
    ensures Distinct(Keys(es)) ==>
      && Distinct(Keys(Kept(es)))
      && forall n :: 0 <= n < |Kept(es)| ==> Kept(es)[n].1 == Cap(ValueText(FieldIn(es, Kept(es)[n].0)))
  {
    if es != [] {
      var init := es[..|es| - 1];
      KeptFacts(init);
      KeptKeysStep(init, es[|es| - 1]);
      assert init + [es[|es| - 1]] == es;
      if Distinct(Keys(es)) {
        KeptDistinctStep(init, es[|es| - 1]);
      }
    }
  }

  /** The kept keys of one more entry still come from the input. */
  lemma KeptKeysStep(init: seq<(string, Json)>, last: (string, Json))
    requires forall n :: 0 <= n < |Kept(init)| ==> ValidKey(Kept(init)[n].0) && Kept(init)[n].0 != ProtoKey && Kept(init)[n].0 in Keys(init)
    ensures var es := init + [last];
      forall n :: 0 <= n < |Kept(es)| ==> ValidKey(Kept(es)[n].0) && Kept(es)[n].0 != ProtoKey && Kept(es)[n].0 in Keys(es)
  {
    var es := init + [last];
    assert es[..|es| - 1] == init;
    assert Keys(es) == Keys(init) + [last.0];
    var ks := Kept(es);
    forall n | 0 <= n < |ks| ensures ValidKey(ks[n].0) && ks[n].0 != ProtoKey && ks[n].0 in Keys(es) {
      if n < |Kept(init)| {
        assert ks[n] == Kept(init)[n];
      }
    }
  }

  /** With one more entry whose key is new, the kept keys stay distinct and each value stays its key's. */
  lemma KeptDistinctStep(init: seq<(string, Json)>, last: (string, Json))
    requires forall n :: 0 <= n < |Kept(init)| ==> Kept(init)[n].0 in Keys(init)
    requires Distinct(Keys(init)) ==>
      && Distinct(Keys(Kept(init)))
      && forall n :: 0 <= n < |Kept(init)| ==> Kept(init)[n].1 == Cap(ValueText(FieldIn(init, Kept(init)[n].0)))
    requires Distinct(Keys(init + [last]))
    ensures var es := init + [last];
      && Distinct(Keys(Kept(es)))
      && forall n :: 0 <= n < |Kept(es)| ==> Kept(es)[n].1 == Cap(ValueText(FieldIn(es, Kept(es)[n].0)))
  {
    var es := init + [last];
    assert es[..|es| - 1] == init;
    assert Keys(es) == Keys(init) + [last.0];
    var ks := Kept(es);
    assert Distinct(Keys(init)) by {
      forall i, j | 0 <= i < j < |init| ensures Keys(init)[i] != Keys(init)[j] {
        assert Keys(init)[i] == Keys(es)[i] && Keys(init)[j] == Keys(es)[j];
      }
    }
    assert last.0 !in Keys(init);
    forall i, j | 0 <= i < j < |ks| ensures Keys(ks)[i] != Keys(ks)[j] {
      if j >= |Kept(init)| {
        assert ks[j].0 == last.0;
        assert ks[i] == Kept(init)[i];
      } else {
        assert ks[i] == Kept(init)[i] && ks[j] == Kept(init)[j];
        assert Keys(Kept(init))[i] == ks[i].0;
      }
    }
    forall n | 0 <= n < |ks| ensures ks[n].1 == Cap(ValueText(FieldIn(es, ks[n].0))) {
      if n < |Kept(init)| {
        assert ks[n] == Kept(init)[n];
        assert ks[n].0 in Keys(init);
        assert FieldIn(es, ks[n].0) == FieldIn(init, ks[n].0);
      } else {
        assert ks[n] == (last.0, Cap(ValueText(last.1)));
        assert FieldIn(es, last.0) == last.1;
      }
    }
  }

  /** Keeping one more entry appends it when its key is usable. */
  lemma KeptStep(es: seq<(string, Json)>, i: nat)
    requires i < |es|
    ensures Kept(es[..i + 1]) == Kept(es[..i]) + (if ValidKey(es[i].0) && es[i].0 != ProtoKey then [(es[i].0, Cap(ValueText(es[i].1)))] else [])
  {
    assert es[..i + 1][..i] == es[..i];
  }

  /** With distinct input keys, the key of entry `i` is not among those kept before it. */
  lemma KeptFreshKey(es: seq<(string, Json)>, i: nat)
    requires i < |es| && Distinct(Keys(es))
    ensures es[i].0 !in Keys(Kept(es[..i]))
  {
    KeptFacts(es[..i]);
    assert es[i].0 !in Keys(es[..i]) by {
      forall j | 0 <= j < i ensures Keys(es[..i])[j] != es[i].0 {
        assert Keys(es[..i])[j] == Keys(es)[j];
      }
    }
  }

  /** The loop from entry `i` on ends with the first 800 kept entries, when it starts from those of the first `i`. */
  lemma {:induction false} CleanFromKept(es: seq<(string, Json)>, i: nat, out: seq<(string, string)>)
    requires i <= |es| && Distinct(Keys(es))
    requires out == Kept(es[..i]) && |out| < 800
    ensures CleanFrom(es, i, out) == Kept(es)[..if |Kept(es)| < 800 then |Kept(es)| else 800]
    decreases |es| - i
  {
    if i == |es| {
      assert es[..i] == es;
    } else {
      var next := Kept(es[..i + 1]);
      KeptStep(es, i);
      KeptPrefix(es, i + 1);
      if ValidKey(es[i].0) && es[i].0 != ProtoKey {
        KeptFreshKey(es, i);
        assert Put(out, es[i].0, Cap(ValueText(es[i].1))) == next;
        if |next| >= 800 {
          assert Kept(es)[..800] == next;
        } else {
          CleanFromKept(es, i + 1, next);
        }
      } else {
        assert next == out;
        CleanFromKept(es, i + 1, next);
      }
    }
  }

  /**
    `cleanZoneData` keeps the first 800 entries whose key has 1 to 80
    characters and is not `__proto__`, in input order, each value the input's text cut to 6000
    characters; the keys are distinct, and anything that is not an object
    or an array gives `{}`.
  */
  lemma CleanFacts(raw: Json)
    ensures var c := Clean(raw);
      && |c| == (if |Kept(Entries(raw))| < 800 then |Kept(Entries(raw))| else 800)
      && c == Kept(Entries(raw))[..|c|]
      && Distinct(Keys(c))
      && (forall n :: 0 <= n < |c| ==>
            && 1 <= |c[n].0| <= 80 && c[n].0 != ProtoKey
            && c[n].1 == Cap(ValueText(FieldIn(Entries(raw), c[n].0))))
      && (!raw.JObj? && !raw.JArr? ==> c == [])
  {
    var es := Entries(raw);
    EntriesDistinct(raw);
    assert es[..0] == [];
    CleanFromKept(es, 0, []);
    KeptFacts(es);
    var c := Clean(raw);
    var m := |c|;
    forall n | 0 <= n < m
      ensures c[n] == Kept(es)[n]
    {
    }
    forall i, j | 0 <= i < j < m ensures Keys(c)[i] != Keys(c)[j] {
      assert Keys(c)[i] == Keys(Kept(es))[i] && Keys(c)[j] == Keys(Kept(es))[j];
    }
  }

  /** A lone `__proto__` entry is dropped without counting toward the 800. */
  lemma ProtoKeyIgnored(v: Json)
    ensures Clean(JObj([(ProtoKey, v)])) == []
  {
    var fields := [(ProtoKey, v)];
    assert Distinct(Keys(fields));
    ObjectKeysOfDistinct(fields);
    var es := Entries(JObj(fields));
    assert |es| == 1 && es[0].0 == ProtoKey;
    assert ValidKey(ProtoKey);
    assert CleanFrom(es, 1, []) == [];
    assert CleanFrom(es, 0, []) == CleanFrom(es, 1, []);
  }

  function ZoneKey(code: string, path: string): string {
    "zone_inputs:" + code + ":" + path
  }

  /** `out` as the JSON object the handler sends or stores. */
  function DataObject(out: seq<(string, string)>): Json {
    JObj(seq(|out|, i requires 0 <= i < |out| => (out[i].0, JStr(out[i].1))))
  }

  /** The saved payload: `{updated_at, data: cleanZoneData(data)}`. */
  function SavedRecord(now: string, data: Json): Val {
    Stored(JObj([("updated_at", JStr(now)), ("data", DataObject(Clean(data)))]))
  }

  function Failure(f: Fault): Response {
    Response(500, NotOkDetailsBody("Erreur zone-inputs", OrUnknown(CommandError(f))))
  }

  /**
    The `try` block: the code check, then load or save. The data changes at
    most at the zone key, and only by a save of the cleaned payload.
  */
  function Dispatch(faults: map<nat, Fault>, st: State, action: string, code: string, path: string, data: Json, now: string): (r: (Response, State))
    ensures r.1.data == st.data || r.1.data == st.data[ZoneKey(code, path) := SavedRecord(now, data)]
    ensures |r.1.trace| >= |st.trace| + 1 && r.1.trace[..|st.trace| + 1] == st.trace + [GET(CodeKey(code))]
  {
    var (g, st1) := GetOp(faults, st, CodeKey(code));
    match g
    case Err(f) => (Failure(f), st1)
    case Ok(v) =>
      if !(v.Some? && RawTruthy(v.value)) then (Response(403, NotOkBody("Code invalide")), st1)
      else
        var key := ZoneKey(code, path);
        if action == "load" then
          var (g2, st2) := GetOp(faults, st1, key);
          assert st2.trace[..|st.trace| + 1] == st1.trace;
          match g2
          case Err(f) => (Failure(f), st2)
          case Ok(raw) => (Response(200, JObj([("ok", JBool(true)), ("data", DataObject(Clean(SafeParseJson(raw))))])), st2)
        else if action == "save" then
          var (w, st2) := SetOp(faults, st1, key, SavedRecord(now, data));
          assert st2.trace[..|st.trace| + 1] == st1.trace;
          match w
          case Err(f) => (Failure(f), st2)
          case Ok(_) => (Response(200, JObj([("ok", JBool(true))])), st2)
        else (Response(400, NotOkBody("action invalide")), st1)
  }

  function Action(body: Json): string {
    Lower(Trim(StrOr(Field(body, "action"))))
  }

  /** The answers given before any command is sent: 405, 500 without configuration, 400 without action, code or path. */
  function Refusal(env: Env, req: Request): (r: Option<Response>)
    ensures r.None? <==> (IsPost(req) && RedisConfigOf(env).Some? &&
                          Action(req.body) != "" && NormalizeCode(Field(req.body, "code")) != "" && ToSafePath(Field(req.body, "path")) != "")
  {
    if !IsPost(req) then Some(Response(405, NotOkBody("Method not allowed")))
    else if RedisConfigOf(env).None? then Some(Response(500, NotOkBody("Redis non configure")))
    else if Action(req.body) == "" || NormalizeCode(Field(req.body, "code")) == "" || ToSafePath(Field(req.body, "path")) == "" then
      Some(Response(400, NotOkBody("action, code ou path manquant")))
    else None
  }

  function Handler(env: Env, req: Request, faults: map<nat, Fault>, st: State, now: string): (Response, State) {
    match Refusal(env, req)
    case Some(resp) => (resp, st)
    case None =>
      Dispatch(faults, st, Action(req.body), NormalizeCode(Field(req.body, "code")), ToSafePath(Field(req.body, "path")), Field(req.body, "data"), now)
  }

  method Handle(env: Env, req: Request, store: Store, now: string) returns (resp: Response)
    modifies store
    ensures (resp, store.Snapshot()) == Handler(env, req, store.faults, old(store.Snapshot()), now)
  {
    if req.verb != "POST" {
      return Response(405, NotOkBody("Method not allowed"));
    }
    var redis := GetRedisConfig(env);
    if redis.None? {
      return Response(500, NotOkBody("Redis non configure"));
    }
    var action := Action(req.body);
    var code := NormalizeCode(Field(req.body, "code"));
    var path := ToSafePath(Field(req.body, "path"));
    if action == "" || code == "" || path == "" {
      return Response(400, NotOkBody("action, code ou path manquant"));
    }
    var codeExists := store.Get(CodeKey(code));
    if codeExists.Err? {
      return Failure(codeExists.error);
    }
    if !(codeExists.value.Some? && RawTruthy(codeExists.value.value)) {
      return Response(403, NotOkBody("Code invalide"));
    }
    var key := ZoneKey(code, path);
    if action == "load" {
      var raw := store.Get(key);
      if raw.Err? {
        return Failure(raw.error);
      }
      var data := CleanZoneData(SafeParseJson(raw.value));
      return Response(200, JObj([("ok", JBool(true)), ("data", DataObject(data))]));
    }
    if action == "save" {
      var data := CleanZoneData(Field(req.body, "data"));
      var w := store.Set(key, Stored(JObj([("updated_at", JStr(now)), ("data", DataObject(data))])));
      if w.Err? {
        return Failure(w.error);
      }
      return Response(200, JObj([("ok", JBool(true))]));
    }
    resp := Response(400, NotOkBody("action invalide"));
  }

  /** A request missing its action, code or path answers 400 and sends no command. */
  lemma MissingFields(env: Env, req: Request, faults: map<nat, Fault>, st: State, now: string)
    requires IsPost(req) && RedisConfigOf(env).Some?
    requires Action(req.body) == "" || NormalizeCode(Field(req.body, "code")) == "" || ToSafePath(Field(req.body, "path")) == ""
    ensures Handler(env, req, faults, st, now) == (Response(400, NotOkBody("action, code ou path manquant")), st)
  {
  }

  /**
    Whatever the request, the handler either sends no command, or sends the
    GET of `code:<CODE>` first.
  */
  lemma HandlerCodeFirst(env: Env, req: Request, faults: map<nat, Fault>, st: State, now: string)
    ensures var st' := Handler(env, req, faults, st, now).1;
      st' == st || (|st'.trace| > |st.trace| && st'.trace[|st.trace|] == GET(CodeKey(NormalizeCode(Field(req.body, "code")))))
  {
    if Refusal(env, req).None? {
      var r := Handler(env, req, faults, st, now);
      assert r.1.trace[..|st.trace| + 1][|st.trace|] == GET(CodeKey(NormalizeCode(Field(req.body, "code"))));
    }
  }

  /** The data changes at most at `zone_inputs:<CODE>:<path>`, and only to the cleaned payload. */
  lemma HandlerEffects(env: Env, req: Request, faults: map<nat, Fault>, st: State, now: string)
    ensures var st' := Handler(env, req, faults, st, now).1;
      var code := NormalizeCode(Field(req.body, "code"));
      var path := ToSafePath(Field(req.body, "path"));
      st'.data == st.data || st'.data == st.data[ZoneKey(code, path) := SavedRecord(now, Field(req.body, "data"))]
  {
    var code := NormalizeCode(Field(req.body, "code"));
    var path := ToSafePath(Field(req.body, "path"));
    var h := Handler(env, req, faults, st, now);
    match Refusal(env, req)
    case Some(_) =>
      assert h.1 == st;
    case None =>
      var r := Dispatch(faults, st, Action(req.body), code, path, Field(req.body, "data"), now);
      assert h == r;
      assert r.1.data == st.data || r.1.data == st.data[ZoneKey(code, path) := SavedRecord(now, Field(req.body, "data"))];
  }

  /**
    When `code:<CODE>` reads falsy the answer is 403 and the zone key is
    neither read nor written: the GET of the code is the only command.
  */
  lemma UnknownCode(faults: map<nat, Fault>, st: State, action: string, code: string, path: string, data: Json, now: string)
    requires Pending(faults, st).None?
    requires !(CodeKey(code) in st.data && RawTruthy(st.data[CodeKey(code)]))
    ensures Dispatch(faults, st, action, code, path, data, now) ==
      (Response(403, NotOkBody("Code invalide")), State(st.data, st.trace + [GET(CodeKey(code))]))
  {
  }

  /**
    With a known code on a healthy store, a save writes exactly the zone
    key with `{updated_at, data: cleanZoneData(data)}`, and an action other
    than load or save answers 400 without writing.
  */
  lemma SaveWrites(faults: map<nat, Fault>, st: State, action: string, code: string, path: string, data: Json, now: string)
    requires Healthy(faults, st)
    requires CodeKey(code) in st.data && RawTruthy(st.data[CodeKey(code)])
    ensures var (resp, st') := Dispatch(faults, st, action, code, path, data, now);
      && (action == "save" ==>
            resp == Response(200, JObj([("ok", JBool(true))]))
            && st'.data == st.data[ZoneKey(code, path) := SavedRecord(now, data)])
      && (action != "save" && action != "load" ==>
            resp == Response(400, NotOkBody("action invalide")) && st'.data == st.data)
  {
    HealthyGet(faults, st, CodeKey(code));
    var st1 := GetOp(faults, st, CodeKey(code)).1;
    HealthySet(faults, st1, ZoneKey(code, path), SavedRecord(now, data));
  }

  lemma ObjectKeysOfDistinct(fields: seq<(string, Json)>)
    requires Distinct(Keys(fields))
    ensures ObjectKeys(fields) == Keys(fields)
  {
    if fields != [] {
      var init := fields[..|fields| - 1];
      assert Keys(fields) == Keys(init) + [fields[|fields| - 1].0];
      assert Distinct(Keys(init)) by {
        forall i, j | 0 <= i < j < |init| ensures Keys(init)[i] != Keys(init)[j] {
          assert Keys(init)[i] == Keys(fields)[i] && Keys(init)[j] == Keys(fields)[j];
        }
      }
      ObjectKeysOfDistinct(init);
    }
  }

  /** With a known code on a healthy store, a load answers the cleaned parse of what the zone key holds. */
  lemma LoadReads(faults: map<nat, Fault>, st: State, code: string, path: string, data: Json, now: string)
    requires Healthy(faults, st)
    requires CodeKey(code) in st.data && RawTruthy(st.data[CodeKey(code)])
    ensures Dispatch(faults, st, "load", code, path, data, now).0 ==
      Response(200, JObj([("ok", JBool(true)), ("data", DataObject(Clean(SafeParseJson(Lookup(st.data, ZoneKey(code, path))))))]))
  {
    HealthyGet(faults, st, CodeKey(code));
    var st1 := GetOp(faults, st, CodeKey(code)).1;
    HealthyGet(faults, st1, ZoneKey(code, path));
  }

  /** `cleanZoneData` of a saved record keeps its two top-level fields, the payload turned to text. */
  lemma CleanSavedRecord(now: string, data: Json)
    requires |now| <= 6000
    ensures Clean(SafeParseJson(Some(SavedRecord(now, data)))) == [("updated_at", now), ("data", "[object Object]")]
  {
    var rec := JObj([("updated_at", JStr(now)), ("data", DataObject(Clean(data)))]);
    assert "updated_at"[0] != "data"[0];
    assert Distinct(Keys(rec.fields));
    ObjectKeysOfDistinct(rec.fields);
    FieldAt(rec.fields, 0);
    FieldAt(rec.fields, 1);
    var es := Entries(rec);
    assert es == [("updated_at", JStr(now)), ("data", DataObject(Clean(data)))];
    assert ValueText(es[0].1) == now;
    assert ValueText(es[1].1) == "[object Object]";
    var kept := [("updated_at", now), ("data", "[object Object]")];
    assert Kept(es) == kept by {
      assert es[..1] == [es[0]];
      assert [es[0]][..0] == [];
      assert Kept([es[0]]) == [("updated_at", now)];
    }
    CleanFacts(rec);
  }

  /**
    Loading returns `cleanZoneData` of the whole stored record, not of its
    `data` field: right after a save, a load answers the record's two
    top-level fields as text, `updated_at` and "[object Object]", whatever
    was saved.
  */
  lemma SaveThenLoad(faults: map<nat, Fault>, st: State, code: string, path: string, data: Json, now: string)
    requires Healthy(faults, st)
    requires CodeKey(code) in st.data && RawTruthy(st.data[CodeKey(code)])
    requires |now| <= 6000
    ensures var st1 := Dispatch(faults, st, "save", code, path, data, now).1;
      Dispatch(faults, st1, "load", code, path, JNull, now).0 ==
        Response(200, JObj([("ok", JBool(true)), ("data", JObj([("updated_at", JStr(now)), ("data", JStr("[object Object]"))]))]))
  {
    SaveWrites(faults, st, "save", code, path, data, now);
    var st1 := Dispatch(faults, st, "save", code, path, data, now).1;
    assert Healthy(faults, st1);
    assert CodeKey(code) != ZoneKey(code, path) by {
      assert CodeKey(code)[0] != ZoneKey(code, path)[0];
    }
    LoadReads(faults, st1, code, path, JNull, now);
    assert Lookup(st1.data, ZoneKey(code, path)) == Some(SavedRecord(now, data));
    CleanSavedRecord(now, data);
    var c := [("updated_at", now), ("data", "[object Object]")];
    assert DataObject(c) == JObj([("updated_at", JStr(now)), ("data", JStr("[object Object]"))]);
  }

  /** A stored zone value that is not JSON loads as `{}`. */
  lemma LoadUnparseable(faults: map<nat, Fault>, st: State, code: string, path: string, now: string, raw: string)
    requires Healthy(faults, st)
    requires CodeKey(code) in st.data && RawTruthy(st.data[CodeKey(code)])
    requires Lookup(st.data, ZoneKey(code, path)) == Some(Text(raw))
    ensures Dispatch(faults, st, "load", code, path, JNull, now).0 == Response(200, JObj([("ok", JBool(true)), ("data", JObj([]))]))
  {
    HealthyGet(faults, st, CodeKey(code));
    var st1 := GetOp(faults, st, CodeKey(code)).1;
    HealthyGet(faults, st1, ZoneKey(code, path));
    assert SafeParseJson(Some(Text(raw))) == JNull;
    assert Clean(JNull) == [];
    assert DataObject([]) == JObj([]);
  }
}
