/**
  The writing-help endpoint: it cleans the client's prompt and context,
  asks the language-model service for three suggestions and answers the
  first usable, distinct ones. The service's reply and the JSON parser it
  needs are parameters; the prompt text sent to the service is not modelled.
*/
module WritingHelp {
  import opened Wrappers
  import opened JsValues
  import opened Text
  import opened Config
  import opened Http

  /** `String(input || "").replace(/\s+/g, " ").trim()`: the text before it is cut to length. */
  function Squeezed(input: Json): (r: string)
    ensures Trimmed(r)
  {
    Trim(Collapse(StrOr(input)))
  }

  /** `sanitizeText(input, maxLen)`. */
  function SanitizeText(input: Json, maxLen: nat): (r: string)
    ensures |r| == if |Squeezed(input)| <= maxLen then |Squeezed(input)| else maxLen
    ensures r == Squeezed(input)[..|r|]
  {
    var t := Squeezed(input);
    if t == "" then "" else if |t| <= maxLen then t else t[..maxLen]
  }

  /** Squeezing the whitespace keeps every other character of the input, in order. */
  lemma SqueezedKeepsText(input: Json)
    ensures NonSpace(Squeezed(input)) == NonSpace(StrOr(input))
  {
    CollapseKeepsText(StrOr(input));
    TrimKeepsText(Collapse(StrOr(input)));
  }

  /** Any slice of a text whose whitespace is single plain spaces keeps that shape. */
  lemma SliceSpacing(s: string, i: nat, j: nat)
    requires i <= j <= |s|
    requires NoDoubleSpace(s) && PlainSpacesOnly(s)
    ensures NoDoubleSpace(s[i..j]) && PlainSpacesOnly(s[i..j])
  {
    var t := s[i..j];
    forall k | 0 <= k < |t| - 1 ensures !(IsSpace(t[k]) && IsSpace(t[k + 1])) {
      assert t[k] == s[i + k] && t[k + 1] == s[i + k + 1];
    }
    forall k | 0 <= k < |t| && IsSpace(t[k]) ensures t[k] == ' ' {
      assert t[k] == s[i + k];
    }
  }

  lemma TrimSpacing(s: string)
    requires NoDoubleSpace(s) && PlainSpacesOnly(s)
    ensures NoDoubleSpace(Trim(s)) && PlainSpacesOnly(Trim(s))
  {
    var t0 := TrimStart(s);
    SliceSpacing(s, |s| - |t0|, |s|);
    var t := TrimEnd(t0);
    SliceSpacing(t0, 0, |t|);
  }

  /** `sanitizeText` answers "" exactly for a blank input (or a zero length). */
  lemma SanitizeBlank(input: Json, maxLen: nat)
    ensures SanitizeText(input, maxLen) == "" <==> AllSpace(StrOr(input)) || maxLen == 0
    ensures |Squeezed(input)| <= maxLen ==> SanitizeText(input, maxLen) == Squeezed(input)
  {
    CollapseBlank(StrOr(input));
  }

  /**
    A non-empty result of `sanitizeText` starts with a non-space, and every
    whitespace run in it is a single plain space.
  */
  lemma SanitizeSpacing(input: Json, maxLen: nat)
    ensures var r := SanitizeText(input, maxLen);
      && (r != "" ==> !IsSpace(r[0]))
      && NoDoubleSpace(r) && PlainSpacesOnly(r)
  {
    CollapseSpacing(StrOr(input));
    TrimSpacing(Collapse(StrOr(input)));
    var t := Squeezed(input);
    var r := SanitizeText(input, maxLen);
    SliceSpacing(t, 0, |r|);
  }

  /** A non-empty word without whitespace, short enough, is its own sanitised text. */
  lemma SanitizeWord(w: string, maxLen: nat)
    requires forall i :: 0 <= i < |w| ==> !IsSpace(w[i])
    requires |w| <= maxLen
    ensures SanitizeText(JStr(w), maxLen) == w
  {
    CollapseNoSpace(w);
    if w != [] {
      TrimOfTrimmed(w);
    }
  }

  /** The sanitised texts of a list's entries, entry by entry. */
  function Sanitized(list: seq<Json>, maxLen: nat): (r: seq<string>)
    ensures |r| == |list| && forall j :: 0 <= j < |list| ==> r[j] == SanitizeText(list[j], maxLen)
  {
    seq(|list|, j requires 0 <= j < |list| => SanitizeText(list[j], maxLen))
  }

  /** The lower-case forms of a list of texts. */
  function Lowered(ts: seq<string>): (r: seq<string>)
    ensures |r| == |ts| && forall j :: 0 <= j < |ts| ==> r[j] == Lower(ts[j])
  {
    seq(|ts|, j requires 0 <= j < |ts| => Lower(ts[j]))
  }

  /** The keys an empty object literal already answers truthily among lower-case texts: its inherited properties. */
  const PrototypeKeys: set<string> := {"constructor", "__proto__"}

  /**
    The loop of `uniqueSuggestions` from entry `i` on, over the sanitised
    entries `ts`; `seen` holds the keys `seen[key]` finds truthy, `out` the
    suggestions kept so far.
  */
  function UniqueFrom(ts: seq<string>, i: nat, seen: set<string>, out: seq<string>): seq<string>
    requires i <= |ts|
    decreases |ts| - i
  {
    if i == |ts| then out
    else if ts[i] == "" || Lower(ts[i]) in seen then UniqueFrom(ts, i + 1, seen, out)
    else
      var out' := out + [ts[i]];
      if |out'| >= 3 then out' else UniqueFrom(ts, i + 1, seen + {Lower(ts[i])}, out')
  }

  /**
    `uniqueSuggestions(list)` as written: `seen` is a plain object, so a
    suggestion whose lower-case form names an inherited property counts as
    already seen.
  */
  function UniqueSuggestionsAsWritten(list: seq<Json>): seq<string> {
    UniqueFrom(Sanitized(list, 280), 0, PrototypeKeys, [])
  }

  /** `uniqueSuggestions(list)` with `seen` holding only what the loop added. */
  function UniqueSuggestions(list: seq<Json>): seq<string> {
    UniqueFrom(Sanitized(list, 280), 0, {}, [])
  }

  /** The loop of `uniqueSuggestions`, with `seen` as a set of keys. */
  method ScanSuggestions(list: seq<Json>) returns (out: seq<string>)
    ensures out == UniqueSuggestions(list)
  {
    ghost var ts := Sanitized(list, 280);
    out := [];
    var seen: set<string> := {};
    for i := 0 to |list|
      invariant UniqueFrom(ts, i, seen, out) == UniqueSuggestions(list)
      invariant |out| < 3
    {
      var t := SanitizeText(list[i], 280);
      assert t == ts[i];
      if t == "" {
        continue;
      }
      var key := Lower(t);
      if key in seen {
        continue;
      }
      seen := seen + {key};
      out := out + [t];
      if |out| >= 3 {
        break;
      }
    }
  }

  /**
    The reference for what `uniqueSuggestions` keeps: every non-empty text
    whose lower-case form no earlier kept text has.
  */
  function Firsts(ts: seq<string>): seq<string> {
    if ts == [] then []
    else
      var f := Firsts(ts[..|ts| - 1]);
      var t := ts[|ts| - 1];
      f + (if t != "" && Lower(t) !in Lowered(f) then [t] else [])
  }

  lemma {:induction false} FirstsPrefix(ts: seq<string>, j: nat)
    requires j <= |ts|
    ensures Firsts(ts[..j]) <= Firsts(ts)
    decreases |ts|
  {
    if j < |ts| {
      FirstsPrefix(ts[..|ts| - 1], j);
      assert ts[..|ts| - 1][..j] == ts[..j];
    } else {
      assert ts[..j] == ts;
    }
  }

  /** Every kept text is a non-empty entry of `ts`, and no two have the same lower-case form. */
  lemma {:induction false} FirstsFacts(ts: seq<string>)
    ensures |Firsts(ts)| <= |ts|
    ensures forall n :: 0 <= n < |Firsts(ts)| ==> Firsts(ts)[n] != "" && Firsts(ts)[n] in ts
    ensures forall m, n :: 0 <= m < n < |Firsts(ts)| ==> Lower(Firsts(ts)[m]) != Lower(Firsts(ts)[n])
  {
    if ts != [] {
      var init := ts[..|ts| - 1];
      FirstsFacts(init);
      var f := Firsts(init);
      var fs := Firsts(ts);
      forall n | 0 <= n < |fs| ensures fs[n] != "" && fs[n] in ts {
        if n < |f| {
          assert fs[n] == f[n];
          assert f[n] in init;
        }
      }
      forall m, n | 0 <= m < n < |fs| ensures Lower(fs[m]) != Lower(fs[n]) {
        if n >= |f| {
          assert fs[m] == f[m];
          assert Lowered(f)[m] == Lower(f[m]);
        } else {
          assert fs[m] == f[m] && fs[n] == f[n];
        }
      }
    }
  }

  /** The loop from entry `i` on ends with the first three kept texts, when it starts from those of the first `i`. */
  lemma {:induction false} UniqueFromFirsts(ts: seq<string>, i: nat, seen: set<string>, out: seq<string>)
    requires i <= |ts|
    requires out == Firsts(ts[..i]) && |out| < 3
    requires forall k :: k in seen <==> k in Lowered(out)
    ensures UniqueFrom(ts, i, seen, out) == Firsts(ts)[..if |Firsts(ts)| < 3 then |Firsts(ts)| else 3]
    decreases |ts| - i
  {
    if i == |ts| {
      assert ts[..i] == ts;
    } else {
      var t := ts[i];
      var next := Firsts(ts[..i + 1]);
      assert ts[..i + 1][..i] == ts[..i];
      assert next == out + (if t != "" && Lower(t) !in Lowered(out) then [t] else []);
      FirstsPrefix(ts, i + 1);
      if t == "" || Lower(t) in seen {
        assert next == out;
        UniqueFromFirsts(ts, i + 1, seen, next);
      } else if |next| >= 3 {
        assert Firsts(ts)[..3] == next;
      } else {
        assert Lowered(next) == Lowered(out) + [Lower(t)];
        UniqueFromFirsts(ts, i + 1, seen + {Lower(t)}, next);
      }
    }
  }

  /**
    `uniqueSuggestions` answers the first three kept texts, in input order:
    each non-empty, at most 280 characters, a sanitised entry of the list,
    no two equal once lower-cased.
  */
  lemma UniqueSuggestionsFacts(list: seq<Json>)
    ensures var r := UniqueSuggestions(list); var f := Firsts(Sanitized(list, 280));
      && |r| == (if |f| < 3 then |f| else 3)
      && r == f[..|r|]
      && (forall n :: 0 <= n < |r| ==> r[n] != "" && |r[n]| <= 280 && r[n] in Sanitized(list, 280))
      && (forall m, n :: 0 <= m < n < |r| ==> Lower(r[m]) != Lower(r[n]))
  {
    var ts := Sanitized(list, 280);
    assert ts[..0] == [];
    UniqueFromFirsts(ts, 0, {}, []);
    FirstsFacts(ts);
    var r := UniqueSuggestions(list);
    forall n | 0 <= n < |r| ensures r[n] == Firsts(ts)[n] && |r[n]| <= 280 {
      assert r[n] in ts;
    }
  }

  /** Where no text's lower-case form names an inherited property, the loop as written agrees with the intended one. */
  lemma {:induction false} SeenAgrees(ts: seq<string>, i: nat, seen: set<string>, out: seq<string>)
    requires i <= |ts|
    requires forall j :: i <= j < |ts| ==> Lower(ts[j]) !in PrototypeKeys
    ensures UniqueFrom(ts, i, seen + PrototypeKeys, out) == UniqueFrom(ts, i, seen, out)
    decreases |ts| - i
  {
    if i < |ts| {
      var t := ts[i];
      assert seen + PrototypeKeys + {Lower(t)} == seen + {Lower(t)} + PrototypeKeys;
      SeenAgrees(ts, i + 1, seen, out);
      SeenAgrees(ts, i + 1, seen + {Lower(t)}, out + [t]);
    }
  }

  lemma AsWrittenAgrees(list: seq<Json>)
    requires forall j :: 0 <= j < |list| ==> Lower(SanitizeText(list[j], 280)) !in PrototypeKeys
    ensures UniqueSuggestionsAsWritten(list) == UniqueSuggestions(list)
  {
    SeenAgrees(Sanitized(list, 280), 0, {}, []);
    assert {} + PrototypeKeys == PrototypeKeys;
  }

  /** Collapsing a text without whitespace leaves it as it is. */
  lemma {:induction false} CollapseNoSpace(s: string)
    requires forall i :: 0 <= i < |s| ==> !IsSpace(s[i])
    ensures Collapse(s) == s
    decreases |s|
  {
    if s != [] {
      CollapseNoSpace(s[1..]);
    }
  }

  lemma LetterNotSpace(c: char)
    requires 'a' <= c <= 'z' || c == '_'
    ensures !IsSpace(c) && LowerChar(c) == c
  {
  }

  lemma SanitizeConstructor()
    ensures SanitizeText(JStr("constructor"), 280) == "constructor"
    ensures Lower("constructor") == "constructor"
  {
    var s := "constructor";
    forall i | 0 <= i < |s| ensures !IsSpace(s[i]) && LowerChar(s[i]) == s[i] {
      LetterNotSpace(s[i]);
    }
    SanitizeWord(s, 280);
  }

  /** A single non-empty text is kept exactly when its lower-case form is not already seen. */
  lemma UniqueFromSingle(t: string, seen: set<string>)
    requires t != ""
    ensures UniqueFrom([t], 0, seen, []) == if Lower(t) in seen then [] else [t]
  {
    if Lower(t) in seen {
      assert UniqueFrom([t], 0, seen, []) == UniqueFrom([t], 1, seen, []);
    } else {
      assert UniqueFrom([t], 0, seen, []) == UniqueFrom([t], 1, seen + {Lower(t)}, [t]);
    }
  }

  /** A lone suggestion whose lower-case form names an inherited property is dropped as written and kept as intended. */
  lemma InheritedKeyDropped(w: string)
    requires SanitizeText(JStr(w), 280) == w && w != ""
    requires Lower(w) in PrototypeKeys
    ensures UniqueSuggestionsAsWritten([JStr(w)]) == []
    ensures UniqueSuggestions([JStr(w)]) == [w]
  {
    var ts := Sanitized([JStr(w)], 280);
    assert ts == [w];
    UniqueFromSingle(w, PrototypeKeys);
    UniqueFromSingle(w, {});
  }

  /** The suggestion "constructor" is dropped as written, although nothing before it was kept. */
  lemma ConstructorDropped()
    ensures UniqueSuggestionsAsWritten([JStr("constructor")]) == []
    ensures UniqueSuggestions([JStr("constructor")]) == ["constructor"]
  {
    SanitizeConstructor();
    InheritedKeyDropped("constructor");
  }

  /** The context-cleaning loop from entry `i` on, over the sanitised entries `ts`, with `out` kept so far. */
  function ContextFrom(ts: seq<string>, i: nat, out: seq<string>): seq<string>
    requires i <= |ts|
    decreases |ts| - i
  {
    if i == |ts| then out
    else
      var out' := if ts[i] != "" then out + [ts[i]] else out;
      if |out'| >= 8 then out' else ContextFrom(ts, i + 1, out')
  }

  /** `Array.isArray(body.context) ? body.context : []`. */
  function ContextList(body: Json): seq<Json> {
    var c := Field(body, "context");
    if c.JArr? then c.items else []
  }

  /** The non-empty texts, in order: the reference for `cleanContext`. */
  function NonBlank(ts: seq<string>): seq<string> {
    if ts == [] then []
    else NonBlank(ts[..|ts| - 1]) + (if ts[|ts| - 1] != "" then [ts[|ts| - 1]] else [])
  }

  lemma {:induction false} NonBlankPrefix(ts: seq<string>, j: nat)
    requires j <= |ts|
    ensures NonBlank(ts[..j]) <= NonBlank(ts)
    decreases |ts|
  {
    if j < |ts| {
      NonBlankPrefix(ts[..|ts| - 1], j);
      assert ts[..|ts| - 1][..j] == ts[..j];
    } else {
      assert ts[..j] == ts;
    }
  }

  lemma {:induction false} NonBlankFacts(ts: seq<string>)
    ensures forall n :: 0 <= n < |NonBlank(ts)| ==> NonBlank(ts)[n] != "" && NonBlank(ts)[n] in ts
  {
    if ts != [] {
      var init := ts[..|ts| - 1];
      NonBlankFacts(init);
      var nb := NonBlank(ts);
      forall n | 0 <= n < |nb| ensures nb[n] != "" && nb[n] in ts {
        if n < |NonBlank(init)| {
          assert nb[n] == NonBlank(init)[n];
          assert nb[n] in init;
        }
      }
    }
  }

  lemma {:induction false} ContextFromNonBlank(ts: seq<string>, i: nat, out: seq<string>)
    requires i <= |ts|
    requires out == NonBlank(ts[..i]) && |out| < 8
    ensures ContextFrom(ts, i, out) == NonBlank(ts)[..if |NonBlank(ts)| < 8 then |NonBlank(ts)| else 8]
    decreases |ts| - i
  {
    if i == |ts| {
      assert ts[..i] == ts;
    } else {
      var next := NonBlank(ts[..i + 1]);
      assert ts[..i + 1][..i] == ts[..i];
      assert next == out + (if ts[i] != "" then [ts[i]] else []);
      NonBlankPrefix(ts, i + 1);
      if |next| >= 8 {
        assert NonBlank(ts)[..8] == next;
      } else {
        if ts[i] == "" {
          assert next == out;
        }
        assert ContextFrom(ts, i, out) == ContextFrom(ts, i + 1, next);
        ContextFromNonBlank(ts, i + 1, next);
      }
    }
  }

  /** `cleanContext`: the first eight non-empty sanitised entries of `context`. */
  function CleanContext(context: seq<Json>): seq<string> {
    ContextFrom(Sanitized(context, 220), 0, [])
  }

  /** The cleaned context holds at most eight entries, each non-empty and at most 220 characters, in input order. */
  lemma CleanContextFacts(context: seq<Json>)
    ensures var ts := Sanitized(context, 220); var r := CleanContext(context); var nb := NonBlank(ts);
      && |r| == (if |nb| < 8 then |nb| else 8)
      && r == nb[..|r|]
      && forall n :: 0 <= n < |r| ==> r[n] != "" && |r[n]| <= 220 && r[n] in ts
  {
    var ts := Sanitized(context, 220);
    assert ts[..0] == [];
    ContextFromNonBlank(ts, 0, []);
    NonBlankFacts(ts);
    var r := CleanContext(context);
    forall n | 0 <= n < |r| ensures r[n] == NonBlank(ts)[n] && |r[n]| <= 220 {
      assert r[n] in ts;
    }
  }

  /** The handler's context loop. */
  method ScanContext(context: seq<Json>) returns (out: seq<string>)
    ensures out == CleanContext(context)
  {
    ghost var ts := Sanitized(context, 220);
    out := [];
    for i := 0 to |context|
      invariant ContextFrom(ts, i, out) == CleanContext(context)
      invariant |out| < 8
    {
      var entry := SanitizeText(context[i], 220);
      assert entry == ts[i];
      if entry != "" {
        out := out + [entry];
      }
      if |out| >= 8 {
        break;
      }
    }
  }

  /** What the call to the language-model service gives: it threw, or it answered with a status and a text. */
  datatype ServiceReply = Threw(message: string) | Answered(ok: bool, status: nat, raw: string)

  /** `v[0]`: the first item of an array, the property "0" of an object. */
  function First(v: Json): Json {
    match v
    case JArr(items) => if items == [] then JNull else items[0]
    case JObj(_) => Field(v, "0")
    case _ => JNull
  }

  /**
    `list.length` and `list[i]` as the loop reads them: an array's items, a
    string's characters, the fields "0", "1", ... of an object whose
    `length` is a positive number, or nothing.
  */
  function AsList(v: Json): seq<Json> {
    match v
    case JArr(items) => items
    case JStr(s) => seq(|s|, i requires 0 <= i < |s| => JStr([s[i]]))
    case JObj(fields) =>
      var len := FieldIn(fields, "length");
      if len.JNum? && len.n > 0 then seq(len.n, i requires 0 <= i < len.n => FieldIn(fields, Decimal(i))) else []
    case _ => []
  }

  /** `JSON.parse(text)`, falling back to `{}` when it throws. */
  function ParseOr(parse: string -> Option<Json>, text: string): Json {
    match parse(text)
    case Some(v) => v
    case None => JObj([])
  }

  /** The suggestions a service answer carries: `choices[0].message.content`, parsed, then its `suggestions`. */
  function Suggested(parse: string -> Option<Json>, raw: string): seq<Json> {
    var data := ParseOr(parse, raw);
    var m := Field(Field(First(Field(data, "choices")), "message"), "content");
    var content := if Truthy(m) then JsString(m) else "";
    var parsed := ParseOr(parse, content);
    var s := Field(parsed, "suggestions");
    if Truthy(s) then AsList(s) else []
  }

  function Prompt(req: Request): string {
    SanitizeText(Field(req.body, "prompt"), 320)
  }

  function JsonTexts(ts: seq<string>): (r: seq<Json>)
    ensures |r| == |ts| && forall i :: 0 <= i < |ts| ==> r[i] == JStr(ts[i])
  {
    seq(|ts|, i requires 0 <= i < |ts| => JStr(ts[i]))
  }

  /**
    The handler: its response, and whether it called the service. `reply`
    is what that call gives when it is made.
  */
  function Handler(env: Env, req: Request, reply: ServiceReply, parse: string -> Option<Json>): (Response, bool) {
    if !IsPost(req) then (Response(405, NotOkBody("Method not allowed")), false)
    else if FirstNonEmpty([EnvVar(env, "OPENAI_API_KEY")]) == "" then (Response(500, NotOkBody("OPENAI_API_KEY manquant")), false)
    else if Prompt(req) == "" then (Response(400, NotOkBody("prompt manquant")), false)
    else
      match reply
      case Threw(m) => (Response(500, NotOkDetailsBody("Generation impossible", OrUnknown(m))), true)
      case Answered(ok, status, raw) =>
        if !ok then (Response(502, NotOkDetailsBody("OpenAI error", if raw != "" then raw else "HTTP " + Decimal(status))), true)
        else
          var suggestions := UniqueSuggestions(Suggested(parse, raw));
          if suggestions == [] then (Response(502, NotOkBody("Aucune suggestion exploitable")), true)
          else (Response(200, JObj([("ok", JBool(true)), ("suggestions", JArr(JsonTexts(suggestions)))])), true)
  }

  method Handle(env: Env, req: Request, reply: ServiceReply, parse: string -> Option<Json>) returns (resp: Response, called: bool)
    ensures (resp, called) == Handler(env, req, reply, parse)
  {
    called := false;
    if req.verb != "POST" {
      return Response(405, NotOkBody("Method not allowed")), false;
    }
    var apiKey := ScanFirstNonEmpty([EnvVar(env, "OPENAI_API_KEY")]);
    if apiKey == "" {
      return Response(500, NotOkBody("OPENAI_API_KEY manquant")), false;
    }
    var prompt := SanitizeText(Field(req.body, "prompt"), 320);
    var context := ScanContext(ContextList(req.body));
    if prompt == "" {
      return Response(400, NotOkBody("prompt manquant")), false;
    }
    called := true;
    match reply
    case Threw(m) =>
      resp := Response(500, NotOkDetailsBody("Generation impossible", OrUnknown(m)));
    case Answered(ok, status, raw) =>
      if !ok {
        resp := Response(502, NotOkDetailsBody("OpenAI error", if raw != "" then raw else "HTTP " + Decimal(status)));
      } else {
        var suggestions := ScanSuggestions(Suggested(parse, raw));
        if |suggestions| == 0 {
          resp := Response(502, NotOkBody("Aucune suggestion exploitable"));
        } else {
          resp := Response(200, JObj([("ok", JBool(true)), ("suggestions", JArr(JsonTexts(suggestions)))]));
        }
      }
  }

  /**
    A blank prompt answers 400 without calling the service, and the service
    is called exactly when the method, key and prompt checks pass.
  */
  lemma PromptGate(env: Env, req: Request, reply: ServiceReply, parse: string -> Option<Json>)
    ensures var (resp, called) := Handler(env, req, reply, parse);
      && (IsPost(req) && FirstNonEmpty([EnvVar(env, "OPENAI_API_KEY")]) != "" && AllSpace(StrOr(Field(req.body, "prompt"))) ==>
            resp == Response(400, NotOkBody("prompt manquant")) && !called)
      && (called <==> IsPost(req) && FirstNonEmpty([EnvVar(env, "OPENAI_API_KEY")]) != "" && !AllSpace(StrOr(Field(req.body, "prompt"))))
  {
    SanitizeBlank(Field(req.body, "prompt"), 320);
    var (resp, called) := Handler(env, req, reply, parse);
    if !IsPost(req) || FirstNonEmpty([EnvVar(env, "OPENAI_API_KEY")]) == "" || Prompt(req) == "" {
      assert !called;
    } else {
      assert called;
    }
  }

  /**
    A 200 answers one to three suggestions, each non-empty, at most 280
    characters and distinct once lower-cased, taken in order from the
    service's answer.
  */
  lemma SuccessBody(env: Env, req: Request, reply: ServiceReply, parse: string -> Option<Json>)
    requires Handler(env, req, reply, parse).0.status == 200
    ensures reply.Answered?
    ensures var ts := UniqueSuggestions(Suggested(parse, reply.raw));
      && Handler(env, req, reply, parse).0.body == JObj([("ok", JBool(true)), ("suggestions", JArr(JsonTexts(ts)))])
      && 1 <= |ts| <= 3
      && (forall n :: 0 <= n < |ts| ==> ts[n] != "" && |ts[n]| <= 280 && ts[n] in Sanitized(Suggested(parse, reply.raw), 280))
      && (forall m, n :: 0 <= m < n < |ts| ==> Lower(ts[m]) != Lower(ts[n]))
  {
    UniqueSuggestionsFacts(Suggested(parse, reply.raw));
  }
}
