/**
  The issuance flow both issue handlers run once a Stripe session is known
  to be paid: look up `session:<id>`, return what it holds when truthy,
  otherwise probe up to six candidate codes against `code:<code>`, then
  write the code record and the session index, one after the other and
  without a transaction.

  The two handlers differ only in the client they talk to the store with:
  `RestFetch` (the `fetch`-based `redisGet` / `redisSet` of
  issue-access-code.js) and `UpstashSdk` (the `@upstash/redis` client of
  api/issue-access-code.js).
*/
module Issuance {
  import opened Wrappers
  import opened JsValues
  import opened KeyValue
  import opened AccessCode
  import opened Http
  import opened Text

  datatype Client = RestFetch | UpstashSdk

  /**
    What a GET gives the handler, or the message it throws. `redisGet` of
    the REST client never looks at `resp.ok`: an error reply carries no
    `result`, so it reads as `null`. The SDK throws on any error reply.
  */
  function ReadAs(client: Client, r: Result<Option<Val>, Fault>): Result<Json, string> {
    match r
    case Ok(None) => Ok(JNull)
    case Ok(Some(v)) => Ok(Parsed(v))
    case Err(Unreachable(m)) => Err(m)
    case Err(HttpError(status, text)) => if client == RestFetch then Ok(JNull) else Err(text)
  }

  /** What a SET gives the handler: `redisSet` throws "Redis set failed: <status>" on an error reply. */
  function WriteAs(client: Client, r: Result<(), Fault>): Result<(), string> {
    match r
    case Ok(_) => Ok(())
    case Err(Unreachable(m)) => Err(m)
    case Err(HttpError(status, text)) =>
      if client == RestFetch then Err("Redis set failed: " + Decimal(status)) else Err(text)
  }

  function CodeKey(code: string): string {
    "code:" + code
  }

  /** `session:${sessionId}`: the template literal applies `String` to the id. */
  function SessionKey(sid: Json): string {
    "session:" + JsString(sid)
  }

  lemma KeysDiffer(code: string, sid: Json)
    ensures CodeKey(code) != SessionKey(sid)
  {
    assert CodeKey(code)[0] != SessionKey(sid)[0];
  }

  /** What a healthy store answers a handler's GET of `key` with. */
  function ReadValue(data: map<string, Val>, key: string): Json {
    if key in data then Parsed(data[key]) else JNull
  }

  /** The record written to `code:<code>`: the code, the session id, the customer email and the creation time. */
  function CodeRecord(code: string, sid: Json, email: Json, now: string): Val {
    Stored(JObj([("code", JStr(code)), ("session_id", sid), ("email", email), ("created_at", JStr(now))]))
  }

  /** The seven codes the loop can generate, one per roll of ten draws. */
  function Candidates(rolls: seq<Roll>): (r: seq<string>)
    requires |rolls| == 7
    ensures |r| == 7
    ensures forall i :: 0 <= i < 7 ==> r[i] == CodeOf(rolls[i])
  {
    seq(7, i requires 0 <= i < 7 => CodeOf(rolls[i]))
  }

  datatype Outcome = Existing(held: Json) | Fresh(code: string) | Threw(message: string)

  /** What retrieving the Checkout session gave: the session object, or the message of the error thrown. */
  datatype StripeReply = Retrieved(session: Json) | StripeFailed(message: string)

  /** A handler's response, the store afterwards, and whether Stripe was asked for the session. */
  datatype Reply = Reply(resp: Response, st: State, askedStripe: bool)

  /**
    The collision loop from its `i`-th probe on: the index of the candidate
    it settles on, or the message a GET threw. The seventh candidate
    (index 6) is taken without a probe.
  */
  function Probe(client: Client, faults: map<nat, Fault>, st: State, cands: seq<string>, i: nat): (Result<nat, string>, State)
    requires |cands| == 7 && i <= 6
    decreases 6 - i
  {
    if i == 6 then (Ok(6), st)
    else
      var (r, st1) := GetOp(faults, st, CodeKey(cands[i]));
      match ReadAs(client, r)
      case Err(m) => (Err(m), st1)
      case Ok(taken) => if !Truthy(taken) then (Ok(i), st1) else Probe(client, faults, st1, cands, i + 1)
  }

  /** The flow from the session lookup to the two writes. */
  function Flow(client: Client, faults: map<nat, Fault>, st: State, sid: Json, email: Json, now: string, rolls: seq<Roll>): (Outcome, State)
    requires |rolls| == 7
  {
    var (r, st1) := GetOp(faults, st, SessionKey(sid));
    match ReadAs(client, r)
    case Err(m) => (Threw(m), st1)
    case Ok(existing) =>
      if Truthy(existing) then (Existing(existing), st1)
      else
        var cands := Candidates(rolls);
        var (p, st2) := Probe(client, faults, st1, cands, 0);
        match p
        case Err(m) => (Threw(m), st2)
        case Ok(k) => Write(client, faults, st2, cands[k], sid, email, now)
  }

  /** The two fields of a 200 response body, `{code, existing}`. */
  lemma IssuedFields(code: Json, existing: bool)
    ensures Field(JObj([("code", code), ("existing", JBool(existing))]), "code") == code
    ensures Field(JObj([("code", code), ("existing", JBool(existing))]), "existing") == JBool(existing)
    ensures Field(JObj([("code", code), ("existing", JBool(existing))]), "details") == JNull
  {
    var fs := [("code", code), ("existing", JBool(existing))];
    assert "existing"[0] != "code"[0];
    assert "details"[0] != "code"[0] && "details"[0] != "existing"[0];
    FieldAt(fs, 0);
    FieldAt(fs, 1);
    FieldAbsent(fs, "details");
  }

  /** The two writes: the code record, then the session index. */
  function Write(client: Client, faults: map<nat, Fault>, st: State, code: string, sid: Json, email: Json, now: string): (Outcome, State) {
    var (w1, st1) := SetOp(faults, st, CodeKey(code), CodeRecord(code, sid, email, now));
    match WriteAs(client, w1)
    case Err(m) => (Threw(m), st1)
    case Ok(_) =>
      var (w2, st2) := SetOp(faults, st1, SessionKey(sid), Text(code));
      match WriteAs(client, w2)
      case Err(m) => (Threw(m), st2)
      case Ok(_) => (Fresh(code), st2)
  }

  /** The collision loop as the source writes it: probe, and draw a new candidate while the probed one is taken. */
  method ProbeLoop(client: Client, store: Store, rolls: seq<Roll>) returns (found: Result<nat, string>, code: string)
    requires |rolls| == 7
    modifies store
    ensures (found, store.Snapshot()) == Probe(client, store.faults, old(store.Snapshot()), Candidates(rolls), 0)
    ensures found.Ok? ==> found.value <= 6 && code == Candidates(rolls)[found.value]
  {
    ghost var cands := Candidates(rolls);
    code := RandomCode(rolls[0]);
    var i := 0;
    while i < 6
      invariant 0 <= i <= 6 && code == cands[i]
      invariant Probe(client, store.faults, old(store.Snapshot()), cands, 0) == Probe(client, store.faults, store.Snapshot(), cands, i)
    {
      ghost var before := store.Snapshot();
      var e := store.Get(CodeKey(code));
      var taken := ReadAs(client, e);
      if taken.Err? {
        return Err(taken.error), code;
      }
      if !Truthy(taken.value) {
        assert Probe(client, store.faults, before, cands, i) == (Ok(i), store.Snapshot());
        return Ok(i), code;
      }
      i := i + 1;
      code := RandomCode(rolls[i]);
    }
    return Ok(6), code;
  }

  /** The two writes against the store. */
  method WriteBoth(client: Client, store: Store, code: string, sid: Json, email: Json, now: string) returns (o: Outcome)
    modifies store
    ensures (o, store.Snapshot()) == Write(client, store.faults, old(store.Snapshot()), code, sid, email, now)
  {
    var w1 := store.Set(CodeKey(code), CodeRecord(code, sid, email, now));
    var written := WriteAs(client, w1);
    if written.Err? {
      return Threw(written.error);
    }
    var w2 := store.Set(SessionKey(sid), Text(code));
    written := WriteAs(client, w2);
    if written.Err? {
      return Threw(written.error);
    }
    return Fresh(code);
  }

  /** The issuance flow against the store. */
  method Issue(client: Client, store: Store, sid: Json, email: Json, now: string, rolls: seq<Roll>) returns (o: Outcome)
    requires |rolls| == 7
    modifies store
    ensures (o, store.Snapshot()) == Flow(client, store.faults, old(store.Snapshot()), sid, email, now, rolls)
  {
    var r := store.Get(SessionKey(sid));
    var existing := ReadAs(client, r);
    if existing.Err? {
      return Threw(existing.error);
    }
    if Truthy(existing.value) {
      return Existing(existing.value);
    }
    var found, code := ProbeLoop(client, store, rolls);
    if found.Err? {
      return Threw(found.error);
    }
    o := WriteBoth(client, store, code, sid, email, now);
  }

  /**
    Whatever the store does, the collision loop changes no data, probes
    `code:<candidate>` for the candidates in order, at most six of them,
    and settles on one of the seven candidates.
  */
  lemma {:induction false} ProbeFacts(client: Client, faults: map<nat, Fault>, st: State, cands: seq<string>, i: nat)
    requires |cands| == 7 && i <= 6
    ensures var (p, st') := Probe(client, faults, st, cands, i);
      && st'.data == st.data
      && |st.trace| <= |st'.trace| <= |st.trace| + (6 - i)
      && st'.trace[..|st.trace|] == st.trace
      && (forall n :: |st.trace| <= n < |st'.trace| ==> st'.trace[n] == GET(CodeKey(cands[i + n - |st.trace|])))
      && (p.Ok? ==> i <= p.value <= 6)
    decreases 6 - i
  {
    if i < 6 {
      var (r, st1) := GetOp(faults, st, CodeKey(cands[i]));
      ProbeFacts(client, faults, st1, cands, i + 1);
      var st' := Probe(client, faults, st, cands, i).1;
      if ReadAs(client, r).Ok? && Truthy(ReadAs(client, r).value) {
        assert st' == Probe(client, faults, st1, cands, i + 1).1;
        assert st'.trace[..|st.trace|] == st1.trace[..|st1.trace|][..|st.trace|];
      }
    }
  }

  /**
    On a healthy store the loop settles on the first candidate whose
    record reads falsy, and on the seventh, unprobed, when the first six
    are all taken.
  */
  lemma {:induction false} ProbeHealthy(client: Client, faults: map<nat, Fault>, st: State, cands: seq<string>, i: nat)
    requires |cands| == 7 && i <= 6 && Healthy(faults, st)
    ensures var (p, st') := Probe(client, faults, st, cands, i);
      && p.Ok? && i <= p.value <= 6 && Healthy(faults, st')
      && (forall j :: i <= j < p.value ==> Truthy(ReadValue(st.data, CodeKey(cands[j]))))
      && (p.value < 6 ==> !Truthy(ReadValue(st.data, CodeKey(cands[p.value]))))
    decreases 6 - i
  {
    if i < 6 {
      var st1 := GetOp(faults, st, CodeKey(cands[i])).1;
      HealthyGet(faults, st, CodeKey(cands[i]));
      ProbeHealthy(client, faults, st1, cands, i + 1);
    }
  }

  /**
    The writes either both land, or the first fails and nothing lands, or
    the second fails and the code record stays without its session index:
    nothing is rolled back.
  */
  lemma WriteFacts(client: Client, faults: map<nat, Fault>, st: State, code: string, sid: Json, email: Json, now: string)
    ensures var (o, st') := Write(client, faults, st, code, sid, email, now);
      && !o.Existing?
      && (o.Fresh? ==> o.code == code && st'.data == st.data[CodeKey(code) := CodeRecord(code, sid, email, now)][SessionKey(sid) := Text(code)])
      && (o.Fresh? ==> st'.trace == st.trace + [SET(CodeKey(code), CodeRecord(code, sid, email, now)), SET(SessionKey(sid), Text(code))])
      && (o.Threw? ==> st'.data == st.data || st'.data == st.data[CodeKey(code) := CodeRecord(code, sid, email, now)])
      && (o.Fresh? <==> Pending(faults, st).None? && Pending(faults, SetOp(faults, st, CodeKey(code), CodeRecord(code, sid, email, now)).1).None?)
      && st'.trace[..|st.trace|] == st.trace && |st.trace| + 1 <= |st'.trace| <= |st.trace| + 2
  {
  }

  /**
    The whole flow, whatever the store does: a returned `existing` value
    is the truthy value the session index holds and nothing is written; a
    fresh code is one of the candidates, has the access-code shape, and
    exactly its record and the session index change; a failure leaves the
    data as it was or with only the record of one candidate written.
  */
  lemma FlowEffect(client: Client, faults: map<nat, Fault>, st: State, sid: Json, email: Json, now: string, rolls: seq<Roll>)
    requires |rolls| == 7
    ensures var (o, st') := Flow(client, faults, st, sid, email, now, rolls);
      && (o.Existing? ==> st'.data == st.data && Truthy(o.held) && SessionKey(sid) in st.data && Parsed(st.data[SessionKey(sid)]) == o.held)
      && (o.Fresh? ==>
            && o.code in Candidates(rolls) && IsAccessCode(o.code)
            && st'.data == st.data[CodeKey(o.code) := CodeRecord(o.code, sid, email, now)][SessionKey(sid) := Text(o.code)])
      && (o.Threw? ==>
            || st'.data == st.data
            || exists c :: c in Candidates(rolls) && st'.data == st.data[CodeKey(c) := CodeRecord(c, sid, email, now)])
  {
    var (r, st1) := GetOp(faults, st, SessionKey(sid));
    var flow := Flow(client, faults, st, sid, email, now, rolls);
    match ReadAs(client, r)
    case Err(m) =>
      assert flow == (Threw(m), st1);
    case Ok(existing) =>
      if Truthy(existing) {
        assert flow == (Existing(existing), st1);
      } else {
        var cands := Candidates(rolls);
        var (p, st2) := Probe(client, faults, st1, cands, 0);
        ProbeFacts(client, faults, st1, cands, 0);
        match p
        case Err(m) =>
          assert flow == (Threw(m), st2);
        case Ok(k) =>
          var c := cands[k];
          assert flow == Write(client, faults, st2, c, sid, email, now);
          WriteFacts(client, faults, st2, c, sid, email, now);
          CodeOfIsAccessCode(rolls[k]);
          assert c in cands;
      }
  }

  /** The flow changes no key other than the session index and keys under `code:`. */
  lemma FlowKeys(client: Client, faults: map<nat, Fault>, st: State, sid: Json, email: Json, now: string, rolls: seq<Roll>)
    requires |rolls| == 7
    ensures var st' := Flow(client, faults, st, sid, email, now, rolls).1;
      forall k :: k != SessionKey(sid) && !StartsWith(k, "code:") ==> Lookup(st'.data, k) == Lookup(st.data, k)
  {
    FlowEffect(client, faults, st, sid, email, now, rolls);
    var (o, st') := Flow(client, faults, st, sid, email, now, rolls);
    forall k | k != SessionKey(sid) && !StartsWith(k, "code:") ensures Lookup(st'.data, k) == Lookup(st.data, k) {
      if o.Fresh? {
        assert k != CodeKey(o.code);
      } else if o.Threw? && st'.data != st.data {
        var c :| c in Candidates(rolls) && st'.data == st.data[CodeKey(c) := CodeRecord(c, sid, email, now)];
        assert k != CodeKey(c);
      }
    }
  }

  /** A fresh issuance ends with its two writes: the code record, then the session index. */
  lemma FlowFreshTrace(client: Client, faults: map<nat, Fault>, st: State, sid: Json, email: Json, now: string, rolls: seq<Roll>)
    requires |rolls| == 7
    ensures var (o, st') := Flow(client, faults, st, sid, email, now, rolls);
      o.Fresh? ==>
        && |st'.trace| >= 2
        && st'.trace[|st'.trace| - 2..] == [SET(CodeKey(o.code), CodeRecord(o.code, sid, email, now)), SET(SessionKey(sid), Text(o.code))]
  {
    var (r, st1) := GetOp(faults, st, SessionKey(sid));
    if ReadAs(client, r).Ok? && !Truthy(ReadAs(client, r).value) {
      var cands := Candidates(rolls);
      var (p, st2) := Probe(client, faults, st1, cands, 0);
      if p.Ok? {
        ProbeFacts(client, faults, st1, cands, 0);
        WriteFacts(client, faults, st2, cands[p.value], sid, email, now);
      }
    }
  }


  /**
    The flow sends one GET for the session index, at most six probes and
    at most two SETs, and only appends to the log.
  */
  lemma FlowTrace(client: Client, faults: map<nat, Fault>, st: State, sid: Json, email: Json, now: string, rolls: seq<Roll>)
    requires |rolls| == 7
    ensures var st' := Flow(client, faults, st, sid, email, now, rolls).1;
      && |st.trace| < |st'.trace| <= |st.trace| + 9
      && st'.trace[..|st.trace|] == st.trace
      && st'.trace[|st.trace|] == GET(SessionKey(sid))
  {
    var (r, st1) := GetOp(faults, st, SessionKey(sid));
    var cands := Candidates(rolls);
    var (p, st2) := Probe(client, faults, st1, cands, 0);
    ProbeFacts(client, faults, st1, cands, 0);
    assert st2.trace[..|st.trace|] == st2.trace[..|st1.trace|][..|st.trace|];
    assert st2.trace[|st.trace|] == st2.trace[..|st1.trace|][|st.trace|];
    if p.Ok? {
      var st3 := Write(client, faults, st2, cands[p.value], sid, email, now).1;
      WriteFacts(client, faults, st2, cands[p.value], sid, email, now);
      assert st3.trace[..|st.trace|] == st3.trace[..|st2.trace|][..|st.trace|];
      assert st3.trace[|st.trace|] == st3.trace[..|st2.trace|][|st.trace|];
    }
  }

  /**
    On a healthy store the flow never fails: it returns the session's
    value exactly when that value is truthy, and otherwise issues the
    first candidate whose record reads falsy, or the seventh.
  */
  lemma FlowHealthy(client: Client, faults: map<nat, Fault>, st: State, sid: Json, email: Json, now: string, rolls: seq<Roll>)
    requires |rolls| == 7 && Healthy(faults, st)
    ensures var (o, st') := Flow(client, faults, st, sid, email, now, rolls);
      && !o.Threw? && Healthy(faults, st')
      && (o.Existing? <==> Truthy(ReadValue(st.data, SessionKey(sid))))
      && (o.Existing? ==> o.held == ReadValue(st.data, SessionKey(sid)))
      && (o.Fresh? ==>
            (exists k :: 0 <= k <= 6 && o.code == Candidates(rolls)[k]
               && (forall j :: 0 <= j < k ==> Truthy(ReadValue(st.data, CodeKey(Candidates(rolls)[j]))))
               && (k < 6 ==> !Truthy(ReadValue(st.data, CodeKey(o.code))))))
  {
    HealthyGet(faults, st, SessionKey(sid));
    var (r, st1) := GetOp(faults, st, SessionKey(sid));
    var flow := Flow(client, faults, st, sid, email, now, rolls);
    var existing := ReadValue(st.data, SessionKey(sid));
    assert ReadAs(client, r) == Ok(existing);
    if Truthy(existing) {
      assert flow == (Existing(existing), st1);
    } else {
      var cands := Candidates(rolls);
      ProbeHealthy(client, faults, st1, cands, 0);
      var (p, st2) := Probe(client, faults, st1, cands, 0);
      var k := p.value;
      var c := cands[k];
      assert flow == Write(client, faults, st2, c, sid, email, now);
      HealthySet(faults, st2, CodeKey(c), CodeRecord(c, sid, email, now));
      var st3 := SetOp(faults, st2, CodeKey(c), CodeRecord(c, sid, email, now)).1;
      HealthySet(faults, st3, SessionKey(sid), Text(c));
      assert flow.0 == Fresh(c);
    }
  }

  /**
    Issuing twice for the same session: once the first run has written
    its code, a second run on a healthy store returns that code as
    `existing` and writes nothing, whatever it would have drawn.
  */
  lemma FlowTwice(client: Client, faults: map<nat, Fault>, st: State, sid: Json,
                  email: Json, now: string, rolls: seq<Roll>, email2: Json, now2: string, rolls2: seq<Roll>)
    requires |rolls| == 7 && |rolls2| == 7
    requires Healthy(faults, Flow(client, faults, st, sid, email, now, rolls).1)
    ensures var (o1, st1) := Flow(client, faults, st, sid, email, now, rolls);
      var (o2, st2) := Flow(client, faults, st1, sid, email2, now2, rolls2);
      && (o1.Fresh? ==> o2 == Existing(JStr(o1.code)))
      && (o1.Existing? && Healthy(faults, st) ==> o2 == o1)
      && (!o1.Threw? ==> st2.data == st1.data)
  {
    var (o1, st1) := Flow(client, faults, st, sid, email, now, rolls);
    FlowEffect(client, faults, st, sid, email, now, rolls);
    FlowHealthy(client, faults, st1, sid, email2, now2, rolls2);
    FlowEffect(client, faults, st1, sid, email2, now2, rolls2);
    var o2 := Flow(client, faults, st1, sid, email2, now2, rolls2).0;
    if o1.Fresh? {
      assert st1.data[SessionKey(sid)] == Text(o1.code);
      CodeOfIsAccessCode(RollsOf(o1.code));
      assert |o1.code| == 14;
      assert Truthy(ReadValue(st1.data, SessionKey(sid)));
      assert o2 == Existing(JStr(o1.code));
    } else if o1.Existing? {
      assert ReadValue(st1.data, SessionKey(sid)) == o1.held;
      assert o2 == Existing(o1.held);
      if Healthy(faults, st) {
        FlowHealthy(client, faults, st, sid, email, now, rolls);
      }
    }
  }

  /**
    The second write failing after the first succeeded: the response is a
    failure, `code:<code>` holds the new record, and the session index is
    as it was, so the code exists without its session.
  */
  lemma SecondWriteFails(client: Client, st: State, sid: Json, email: Json, now: string, rolls: seq<Roll>, f: Fault)
    requires |rolls| == 7
    requires !Truthy(ReadValue(st.data, SessionKey(sid)))
    requires !Truthy(ReadValue(st.data, CodeKey(CodeOf(rolls[0]))))
    ensures var c := CodeOf(rolls[0]);
      var (o, st') := Flow(client, map[|st.trace| + 3 := f], st, sid, email, now, rolls);
      && o.Threw?
      && st'.data == st.data[CodeKey(c) := CodeRecord(c, sid, email, now)]
      && ReadValue(st'.data, SessionKey(sid)) == ReadValue(st.data, SessionKey(sid))
  {
    var c := CodeOf(rolls[0]);
    var faults := map[|st.trace| + 3 := f];
    var cands := Candidates(rolls);
    assert cands[0] == c;
    assert Pending(faults, st).None?;
    var (r, st1) := GetOp(faults, st, SessionKey(sid));
    assert r == Ok(Lookup(st.data, SessionKey(sid))) && st1.data == st.data && |st1.trace| == |st.trace| + 1;
    assert ReadAs(client, r) == Ok(ReadValue(st.data, SessionKey(sid)));
    assert Pending(faults, st1).None?;
    var (r2, st2) := GetOp(faults, st1, CodeKey(c));
    assert r2 == Ok(Lookup(st.data, CodeKey(c))) && st2.data == st.data && |st2.trace| == |st.trace| + 2;
    assert ReadAs(client, r2) == Ok(ReadValue(st.data, CodeKey(c)));
    assert Probe(client, faults, st1, cands, 0) == (Ok(0), st2);
    assert Flow(client, faults, st, sid, email, now, rolls) == Write(client, faults, st2, c, sid, email, now);
    assert Pending(faults, st2).None?;
    var (w1, st3) := SetOp(faults, st2, CodeKey(c), CodeRecord(c, sid, email, now));
    assert w1 == Ok(()) && st3.data == st.data[CodeKey(c) := CodeRecord(c, sid, email, now)] && |st3.trace| == |st.trace| + 3;
    assert Pending(faults, st3) == Some(f);
    KeysDiffer(c, sid);
  }

  /**
    After six straight collisions the seventh candidate is written without
    a probe, replacing whatever record `code:<candidate>` held.
  */
  lemma SeventhUnprobed(client: Client, faults: map<nat, Fault>, st: State, sid: Json, email: Json, now: string, rolls: seq<Roll>)
    requires |rolls| == 7 && Healthy(faults, st)
    requires !Truthy(ReadValue(st.data, SessionKey(sid)))
    requires forall j :: 0 <= j < 6 ==> Truthy(ReadValue(st.data, CodeKey(CodeOf(rolls[j]))))
    ensures var c := CodeOf(rolls[6]);
      var (o, st') := Flow(client, faults, st, sid, email, now, rolls);
      o == Fresh(c) && st'.data[CodeKey(c)] == CodeRecord(c, sid, email, now)
  {
    var c := CodeOf(rolls[6]);
    FlowHealthy(client, faults, st, sid, email, now, rolls);
    FlowEffect(client, faults, st, sid, email, now, rolls);
    var o := Flow(client, faults, st, sid, email, now, rolls).0;
    var k :| 0 <= k <= 6 && o.code == Candidates(rolls)[k]
               && (forall j :: 0 <= j < k ==> Truthy(ReadValue(st.data, CodeKey(Candidates(rolls)[j]))))
               && (k < 6 ==> !Truthy(ReadValue(st.data, CodeKey(o.code))));
    KeysDiffer(c, sid);
  }

  /**
    An error reply to the session lookup: the REST client reads it as "no
    code yet" and issues a new code over an existing session index, where
    the SDK client fails.
  */
  lemma LookupErrorReplies(st: State, sid: Json, email: Json, now: string, rolls: seq<Roll>, status: nat, text: string)
    requires |rolls| == 7
    ensures var faults := map[|st.trace| := HttpError(status, text)];
      var c := Flow(RestFetch, faults, st, sid, email, now, rolls);
      && c.0.Fresh? && c.1.data[SessionKey(sid)] == Text(c.0.code)
      && Flow(UpstashSdk, faults, st, sid, email, now, rolls) == (Threw(text), GetOp(faults, st, SessionKey(sid)).1)
  {
    var faults := map[|st.trace| := HttpError(status, text)];
    var st1 := GetOp(faults, st, SessionKey(sid)).1;
    assert Healthy(faults, st1);
    FlowEffect(RestFetch, faults, st, sid, email, now, rolls);
    ProbeHealthy(RestFetch, faults, st1, Candidates(rolls), 0);
    var (p, st2) := Probe(RestFetch, faults, st1, Candidates(rolls), 0);
    var code := Candidates(rolls)[p.value];
    HealthySet(faults, st2, CodeKey(code), CodeRecord(code, sid, email, now));
    HealthySet(faults, SetOp(faults, st2, CodeKey(code), CodeRecord(code, sid, email, now)).1, SessionKey(sid), Text(code));
  }
}
