/**
  The remote Redis store the handlers talk to over its REST interface.
  The store is a map from keys to values plus a log of the commands sent to it.
  The store may fail: `faults` says which command, by its position in the log,
  meets which fault. A failed command has no effect on the data.
  The twin `State` and the functions `GetOp`, `SetOp`, `DelOp` let the
  handlers' specifications talk about the store as a value.
*/
module KeyValue {
  import opened Wrappers
  import opened JsValues

  /** What a key holds: text that parses as JSON, or raw text that does not (such as an access code). */
  datatype Val = Stored(json: Json) | Text(raw: string)

  /** The value a reader sees after `JSON.parse`, falling back to the raw string when parsing fails. */
  function Parsed(v: Val): Json {
    match v
    case Stored(j) => j
    case Text(raw) => JStr(raw)
  }

  /** Truthiness of the unparsed text: JSON text is never empty. */
  predicate RawTruthy(v: Val) {
    v.Stored? || v.raw != ""
  }

  /** A transport failure (`fetch` throws) or a reply whose HTTP status is not ok. */
  datatype Fault = Unreachable(message: string) | HttpError(status: nat, text: string)

  /** The message `redisCommand` throws for a fault: "Redis command failed (<status>): <reply text or unknown>". */
  function CommandError(f: Fault): string {
    match f
    case Unreachable(m) => m
    case HttpError(status, text) => "Redis command failed (" + Decimal(status) + "): " + (if text == "" then "unknown" else text)
  }

  datatype Op = GET(key: string) | SET(key: string, value: Val) | DEL(key: string)

  datatype State = State(data: map<string, Val>, trace: seq<Op>)

  /** The fault the next command meets, if any. */
  function Pending(faults: map<nat, Fault>, st: State): Option<Fault> {
    if |st.trace| in faults then Some(faults[|st.trace|]) else None
  }

  /** No command from now on meets a fault. */
  predicate Healthy(faults: map<nat, Fault>, st: State) {
    forall n :: n in faults ==> n < |st.trace|
  }

  function Lookup(data: map<string, Val>, key: string): Option<Val> {
    if key in data then Some(data[key]) else None
  }

  function GetOp(faults: map<nat, Fault>, st: State, key: string): (Result<Option<Val>, Fault>, State) {
    var next := State(st.data, st.trace + [GET(key)]);
    match Pending(faults, st)
    case Some(f) => (Err(f), next)
    case None => (Ok(Lookup(st.data, key)), next)
  }

  function SetOp(faults: map<nat, Fault>, st: State, key: string, v: Val): (Result<(), Fault>, State) {
    match Pending(faults, st)
    case Some(f) => (Err(f), State(st.data, st.trace + [SET(key, v)]))
    case None => (Ok(()), State(st.data[key := v], st.trace + [SET(key, v)]))
  }

  function DelOp(faults: map<nat, Fault>, st: State, key: string): (Result<(), Fault>, State) {
    match Pending(faults, st)
    case Some(f) => (Err(f), State(st.data, st.trace + [DEL(key)]))
    case None => (Ok(()), State(st.data - {key}, st.trace + [DEL(key)]))
  }

  /** A healthy store answers a GET with what the key holds and changes nothing. */
  lemma HealthyGet(faults: map<nat, Fault>, st: State, key: string)
    requires Healthy(faults, st)
    ensures GetOp(faults, st, key).0 == Ok(Lookup(st.data, key))
    ensures GetOp(faults, st, key).1.data == st.data
    ensures Healthy(faults, GetOp(faults, st, key).1)
  {
  }

  /** A healthy store applies a SET and stays healthy. */
  lemma HealthySet(faults: map<nat, Fault>, st: State, key: string, v: Val)
    requires Healthy(faults, st)
    ensures SetOp(faults, st, key, v).0 == Ok(())
    ensures SetOp(faults, st, key, v).1.data == st.data[key := v]
    ensures Healthy(faults, SetOp(faults, st, key, v).1)
  {
  }

  class Store {
    var data: map<string, Val>
    var trace: seq<Op>
    const faults: map<nat, Fault>

    function Snapshot(): State
      reads this
    {
      State(data, trace)
    }

    constructor (data: map<string, Val>, faults: map<nat, Fault>)
      ensures this.data == data && this.faults == faults && trace == []
    {
      this.data := data;
      this.faults := faults;
      trace := [];
    }

    method Get(key: string) returns (r: Result<Option<Val>, Fault>)
      modifies this
      ensures (r, Snapshot()) == GetOp(faults, old(Snapshot()), key)
    {
      r := if |trace| in faults then Err(faults[|trace|]) else Ok(Lookup(data, key));
      trace := trace + [GET(key)];
    }

    method Set(key: string, v: Val) returns (r: Result<(), Fault>)
      modifies this
      ensures (r, Snapshot()) == SetOp(faults, old(Snapshot()), key, v)
    {
      if |trace| in faults {
        r := Err(faults[|trace|]);
      } else {
        r := Ok(());
        data := data[key := v];
      }
      trace := trace + [SET(key, v)];
    }

    method Del(key: string) returns (r: Result<(), Fault>)
      modifies this
      ensures (r, Snapshot()) == DelOp(faults, old(Snapshot()), key)
    {
      if |trace| in faults {
        r := Err(faults[|trace|]);
      } else {
        r := Ok(());
        data := data - {key};
      }
      trace := trace + [DEL(key)];
    }
  }
}
