/**
  JSON values as the handlers see them once a request body or a stored
  string has been parsed, with the JavaScript coercions the handlers apply
  to them: truthiness, property access and `String(v)`.
  Numbers are integers; `undefined` and `null` are both `JNull`.
*/
module JsValues {

  datatype Json =
    | JNull
    | JBool(b: bool)
    | JNum(n: int)
    | JStr(s: string)
    | JArr(items: seq<Json>)
    | JObj(fields: seq<(string, Json)>)

  /** JavaScript truthiness, `!!v`. */
  predicate Truthy(v: Json) {
    match v
    case JNull => false
    case JBool(b) => b
    case JNum(n) => n != 0
    case JStr(s) => s != ""
    case _ => true
  }

  /** Property access `v.name`: undefined unless `v` is an object; JSON.parse keeps the last duplicate key. */
  function Field(v: Json, name: string): Json {
    if v.JObj? then FieldIn(v.fields, name) else JNull
  }

  function FieldIn(fields: seq<(string, Json)>, name: string): Json {
    if fields == [] then JNull
    else if fields[|fields| - 1].0 == name then fields[|fields| - 1].1
    else FieldIn(fields[..|fields| - 1], name)
  }

  /** The value of a field no later field shadows. */
  lemma {:induction false} FieldAt(fields: seq<(string, Json)>, i: nat)
    requires i < |fields|
    requires forall j :: i < j < |fields| ==> fields[j].0 != fields[i].0
    ensures FieldIn(fields, fields[i].0) == fields[i].1
    decreases |fields|
  {
    if i < |fields| - 1 {
      FieldAt(fields[..|fields| - 1], i);
    }
  }

  /** A name no field carries reads as undefined. */
  lemma {:induction false} FieldAbsent(fields: seq<(string, Json)>, name: string)
    requires forall j :: 0 <= j < |fields| ==> fields[j].0 != name
    ensures FieldIn(fields, name) == JNull
    decreases |fields|
  {
    if fields != [] {
      FieldAbsent(fields[..|fields| - 1], name);
    }
  }

  /** Decimal digits of a natural number, as `String(n)` writes them. */
  function Decimal(n: nat): (r: string)
    ensures |r| >= 1
  {
    if n < 10 then [(n + '0' as int) as char]
    else Decimal(n / 10) + [(n % 10 + '0' as int) as char]
  }

  /** Different numbers print differently. */
  lemma {:induction false} DecimalInjective(n: nat, m: nat)
    ensures Decimal(n) == Decimal(m) ==> n == m
    decreases n
  {
    if Decimal(n) == Decimal(m) {
      var dn, dm := Decimal(n), Decimal(m);
      if n >= 10 && m >= 10 {
        assert dn[..|dn| - 1] == Decimal(n / 10) && dm[..|dm| - 1] == Decimal(m / 10);
        DecimalInjective(n / 10, m / 10);
      }
    }
  }

  /** `String(v)`: how JavaScript turns a value into text. */
  function JsString(v: Json): string
    decreases v, 1, 0
  {
    match v
    case JNull => "null"
    case JBool(b) => if b then "true" else "false"
    case JNum(n) => if n < 0 then "-" + Decimal(-n) else Decimal(n)
    case JStr(s) => s
    case JArr(items) => JoinItems(items, 0)
    case JObj(_) => "[object Object]"
  }

  /** `Array.prototype.join(",")` from index `i` on; null elements print as empty text. */
  function JoinItems(items: seq<Json>, i: nat): string
    decreases JArr(items), 0, |items| - i
  {
    if i >= |items| then ""
    else
      (if i > 0 then "," else "")
      + (if items[i] == JNull then "" else JsString(items[i]))
      + JoinItems(items, i + 1)
  }

  /** `String(v || "")`: the text of a truthy value, or the empty string. */
  function StrOr(v: Json): (r: string)
    ensures !Truthy(v) ==> r == ""
    ensures v.JStr? ==> r == v.s
  {
    if Truthy(v) then JsString(v) else ""
  }

  /** `(err && err.message) || "unknown"`: an error message, or "unknown" when it is empty. */
  function OrUnknown(message: string): (r: string)
    ensures r != ""
    ensures message != "" ==> r == message
  {
    if message != "" then message else "unknown"
  }
}
