# BrandStudio access codes, in Dafny

This project models the server side of BrandStudio's paid access. A
customer pays through a Stripe Checkout session. They then exchange the
session for an access code of the form `BS-XXXXX-XXXXX`, which other
endpoints accept or refuse. All state lives in a Redis key-value store
reached over Upstash's REST interface:

- `session:<session id>` holds the code issued for a session;
- `code:<CODE>` holds the record of an issued code;
- `active_session:<CODE>` holds a session lock, which only its owner can release;
- `zone_inputs:<CODE>:<path>` holds the form inputs a customer saved.

The model covers these endpoints:

- the two code-issuance endpoints (`issue-access-code.js` and `api/issue-access-code.js`);
- the two code-validation endpoints (`api/validate-code.js` and `validate-code.js`);
- the lock release (`api/release-code-session.js`);
- the zone-input load and save (`api/zone-inputs.js`);
- the writing-help endpoint's text cleaning and suggestion filtering (`api/ai-writing-help.js`);
- the checkout endpoint's configuration checks and its payment/subscription mode fallback (`create-checkout-session.js`).

How the model is built:

- **Store.** The store is a class, `KeyValue.Store`. It holds the data (`map<string, Val>`) and a log of the GET, SET and DEL commands sent to it. The command faults are fixed in advance by position in the log. A fault is a transport failure or an HTTP error reply.
- **Handlers.** Every handler is written twice:
  - a specification function, `Handler`, mapping the request, the environment and the store state to the response and the new state;
  - an imperative `Handle` method against the store, proved to produce exactly that. Loops stay loops (`randomCode`, the collision loop, `cleanZoneData`, `uniqueSuggestions`, the context loop, `firstNonEmpty`). Each loop is proved equal to a recursive function, and each such function is proved equal to an independent reference definition.
- **Inputs.** Stripe and OpenAI answers, the clock, the `Origin` header and `Math.random` are parameters:
  - a roll is the ten draws below 32 that one `randomCode` call makes;
  - an issuance takes seven rolls, one per candidate the loop can generate.
- **Shared flow.** The issuance flow shared by both issue endpoints lives in `Issuance`. It takes the store client as a parameter, because the two files differ in how a failed store reply reaches the handler.

## Model

| member | source | states |
|---|---|---|
| Config.FirstNonEmptyBlank | create-checkout-session.js:3-8 | `firstNonEmpty` answers "" exactly when every value is missing or whitespace |
| Config.FirstNonEmptyPicksFirst | create-checkout-session.js:3-8 | otherwise it answers the trimmed first value that is not blank |
| Config.ScanFirstNonEmpty | api/release-code-session.js:1-7 | the loop with its early return computes `firstNonEmpty` |
| Config.RedisConfigOf | api/validate-code.js:8-13 | a configuration is found only with a non-empty URL that has no trailing slash and a non-empty token |
| Config.GetRedisConfig | api/zone-inputs.js:9-14 | the method reads the same configuration as `RedisConfigOf` |
| Text.Trim | create-checkout-session.js:5 | `trim()` leaves no whitespace at either end, never lengthens, and gives "" exactly for all-whitespace text |
| Text.CollapseSpacing | api/ai-writing-help.js:10 | after `replace(/\s+/g, " ")` no two whitespace characters are adjacent and every whitespace is a plain space |
| Text.CollapseKeepsText | api/ai-writing-help.js:10 | `replace(/\s+/g, " ")` keeps every non-whitespace character, in order: removing whitespace from the result and from the input gives the same text |
| Text.CollapseRun | api/ai-writing-help.js:10 | a whitespace run between two non-whitespace characters (or an end of the text) becomes exactly one plain space, and each side is collapsed on its own |
| Text.CollapseAppend | api/ai-writing-help.js:10 | no run crosses the end of a text that ends in a non-space, so the two parts collapse independently |
| Text.TrimKeepsText | api/ai-writing-help.js:10 | `trim()` removes whitespace only |
| Text.StripTrailingSlashes | create-checkout-session.js:79 | the result is a prefix without a final `/`, and only slashes were removed |
| AccessCode.AlphabetFacts | issue-access-code.js:41 | the alphabet has 32 distinct symbols: upper-case letters and digits, never I, O, 0, 1 or a dash |
| AccessCode.RandomCode | issue-access-code.js:40-48 | the loop builds `BS-`, five symbols, `-`, five symbols: 14 characters, each drawn symbol from the alphabet |
| AccessCode.CodeOfIsAccessCode | api/issue-access-code.js:11-19 | every code the generator returns has the access-code shape |
| AccessCode.RollsOfRoundTrip | issue-access-code.js:40-48 | every string of that shape is the code of some draws |
| AccessCode.CodeOfRoundTrip | issue-access-code.js:40-48 | the draws can be read back from the code |
| AccessCode.CodeOfInjective | issue-access-code.js:40-48 | different draws give different codes |
| AccessCode.NormalizeIssuedCode | api/validate-code.js:50 | an issued code typed in any letter case, with whitespace around it, normalises back to the code |
| AccessCode.NormalizeIdempotent | validate-code.js:31 | normalising an already normalised code changes nothing |
| KeyValue.Store.Get | api/release-code-session.js:42-44 | a GET answers what the key holds or the fault of that command, and changes only the log |
| KeyValue.Store.Set | api/zone-inputs.js:53-56 | a SET stores the value unless the command fails, and logs it |
| KeyValue.Store.Del | api/release-code-session.js:46-48 | a DEL removes the key unless the command fails, and logs it |
| KeyValue.HealthyGet | api/zone-inputs.js:33-47 | with no fault ahead, a GET answers what the key holds and the store stays healthy |
| KeyValue.HealthySet | api/zone-inputs.js:33-47 | with no fault ahead, a SET lands and the store stays healthy |
| Issuance.ProbeLoop | issue-access-code.js:124-129 | the collision loop, with its reassigned `code`, does what `Probe` specifies |
| Issuance.ProbeFacts | issue-access-code.js:124-129 | the loop writes nothing, probes the candidates in order, at most six, and settles on one of the seven candidates |
| Issuance.ProbeHealthy | issue-access-code.js:124-129 | on a healthy store it settles on the first candidate whose record reads falsy, else on the seventh |
| Issuance.WriteBoth | issue-access-code.js:138-139 | the two sequential writes do what `Write` specifies |
| Issuance.WriteFacts | issue-access-code.js:138-139 | both writes land (record, then index), or only the first does, or none; nothing is rolled back |
| Issuance.Issue | issue-access-code.js:116-139 | lookup, loop and writes together do what `Flow` specifies |
| Issuance.FlowEffect | issue-access-code.js:116-139 | an `existing` answer is the truthy value of `session:<id>` and writes nothing; a fresh code is a candidate of access-code shape and exactly its record and the index change; a failure writes at most one record |
| Issuance.FlowKeys | issue-access-code.js:131-139 | no key other than `session:<id>` and keys under `code:` ever changes |
| Issuance.FlowFreshTrace | api/issue-access-code.js:91-92 | a fresh issuance ends with SET `code:<code>` and then SET `session:<id>` |
| Issuance.FlowTrace | issue-access-code.js:116-129 | the session lookup comes first, and at most nine commands are sent |
| Issuance.FlowHealthy | issue-access-code.js:116-129 | on a healthy store the flow never fails, and answers `existing` exactly when the index holds a truthy value |
| Issuance.FlowTwice | issue-access-code.js:116-122 | a second run for the same session returns the first run's code as `existing` and writes nothing |
| Issuance.SecondWriteFails | issue-access-code.js:138-139 | when the second write fails, the code record exists without its session index |
| Issuance.SeventhUnprobed | issue-access-code.js:124-129 | after six collisions the seventh candidate is written without a probe, over whatever its key held |
| Issuance.LookupErrorReplies | issue-access-code.js:15-29 | an error reply to the session lookup reads as "no code" for the fetch client, which issues a new code, while the SDK client fails |
| IssueAccessCode.Handle | issue-access-code.js:65-149 | the handler method computes the specified response, store and Stripe use |
| IssueAccessCode.RefusalsTouchNothing | issue-access-code.js:66-114 | 405, 500 and 400 refusals ask neither Stripe nor the store; an unpaid session answers 402; a Stripe failure answers 500 with details; neither touches the store |
| IssueAccessCode.IssuedRecord | issue-access-code.js:131-143 | only `session:<id>` and `code:` keys change; a fresh 200 carries an access code whose record and index are exactly what changed |
| IssueAccessCode.IssueTwice | issue-access-code.js:116-122 | two successful requests for one paid session return the same code, the second with `existing: true` and no write |
| ApiIssueAccessCode.Handle | api/issue-access-code.js:21-102 | the handler method computes the specified response, store and Stripe use |
| ApiIssueAccessCode.NoDetails | api/issue-access-code.js:97-101 | no response has a `details` field, and every failure after the checks is the fixed 500 |
| ApiIssueAccessCode.RefusalsTouchNothing | api/issue-access-code.js:22-67 | the refusals touch nothing, a missing `session_id` answers 400, and the store changes only for a session that is `paid` |
| ApiIssueAccessCode.IssuedRecord | api/issue-access-code.js:84-96 | only `session:<id>` and `code:` keys change; a fresh 200 wrote exactly `code:<code>` and then `session:<id>` |
| ApiValidateCode.Handle | api/validate-code.js:25-68 | the handler method computes the specified response and store |
| ApiValidateCode.ReadOnly | api/validate-code.js:26-59 | the data never changes; the only command is one GET of `code:` plus the normalised input; an empty code answers 400 without it |
| ApiValidateCode.CheckIff | api/validate-code.js:58-67 | `valid` is true iff the key holds a truthy raw value; a failed GET answers 500 with `valid: false` and details |
| ApiValidateCode.ValidIff | api/validate-code.js:50-67 | the same, for the whole handler |
| ValidateCode.Handle | validate-code.js:10-49 | the handler method computes the specified response and store |
| ValidateCode.ReadOnly | validate-code.js:18-40 | the data never changes; missing configuration answers 500 and an empty code 400, both before any command |
| ValidateCode.ValidIff | validate-code.js:39-48 | `valid` is the truthiness of the parsed stored value; a failure answers 500 with no details |
| ReleaseCodeSession.Release | api/release-code-session.js:84-102 | the data keeps its value or loses exactly the lock, and only when the stored lock names the caller |
| ReleaseCodeSession.Refusal | api/release-code-session.js:51-82 | a request goes on to the store iff it is a POST, the store is configured, and the code and client id are non-empty |
| ReleaseCodeSession.Handle | api/release-code-session.js:50-103 | the handler method computes the specified response and store |
| ReleaseCodeSession.ReleaseIff | api/release-code-session.js:85-97 | on a healthy store the lock is deleted, with `released: true`, iff its parsed `client_id` equals the caller's; otherwise nothing changes |
| ReleaseCodeSession.UnparseableNeverOwned | api/release-code-session.js:16-24 | a lock that is not JSON is never released |
| ReleaseCodeSession.ReleaseTwice | api/release-code-session.js:86-97 | the owner releasing twice gets `released: true`, then `released: false` |
| ReleaseCodeSession.ReleaseFailure | api/release-code-session.js:98-102 | a store failure answers 500 "release impossible" with the failure as details and leaves the data as it was; every 500 of the `try` is such a failure answer |
| ReleaseCodeSession.HandlerRefusals | api/release-code-session.js:51-82 | a non-POST answers 405, and an empty code or client id answers 400; neither touches the store |
| ReleaseCodeSession.HandlerEffects | api/release-code-session.js:85-89 | the only key that can go is `active_session:` plus the normalised code |
| ZoneInputs.ToSafePath | api/zone-inputs.js:26-31 | the path is the trimmed input when it has 1 to 260 characters, else "" |
| ZoneInputs.ObjectKeys | api/zone-inputs.js:61 | `Object.keys` lists each field name once |
| ZoneInputs.Put | api/zone-inputs.js:67 | `out[k] = v` replaces an existing key's value in place or appends a new key, and does nothing for `__proto__`, whose inherited setter ignores a string |
| ZoneInputs.CleanZoneData | api/zone-inputs.js:58-71 | the loop with its `continue` and `break` computes `Clean` |
| ZoneInputs.KeptFacts | api/zone-inputs.js:62-67 | kept keys have 1 to 80 characters, are not `__proto__`, and come from the input; each value is the capped text of that key's input value |
| ZoneInputs.CleanFacts | api/zone-inputs.js:58-71 | the output is the first 800 kept entries in input order (a `__proto__` entry neither kept nor counted), with distinct keys and values of at most 6000 characters; it is `{}` for anything but an object or array |
| ZoneInputs.ProtoKeyIgnored | api/zone-inputs.js:60-68 | an object whose only field is `__proto__` cleans to `{}` |
| ZoneInputs.Refusal | api/zone-inputs.js:74-106 | a request reaches the store iff it is a POST, the store is configured, and action, code and path are all non-empty |
| ZoneInputs.Dispatch | api/zone-inputs.js:108-143 | the data changes at most at the zone key, to the saved record, and the first command is the GET of `code:<CODE>` |
| ZoneInputs.Handle | api/zone-inputs.js:73-149 | the handler method computes the specified response and store |
| ZoneInputs.MissingFields | api/zone-inputs.js:98-106 | a missing action, code or path answers 400 with the store untouched |
| ZoneInputs.HandlerCodeFirst | api/zone-inputs.js:108-115 | the handler sends no command, or the GET of `code:<CODE>` first |
| ZoneInputs.HandlerEffects | api/zone-inputs.js:117-139 | the only key that can change is `zone_inputs:<CODE>:<path>`, and only to the cleaned payload |
| ZoneInputs.UnknownCode | api/zone-inputs.js:109-115 | an unknown code answers 403 after one GET, and the zone key is never read or written |
| ZoneInputs.SaveWrites | api/zone-inputs.js:129-143 | a save writes `{updated_at, data: cleanZoneData(data)}` at the zone key; an unknown action answers 400 with no write |
| ZoneInputs.LoadReads | api/zone-inputs.js:119-127 | a load answers `cleanZoneData` of the parsed zone value |
| ZoneInputs.CleanSavedRecord | api/zone-inputs.js:121-122 | cleaning a saved record keeps `updated_at` and turns `data` into "[object Object]" |
| ZoneInputs.SaveThenLoad | api/zone-inputs.js:119-134 | save then load answers `{updated_at, data: "[object Object]"}` rather than the saved data, so it is not a round trip |
| ZoneInputs.LoadUnparseable | api/zone-inputs.js:16-24 | a stored zone value that is not JSON loads as `{}` |
| WritingHelp.SanitizeText | api/ai-writing-help.js:9-14 | the result is the prefix of the collapsed, trimmed text of length `maxLen`, or all of it when it is shorter |
| WritingHelp.SqueezedKeepsText | api/ai-writing-help.js:10 | collapsing and trimming keep every non-whitespace character of the input, in order |
| WritingHelp.SanitizeBlank | api/ai-writing-help.js:10-11 | the result is "" exactly for blank input, and is the whole cleaned text when that fits |
| WritingHelp.SanitizeSpacing | api/ai-writing-help.js:10 | the result starts with a non-space, and every whitespace in it is a single plain space |
| WritingHelp.ScanSuggestions | api/ai-writing-help.js:16-29 | the loop computes the intended `uniqueSuggestions` |
| WritingHelp.UniqueSuggestionsFacts | api/ai-writing-help.js:16-29 | at most three suggestions, in input order, each non-empty and at most 280 characters, no two equal once lower-cased |
| WritingHelp.AsWrittenAgrees | api/ai-writing-help.js:18-23 | unless a text lower-cases to an inherited property name, the loop as written agrees with the intended one |
| WritingHelp.InheritedKeyDropped | api/ai-writing-help.js:18-23 | a lone text lower-casing to an inherited property name is dropped as written and kept as intended |
| WritingHelp.ConstructorDropped | api/ai-writing-help.js:18-23 | the suggestion "constructor" is dropped as written |
| WritingHelp.ScanContext | api/ai-writing-help.js:62-68 | the context loop computes `CleanContext` |
| WritingHelp.CleanContextFacts | api/ai-writing-help.js:62-68 | at most eight non-empty entries of at most 220 characters, in input order |
| WritingHelp.Handle | api/ai-writing-help.js:31-156 | the handler method computes the specified response and whether the service is called, with the corrected suggestion filter |
| WritingHelp.PromptGate | api/ai-writing-help.js:58-75 | a blank prompt answers 400 with no call; the service is called iff the method, key and prompt checks pass |
| WritingHelp.SuccessBody | api/ai-writing-help.js:140-150 | a 200 carries one to three distinct, non-empty suggestions of at most 280 characters from the service's answer |
| CheckoutSession.MismatchIff | create-checkout-session.js:10-22 | the check holds iff the lower-cased `message + " " + raw.message` contains one of the six markers |
| CheckoutSession.PaymentModeCovered | create-checkout-session.js:18-20 | "payment mode" never decides: any text with it also contains "mode" |
| CheckoutSession.PreferredMode | create-checkout-session.js:93-102 | the preferred mode is always payment or subscription: the configured one, else subscription exactly for a recurring price |
| CheckoutSession.FallbackMode | create-checkout-session.js:104 | the fallback is the other mode |
| CheckoutSession.CheckSetup | create-checkout-session.js:45-88 | the checks run in the source's order and give the specified refusal |
| CheckoutSession.ChooseMode | create-checkout-session.js:93-102 | the steps give the preferred mode, and the price is looked up only without a valid configured mode |
| CheckoutSession.CreateSession | create-checkout-session.js:104-143 | the create-and-retry steps give the specified outcome |
| CheckoutSession.Handle | create-checkout-session.js:24-157 | the handler method computes the specified outcome |
| CheckoutSession.RefusalsCallNothing | create-checkout-session.js:45-88 | a bad key or price answers 500 "Stripe non configure", a bad base URL 500 "Base URL invalide"; a create call happens iff every check passes |
| CheckoutSession.CreateCalls | create-checkout-session.js:109-133 | at most two create calls, the first in the preferred mode; the second, in the other mode, only after a mismatch-like failure; any other failure answers its error |
| CheckoutSession.RetriedIff | create-checkout-session.js:135-143 | a 200 carries the last mode tried, and `retried` is true exactly when the first call failed |
| CheckoutSession.LookupOnlyUnconfigured | create-checkout-session.js:93-102 | the price is looked up only without a valid configured mode, and a configured mode is tried first |
| Lifecycle.StoredCodeValidates | api/validate-code.js:50-62 | once `code:<c>` holds a record, `c` typed in any case with surrounding whitespace validates on both endpoints |
| Lifecycle.IssuedCodeValidates | issue-access-code.js:138-139 | after a fresh issuance, the issued code validates on both endpoints while the store stays healthy |
| Lifecycle.ApiAccepts | api/validate-code.js:58-62 | a typed text normalising to a stored code validates on the REST endpoint |
| Lifecycle.SdkAccepts | validate-code.js:39-43 | a typed text normalising to a code with a truthy record validates on the SDK endpoint |
| Lifecycle.PaidStricterUnderApi | api/issue-access-code.js:62 | every session `api/issue-access-code.js` accepts as paid, `issue-access-code.js` accepts too |
| Lifecycle.CompleteButUnpaid | issue-access-code.js:108 | a complete but unpaid session is paid for the root endpoint and not for the `api/` one |

## Left out

- HTTP transport is left out: `fetch`, URL encoding of the REST paths, bearer headers and `res.setHeader`/`res.end`. A response is a status and a JSON body.
- The Stripe SDK, Stripe's REST API and the OpenAI call are foreign code. Their answers are parameters: the retrieved session or its error message; the price lookup result, recurring or not; and the results of the two create calls.
- `JSON.parse` of stored text is modelled by the value kinds `Stored` (text that parses) and `Text` (text that does not). In the writing-help endpoint it is a function parameter. `JSON.stringify` is not modelled.
- `Math.random` is replaced by caller-supplied draws below 32, and `new Date().toISOString()` by a timestamp string.
- Concurrency is left out. Every request runs alone, so the read-then-write of the issuance flow is not claimed atomic across requests.
- Acquiring or refreshing the `active_session:*` lock is left out, because no file in this model writes it; its contents are arbitrary.
- `health.js` and `api/health.js` are not part of this model. They only check environment variables and ping Stripe.
- JSON numbers are integers; floating point is left out.
- `Text.Upper` and `Text.Lower` change ASCII letters only. Unicode case mapping of non-ASCII letters is left out.
- `Object.keys` is modelled in insertion order. JavaScript lists integer-like keys of an object first; that reordering is left out.
- The writing-help prompt text, the model name and the request sent to the service are left out (api/ai-writing-help.js:47, 77-107). Only whether the service is called, and what its reply gives, are modelled.
- How the `@upstash/redis` SDK serialises values is left out. Its `get` parses JSON text as the `fetch` readers do.
- A failed store command is assumed to change no data.
- A store error reply whose body is not JSON, which would make `resp.json()` throw in `issue-access-code.js`, is left out. An error reply there reads as no value.
- `session.url` missing from a created checkout session is left out: a created session always has a URL.
- Building the Stripe client (`new Stripe(secretKey)`) is left out; it is assumed not to throw.
- `console.error` in the checkout handler is left out.
- ZoneInputs.ToSafePath: lengths are counted in Unicode scalar values, while JavaScript's `length` counts UTF-16 code units. A character outside the Basic Multilingual Plane counts once here and twice in the source, so the 260 limit can accept a path the source refuses.
- ZoneInputs.CleanZoneData: the 80-character key limit and the 6000-character cut are counted in scalar values, not UTF-16 code units. The source's cut can split a surrogate pair, which the model's strings cannot hold.
- WritingHelp.SanitizeText: the `maxLen` bounds (320, 900, 120, 40, 220 and 280) are counted in scalar values, not UTF-16 code units, and a cut never splits a surrogate pair.
- WritingHelp.AsList: a string is walked by scalar value, not by UTF-16 code unit. An object is walked only when its `length` is a JSON number; a `length` that JavaScript coerces to a number (a numeric string, `true`) gives no items here.
- WritingHelp.Handle: builds its answer with the corrected `UniqueSuggestions` (see Findings). Whenever a suggestion lower-cases to `constructor` or `__proto__`, the source skips it, and answers 502 "Aucune suggestion exploitable" if nothing else is left, while this handler keeps it. So `["constructor", "a"]` gives `["a"]` in the source and `["constructor", "a"]` here. `WritingHelp.AsWrittenAgrees` proves the two filters agree when no suggestion lower-cases to either name.
- WritingHelp.Handle: a text body `null` parses to `null`, and `body.prompt` (api/ai-writing-help.js:58) then throws outside any `try`, so the source sends no answer of its own. The model reads such a body as an empty object and answers 400 "prompt manquant".
- IssueAccessCode.Handle: a text body `null` makes `body.session_id` (issue-access-code.js:98) throw outside any `try`. The model reads it as an empty object and answers 400 "session_id manquant"; `IssueAccessCode.RefusalsTouchNothing` states that 400 for this input too.
- ApiIssueAccessCode.Handle: a text body `null` makes `body.session_id` (api/issue-access-code.js:50) throw outside any `try`. The model reads it as an empty object and answers 400; `ApiIssueAccessCode.RefusalsTouchNothing` states that 400 for this input too.
- ApiValidateCode.Handle: a text body `null` makes `body.code` (api/validate-code.js:50) throw outside any `try`. The model reads it as an empty object and answers 400 "Code manquant"; `ApiValidateCode.ReadOnly` states that 400 for this input too.
- ValidateCode.Handle: a text body `null` makes `body.code` (validate-code.js:31) throw outside any `try`. The model reads it as an empty object and answers 400; `ValidateCode.ReadOnly` states that 400 for this input too.
- ReleaseCodeSession.Handle: a text body `null` makes `body.code` (api/release-code-session.js:75) throw outside any `try`. The model reads it as an empty object and answers 400 "code ou client_id manquant"; `ReleaseCodeSession.HandlerRefusals` states that 400 for this input too.
- ZoneInputs.Handle: a text body `null` makes `body.action` (api/zone-inputs.js:98) throw outside any `try`. The model reads it as an empty object and answers 400 "action, code ou path manquant"; `ZoneInputs.MissingFields` states that 400 for this input too.

## Findings

| source | as written | input that shows it | evidently intended | confidence | as-written member | corrected member |
|---|---|---|---|---|---|---|
| api/ai-writing-help.js:18-23 | `seen` starts as `{}`, so `seen[key]` is truthy for the inherited properties `constructor` and `__proto__`, and such a suggestion is skipped as if already seen | the service answers `{"suggestions": ["constructor"]}`: no suggestion is kept and the endpoint answers 502 "Aucune suggestion exploitable" | a suggestion is skipped only when an earlier kept suggestion has the same lower-case form | not executed | WritingHelp.ConstructorDropped | WritingHelp.UniqueSuggestionsFacts |

The model's handler uses the corrected `WritingHelp.UniqueSuggestions`. `WritingHelp.AsWrittenAgrees` proves that both versions agree whenever no suggestion lower-cases to one of those two names.
