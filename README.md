# createServiceRequest handler, modelled in Dafny

The modelled system is one AWS Lambda handler, `exports.handler` in
`backend/createServiceRequest/index.js`. It accepts an HTTP-shaped event for a new
cleaning-service request and checks, in order, that the body is present, that it
parses as JSON, and that `customerName`, `serviceType` and `location` are truthy.
It then builds one `ServiceRequest` record (fresh id, status `Pending`, one
timestamp for both `createdAt` and `updatedAt`), puts it into a DynamoDB table
(`TABLE_NAME` or `AyaCleaningServiceRequests`), and answers 201 or 500 depending on
the put. Every early exit answers 400. The handler has five responses, and one more
way to end: a body that parses to `null` makes the property read on line 43 throw
outside any `try`, so the handler's promise rejects.

The code is straight-line and pure apart from the one put, so the model is made of
functions and lemmas:

- `wrappers.dfy`, module `Wrappers`: `Option` and `Result`.
- `json.dfy`, module `Json`: parsed JSON values, JavaScript truthiness of a value
  and of an optional string, and reading a named property (which throws on `null`).
- `create_service_request.dfy`, module `CreateServiceRequest`: the record, the put
  request, the structured response, and the handler in two phases. `Prepare`
  returns an early response, a put request or an uncaught exception. `Finish` maps
  the put's outcome to a response. `Handle` composes them and returns the outcome
  and the list of puts it issued.
- `create_service_request_properties.dfy`, module `CreateServiceRequestProperties`:
  one lemma per branch, the handler's decision table as an independent reference,
  and the proof that each of the six terminal outcomes is reachable.

The collaborators become inputs: the event body (`Option<string>`), the outcome of
`JSON.parse` on that body (`Failed(detail)` or `Parsed(value)`), the generated id
and timestamp (strings), the `TABLE_NAME` setting (`Option<string>`) and the put's
outcome (`StoreOk` or `StoreErr(message)`). Response bodies are records (message,
optional requestId, optional status, optional error) instead of JSON text. `None`
stands for a key that `JSON.stringify` leaves out.

Some behaviour of the code is easy to miss, and the model keeps it as written:

- The handler does not catch every exception. A body of `null` makes the property
  read on line 43 throw outside any `try`, so the handler's promise rejects instead
  of answering (`Handle` returns `Rejected(NullPropertyRead("customerName"))`).
- The three fields may be any truthy JSON value, such as `5`, `true`, `[]` or `{}`,
  not only non-empty strings; each is stored as parsed. So the record's three
  fields are JSON values.
- A parsed number, string, boolean or array has none of the fields. It is answered
  400 like an object that lacks them.
- If the put's error has no `message`, the 500 body has no `error` key.

## Model

| member | source | states |
|---|---|---|
| Json.ReadProperty | backend/createServiceRequest/index.js:43 | reading a field throws exactly when the parsed value is `null`; it finds a value exactly when the value is an object with that key, and then it is that member |
| Json.FalsyValues | backend/createServiceRequest/index.js:43 | the falsy parsed values are exactly `null`, `false`, `0` and `""` |
| CreateServiceRequest.AnyFieldFalsy | backend/createServiceRequest/index.js:43 | the left-to-right short-circuit check throws exactly when the value is `null`, naming the first field read; otherwise it says true exactly when some listed field is missing or falsy |
| CreateServiceRequest.NoFalsyFieldIffComplete | backend/createServiceRequest/index.js:43 | the check over the field list finds nothing falsy exactly when all of `customerName`, `serviceType` and `location` are present and truthy |
| CreateServiceRequest.TableNameFor | backend/createServiceRequest/index.js:58 | the table is the `TABLE_NAME` setting when that is truthy, otherwise (absent or `""`) `AyaCleaningServiceRequests`; it is never empty |
| CreateServiceRequest.NewItem | backend/createServiceRequest/index.js:54-68 | the record has the supplied id, the three fields as parsed (each truthy), status `Pending`, and `createdAt == updatedAt ==` the timestamp |
| CreateServiceRequest.Prepare | backend/createServiceRequest/index.js:16-69 | body, then parse, then fields: each failed check gives its fixed 400 response, `null` gives the TypeError, and a put request (with its table and record) is produced exactly when all three checks pass |
| CreateServiceRequest.Finish | backend/createServiceRequest/index.js:71-95 | a successful put gives 201 with the success message, the record's id and `Pending`; a failed put gives 500 with the failure message and the store's error message; both carry the two fixed headers |
| CreateServiceRequest.Handle | backend/createServiceRequest/index.js:12-97 | at most one put is issued, and one is issued exactly when every check passes; the handler rejects exactly for a `null` body; every response carries exactly the two headers; it is 400 exactly when no put was issued |
| CreateServiceRequestProperties.MissingBodyAnswered | backend/createServiceRequest/index.js:16-24 | an absent or empty body gives 400 "Request body is missing." and no put, whatever the other inputs |
| CreateServiceRequestProperties.InvalidJsonAnswered | backend/createServiceRequest/index.js:28-39 | an unparsable body gives 400 "Invalid JSON in request body." and no put, and the parser's detail does not affect the invocation |
| CreateServiceRequestProperties.FalsyFieldAnswered | backend/createServiceRequest/index.js:43-51 | any one required field missing or falsy gives 400 with the single fixed message and no put |
| CreateServiceRequestProperties.MissingFieldsAnswerUniform | backend/createServiceRequest/index.js:43-51 | two non-null bodies that each lack a field get identical invocations, so the answer does not reveal which field failed |
| CreateServiceRequestProperties.NullBodyRejects | backend/createServiceRequest/index.js:27-52 | a body that parses to `null` rejects with the TypeError on reading `customerName`; it gets no 400 and no put |
| CreateServiceRequestProperties.NonObjectBodyAnswered | backend/createServiceRequest/index.js:43-51 | a parsed number, string, boolean or array gives the missing-fields 400 |
| CreateServiceRequestProperties.EarlyOutcomesIgnoreLaterInputs | backend/createServiceRequest/index.js:16-55 | when any check fails, the id, timestamp, table setting and put outcome do not affect the invocation |
| CreateServiceRequestProperties.StoredRecord | backend/createServiceRequest/index.js:54-72 | a valid request issues exactly one put: the resolved table name and the record built from the id, the three parsed fields, `Pending` and the one timestamp |
| CreateServiceRequestProperties.ExtraFieldsIgnored | backend/createServiceRequest/index.js:57-69 | body fields other than the three required ones change neither the answer nor the record |
| CreateServiceRequestProperties.StoreOutcomeAnswered | backend/createServiceRequest/index.js:71-95 | for a valid request, a successful put gives 201 with the stored record's id and status; a failed put gives 500 with the store's message |
| CreateServiceRequestProperties.HandleFollowsDecisionTable | backend/createServiceRequest/index.js:12-97 | every invocation ends in exactly the outcome the decision table selects, with exactly the response the handler's code fixes for it |
| CreateServiceRequestProperties.EveryRowSelectable | backend/createServiceRequest/index.js:12-97 | for each of the six rows of the decision table it returns inputs that select it |
| CreateServiceRequestProperties.EveryTerminalReachable | backend/createServiceRequest/index.js:12-97 | each of the six terminal outcomes is reached by some invocation of the handler |

## Left out

- The DynamoDB client and `docClient.send(new PutCommand(...))` (lines 3-4, 8-9, 72) are network I/O through an SDK. The model only records the put request and takes its outcome as an input.
- `uuidv4()` and `new Date().toISOString()` (lines 5, 54-55) are foreign and nondeterministic. They are parameters. Nothing is claimed about the uniqueness of ids or the format of timestamps.
- `JSON.parse` and `JSON.stringify` (lines 13, 23, 29, 38, 50, 80, 94) are abstracted. The parse is an input outcome, and bodies are structured records. The JSON text syntax and duplicate keys in a body are not modelled.
- `console.log` and `console.error` (lines 13, 31, 73, 87) are logging side effects outside the functional contract.
- Concurrent invocations and the process-wide client singleton belong to the hosting runtime.
- JSON numbers are exact reals. IEEE double rounding is not modelled. Only the truthiness of the numbers matters here, and `0` is the only falsy number `JSON.parse` can produce.
- Json.ReadProperty: models a read of a key that is not a built-in property of strings, arrays or `Object.prototype`. This holds for the three keys the handler reads.
- CreateServiceRequest.Finish: assumes the put fails with an `Error`-like object, whose `message` may be absent. A rejection with `null` or `undefined`, which would make `error.message` throw inside the `catch`, is not modelled.
- Event fields other than `body`, such as `isBase64Encoded` and headers, are ignored by the handler and are not modelled.
