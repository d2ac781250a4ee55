/** The Lambda handler that accepts a new cleaning-service request, checks it,
    builds one record and stores it, answering with an HTTP-shaped response.

    Every foreign collaborator is an input: the request body, the result of
    `JSON.parse` on it, the generated id, the current timestamp, the
    `TABLE_NAME` setting and the outcome of the single put. The handler is
    split in two phases, so that the put can only happen after `Prepare`
    has produced a `Put`. */
module CreateServiceRequest {
  import opened Wrappers
  import opened Json

  const MissingBodyMessage: string := "Request body is missing."
  const InvalidJsonMessage: string := "Invalid JSON in request body."
  const MissingFieldsMessage: string := "Missing required fields: customerName, serviceType, location."
  const CreatedMessage: string := "Service request created successfully."
  const FailedMessage: string := "Failed to create service request."
  const PendingStatus: string := "Pending"
  const DefaultTableName: string := "AyaCleaningServiceRequests"

  /** The fields the request must carry, in the order the handler tests them. */
  const RequiredFields: seq<string> := ["customerName", "serviceType", "location"]

  /** The headers every response carries: any origin may call, the body is JSON. */
  const ResponseHeaders: map<string, string> :=
    map["Access-Control-Allow-Origin" := "*", "Content-Type" := "application/json"]

  /** What `JSON.parse(event.body)` did: threw (with a detail message) or gave a value. */
  datatype ParseOutcome = Failed(detail: string) | Parsed(value: JsonValue)

  /** What the put did: succeeded, or threw an error whose `message` may be undefined. */
  datatype StoreOutcome = StoreOk | StoreErr(message: Option<string>)

  /** The stored record. The three request fields are copied as parsed, so they
      are JSON values, not necessarily strings. */
  datatype Item = Item(
    requestId: string,
    customerName: JsonValue,
    serviceType: JsonValue,
    location: JsonValue,
    status: string,
    createdAt: string,
    updatedAt: string)

  /** The parameters of the single put: the table and the record. */
  datatype PutRequest = PutRequest(tableName: string, item: Item)

  /** The response body before it is serialised; a `None` field is left out of the JSON. */
  datatype ResponseBody = ResponseBody(
    message: string,
    requestId: Option<string>,
    status: Option<string>,
    error: Option<string>)

  datatype Response = Response(statusCode: int, headers: map<string, string>, body: ResponseBody)

  /** An exception the handler does not catch: reading a property of `null`. */
  datatype RuntimeError = NullPropertyRead(property: string)

  /** The first phase: answer early, ask for exactly one put, or throw. */
  datatype Prepared = EarlyResponse(response: Response) | Put(request: PutRequest) | Crash(error: RuntimeError)

  /** How the handler's promise settles. */
  datatype Outcome = Resolved(response: Response) | Rejected(error: RuntimeError)

  /** One invocation: how it settled and the puts it issued, in order. */
  datatype Invocation = Invocation(outcome: Outcome, puts: seq<PutRequest>)

  function Respond(statusCode: int, body: ResponseBody): Response
  {
    Response(statusCode, ResponseHeaders, body)
  }

  function BadRequest(message: string): Response
  {
    Respond(400, ResponseBody(message, None, None, None))
  }

  /** `data[key]` exists and is truthy. */
  predicate FieldTruthy(data: JsonValue, key: string)
  {
    data.JObject? && key in data.members && Truthy(data.members[key])
  }

  /** The request carries every required field, each truthy. */
  predicate HasRequiredFields(data: JsonValue)
  {
    FieldTruthy(data, "customerName") && FieldTruthy(data, "serviceType") && FieldTruthy(data, "location")
  }

  /** Evaluates `!data[keys[0]] || !data[keys[1]] || ...` left to right, with
      JavaScript's short circuit: `true` if some field is falsy, or the
      TypeError thrown by the first property read when `data` is `null`. */
  function AnyFieldFalsy(data: JsonValue, keys: seq<string>): (r: Result<bool, RuntimeError>)
    ensures r.Failure? <==> data.JNull? && keys != []
    ensures r.Failure? ==> r.error == NullPropertyRead(keys[0])
    ensures r.Success? ==> (r.value <==> exists i :: 0 <= i < |keys| && !FieldTruthy(data, keys[i]))
  {
    if keys == [] then Success(false)
    else
      match ReadProperty(data, keys[0])
      case ThrowsTypeError => Failure(NullPropertyRead(keys[0]))
      case Undefined => Success(true)
      case Defined(v) =>
        if !Truthy(v) then Success(true)
        else
          var rest := AnyFieldFalsy(data, keys[1..]);
          assert forall i :: 1 <= i < |keys| ==> keys[i] == keys[1..][i - 1];
          rest
  }

  /** The short-circuit check over `RequiredFields` finds no falsy field
      exactly when the request carries every required field. */
  lemma NoFalsyFieldIffComplete(data: JsonValue)
    ensures HasRequiredFields(data) <==> !exists i :: 0 <= i < |RequiredFields| && !FieldTruthy(data, RequiredFields[i])
  {
    assert RequiredFields[0] == "customerName";
    assert RequiredFields[1] == "serviceType";
    assert RequiredFields[2] == "location";
  }

  /** `process.env.TABLE_NAME || "AyaCleaningServiceRequests"`: the setting when
      it is truthy, the default otherwise; never the empty name. */
  function TableNameFor(tableEnv: Option<string>): (name: string)
    ensures TruthyString(tableEnv) ==> name == tableEnv.value
    ensures !TruthyString(tableEnv) ==> name == DefaultTableName
    ensures name != ""
  {
    if TruthyString(tableEnv) then tableEnv.value else DefaultTableName
  }

  /** The record for a validated request: the three fields copied verbatim,
      status Pending, and both timestamps the single captured time. */
  function NewItem(requestId: string, data: JsonValue, timestamp: string): (item: Item)
    requires HasRequiredFields(data)
    ensures item.requestId == requestId && item.status == PendingStatus
    ensures item.createdAt == timestamp && item.updatedAt == item.createdAt
    ensures item.customerName == data.members["customerName"] && Truthy(item.customerName)
    ensures item.serviceType == data.members["serviceType"] && Truthy(item.serviceType)
    ensures item.location == data.members["location"] && Truthy(item.location)
  {
    Item(
      requestId,
      data.members["customerName"],
      data.members["serviceType"],
      data.members["location"],
      PendingStatus,
      timestamp,
      timestamp)
  }

  /** First phase of the handler (lines 16-69): the body check, the parse check
      and the field check in that order, then the put request. `requestId`
      and `timestamp` stand for `uuidv4()` and `new Date().toISOString()`;
      they are only used once every check has passed. */
  function Prepare(body: Option<string>, parse: ParseOutcome, requestId: string, timestamp: string,
                   tableEnv: Option<string>): (p: Prepared)
    ensures !TruthyString(body) ==> p == EarlyResponse(BadRequest(MissingBodyMessage))
    ensures TruthyString(body) && parse.Failed? ==> p == EarlyResponse(BadRequest(InvalidJsonMessage))
    ensures TruthyString(body) && parse == Parsed(JNull) ==> p == Crash(NullPropertyRead("customerName"))
    ensures TruthyString(body) && parse.Parsed? && parse.value != JNull && !HasRequiredFields(parse.value) ==>
              p == EarlyResponse(BadRequest(MissingFieldsMessage))
    ensures p.Put? <==> TruthyString(body) && parse.Parsed? && HasRequiredFields(parse.value)
    ensures p.Put? ==> p.request.tableName == TableNameFor(tableEnv)
    ensures p.Put? ==> p.request.item == Item(requestId, parse.value.members["customerName"],
                                              parse.value.members["serviceType"],
                                              parse.value.members["location"],
                                              PendingStatus, timestamp, timestamp)
  {
    if !TruthyString(body) then EarlyResponse(BadRequest(MissingBodyMessage))
    else
      match parse
      case Failed(_) => EarlyResponse(BadRequest(InvalidJsonMessage))
      case Parsed(data) =>
        NoFalsyFieldIffComplete(data);
        match AnyFieldFalsy(data, RequiredFields)
        case Failure(e) => Crash(e)
        case Success(missing) =>
          if missing then EarlyResponse(BadRequest(MissingFieldsMessage))
          else Put(PutRequest(TableNameFor(tableEnv), NewItem(requestId, data, timestamp)))
  }

  /** Second phase of the handler (lines 71-95): the response for the put's outcome. */
  function Finish(put: PutRequest, store: StoreOutcome): (r: Response)
    ensures r.headers == ResponseHeaders
    ensures store.StoreOk? ==> r.statusCode == 201
    ensures store.StoreOk? ==> r.body == ResponseBody(CreatedMessage, Some(put.item.requestId), Some(PendingStatus), None)
    ensures store.StoreErr? ==> r.statusCode == 500
    ensures store.StoreErr? ==> r.body == ResponseBody(FailedMessage, None, None, store.message)
  {
    match store
    case StoreOk =>
      Respond(201, ResponseBody(CreatedMessage, Some(put.item.requestId), Some(PendingStatus), None))
    case StoreErr(message) =>
      Respond(500, ResponseBody(FailedMessage, None, None, message))
  }

  /** The whole handler (lines 12-97). `store` is what the put would do if it
      were issued; it is only consulted after `Prepare` asked for the put. */
  function Handle(body: Option<string>, parse: ParseOutcome, requestId: string, timestamp: string,
                  tableEnv: Option<string>, store: StoreOutcome): (inv: Invocation)
    ensures |inv.puts| <= 1
    ensures inv.puts != [] <==> TruthyString(body) && parse.Parsed? && HasRequiredFields(parse.value)
    ensures inv.outcome.Rejected? <==> TruthyString(body) && parse == Parsed(JNull)
    ensures inv.outcome.Resolved? ==> inv.outcome.response.headers == ResponseHeaders
    ensures inv.outcome.Resolved? ==> (inv.outcome.response.statusCode == 400 <==> inv.puts == [])
    ensures inv.puts != [] ==> inv.outcome.Resolved? && inv.puts[0].item.requestId == requestId
  {
    match Prepare(body, parse, requestId, timestamp, tableEnv)
    case EarlyResponse(response) => Invocation(Resolved(response), [])
    case Crash(error) => Invocation(Rejected(error), [])
    case Put(request) => Invocation(Resolved(Finish(request, store)), [request])
  }
}
