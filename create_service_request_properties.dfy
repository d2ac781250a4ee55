/** Properties of the handler model: the response of each branch, the order
    of the checks, the record that is stored, and the set of terminal
    outcomes an invocation can end in. */
module CreateServiceRequestProperties {
  import opened Wrappers
  import opened Json
  import opened CreateServiceRequest

  /** The six ways an invocation can end: four client errors (one of them an
      uncaught exception), a stored request and a failed store. */
  datatype Terminal = MissingBody | InvalidJson | NullDereference | MissingFields | Created | StoreFailed

  /** The decision table of the handler, from its inputs alone. */
  function ExpectedTerminal(body: Option<string>, parse: ParseOutcome, store: StoreOutcome): Terminal
  {
    if !TruthyString(body) then MissingBody
    else if parse.Failed? then InvalidJson
    else if parse.value == JNull then NullDereference
    else if !HasRequiredFields(parse.value) then MissingFields
    else if store.StoreOk? then Created
    else StoreFailed
  }

  /** The response the handler's code fixes for each terminal outcome. */
  function ResponseOf(t: Terminal, requestId: string, store: StoreOutcome): Option<Response>
  {
    var headers := map["Access-Control-Allow-Origin" := "*", "Content-Type" := "application/json"];
    match t
    case MissingBody =>
      Some(Response(400, headers, ResponseBody("Request body is missing.", None, None, None)))
    case InvalidJson =>
      Some(Response(400, headers, ResponseBody("Invalid JSON in request body.", None, None, None)))
    case NullDereference => None
    case MissingFields =>
      Some(Response(400, headers,
        ResponseBody("Missing required fields: customerName, serviceType, location.", None, None, None)))
    case Created =>
      Some(Response(201, headers,
        ResponseBody("Service request created successfully.", Some(requestId), Some("Pending"), None)))
    case StoreFailed =>
      Some(Response(500, headers,
        ResponseBody("Failed to create service request.", None, None,
                     if store.StoreErr? then store.message else None)))
  }

  /** Which of the six terminal outcomes a finished invocation shows, read off the
      invocation alone; `None` if it matches none of them. */
  function TerminalOf(inv: Invocation): Option<Terminal>
  {
    match inv.outcome
    case Rejected(e) =>
      if inv.puts == [] && e == NullPropertyRead("customerName") then Some(NullDereference) else None
    case Resolved(r) =>
      if r.headers != ResponseHeaders then None
      else if inv.puts == [] && r.statusCode == 400 && r.body == ResponseBody("Request body is missing.", None, None, None)
      then Some(MissingBody)
      else if inv.puts == [] && r.statusCode == 400 && r.body == ResponseBody("Invalid JSON in request body.", None, None, None)
      then Some(InvalidJson)
      else if inv.puts == [] && r.statusCode == 400
              && r.body == ResponseBody("Missing required fields: customerName, serviceType, location.", None, None, None)
      then Some(MissingFields)
      else if |inv.puts| == 1 && r.statusCode == 201
              && r.body == ResponseBody("Service request created successfully.",
                                        Some(inv.puts[0].item.requestId), Some("Pending"), None)
      then Some(Created)
      else if |inv.puts| == 1 && r.statusCode == 500 && r.body.message == "Failed to create service request."
              && r.body.requestId.None? && r.body.status.None?
      then Some(StoreFailed)
      else None
  }

  /** Every invocation ends in exactly the terminal outcome its inputs
      select, with exactly the response the handler's code fixes for it. */
  lemma HandleFollowsDecisionTable(body: Option<string>, parse: ParseOutcome, requestId: string,
                                   timestamp: string, tableEnv: Option<string>, store: StoreOutcome)
    ensures TerminalOf(Handle(body, parse, requestId, timestamp, tableEnv, store))
            == Some(ExpectedTerminal(body, parse, store))
    ensures Handle(body, parse, requestId, timestamp, tableEnv, store).outcome.Resolved?
            <==> ResponseOf(ExpectedTerminal(body, parse, store), requestId, store).Some?
    ensures Handle(body, parse, requestId, timestamp, tableEnv, store).outcome.Resolved? ==>
              Some(Handle(body, parse, requestId, timestamp, tableEnv, store).outcome.response)
              == ResponseOf(ExpectedTerminal(body, parse, store), requestId, store)
  {
  }

  /** An absent or empty body is answered 400 "Request body is missing." before
      anything else is looked at, and nothing is stored. */
  lemma MissingBodyAnswered(body: Option<string>, parse: ParseOutcome, requestId: string,
                            timestamp: string, tableEnv: Option<string>, store: StoreOutcome)
    requires body.None? || body == Some("")
    ensures Handle(body, parse, requestId, timestamp, tableEnv, store)
            == Invocation(Resolved(Response(400, ResponseHeaders,
                 ResponseBody("Request body is missing.", None, None, None))), [])
  {
  }

  /** A body `JSON.parse` rejects is answered 400 "Invalid JSON in request
      body."; the parser's detail is never shown, since two details give the
      same invocation, and nothing is stored. */
  lemma InvalidJsonAnswered(body: Option<string>, detail: string, otherDetail: string, requestId: string,
                            timestamp: string, tableEnv: Option<string>, store: StoreOutcome)
    requires TruthyString(body)
    ensures Handle(body, Failed(detail), requestId, timestamp, tableEnv, store)
            == Invocation(Resolved(Response(400, ResponseHeaders,
                 ResponseBody("Invalid JSON in request body.", None, None, None))), [])
    ensures Handle(body, Failed(detail), requestId, timestamp, tableEnv, store)
            == Handle(body, Failed(otherDetail), requestId, timestamp, tableEnv, store)
  {
  }

  /** Setting any one of the three required fields to a falsy value (or
      leaving it out) gives 400 with the one fixed message, whichever field
      it is, and nothing is stored. */
  lemma FalsyFieldAnswered(body: Option<string>, members: map<string, JsonValue>, i: nat,
                           requestId: string, timestamp: string, tableEnv: Option<string>, store: StoreOutcome)
    requires TruthyString(body)
    requires i < |RequiredFields|
    requires RequiredFields[i] !in members || !Truthy(members[RequiredFields[i]])
    ensures Handle(body, Parsed(JObject(members)), requestId, timestamp, tableEnv, store)
            == Invocation(Resolved(Response(400, ResponseHeaders,
                 ResponseBody("Missing required fields: customerName, serviceType, location.", None, None, None))), [])
  {
  }

  /** A parsed value other than `null` that lacks a field gets the same
      invocation as any other such value: the answer does not say which field
      was missing, nor anything else about the body. */
  lemma MissingFieldsAnswerUniform(body: Option<string>, data: JsonValue, otherBody: Option<string>,
                                   otherData: JsonValue, requestId: string, timestamp: string,
                                   tableEnv: Option<string>, store: StoreOutcome)
    requires TruthyString(body) && TruthyString(otherBody)
    requires data != JNull && !HasRequiredFields(data)
    requires otherData != JNull && !HasRequiredFields(otherData)
    ensures Handle(body, Parsed(data), requestId, timestamp, tableEnv, store)
            == Handle(otherBody, Parsed(otherData), requestId, timestamp, tableEnv, store)
    ensures Handle(body, Parsed(data), requestId, timestamp, tableEnv, store).puts == []
  {
  }

  /** A body that parses to `null` makes the first field read throw, outside
      any `try`: the invocation rejects with that TypeError, answers nothing
      (in particular not 400) and stores nothing. */
  lemma NullBodyRejects(body: Option<string>, requestId: string, timestamp: string,
                        tableEnv: Option<string>, store: StoreOutcome)
    requires TruthyString(body)
    ensures Handle(body, Parsed(JNull), requestId, timestamp, tableEnv, store)
            == Invocation(Rejected(NullPropertyRead("customerName")), [])
  {
  }

  /** A parsed value that is not an object or `null` (a number, string,
      boolean or array) has no such fields and is answered 400. */
  lemma NonObjectBodyAnswered(body: Option<string>, data: JsonValue, requestId: string,
                              timestamp: string, tableEnv: Option<string>, store: StoreOutcome)
    requires TruthyString(body)
    requires !data.JObject? && !data.JNull?
    ensures Handle(body, Parsed(data), requestId, timestamp, tableEnv, store).outcome
            == Resolved(BadRequest(MissingFieldsMessage))
  {
  }

  /** The generated id, the timestamp, the table setting and the put's
      outcome only matter once every check has passed: no early outcome
      depends on them. */
  lemma EarlyOutcomesIgnoreLaterInputs(body: Option<string>, parse: ParseOutcome,
                                       requestId: string, timestamp: string, tableEnv: Option<string>,
                                       store: StoreOutcome, requestId': string, timestamp': string,
                                       tableEnv': Option<string>, store': StoreOutcome)
    requires !(TruthyString(body) && parse.Parsed? && HasRequiredFields(parse.value))
    ensures Handle(body, parse, requestId, timestamp, tableEnv, store)
            == Handle(body, parse, requestId', timestamp', tableEnv', store')
  {
  }

  /** A valid request produces exactly one put, into the configured (or
      default) table, of the record built from the supplied id, the three
      fields as parsed, status Pending and one timestamp twice. */
  lemma StoredRecord(body: Option<string>, members: map<string, JsonValue>, requestId: string,
                     timestamp: string, tableEnv: Option<string>, store: StoreOutcome)
    requires TruthyString(body)
    requires forall i :: 0 <= i < |RequiredFields| ==>
               RequiredFields[i] in members && Truthy(members[RequiredFields[i]])
    ensures Handle(body, Parsed(JObject(members)), requestId, timestamp, tableEnv, store).puts
            == [PutRequest(TableNameFor(tableEnv),
                  Item(requestId, members["customerName"], members["serviceType"], members["location"],
                       "Pending", timestamp, timestamp))]
  {
  }

  /** Fields of the body other than the three required ones change nothing:
      not the answer, not the stored record. */
  lemma ExtraFieldsIgnored(body: Option<string>, members: map<string, JsonValue>,
                           extra: map<string, JsonValue>, requestId: string, timestamp: string,
                           tableEnv: Option<string>, store: StoreOutcome)
    requires TruthyString(body)
    requires forall k :: k in extra ==> k != "customerName" && k != "serviceType" && k != "location"
    ensures Handle(body, Parsed(JObject(members + extra)), requestId, timestamp, tableEnv, store)
            == Handle(body, Parsed(JObject(members)), requestId, timestamp, tableEnv, store)
  {
  }

  /** After a successful put the answer is 201 with the stored record's id and
      status; after a failed one it is 500 carrying the store's error message. */
  lemma StoreOutcomeAnswered(body: Option<string>, parse: ParseOutcome, requestId: string,
                             timestamp: string, tableEnv: Option<string>, store: StoreOutcome)
    requires TruthyString(body) && parse.Parsed? && HasRequiredFields(parse.value)
    ensures var inv := Handle(body, parse, requestId, timestamp, tableEnv, store);
            |inv.puts| == 1 && inv.outcome.Resolved? &&
            (store.StoreOk? ==>
               inv.outcome.response == Response(201, ResponseHeaders,
                 ResponseBody("Service request created successfully.", Some(inv.puts[0].item.requestId),
                              Some(inv.puts[0].item.status), None))) &&
            (store.StoreErr? ==>
               inv.outcome.response == Response(500, ResponseHeaders,
                 ResponseBody("Failed to create service request.", None, None, store.message)))
  {
  }

  /** Inputs that select the given row of the decision table; the
      witnesses are typical requests. */
  lemma EveryRowSelectable(t: Terminal) returns (body: Option<string>, parse: ParseOutcome, store: StoreOutcome)
    ensures ExpectedTerminal(body, parse, store) == t
  {
    var full := JObject(map["customerName" := JString("A"), "serviceType" := JString("Deep Clean"),
                            "location" := JString("Downtown")]);
    var fullText := "{\"customerName\":\"A\",\"serviceType\":\"Deep Clean\"," + "\"location\":\"Downtown\"}";
    match t {
      case MissingBody =>
        body, parse, store := None, Failed(""), StoreOk;
      case InvalidJson =>
        body, parse, store := Some("{not valid"), Failed("Unexpected token"), StoreOk;
      case NullDereference =>
        body, parse, store := Some("null"), Parsed(JNull), StoreOk;
      case MissingFields =>
        body, parse, store := Some("{\"customerName\":\"A\"}"), Parsed(JObject(map["customerName" := JString("A")])), StoreOk;
      case Created =>
        assert HasRequiredFields(full);
        body, parse, store := Some(fullText), Parsed(full), StoreOk;
      case StoreFailed =>
        assert HasRequiredFields(full);
        body, parse, store := Some(fullText), Parsed(full), StoreErr(Some("ProvisionedThroughputExceeded"));
    }
  }

  /** Each of the six outcomes is reached by some invocation of the handler:
      none of its branches is dead. */
  lemma EveryTerminalReachable(t: Terminal)
    ensures exists body, parse, requestId, timestamp, tableEnv, store ::
              TerminalOf(Handle(body, parse, requestId, timestamp, tableEnv, store)) == Some(t)
  {
    var body, parse, store := EveryRowSelectable(t);
    HandleFollowsDecisionTable(body, parse, "", "", None, store);
  }
}
