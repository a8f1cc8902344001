/** The question routes: each handler checks its inputs in order, answers 400
    for the first missing one without touching the service, and otherwise maps
    the service's outcome to a success status or to 500 with the error message
    as `details`. */
module QuestionRoutes {
  import opened Wrappers
  import opened Json
  import opened Backend
  import opened AirtableService

  /** An HTTP reply: the status and, unless the reply is empty (204), its JSON
      body. */
  datatype Response = Response(status: int, body: Option<Value>)

  /** The parsed query string, one string value per parameter. */
  type Query = map<string, string>

  /** `req.query[name]`, `undefined` when absent. */
  function QueryParam(query: Query, name: string): (r: Option<string>)
    ensures r.Some? <==> name in query
    ensures r.Some? ==> r.value == query[name]
  {
    if name in query then Some(query[name]) else None
  }

  /** The query parameter is truthy: present and non-empty. */
  predicate Given(query: Query, name: string)
    ensures Given(query, name) <==> QueryParam(query, name).Some? && Truthy(Str(QueryParam(query, name).value))
  {
    name in query && query[name] != ""
  }

  /** `res.status(400).json({ error })`. */
  function BadRequest(message: string): (resp: Response)
    ensures resp.status == 400 && resp.body.Some? && resp.body.value.Obj?
    ensures resp.body.value.fields.Keys == {"error"}
    ensures resp.body.value.fields["error"] == Str(message)
  {
    Response(400, Some(Obj(map["error" := Str(message)])))
  }

  /** `res.status(500).json({ error, details: error.message })`. */
  function ServerError(summary: string, details: string): (resp: Response)
    ensures resp.status == 500 && resp.body.Some? && resp.body.value.Obj?
    ensures resp.body.value.fields.Keys == {"error", "details"}
    ensures resp.body.value.fields["error"] == Str(summary)
    ensures resp.body.value.fields["details"] == Str(details)
  {
    Response(500, Some(Obj(map["error" := Str(summary), "details" := Str(details)])))
  }

  /** `res.status(200).json({ records, totalRecords: records.length })`: the
      count always equals the number of records in the reply. */
  function RecordsReply(records: seq<Record>): (resp: Response)
    ensures resp.status == 200 && resp.body.Some? && resp.body.value.Obj?
    ensures var fields := resp.body.value.fields;
      && fields.Keys == {"records", "totalRecords"}
      && fields["records"].Arr?
      && fields["totalRecords"] == Num(|fields["records"].items| as real)
      && |fields["records"].items| == |records|
      && forall i :: 0 <= i < |records| ==> fields["records"].items[i] == Obj(records[i])
  {
    var items := seq(|records|, i requires 0 <= i < |records| => Obj(records[i]));
    Response(200, Some(Obj(map["records" := Arr(items), "totalRecords" := Num(|items| as real)])))
  }

  // ---------------------------------------------------------------------------
  // POST /
  // ---------------------------------------------------------------------------

  /** POST /: create a record from the body; 201 with the created record, or
      500 with the store's message. */
  method HandleCreate(create: Record -> WriteResponse, body: Record, draws: seq<real>, now: string)
    returns (sent: Record, resp: Response)
    requires |draws| == RecordIdLetters
    requires forall i :: 0 <= i < |draws| ==> IsRandomDraw(draws[i])
    ensures "record_id" in sent && sent["record_id"].Str? && IsRecordId(sent["record_id"].s)
    ensures sent == CreateFields(body, sent["record_id"].s, now)
    ensures resp.status == 201 <==> create(sent).Written?
    ensures create(sent).Written? ==> resp == Response(201, Some(Obj(Flatten(create(sent).record))))
    ensures create(sent).WriteFailed? ==>
      resp == ServerError("Failed to create record", ErrorMessage(create(sent).error))
  {
    var result;
    sent, result := CreateRecord(create, body, draws, now);
    match result
    case Success(record) =>
      resp := Response(201, Some(Obj(record)));
    case Failure(message) =>
      resp := ServerError("Failed to create record", message);
  }

  // ---------------------------------------------------------------------------
  // GET /
  // ---------------------------------------------------------------------------

  /** GET /?assignedTo=: every matching record with its count, or 500. */
  method HandleList(list: Lister, query: Query) returns (requests: seq<ListRequest>, resp: Response)
    requires PagesEnd(list, FilterFormula(QueryParam(query, "assignedTo")))
    ensures IsPageTrace(list, FilterFormula(QueryParam(query, "assignedTo")), requests)
    ensures resp.status == 200 <==> TraceOutcome(list, requests).Success?
    ensures resp.status == 200 ==> resp == RecordsReply(RecordsOf(list, requests))
    ensures resp.status != 200 ==> resp == ServerError("Failed to fetch records", FetchFailed)
  {
    var result;
    requests, result := GetRecords(list, QueryParam(query, "assignedTo"));
    match result
    case Success(records) =>
      resp := RecordsReply(records);
    case Failure(message) =>
      resp := ServerError("Failed to fetch records", message);
  }

  // ---------------------------------------------------------------------------
  // PUT /bulk-reassign
  // ---------------------------------------------------------------------------

  /** `ids` is present, an array and not empty. */
  predicate HasIds(body: Record)
    ensures HasIds(body) <==>
      FieldTruthy(body, "ids") && body["ids"].Arr? && |body["ids"].items| != 0
  {
    "ids" in body && body["ids"].Arr? && |body["ids"].items| > 0
  }

  /** All three checks of the bulk-reassign handler pass. */
  predicate BulkArgsValid(body: Record)
  {
    HasIds(body) && FieldTruthy(body, "assigned_to") && FieldTruthy(body, "updated_by")
  }

  /** The store's records as the bulk-reassign reply lists them:
      `{ id, fields }`. */
  function RawRecordValue(r: RawRecord): (v: Value)
    ensures v.Obj? && v.fields.Keys == {"id", "fields"}
    ensures v.fields["id"] == Str(r.id) && v.fields["fields"] == Obj(r.fields)
  {
    Obj(map["id" := Str(r.id), "fields" := Obj(r.fields)])
  }

  /** `res.status(200).json({ message, updatedRecords })`. */
  function BulkReply(updated: seq<RawRecord>): (resp: Response)
    ensures resp.status == 200 && resp.body.Some? && resp.body.value.Obj?
    ensures var fields := resp.body.value.fields;
      && fields.Keys == {"message", "updatedRecords"}
      && fields["message"] == Str("Records reassigned successfully")
      && fields["updatedRecords"].Arr?
      && |fields["updatedRecords"].items| == |updated|
      && forall i :: 0 <= i < |updated| ==> fields["updatedRecords"].items[i] == RawRecordValue(updated[i])
  {
    var items := seq(|updated|, i requires 0 <= i < |updated| => RawRecordValue(updated[i]));
    Response(200, Some(Obj(map["message" := Str("Records reassigned successfully"),
                               "updatedRecords" := Arr(items)])))
  }

  /** PUT /bulk-reassign: checks `ids`, then `assigned_to`, then `updated_by`,
      answering 400 for the first that fails without sending any batch;
      otherwise reassigns in batches, answering 200 with every updated record
      or 500 with the first failing batch's message. Returns the batches and
      how many were sent, besides the reply. */
  method HandleBulkReassign(patch: BulkPatcher, body: Record, clock: nat -> string)
    returns (batches: seq<seq<UpdateEntry>>, issued: nat, resp: Response)
    ensures !HasIds(body) ==>
      issued == 0 && resp == BadRequest("Invalid or missing \"ids\"")
    ensures HasIds(body) && !FieldTruthy(body, "assigned_to") ==>
      issued == 0 && resp == BadRequest("Missing \"assigned_to\"")
    ensures HasIds(body) && FieldTruthy(body, "assigned_to") && !FieldTruthy(body, "updated_by") ==>
      issued == 0 && resp == BadRequest("Missing \"updated_by\"")
    ensures resp.status == 400 <==> !BulkArgsValid(body)
    ensures !BulkArgsValid(body) ==> batches == [] && issued == 0
    ensures BulkArgsValid(body) ==>
      && IsBatching(batches, ReassignEntries(body["ids"].items, body["assigned_to"], body["updated_by"], clock))
      && 0 < issued <= |batches|
      && (forall k :: 0 <= k < issued - 1 ==> patch(batches[k]).Patched?)
    ensures BulkArgsValid(body) && resp.status == 200 ==>
      && issued == |batches|
      && patch(batches[issued - 1]).Patched?
      && resp == BulkReply(PatchedRecords(patch, batches))
    ensures BulkArgsValid(body) && resp.status != 200 ==>
      && patch(batches[issued - 1]).PatchFailed?
      && resp == ServerError("Failed to bulk reassign records", BulkErrorMessage(patch(batches[issued - 1]).error))
  {
    if !HasIds(body) {
      return [], 0, BadRequest("Invalid or missing \"ids\"");
    }
    if !FieldTruthy(body, "assigned_to") {
      return [], 0, BadRequest("Missing \"assigned_to\"");
    }
    if !FieldTruthy(body, "updated_by") {
      return [], 0, BadRequest("Missing \"updated_by\"");
    }
    var result;
    batches, issued, result := BulkReassignRecords(patch, body["ids"].items, body["assigned_to"],
                                                   body["updated_by"], clock);
    assert |batches| > 0;
    match result
    case Success(updated) =>
      resp := BulkReply(updated);
    case Failure(message) =>
      resp := ServerError("Failed to bulk reassign records", message);
  }

  // ---------------------------------------------------------------------------
  // PUT /:id and DELETE /:id
  // ---------------------------------------------------------------------------

  /** PUT /:id: 200 with the updated record, or 500 with the store's message. */
  function UpdateRoute(patch: (string, Record) -> WriteResponse, id: string, body: Record, now: string)
    : (resp: Response)
    ensures resp.status == 200 <==> patch(id, UpdateFields(body, now)).Written?
    ensures resp.status == 200 ==> resp.body == Some(Obj(Flatten(patch(id, UpdateFields(body, now)).record)))
    ensures resp.status != 200 ==>
      resp == ServerError("Failed to update record", ErrorMessage(patch(id, UpdateFields(body, now)).error))
  {
    match UpdateRecord(patch, id, body, now)
    case Success(record) => Response(200, Some(Obj(record)))
    case Failure(message) => ServerError("Failed to update record", message)
  }

  /** DELETE /:id: 204 with no body, or 500 with the store's message (a missing
      id is an error, never a silent success). */
  function DeleteRoute(remove: string -> Option<ApiError>, id: string): (resp: Response)
    ensures resp.status == 204 <==> remove(id).None?
    ensures resp.status == 204 ==> resp.body == None
    ensures resp.status != 204 ==>
      resp == ServerError("Failed to delete record", ErrorMessage(remove(id).value))
  {
    match DeleteRecord(remove, id)
    case Success(_) => Response(204, None)
    case Failure(message) => ServerError("Failed to delete record", message)
  }

  // ---------------------------------------------------------------------------
  // GET /search and GET /search-properties
  // ---------------------------------------------------------------------------

  /** GET /search?searchTerm=: 400 without a term (and no fetch); otherwise the
      ranked records with their count, or 500. */
  method HandleSearch(list: Lister, rank: Ranker, query: Query)
    returns (requests: seq<ListRequest>, resp: Response)
    requires Given(query, "searchTerm") ==> PagesEnd(list, None)
    ensures !Given(query, "searchTerm") ==> requests == [] && resp == BadRequest("Search term is required")
    ensures Given(query, "searchTerm") ==> IsPageTrace(list, None, requests)
    ensures Given(query, "searchTerm") && TraceOutcome(list, requests).Success? ==>
      resp == RecordsReply(rank(RecordsOf(list, requests), query["searchTerm"]))
    ensures Given(query, "searchTerm") && TraceOutcome(list, requests).Failure? ==>
      resp == ServerError("Failed to perform search", FetchFailed)
  {
    if !Given(query, "searchTerm") {
      return [], BadRequest("Search term is required");
    }
    var result;
    requests, result := SearchQuestionAnswer(list, rank, query["searchTerm"]);
    match result
    case Success(records) =>
      resp := RecordsReply(records);
    case Failure(message) =>
      resp := ServerError("Failed to perform search", message);
  }

  /** GET /search-properties?propertyKey=&propertyValue=: 400 unless both are
      given (and no fetch); otherwise the records ranked against
      "key:value" with their count, or 500. */
  method HandleSearchProperties(list: Lister, rank: Ranker, query: Query)
    returns (requests: seq<ListRequest>, resp: Response)
    requires Given(query, "propertyKey") && Given(query, "propertyValue") ==> PagesEnd(list, None)
    ensures !(Given(query, "propertyKey") && Given(query, "propertyValue")) ==>
      requests == [] && resp == BadRequest("Both propertyKey and propertyValue are required")
    ensures Given(query, "propertyKey") && Given(query, "propertyValue") ==>
      IsPageTrace(list, None, requests)
    ensures Given(query, "propertyKey") && Given(query, "propertyValue") && TraceOutcome(list, requests).Success? ==>
      resp == RecordsReply(rank(RecordsOf(list, requests),
                                PropertyQuery(query["propertyKey"], query["propertyValue"])))
    ensures Given(query, "propertyKey") && Given(query, "propertyValue") && TraceOutcome(list, requests).Failure? ==>
      resp == ServerError("Failed to perform property search", FetchFailed)
  {
    if !Given(query, "propertyKey") || !Given(query, "propertyValue") {
      return [], BadRequest("Both propertyKey and propertyValue are required");
    }
    var result;
    requests, result := SearchProperties(list, rank, query["propertyKey"], query["propertyValue"]);
    match result
    case Success(records) =>
      resp := RecordsReply(records);
    case Failure(message) =>
      resp := ServerError("Failed to perform property search", message);
  }
}
