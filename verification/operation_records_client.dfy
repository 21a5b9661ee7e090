/** The operation-records client: builds the listing and delete requests and
    renames the fields of the records the backend returns. */
module OperationRecordsClient {
  import opened Remote
  import opened Operations

  /** The arguments of `getRecords`, as the records store passes them. */
  datatype GetRecordsCall = GetRecordsCall(
    authToken: string,
    pageNumber: int,
    pageSize: int,
    sortField: RecordAttribute,
    sortOrder: SortDir,
    operationType: Option<string>,
    inputContains: string,
    outputContains: string)

  /** A record as the backend serialises it. The `type` member arrives as
      an operation type and is kept as it is. */
  datatype WireRecord = WireRecord(
    id: string,
    wireType: OperationType,
    operationInput: seq<string>,
    operationResult: string,
    createdAt: string,
    cost: real,
    userBalance: real)

  /** The body of a listing response. */
  datatype WireResponse = WireResponse(result: seq<WireRecord>, totalResults: int)

  /** What `getRecords` resolves with. */
  datatype PaginatedOperationRecords = PaginatedOperationRecords(items: seq<OperationRecord>, totalItems: int)

  const RecordsPath: string := "/operation-records"

  /** The listing request: every argument becomes a query parameter of the
      same name and value, except that an absent operation type is omitted. */
  function GetRecordsRequest(c: GetRecordsCall): (r: HttpRequest)
    ensures r.verb == GET && r.path == RecordsPath && r.authorization == Bearer(c.authToken)
    ensures r.body == map[]
    ensures "pageNumber" in r.params && r.params["pageNumber"] == IntParam(c.pageNumber)
    ensures "pageSize" in r.params && r.params["pageSize"] == IntParam(c.pageSize)
    ensures "sortField" in r.params && r.params["sortField"] == StrParam(AttributeName(c.sortField))
    ensures "sortOrder" in r.params && r.params["sortOrder"] == StrParam(SortDirName(c.sortOrder))
    ensures "inputContains" in r.params && r.params["inputContains"] == StrParam(c.inputContains)
    ensures "outputContains" in r.params && r.params["outputContains"] == StrParam(c.outputContains)
    ensures "operationType" in r.params <==> c.operationType.Some?
    ensures c.operationType.Some? ==> r.params["operationType"] == StrParam(c.operationType.value)
    ensures r.params.Keys == {"pageNumber", "pageSize", "sortField", "sortOrder", "inputContains", "outputContains"}
                             + (if c.operationType.Some? then {"operationType"} else {})
  {
    var always := map[
      "pageNumber" := IntParam(c.pageNumber),
      "pageSize" := IntParam(c.pageSize),
      "sortField" := StrParam(AttributeName(c.sortField)),
      "sortOrder" := StrParam(SortDirName(c.sortOrder)),
      "inputContains" := StrParam(c.inputContains),
      "outputContains" := StrParam(c.outputContains)];
    var params := match c.operationType
      case None => always
      case Some(t) => always["operationType" := StrParam(t)];
    HttpRequest(GET, RecordsPath, Bearer(c.authToken), params, map[])
  }

  function IntParamOf(params: map<string, ParamValue>, key: string): Option<int>
  {
    if key in params && params[key].IntParam? then Some(params[key].n) else None
  }

  function StrParamOf(params: map<string, ParamValue>, key: string): Option<string>
  {
    if key in params && params[key].StrParam? then Some(params[key].s) else None
  }

  /** How the backend reads a listing request back into its arguments. */
  function ParseGetRecordsRequest(r: HttpRequest): Option<GetRecordsCall>
  {
    var token := TokenOf(r.authorization);
    var pageNumber := IntParamOf(r.params, "pageNumber");
    var pageSize := IntParamOf(r.params, "pageSize");
    var sortField := StrParamOf(r.params, "sortField");
    var sortOrder := StrParamOf(r.params, "sortOrder");
    var inputContains := StrParamOf(r.params, "inputContains");
    var outputContains := StrParamOf(r.params, "outputContains");
    if r.verb != GET || r.path != RecordsPath || token.None? || pageNumber.None? || pageSize.None?
       || sortField.None? || sortOrder.None? || inputContains.None? || outputContains.None?
    then None
    else
      var field := AttributeFromName(sortField.value);
      var order := SortDirFromName(sortOrder.value);
      if field.None? || order.None? then None
      else Some(GetRecordsCall(token.value, pageNumber.value, pageSize.value, field.value, order.value,
                               StrParamOf(r.params, "operationType"), inputContains.value, outputContains.value))
  }

  /** The listing request carries every argument unchanged: the backend
      recovers exactly the call that was made. */
  lemma GetRecordsRequestRoundTrip(c: GetRecordsCall)
    ensures ParseGetRecordsRequest(GetRecordsRequest(c)) == Some(c)
  {
  }

  /** One wire record renamed field by field into the client's record shape. */
  function MapRecord(w: WireRecord): (r: OperationRecord)
    ensures r.id == w.id && r.opType == w.wireType && r.input == w.operationInput
    ensures r.result == w.operationResult && r.createdDate == Date(w.createdAt)
    ensures r.cost == w.cost && r.creditBalance == w.userBalance
  {
    OperationRecord(w.id, w.wireType, w.operationInput, w.operationResult, Date(w.createdAt), w.cost, w.userBalance)
  }

  /** The backend's serialisation of a record: the reverse renaming. */
  function RecordToWire(r: OperationRecord): WireRecord
  {
    WireRecord(r.id, r.opType, r.input, r.result, r.createdDate.text, r.cost, r.creditBalance)
  }

  /** The renaming loses nothing. */
  lemma MapRecordRoundTrip(w: WireRecord)
    ensures RecordToWire(MapRecord(w)) == w
  {
  }

  /** `result.map(...)`: the records in the order received, one for one. */
  function MapRecords(ws: seq<WireRecord>): (rs: seq<OperationRecord>)
    ensures |rs| == |ws|
    ensures forall i :: 0 <= i < |ws| ==> rs[i] == MapRecord(ws[i])
  {
    if ws == [] then [] else [MapRecord(ws[0])] + MapRecords(ws[1..])
  }

  function RecordsToWire(rs: seq<OperationRecord>): seq<WireRecord>
  {
    if rs == [] then [] else [RecordToWire(rs[0])] + RecordsToWire(rs[1..])
  }

  /** The list mapping loses nothing either, so it neither drops, reorders
      nor merges records. */
  lemma {:induction false} MapRecordsRoundTrip(ws: seq<WireRecord>)
    ensures RecordsToWire(MapRecords(ws)) == ws
  {
    if ws != [] {
      MapRecordsRoundTrip(ws[1..]);
      MapRecordRoundTrip(ws[0]);
      assert MapRecords(ws)[1..] == MapRecords(ws[1..]);
    }
  }

  /** What a successful listing resolves with. */
  function ToPaginated(resp: WireResponse): (p: PaginatedOperationRecords)
    ensures |p.items| == |resp.result|
    ensures forall i :: 0 <= i < |resp.result| ==> p.items[i] == MapRecord(resp.result[i])
    ensures p.totalItems == resp.totalResults
  {
    PaginatedOperationRecords(MapRecords(resp.result), resp.totalResults)
  }

  /** `getRecords`: send the listing request through `http` and map the
      response; a rejection is passed on as it is. */
  function GetRecords(http: HttpRequest -> Result<WireResponse>, c: GetRecordsCall): (r: Result<PaginatedOperationRecords>)
    ensures http(GetRecordsRequest(c)).Err? ==> r == Err(http(GetRecordsRequest(c)).error)
    ensures http(GetRecordsRequest(c)).Ok? ==> r.Ok? && r.value.totalItems == http(GetRecordsRequest(c)).value.totalResults
    ensures http(GetRecordsRequest(c)).Ok? ==> RecordsToWire(r.value.items) == http(GetRecordsRequest(c)).value.result
  {
    match http(GetRecordsRequest(c))
    case Ok(resp) => MapRecordsRoundTrip(resp.result); Ok(ToPaginated(resp))
    case Err(e) => Err(e)
  }

  /** The delete request for one record. */
  function DeleteRequest(authToken: string, id: string): (r: HttpRequest)
    ensures r.verb == DELETE && r.authorization == Bearer(authToken)
    ensures |r.path| == |RecordsPath| + 1 + |id|
    ensures r.path[..|RecordsPath| + 1] == RecordsPath + "/" && r.path[|RecordsPath| + 1..] == id
    ensures r.params == map[] && r.body == map[]
  {
    HttpRequest(DELETE, RecordsPath + "/" + id, Bearer(authToken), map[], map[])
  }

  /** How the backend reads the record id out of a delete path. */
  function DeletedId(r: HttpRequest): Option<string>
  {
    var prefix := RecordsPath + "/";
    if r.verb == DELETE && |r.path| >= |prefix| && r.path[..|prefix|] == prefix
    then Some(r.path[|prefix|..])
    else None
  }

  /** The delete request names exactly the record asked for. */
  lemma DeleteRequestTargetsRecord(authToken: string, id: string)
    ensures DeletedId(DeleteRequest(authToken, id)) == Some(id)
    ensures TokenOf(DeleteRequest(authToken, id).authorization) == Some(authToken)
  {
  }

  /** `delete`: the outcome of the delete request, passed on as it is. */
  function Delete(http: HttpRequest -> Result<()>, authToken: string, id: string): (r: Result<()>)
    ensures r == http(DeleteRequest(authToken, id))
  {
    http(DeleteRequest(authToken, id))
  }
}
