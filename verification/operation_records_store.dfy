/** The paginated query store: paging, sort and filter state plus the page
    of records last loaded with it. */
module RecordsStore {
  import opened Remote
  import opened Operations
  import opened OperationRecordsClient

  /** The operation-type filter: one type, or the "ALL" sentinel. */
  datatype TypeFilter = All | Only(op: OperationType)

  /** `operationTypeToFilterMapping`: the category name the backend expects
      for each operation type. */
  function FilterCategory(op: OperationType): (name: string)
    ensures OperationOfCategory(name) == Some(op)
  {
    match op
    case ADD => "ADDITION"
    case SUBTRACT => "SUBTRACTION"
    case MULTIPLY => "MULTIPLICATION"
    case DIVIDE => "DIVISION"
    case SQRT => "SQUARE_ROOT"
    case RAND_STR => "RANDOM_STRING"
  }

  /** The same table read from right to left. */
  function OperationOfCategory(name: string): Option<OperationType>
  {
    if name == "ADDITION" then Some(ADD)
    else if name == "SUBTRACTION" then Some(SUBTRACT)
    else if name == "MULTIPLICATION" then Some(MULTIPLY)
    else if name == "DIVISION" then Some(DIVIDE)
    else if name == "SQUARE_ROOT" then Some(SQRT)
    else if name == "RANDOM_STRING" then Some(RAND_STR)
    else None
  }

  /** The table is one-to-one: no two types share a category. */
  lemma FilterCategoryInjective(a: OperationType, b: OperationType)
    ensures FilterCategory(a) == FilterCategory(b) ==> a == b
  {
  }

  /** The `operationType` argument sent for a filter: absent for "ALL",
      otherwise the type's category name. */
  function FilterParam(f: TypeFilter): (r: Option<string>)
    ensures r.None? <==> f == All
    ensures f.Only? ==> r == Some(FilterCategory(f.op))
  {
    match f
    case All => None
    case Only(op) => Some(FilterCategory(op))
  }

  /** The paging, sort and filter fields; `page` is zero-based. */
  datatype QueryState = QueryState(
    page: int,
    pageSize: int,
    orderBy: RecordAttribute,
    sortDir: SortDir,
    operationTypeFilter: TypeFilter,
    inputContainsFilter: string,
    outputContainsFilter: string)

  /** Everything the store holds. */
  datatype StoreState = StoreState(items: seq<OperationRecord>, totalResults: int, query: QueryState)

  const InitialQuery: QueryState := QueryState(0, 5, CreatedDate, Desc, All, "", "")
  const InitialState: StoreState := StoreState([], 0, InitialQuery)

  /** The `getRecords` call `loadRecords` makes from the current state. */
  function BuildCall(authToken: string, q: QueryState): (c: GetRecordsCall)
    ensures c.authToken == authToken
    ensures c.pageNumber == q.page + 1
    ensures c.pageSize == q.pageSize && c.sortField == q.orderBy && c.sortOrder == q.sortDir
    ensures c.operationType == FilterParam(q.operationTypeFilter)
    ensures c.inputContains == q.inputContainsFilter && c.outputContains == q.outputContainsFilter
  {
    GetRecordsCall(authToken, q.page + 1, q.pageSize, q.orderBy, q.sortDir,
                   FilterParam(q.operationTypeFilter), q.inputContainsFilter, q.outputContainsFilter)
  }

  /** Reading a call back into the query state it came from. */
  function QueryOfCall(c: GetRecordsCall): Option<QueryState>
  {
    var filter := match c.operationType
      case None => Some(All)
      case Some(name) =>
        var op := OperationOfCategory(name);
        if op.Some? then Some(Only(op.value)) else None;
    if filter.None? then None
    else Some(QueryState(c.pageNumber - 1, c.pageSize, c.sortField, c.sortOrder, filter.value,
                         c.inputContains, c.outputContains))
  }

  /** The call determines the whole query state: nothing of the paging,
      sort or filter state is lost or altered on the way to the client. */
  lemma BuildCallRoundTrip(authToken: string, q: QueryState)
    ensures QueryOfCall(BuildCall(authToken, q)) == Some(q)
  {
  }

  /** The state after `loadRecords` settles with `response`: on success the
      items and total are exactly the response's, on failure nothing changes;
      the query fields never change. */
  function Loaded(s: StoreState, response: Result<PaginatedOperationRecords>): (s': StoreState)
    ensures s'.query == s.query
    ensures response.Ok? ==> s'.items == response.value.items && s'.totalResults == response.value.totalItems
    ensures response.Err? ==> s' == s
  {
    match response
    case Ok(p) => s.(items := p.items, totalResults := p.totalItems)
    case Err(_) => s
  }

  class OperationRecordsStore {
    var items: seq<OperationRecord>
    var totalResults: int
    var page: int
    var pageSize: int
    var orderBy: RecordAttribute
    var sortDir: SortDir
    var operationTypeFilter: TypeFilter
    var inputContainsFilter: string
    var outputContainsFilter: string

    function Query(): QueryState
      reads this
    {
      QueryState(page, pageSize, orderBy, sortDir, operationTypeFilter, inputContainsFilter, outputContainsFilter)
    }

    function State(): StoreState
      reads this
    {
      StoreState(items, totalResults, Query())
    }

    constructor ()
      ensures State() == InitialState
    {
      items, totalResults := [], 0;
      page, pageSize := 0, 5;
      orderBy, sortDir := CreatedDate, Desc;
      operationTypeFilter := All;
      inputContainsFilter, outputContainsFilter := "", "";
    }

    method SetPage(newPage: int)
      modifies this
      ensures State() == old(State()).(query := old(Query()).(page := newPage))
    {
      page := newPage;
    }

    method SetPageSize(newPageSize: int)
      modifies this
      ensures State() == old(State()).(query := old(Query()).(pageSize := newPageSize))
    {
      pageSize := newPageSize;
    }

    method SetOrderBy(newOrderBy: RecordAttribute)
      modifies this
      ensures State() == old(State()).(query := old(Query()).(orderBy := newOrderBy))
    {
      orderBy := newOrderBy;
    }

    method SetSortDir(newSortDir: SortDir)
      modifies this
      ensures State() == old(State()).(query := old(Query()).(sortDir := newSortDir))
    {
      sortDir := newSortDir;
    }

    method SetOperationTypeFilter(newFilter: TypeFilter)
      modifies this
      ensures State() == old(State()).(query := old(Query()).(operationTypeFilter := newFilter))
    {
      operationTypeFilter := newFilter;
    }

    method SetInputContainsFilter(str: string)
      modifies this
      ensures State() == old(State()).(query := old(Query()).(inputContainsFilter := str))
    {
      inputContainsFilter := str;
    }

    method SetOutputContainsFilter(str: string)
      modifies this
      ensures State() == old(State()).(query := old(Query()).(outputContainsFilter := str))
    {
      outputContainsFilter := str;
    }

    /** `loadRecords`: one call built from the current state; on success the
        items and total are replaced, on failure the state is left as it was
        and the failure is handed back to the caller. */
    method LoadRecords(authToken: string, getRecords: GetRecordsCall -> Result<PaginatedOperationRecords>)
      returns (call: GetRecordsCall, outcome: Result<()>)
      modifies this
      ensures call == BuildCall(authToken, old(Query()))
      ensures State() == Loaded(old(State()), getRecords(call))
      ensures getRecords(call).Ok? ==> outcome == Ok(())
      ensures getRecords(call).Err? ==> outcome == Err(getRecords(call).error)
    {
      call := BuildCall(authToken, Query());
      var response := getRecords(call);
      match response
      case Ok(p) =>
        items, totalResults := p.items, p.totalItems;
        outcome := Ok(());
      case Err(e) =>
        outcome := Err(e);
    }
  }
}
