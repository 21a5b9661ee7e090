/** The calculator page: turns the table's, the filter form's and the
    calculator's events into store updates followed by one reload, and keeps
    the grid's loading flag around them. Every remote call goes through the
    error store, so no handler ever fails. */
module CalculatorPageController {
  import opened Remote
  import opened Operations
  import opened OperationRecordsClient
  import opened CalculatorClient
  import opened Errors
  import opened Auth
  import opened CreditBalance
  import opened RecordsStore
  import opened RecordsFilter
  import opened CalculatorForm

  /** A remote request the page issued, with the grid's loading flag at the
      time where the page sets it around the request. */
  datatype Request =
    | BalanceRequested(authToken: string)
    | RecordsRequested(call: GetRecordsCall, gridLoading: bool)
    | DeleteRequested(authToken: string, id: string, gridLoading: bool)
    | CalculationRequested(calculation: CalculatorCall)
    | SignOutRequested(authToken: string)

  /** The `switch` of `handleCalculate`: the client method for the event's
      operation, given the operands that operation takes. */
  function DispatchCall(ev: CalculationTriggered, authToken: string): (c: CalculatorCall)
    ensures OperationOf(c) == ev.operationType
    ensures c.authToken == authToken
    ensures !c.RandString? ==> c.input1 == ev.input1
    ensures c.Add? || c.Subtract? || c.Multiply? || c.Divide? ==> c.input2 == ev.input2
  {
    match ev.operationType
    case ADD => Add(authToken, ev.input1, ev.input2)
    case SUBTRACT => Subtract(authToken, ev.input1, ev.input2)
    case MULTIPLY => Multiply(authToken, ev.input1, ev.input2)
    case DIVIDE => Divide(authToken, ev.input1, ev.input2)
    case SQRT => Sqrt(authToken, ev.input1)
    case RAND_STR => RandString(authToken)
  }

  /** What reaches the wire for a calculation: the operation's own endpoint,
      the bearer token, and exactly the operands the operation requires
      (only `input1` for SQRT, none for RAND_STR). */
  lemma DispatchRequestShape(ev: CalculationTriggered, authToken: string)
    ensures var r := CallRequest(DispatchCall(ev, authToken));
            var n := RequiredInputs(ev.operationType);
            r.verb == POST && r.path == CalculatorPrefix + EndpointName(ev.operationType) &&
            r.authorization == Bearer(authToken) &&
            BodyInputCount(r) == n &&
            ("input1" in r.body <==> n >= 1) && ("input2" in r.body <==> n == 2) &&
            ("input1" in r.body ==> r.body["input1"] == ev.input1) &&
            ("input2" in r.body ==> r.body["input2"] == ev.input2)
  {
  }

  /** The page shown after a delete: one back when the deleted record was
      the only one on a page after the first, otherwise the same page. */
  function PageAfterDelete(itemCount: nat, page: int): (p: int)
    ensures p == page - 1 <==> itemCount == 1 && page > 0
    ensures p != page - 1 ==> p == page
    ensures page >= 0 ==> p >= 0
  {
    if itemCount == 1 && page > 0 then page - 1 else page
  }

  /** The page shown after a delete is never past the end. Suppose the
      shown page held `itemCount` records of `total`, and was full unless it
      was the last page. Then after one record is gone, the page chosen is
      still a page that holds records, or the first page of an empty
      listing. */
  lemma DeleteKeepsPageInRange(total: int, pageSize: int, page: int, itemCount: nat)
    requires pageSize > 0 && page >= 0 && 1 <= itemCount <= pageSize
    requires page * pageSize + itemCount <= total
    requires itemCount < pageSize ==> total == page * pageSize + itemCount
    ensures var p := PageAfterDelete(itemCount, page);
            0 <= p && (total - 1 == 0 || p * pageSize < total - 1)
  {
  }

  class CalculatorPage {
    const records: OperationRecordsStore
    const errors: ErrorStore
    const auth: AuthStore
    const balance: CreditBalanceStore
    var initialized: bool
    /** `operationRecordsGridLoading`. */
    var gridLoading: bool
    /** Every remote request issued so far, in order. */
    ghost var requests: seq<Request>

    constructor (records: OperationRecordsStore, errors: ErrorStore, auth: AuthStore, balance: CreditBalanceStore)
      ensures this.records == records && this.errors == errors && this.auth == auth && this.balance == balance
      ensures !initialized && !gridLoading && requests == []
    {
      this.records, this.errors, this.auth, this.balance := records, errors, auth, balance;
      initialized, gridLoading := false, false;
      requests := [];
    }

    /** After one reload of the records from store state `before`: exactly
        one listing request, built from `before` and issued while the grid
        was loading, was appended to `earlier`; the store holds what that
        request answered; a failed reload was captured over `errorBefore`;
        the grid is no longer loading. */
    ghost predicate Reloaded(before: StoreState, errorBefore: Option<Failure>, earlier: seq<Request>,
                             getRecords: GetRecordsCall -> Result<PaginatedOperationRecords>)
      reads this, records, errors, auth
    {
      var call := BuildCall(auth.authToken, before.query);
      requests == earlier + [RecordsRequested(call, true)] &&
      records.State() == Loaded(before, getRecords(call)) &&
      errors.error == AfterRun(errorBefore, getRecords(call)) &&
      !gridLoading
    }

    /** `wrapLoadRecords`: the grid loads while the store reloads with the
        current state; a failed reload is captured, and the flag drops
        whether it succeeded or not. */
    method WrapLoadRecords(getRecords: GetRecordsCall -> Result<PaginatedOperationRecords>)
      modifies this, records, errors
      ensures Reloaded(old(records.State()), old(errors.error), old(requests), getRecords)
      ensures initialized == old(initialized)
    {
      gridLoading := true;
      var call, outcome := records.LoadRecords(auth.authToken, getRecords);
      requests := requests + [RecordsRequested(call, gridLoading)];
      errors.RunAsyncCallback(outcome);
      gridLoading := false;
    }

    /** `handlePageChanged`: the requested page, then one reload. */
    method HandlePageChanged(newPage: int, getRecords: GetRecordsCall -> Result<PaginatedOperationRecords>)
      modifies this, records, errors
      ensures records.page == newPage
      ensures Reloaded(old(records.State()).(query := old(records.Query()).(page := newPage)),
                       old(errors.error), old(requests), getRecords)
      ensures initialized == old(initialized)
    {
      records.SetPage(newPage);
      WrapLoadRecords(getRecords);
    }

    /** `handlePageSizeChanged`: the new size and the first page, whatever
        the old size was, then one reload. */
    method HandlePageSizeChanged(newPageSize: int, getRecords: GetRecordsCall -> Result<PaginatedOperationRecords>)
      modifies this, records, errors
      ensures records.pageSize == newPageSize && records.page == 0
      ensures Reloaded(old(records.State()).(query := old(records.Query()).(pageSize := newPageSize, page := 0)),
                       old(errors.error), old(requests), getRecords)
      ensures requests[|requests| - 1].call.pageNumber == 1
      ensures initialized == old(initialized)
    {
      records.SetPageSize(newPageSize);
      records.SetPage(0);
      WrapLoadRecords(getRecords);
    }

    /** `handleSortChanged`: the new column and direction and the first
        page, then one reload. */
    method HandleSortChanged(newOrderBy: RecordAttribute, newSortDir: SortDir,
                             getRecords: GetRecordsCall -> Result<PaginatedOperationRecords>)
      modifies this, records, errors
      ensures records.orderBy == newOrderBy && records.sortDir == newSortDir && records.page == 0
      ensures Reloaded(old(records.State()).(query := old(records.Query()).(orderBy := newOrderBy, sortDir := newSortDir, page := 0)),
                       old(errors.error), old(requests), getRecords)
      ensures initialized == old(initialized)
    {
      records.SetOrderBy(newOrderBy);
      records.SetSortDir(newSortDir);
      records.SetPage(0);
      WrapLoadRecords(getRecords);
    }

    /** `handleFiltersApplied`: the three submitted filters and the first
        page, then one reload. */
    method HandleFiltersApplied(applied: FilterValues, getRecords: GetRecordsCall -> Result<PaginatedOperationRecords>)
      modifies this, records, errors
      ensures records.operationTypeFilter == applied.operationType && records.page == 0
      ensures records.inputContainsFilter == applied.inputContains && records.outputContainsFilter == applied.outputContains
      ensures Reloaded(old(records.State()).(query := old(records.Query()).(
                         operationTypeFilter := applied.operationType,
                         inputContainsFilter := applied.inputContains,
                         outputContainsFilter := applied.outputContains,
                         page := 0)),
                       old(errors.error), old(requests), getRecords)
      ensures initialized == old(initialized)
    {
      records.SetOperationTypeFilter(applied.operationType);
      records.SetInputContainsFilter(applied.inputContains);
      records.SetOutputContainsFilter(applied.outputContains);
      records.SetPage(0);
      WrapLoadRecords(getRecords);
    }

    /** `handleDeleteRecord`: the delete is issued while the grid loads. If
        it fails, the failure is captured and neither the page nor the
        records change and nothing is reloaded. If it succeeds, the page
        moves back one when the deleted record was alone on a page after
        the first, and the records are reloaded. The grid stops loading. */
    method HandleDeleteRecord(record: OperationRecord,
                              deleteRecord: (string, string) -> Result<()>,
                              getRecords: GetRecordsCall -> Result<PaginatedOperationRecords>)
      modifies this, records, errors
      ensures !gridLoading && initialized == old(initialized)
      ensures var deleted := DeleteRequested(auth.authToken, record.id, true);
              deleteRecord(auth.authToken, record.id).Err? ==>
                requests == old(requests) + [deleted] &&
                records.State() == old(records.State()) &&
                errors.error == Some(deleteRecord(auth.authToken, record.id).error)
      ensures var deleted := DeleteRequested(auth.authToken, record.id, true);
              var newPage := PageAfterDelete(|old(records.items)|, old(records.page));
              deleteRecord(auth.authToken, record.id).Ok? ==>
                Reloaded(old(records.State()).(query := old(records.Query()).(page := newPage)),
                         old(errors.error), old(requests) + [deleted], getRecords)
    {
      gridLoading := true;
      requests := requests + [DeleteRequested(auth.authToken, record.id, gridLoading)];
      var outcome := deleteRecord(auth.authToken, record.id);
      if outcome.Ok? {
        if |records.items| == 1 && records.page > 0 {
          // the only record of a later page is gone: show the page before
          records.SetPage(records.page - 1);
        }
        WrapLoadRecords(getRecords);
      }
      errors.RunAsyncCallback(outcome);
      gridLoading := false;
    }

    /** `handleCalculate`: the client method matching the operation is
        called. On success the balance is replaced by the reported one, the
        records are reloaded and the result is returned; on failure the
        failure is captured, nothing else changes and "" is returned. */
    method HandleCalculate(ev: CalculationTriggered,
                           calculate: CalculatorCall -> Result<OperationResult>,
                           getRecords: GetRecordsCall -> Result<PaginatedOperationRecords>) returns (result: string)
      modifies this, records, errors, balance
      ensures initialized == old(initialized)
      ensures var call := DispatchCall(ev, auth.authToken);
              calculate(call).Err? ==>
                result == "" &&
                requests == old(requests) + [CalculationRequested(call)] &&
                errors.error == Some(calculate(call).error) &&
                records.State() == old(records.State()) &&
                balance.creditBalance == old(balance.creditBalance) &&
                gridLoading == old(gridLoading)
      ensures var call := DispatchCall(ev, auth.authToken);
              calculate(call).Ok? ==>
                result == calculate(call).value.result &&
                balance.creditBalance == calculate(call).value.creditBalance &&
                Reloaded(old(records.State()), old(errors.error), old(requests) + [CalculationRequested(call)], getRecords)
    {
      var response := OperationResult("", 0.0);
      var call := DispatchCall(ev, auth.authToken);
      requests := requests + [CalculationRequested(call)];
      var outcome := calculate(call);
      match outcome {
        case Ok(r) =>
          response := r;
          balance.SetCreditBalance(response.creditBalance);
          WrapLoadRecords(getRecords);
          errors.RunAsyncCallback(Ok(()));
        case Err(e) =>
          errors.RunAsyncCallback(Err(e));
      }
      result := response.result;
    }

    /** The initial-load effect: while not initialized, the balance is
        fetched and stored, the first page is loaded and the page becomes
        initialized. A failed balance fetch is captured and stops there. A
        failed reload is captured by the reload itself, so the page still
        becomes initialized. */
    method Initialize(getCreditBalance: string -> Result<real>,
                      getRecords: GetRecordsCall -> Result<PaginatedOperationRecords>)
      modifies this, records, errors, balance
      ensures old(initialized) ==>
                initialized && requests == old(requests) && gridLoading == old(gridLoading) &&
                records.State() == old(records.State()) && errors.error == old(errors.error) &&
                balance.creditBalance == old(balance.creditBalance)
      ensures !old(initialized) && getCreditBalance(auth.authToken).Err? ==>
                !initialized && requests == old(requests) + [BalanceRequested(auth.authToken)] &&
                gridLoading == old(gridLoading) &&
                records.State() == old(records.State()) &&
                errors.error == Some(getCreditBalance(auth.authToken).error) &&
                balance.creditBalance == old(balance.creditBalance)
      ensures !old(initialized) && getCreditBalance(auth.authToken).Ok? ==>
                initialized &&
                balance.creditBalance == getCreditBalance(auth.authToken).value &&
                Reloaded(old(records.State()), old(errors.error), old(requests) + [BalanceRequested(auth.authToken)], getRecords)
    {
      if !initialized {
        requests := requests + [BalanceRequested(auth.authToken)];
        var outcome := getCreditBalance(auth.authToken);
        match outcome {
          case Ok(b) =>
            balance.SetCreditBalance(b);
            WrapLoadRecords(getRecords);
            initialized := true;
            errors.RunAsyncCallback(Ok(()));
          case Err(e) =>
            errors.RunAsyncCallback(Err(e));
        }
      }
    }

    /** `handleSignOut`: the sign-out request, then the credentials are
        cleared; a failure is captured and leaves them in place. */
    method HandleSignOut(signOut: string -> Result<()>)
      modifies this, auth, errors
      ensures requests == old(requests) + [SignOutRequested(old(auth.authToken))]
      ensures signOut(old(auth.authToken)).Ok? ==>
                auth.username == "" && auth.authToken == "" && errors.error == old(errors.error)
      ensures signOut(old(auth.authToken)).Err? ==>
                auth.username == old(auth.username) && auth.authToken == old(auth.authToken) &&
                errors.error == Some(signOut(old(auth.authToken)).error)
      ensures gridLoading == old(gridLoading) && initialized == old(initialized)
    {
      requests := requests + [SignOutRequested(auth.authToken)];
      var outcome := signOut(auth.authToken);
      if outcome.Ok? {
        auth.ClearCredentials();
      }
      errors.RunAsyncCallback(outcome);
    }
  }

  /** Deleting the only record shown on the third page (page 2, zero-based)
      moves the page to the second one and reloads it. */
  method DeleteOnlyRecordOfLaterPage(record: OperationRecord, authToken: string,
                                     deleteRecord: (string, string) -> Result<()>,
                                     getRecords: GetRecordsCall -> Result<PaginatedOperationRecords>)
    returns (page: int, items: seq<OperationRecord>)
    requires deleteRecord(authToken, record.id).Ok?
    requires getRecords(BuildCall(authToken, InitialQuery.(page := 1))).Ok?
    ensures page == 1
    ensures items == getRecords(BuildCall(authToken, InitialQuery.(page := 1))).value.items
  {
    var records := new OperationRecordsStore();
    records.items := [record];
    records.page := 2;
    var errors := new ErrorStore();
    var auth := new AuthStore();
    auth.SetCredentials("", authToken);
    var balance := new CreditBalanceStore();
    var calculatorPage := new CalculatorPage(records, errors, auth, balance);
    calculatorPage.HandleDeleteRecord(record, deleteRecord, getRecords);
    page, items := records.page, records.items;
  }

  /** Dividing "123" by "2" on a fresh page, with a backend that answers
      "abcd" and a balance of 40: the result is shown, the balance becomes
      40, and exactly one reload follows the calculation. */
  method DivideUpdatesBalance(authToken: string, getRecords: GetRecordsCall -> Result<PaginatedOperationRecords>)
    returns (result: string, creditBalance: real, calculatorPage: CalculatorPage)
    ensures result == "abcd" && creditBalance == 40.0
    ensures calculatorPage.requests ==
              [CalculationRequested(Divide(authToken, "123", "2")), RecordsRequested(BuildCall(authToken, InitialQuery), true)]
  {
    var records := new OperationRecordsStore();
    var errors := new ErrorStore();
    var auth := new AuthStore();
    auth.SetCredentials("", authToken);
    var balance := new CreditBalanceStore();
    calculatorPage := new CalculatorPage(records, errors, auth, balance);
    var calculate: CalculatorCall -> Result<OperationResult> :=
      c => if c == Divide(authToken, "123", "2") then Ok(OperationResult("abcd", 40.0)) else Err(OtherError("unexpected call"));
    result := calculatorPage.HandleCalculate(CalculationTriggered(DIVIDE, "123", "2"), calculate, getRecords);
    creditBalance := balance.creditBalance;
  }

  /** A calculation on a fresh page wired to the calculator client: the
      form shows the `result` the server answered to the operation's own
      request, and the balance becomes the one it reported; when that
      request fails the form shows "", the balance keeps its initial value
      and the failure is held. */
  method CalculateThroughClient(post: HttpRequest -> Result<OperationResult>, authToken: string,
                                ev: CalculationTriggered,
                                getRecords: GetRecordsCall -> Result<PaginatedOperationRecords>)
    returns (result: string, creditBalance: real, error: Option<Failure>)
    ensures var answer := post(CallRequest(DispatchCall(ev, authToken)));
            answer.Ok? ==> result == answer.value.result && creditBalance == answer.value.creditBalance
    ensures var answer := post(CallRequest(DispatchCall(ev, authToken)));
            answer.Err? ==> result == "" && creditBalance == UnknownBalance && error == Some(answer.error)
  {
    var records := new OperationRecordsStore();
    var errors := new ErrorStore();
    var auth := new AuthStore();
    auth.SetCredentials("", authToken);
    var balance := new CreditBalanceStore();
    var calculatorPage := new CalculatorPage(records, errors, auth, balance);
    var calculate: CalculatorCall -> Result<OperationResult> := c => Invoke(post, c);
    result := calculatorPage.HandleCalculate(ev, calculate, getRecords);
    creditBalance, error := balance.creditBalance, errors.error;
  }

  /** A delete on a fresh page wired to the records client: a rejected
      `DELETE /operation-records/<id>` is held as the error and the page
      stays the first; an accepted one leaves only what the reload of the
      first page may have failed with. */
  method DeleteThroughClient(http: HttpRequest -> Result<()>, authToken: string, record: OperationRecord,
                             getRecords: GetRecordsCall -> Result<PaginatedOperationRecords>)
    returns (error: Option<Failure>, page: int)
    ensures var answer := http(DeleteRequest(authToken, record.id));
            answer.Err? ==> error == Some(answer.error) && page == 0
    ensures var answer := http(DeleteRequest(authToken, record.id));
            answer.Ok? ==> error == AfterRun(None, getRecords(BuildCall(authToken, InitialQuery))) && page == 0
  {
    var records := new OperationRecordsStore();
    var errors := new ErrorStore();
    var auth := new AuthStore();
    auth.SetCredentials("", authToken);
    var balance := new CreditBalanceStore();
    var calculatorPage := new CalculatorPage(records, errors, auth, balance);
    var deleteRecord: (string, string) -> Result<()> := (t, id) => Delete(http, t, id);
    calculatorPage.HandleDeleteRecord(record, deleteRecord, getRecords);
    error, page := errors.error, records.page;
  }
}
