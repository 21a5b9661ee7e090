# Serverless calculator UI: a Dafny model of its client-side core

The serverless calculator UI is a React single-page front end for a
pay-per-operation calculator. Arithmetic, balances and the history of
operations live in a remote backend. The browser side holds a small,
deterministic core:

- **Stores** (zustand):
  - the paginated query store of operation records;
  - the error store that captures failures ("capture and stop");
  - the authentication store;
  - the credit balance store.
- **Remote clients**, which build requests and rename the fields of
  responses: the calculator client and the operation-records client.
- **The calculator page controller.** It turns table, filter and calculator
  events into store updates followed by one reload of the records. It also
  keeps the grid's loading flag around that reload.
- **Components that are small state machines or tables**:
  - the records table's sort rule and column table;
  - the filter form;
  - the sign-in form and the login page;
  - the calculator form;
  - the error dialog;
  - the route guard.

How the model is built:

- **Stores and stateful components become classes.** Each field the
  source updates in place is a class field. Each setter or handler is a
  method with a `modifies` clause that states the whole new state.
- **The store's fields have a datatype view.** The records store exposes
  them as a `StoreState` datatype, so every setter and the reload are
  stated against a pure function (`Loaded`, `BuildCall`).
- **Remote services are function parameters.** Every remote service
  (records listing, delete, calculation, balance, sign-in, sign-out) is a
  function-typed parameter that answers `Ok(value)` or `Err(failure)`.
  Handlers receive it per call, so a stateful backend may answer
  differently on each call.
- **Request logs are ghost sequences.** The page controller, the sign-in
  form and the calculator form each keep a ghost log of the requests or
  callbacks they issued. Entries for the listing and delete requests, the
  sign-in submissions and the calculation triggers record the loading flag
  at the time of the call. This lets the model state "exactly one reload", "no reload
  after a failed delete" and "loading while the request is out".
- **Each handler is one atomic step.** An `await` inside a handler is
  modelled as the call settling within that step.

Files, one module per core source file:

| file | module | source |
|---|---|---|
| remote.dfy | `Remote` | shared: Option, Failure, Result, HTTP request shape, bearer header |
| operations.dfy | `Operations` | src/components/model/operations.ts |
| operation_records_client.dfy | `OperationRecordsClient` | src/components/clients/operationRecordsClient.ts |
| calculator_client.dfy | `CalculatorClient` | src/components/clients/calculatorClient.ts |
| error_store.dfy | `Errors` | src/components/hooks/useErrorStore.ts |
| auth_store.dfy | `Auth` | src/components/hooks/useAuthStore.ts |
| credit_balance_store.dfy | `CreditBalance` | src/components/hooks/useCreditBalanceStore.ts |
| operation_records_store.dfy | `RecordsStore` | src/components/hooks/useOperationRecordsStore.ts |
| operation_records_table.dfy | `OperationRecordsTable` | src/components/operationRecords/OperationRecords.tsx |
| operation_records_filter.dfy | `RecordsFilter` | src/components/operationRecords/OperationRecordsFilter.tsx |
| async_error_dialog.dfy | `ErrorDialog` | src/components/common/AsyncErrorDialog.tsx |
| protected_route.dfy | `Routing` | src/components/common/ProtectedRoute.tsx |
| sign_in.dfy | `SignInForm` | src/components/login/SignIn.tsx |
| login_page.dfy | `Login` | src/browser/pages/LoginPage.tsx |
| calculator_form.dfy | `CalculatorForm` | src/components/calculator/Calculator.tsx |
| calculator_page.dfy | `CalculatorPageController` | src/browser/pages/CalculatorPage.tsx |

Points where the code's behaviour is easy to misread, modelled as the code
has it:

- **Record types from the backend.** The records client copies each
  record's `type` through unchanged
  (src/components/clients/operationRecordsClient.ts:53), so `WireRecord`
  carries an `OperationType` and `MapRecord` keeps it as it is. Only the
  store's query filter is translated to a category name
  (src/components/hooks/useOperationRecordsStore.ts:26-33, 83).
- **Handlers before initialization.** No handler of the calculator page
  checks `initialized`; only the initial-load effect does
  (src/browser/pages/CalculatorPage.tsx:73-82).
- **Page size.** `setPageSize` accepts any number
  (src/components/hooks/useOperationRecordsStore.ts:51-55); only the table
  offers 5, 10 and 15 (`PageSizeChoices`).

## Model

| member | source | states |
|---|---|---|
| Remote.Bearer | src/components/clients/operationRecordsClient.ts:38 | the Authorization header is `"bearer "` followed by exactly the token |
| Remote.BearerRoundTrip | src/components/clients/calculatorClient.ts:29 | the token can be read back from the header unchanged |
| Operations.AllOperationTypesComplete | src/components/model/operations.ts:1-8 | there are exactly six operation types, each listed once |
| Operations.RequiredInputs | src/components/model/operations.ts:10-17 | the count is at most 2; it is 2 exactly for ADD/SUBTRACT/MULTIPLY/DIVIDE, 1 exactly for SQRT, 0 exactly for RAND_STR |
| Operations.SortDirName | src/components/model/operations.ts:31 | "asc" exactly for ascending, "desc" exactly for descending |
| Operations.SortDirNameRoundTrip | src/components/model/operations.ts:31 | a direction's name reads back as that direction |
| Operations.AttributeFromName | src/components/model/operations.ts:29 | a name that is read as an attribute is that attribute's name |
| Operations.AttributeNameRoundTrip | src/components/model/operations.ts:19-29 | every attribute's name reads back as that attribute |
| Operations.AllAttributesComplete | src/components/model/operations.ts:19-29 | the attribute type ranges over exactly the seven record fields, with seven distinct names |
| OperationRecordsClient.GetRecordsRequest | src/components/clients/operationRecordsClient.ts:37-48 | GET `/operation-records` with the bearer header; each argument is the query parameter of the same name, unchanged; `operationType` is present exactly when it is not null; no other parameter and no body is sent |
| OperationRecordsClient.GetRecordsRequestRoundTrip | src/components/clients/operationRecordsClient.ts:37-48 | the server recovers exactly the call made from the request: no argument is lost or altered |
| OperationRecordsClient.MapRecord | src/components/clients/operationRecordsClient.ts:50-60 | field-by-field renaming: id, type, operationInput→input, operationResult→result, createdAt→createdDate, cost, userBalance→creditBalance |
| OperationRecordsClient.MapRecordRoundTrip | src/components/clients/operationRecordsClient.ts:50-60 | the renaming loses nothing: reversing it gives the wire record back |
| OperationRecordsClient.MapRecords | src/components/clients/operationRecordsClient.ts:50 | same length; the i-th record is the renaming of the i-th wire record |
| OperationRecordsClient.MapRecordsRoundTrip | src/components/clients/operationRecordsClient.ts:50-60 | mapping the list neither drops, reorders nor merges records (it can be reversed exactly) |
| OperationRecordsClient.ToPaginated | src/components/clients/operationRecordsClient.ts:62-65 | the items are the renamed result array in order; `totalItems` is the response's `totalResults` |
| OperationRecordsClient.GetRecords | src/components/clients/operationRecordsClient.ts:27-66 | a rejected request is passed on unchanged; a response yields its total and records that map back to exactly the wire records |
| OperationRecordsClient.DeleteRequest | src/components/clients/operationRecordsClient.ts:68-72 | DELETE on `/operation-records/` followed by the id, with the bearer header, no parameters and no body |
| OperationRecordsClient.Delete | src/components/clients/operationRecordsClient.ts:68-72 | the outcome is the server's answer to exactly that delete request, passed on unchanged |
| OperationRecordsClient.DeleteRequestTargetsRecord | src/components/clients/operationRecordsClient.ts:68-72 | the server reads exactly the requested id and token back from the delete request |
| CalculatorClient.EndpointName | src/components/clients/calculatorClient.ts:34-56 | each operation's endpoint segment reads back, through the inverse table, as that operation |
| CalculatorClient.EndpointNamesDistinct | src/components/clients/calculatorClient.ts:34-56 | the six operations post to six distinct endpoints |
| CalculatorClient.InvokeOperation | src/components/clients/calculatorClient.ts:20-32 | POST to `/calculator/<url>` with the bearer header; the body holds `input1`/`input2` exactly when each is defined, with its value, and nothing else |
| CalculatorClient.CallRequest | src/components/clients/calculatorClient.ts:34-56 | each client method posts to its operation's endpoint; the body carries as many operands as the operation requires, with the call's values; SQRT sends only `input1`, RAND_STR sends none; the body holds nothing but `input1`/`input2` and no query parameter is sent |
| CalculatorClient.Invoke | src/components/clients/calculatorClient.ts:20-56 | each client method resolves with the server's answer (`result.data`) to exactly its operation's request, unchanged |
| Errors.ErrorStore.constructor | src/components/hooks/useErrorStore.ts:13 | the initial error is undefined |
| Errors.AfterRun | src/components/hooks/useErrorStore.ts:14-31 | the error slot after a wrapped call: unchanged on success, the call's failure (overwriting any earlier one) on failure |
| Errors.ErrorStore.RunCallback | src/components/hooks/useErrorStore.ts:14-22 | success returns the callback's value and leaves the error; failure stores it, overwriting any earlier one, and returns nothing instead of throwing |
| Errors.ErrorStore.RunAsyncCallback | src/components/hooks/useErrorStore.ts:23-31 | the same capture for async callbacks; it always settles normally |
| Errors.ErrorStore.ClearError | src/components/hooks/useErrorStore.ts:32-36 | the error becomes undefined, whatever it was |
| Errors.FailTwiceThenClear | src/components/hooks/useErrorStore.ts:23-36 | the later of two failures is held; clearing once or twice leaves nothing held |
| Auth.AuthStore.constructor | src/components/hooks/useAuthStore.ts:16-17 | username and token start as "" |
| Auth.AuthStore.SetCredentials | src/components/hooks/useAuthStore.ts:18-23 | username and token become exactly the arguments |
| Auth.AuthStore.ClearCredentials | src/components/hooks/useAuthStore.ts:24-29 | both fields become "" |
| Auth.SignInThenOut | src/components/hooks/useAuthStore.ts:16-29 | setting and then clearing credentials (clearing twice) gives the initial state |
| CreditBalance.CreditBalanceStore.constructor | src/components/hooks/useCreditBalanceStore.ts:11 | the initial balance is -1 |
| CreditBalance.CreditBalanceStore.SetCreditBalance | src/components/hooks/useCreditBalanceStore.ts:12-15 | the balance becomes exactly the value given |
| CreditBalance.LastWriteWins | src/components/hooks/useCreditBalanceStore.ts:12-15 | after two writes the balance is the second, not an accumulation |
| RecordsStore.FilterCategory | src/components/hooks/useOperationRecordsStore.ts:26-33 | the filter mapping table is total: every type's category reads back, through the inverse table, as that type |
| RecordsStore.FilterCategoryInjective | src/components/hooks/useOperationRecordsStore.ts:26-33 | the filter mapping table is one-to-one: no two types share a category |
| RecordsStore.FilterParam | src/components/hooks/useOperationRecordsStore.ts:82-83 | "ALL" is sent as null (absent) and nothing else is; any other type is sent as its category name |
| RecordsStore.BuildCall | src/components/hooks/useOperationRecordsStore.ts:84-93 | `pageNumber` is `page + 1`; page size, sort field, sort order and both substring filters pass unchanged; the type filter goes through `FilterParam` |
| RecordsStore.BuildCallRoundTrip | src/components/hooks/useOperationRecordsStore.ts:82-93 | the call determines the whole query state, which can be read back from it exactly |
| RecordsStore.Loaded | src/components/hooks/useOperationRecordsStore.ts:95-98 | on success the items and total become exactly the response's; on failure nothing changes; the query fields never change |
| RecordsStore.OperationRecordsStore.constructor | src/components/hooks/useOperationRecordsStore.ts:37-45 | no items, total 0, page 0, size 5, ordered by createdDate descending, type filter "ALL", both substring filters "" |
| RecordsStore.OperationRecordsStore.SetPage | src/components/hooks/useOperationRecordsStore.ts:46-50 | only `page` changes; items and total included, everything else is as before |
| RecordsStore.OperationRecordsStore.SetPageSize | src/components/hooks/useOperationRecordsStore.ts:51-55 | only `pageSize` changes |
| RecordsStore.OperationRecordsStore.SetOrderBy | src/components/hooks/useOperationRecordsStore.ts:56-60 | only `orderBy` changes |
| RecordsStore.OperationRecordsStore.SetSortDir | src/components/hooks/useOperationRecordsStore.ts:61-65 | only `sortDir` changes |
| RecordsStore.OperationRecordsStore.SetOperationTypeFilter | src/components/hooks/useOperationRecordsStore.ts:66-70 | only the type filter changes |
| RecordsStore.OperationRecordsStore.SetInputContainsFilter | src/components/hooks/useOperationRecordsStore.ts:71-75 | only the input filter changes |
| RecordsStore.OperationRecordsStore.SetOutputContainsFilter | src/components/hooks/useOperationRecordsStore.ts:76-80 | only the output filter changes |
| RecordsStore.OperationRecordsStore.LoadRecords | src/components/hooks/useOperationRecordsStore.ts:81-99 | one call built from the current state; the new state is `Loaded` from the answer; a failure is handed back to the caller |
| OperationRecordsTable.SortableColumns | src/components/operationRecords/OperationRecords.tsx:37-80 | six columns; exactly executed-at, operation and output sort; every attribute except id has exactly one column |
| OperationRecordsTable.HandleSort | src/components/operationRecords/OperationRecords.tsx:112-118 | emits the clicked column; the direction flips if it is already the sort column, otherwise it is "asc" |
| OperationRecordsTable.ClickHeader | src/components/operationRecords/OperationRecords.tsx:130-135 | a click emits a sort event exactly when the header is sortable, with `HandleSort`'s column and direction |
| OperationRecordsTable.ToggleTwiceRestores | src/components/operationRecords/OperationRecords.tsx:114-116 | clicking the sort column twice gives back the original direction |
| OperationRecordsTable.NonSortableColumnsNeverEmit | src/components/operationRecords/OperationRecords.tsx:37-80 | the input, cost and credit-balance headers never emit a sort event |
| OperationRecordsTable.GetSortDirection | src/components/operationRecords/OperationRecords.tsx:102-110 | undefined exactly for non-sortable headers, false exactly for inactive sortable ones, the current direction exactly for the sort column |
| OperationRecordsTable.AtMostOneActiveHeader | src/components/operationRecords/OperationRecords.tsx:102-110 | at most one header shows a direction |
| OperationRecordsTable.PageSizeChoices | src/components/operationRecords/OperationRecords.tsx:241 | the page-size choices are exactly {5, 10, 15}, and the store's initial size is one of them |
| RecordsFilter.SelectableTypes | src/components/operationRecords/OperationRecordsFilter.tsx:55-60 | seven options: "ALL" first, then every operation type, each exactly once |
| RecordsFilter.OperationRecordsFilter.constructor | src/components/operationRecords/OperationRecordsFilter.tsx:16-18 | the form starts as {"ALL", "", ""} |
| RecordsFilter.OperationRecordsFilter.HandleOperationTypeChanged | src/components/operationRecords/OperationRecordsFilter.tsx:53 | only the type changes |
| RecordsFilter.OperationRecordsFilter.HandleInputContainsChanged | src/components/operationRecords/OperationRecordsFilter.tsx:71 | only the input filter changes |
| RecordsFilter.OperationRecordsFilter.HandleOutputContainsChanged | src/components/operationRecords/OperationRecordsFilter.tsx:82 | only the output filter changes |
| RecordsFilter.OperationRecordsFilter.HandleSubmit | src/components/operationRecords/OperationRecordsFilter.tsx:20-23 | applies exactly the three current values and changes nothing |
| RecordsFilter.OperationRecordsFilter.HandleClear | src/components/operationRecords/OperationRecordsFilter.tsx:25-30 | all three fields reset to the defaults, and the defaults are applied |
| RecordsFilter.SubmitAfterClear | src/components/operationRecords/OperationRecordsFilter.tsx:20-30 | whatever was entered, a submit right after a clear applies the defaults |
| ErrorDialog.View | src/components/common/AsyncErrorDialog.tsx:16-38 | open exactly when there is an error; the session-expired message exactly for an HTTP 401, the generic one otherwise; closing ends with clearing the error and includes clearing credentials exactly for a 401 |
| ErrorDialog.Close | src/components/common/AsyncErrorDialog.tsx:16-32 | the error is cleared; credentials are cleared for a 401 and untouched otherwise |
| Routing.Guard | src/components/common/ProtectedRoute.tsx:5-13 | redirect exactly when the token is empty, to `/login` with replace; otherwise the children, unchanged; nothing but the token decides |
| SignInForm.SignIn.constructor | src/components/login/SignIn.tsx:19-22 | empty fields, not loading, not valid |
| SignInForm.SignIn.HandleEmailChanged | src/components/login/SignIn.tsx:25-28 | the new e-mail; valid exactly when it and the current password are both non-empty |
| SignInForm.SignIn.HandlePasswordChanged | src/components/login/SignIn.tsx:30-33 | the new password; valid exactly when it and the current e-mail are both non-empty |
| SignInForm.SignIn.HandleSubmit | src/components/login/SignIn.tsx:35-46 | `onSubmit` is called, while loading, only with both fields filled; loading ends afterwards; navigation to "/" exactly when it answers true |
| SignInForm.SignIn.SubmitDisabled | src/components/login/SignIn.tsx:103 | the button is enabled exactly when both fields are filled and no submission is under way |
| Login.LoginPage.constructor | src/browser/pages/LoginPage.tsx:14 | the message starts empty |
| Login.LoginPage.HandleSignIn | src/browser/pages/LoginPage.tsx:15-25 | answers true exactly on success; success stores the user name and the returned token with an empty message; failure shows "Cannot authenticate user" and leaves the credentials |
| Login.LoginPage.OnMount | src/browser/pages/LoginPage.tsx:27-32 | navigates to "/" exactly when a token is present |
| CalculatorForm.ValidFormFor | src/components/calculator/Calculator.tsx:99-107 | valid exactly when no input is required, or the first is valid and one is required, or both are valid and two are required |
| CalculatorForm.InputControlCount | src/components/calculator/Calculator.tsx:109-141 | at most two inputs are rendered, as many as required |
| CalculatorForm.InputControlsMatchOperation | src/components/calculator/Calculator.tsx:109-141 | every operation renders exactly its required number of inputs |
| CalculatorForm.Calculator.constructor | src/components/calculator/Calculator.tsx:67-75 | starts at ADD with two required inputs, empty values and result, not loading, form invalid |
| CalculatorForm.Calculator.HandleInput1Changed | src/components/calculator/Calculator.tsx:17-35 | the first operand changes; its input is valid exactly when the value is non-empty; nothing else changes |
| CalculatorForm.Calculator.HandleInput2Changed | src/components/calculator/Calculator.tsx:17-35 | the same for the second operand |
| CalculatorForm.Calculator.HandleChangeOperation | src/components/calculator/Calculator.tsx:77-83 | no selection or the current operation is ignored; otherwise the operation and its required count are set and the result is cleared; a newly shown input starts invalid |
| CalculatorForm.Calculator.HandleCalculate | src/components/calculator/Calculator.tsx:85-97 | only with a valid form: the handler is called once, while loading, with the operation and operands; its answer is shown and loading ends |
| CalculatorForm.Calculator.CalculateDisabled | src/components/calculator/Calculator.tsx:182 | the button is enabled exactly when nothing is loading and every operand input the operation shows reports valid; an enabled button means every required operand is non-empty |
| CalculatorForm.RandomStringAlwaysEnabled | src/components/calculator/Calculator.tsx:182 | with no operand to fill, the random-string operation can be calculated whenever nothing is loading |
| CalculatorPageController.DispatchCall | src/browser/pages/CalculatorPage.tsx:98-117 | the client method called matches the operation type and carries the token and the operands |
| CalculatorPageController.DispatchRequestShape | src/browser/pages/CalculatorPage.tsx:98-117 | a calculation posts to its operation's endpoint with the bearer token and exactly the operands the operation requires |
| CalculatorPageController.PageAfterDelete | src/browser/pages/CalculatorPage.tsx:162-165 | one page back exactly when the deleted record was alone on a page after the first; otherwise the same page; never negative |
| CalculatorPageController.DeleteKeepsPageInRange | src/browser/pages/CalculatorPage.tsx:162-165 | after a delete, the page shown still holds records, or is the first page of an empty listing |
| CalculatorPageController.CalculatorPage.constructor | src/browser/pages/CalculatorPage.tsx:26-39 | not initialized, grid not loading, no request issued |
| CalculatorPageController.CalculatorPage.WrapLoadRecords | src/browser/pages/CalculatorPage.tsx:126-130 | one listing request, issued while the grid loads and built from the current store state; the store is `Loaded` with the answer; a failure is captured; the grid stops loading either way |
| CalculatorPageController.CalculatorPage.HandlePageChanged | src/browser/pages/CalculatorPage.tsx:132-135 | the requested page is set, then exactly one reload |
| CalculatorPageController.CalculatorPage.HandlePageSizeChanged | src/browser/pages/CalculatorPage.tsx:137-141 | the new size and page 0, then exactly one reload that asks for page number 1 |
| CalculatorPageController.CalculatorPage.HandleSortChanged | src/browser/pages/CalculatorPage.tsx:143-148 | the new column and direction and page 0, then exactly one reload |
| CalculatorPageController.CalculatorPage.HandleFiltersApplied | src/browser/pages/CalculatorPage.tsx:150-156 | the three submitted filters and page 0, then exactly one reload |
| CalculatorPageController.CalculatorPage.HandleDeleteRecord | src/browser/pages/CalculatorPage.tsx:158-169 | the delete is issued while loading. A failure is captured, with the page and records unchanged and no reload. A success sets `PageAfterDelete` and reloads once. The grid stops loading |
| CalculatorPageController.CalculatorPage.HandleCalculate | src/browser/pages/CalculatorPage.tsx:91-124 | one dispatched call. On success the balance becomes the reported one, one reload follows, and the result is returned. On failure the error is captured, nothing else changes, and "" is returned |
| CalculatorPageController.CalculatorPage.Initialize | src/browser/pages/CalculatorPage.tsx:73-82 | runs only while uninitialized. The balance is fetched; a failure is captured and stops there, still uninitialized. Otherwise the balance is stored, one reload follows and the page becomes initialized |
| CalculatorPageController.CalculatorPage.HandleSignOut | src/browser/pages/CalculatorPage.tsx:84-89 | sign-out with the token; success clears the credentials; failure is captured and leaves them |
| CalculatorPageController.DeleteOnlyRecordOfLaterPage | src/browser/pages/CalculatorPage.spec.tsx:324-361 | deleting the only record on page 2 moves to page 1 and shows what the reload of page 1 answered |
| CalculatorPageController.CalculateThroughClient | src/browser/pages/CalculatorPage.tsx:91-124 | with the page wired to the calculator client, the result shown and the new balance are those the server answered to the operation's own request; a rejected request shows "", keeps the initial balance and holds the failure |
| CalculatorPageController.DeleteThroughClient | src/browser/pages/CalculatorPage.tsx:158-169 | with the page wired to the records client, a rejected delete request is held as the error with the page unchanged; an accepted one leaves only the reload's failure, if any |
| CalculatorPageController.DivideUpdatesBalance | src/browser/pages/CalculatorPage.tsx:91-124 | dividing "123" by "2" with a backend answering "abcd" and 40 shows "abcd", sets the balance to 40 and issues exactly one reload after the calculation |

## Left out

- HTTP transport: axios, JSON encoding and decoding, and promise scheduling. Each remote call is a function returning `Ok` or `Err`. Requests are values (`HttpRequest`), and whether the server reads them back is stated by parse functions on the server's side.
- Axios's serialisation of query parameters: the model only keeps its effect that a null `operationType` is not sent (the key is absent from the request's parameters).
- The authentication and profile clients (`signIn`, `signOut`, `getCreditBalance`) are pure pass-through and appear only as function parameters of the handlers that call them.
- Races between overlapping reloads: there is no request versioning, and the reload after a calculation is not awaited. Every handler is one atomic step, so the model does not capture a late response overwriting a newer one.
- Stale closures: the delete handler reads `records` and `page` captured at render time. The model reads the store's current state.
- Rendering, layout and routing machinery: MUI, React hooks and React Router. Navigation and redirects are modelled as returned values. App, ErrorPage, NotFoundPage, Copyright, Profile and the error boundary are not part of this model.
- The table's filter-panel toggle (`isFilterOpen`) is display-only and not modelled.
- The displayed values of the calculator's number inputs: a `NumberInput` keeps its own value and ignores the value passed to it. The model keeps the parent's `input1`/`input2` and the validity each input reported. An input newly shown by an operation change starts invalid, while the parent keeps its old value.
- Persistence of the authentication store to local storage.
- Rejected form callbacks: `onSubmit` and `onCalculateTriggered` are total functions in the model. In the source, a rejecting callback would skip `setLoading(false)` and leave the form loading (src/components/login/SignIn.tsx:40-41, src/components/calculator/Calculator.tsx:89-95). The callbacks this app passes never reject: the login page catches the sign-in failure and the calculator page wraps the call in `runAsyncCallback`.
- Browser cleaning of number fields: the operand inputs are `type="number"` (src/components/calculator/Calculator.tsx:47), so the browser reports `""` for text that is not a number. The model takes the value as the browser reports it, so "valid exactly when non-empty" means "valid exactly when a number was entered"; the parsing itself is not modelled.
- Dates are opaque: `Date(text)` wraps the wire string, with no parsing or formatting.
- Cost and balance are JavaScript numbers that are only stored and copied; they are modelled as `real`, with no arithmetic.
- Bootstrap and wiring: index.tsx, the dependency container and the logger calls.
- Errors.ErrorStore.RunCallback: the callback is given as its outcome, so effects it made before failing are whatever the caller did first. That they are not rolled back shows in the page controller (for example, the balance stays set when the reload after it fails).
- CalculatorForm.Calculator.HandleInput1Changed: requires that the first input is shown (`requiredInputs >= 1`), since a hidden input cannot change. HandleInput2Changed likewise requires two inputs.
