/** The calculator client: one call per operation, each posted to its own
    endpoint with the operands it needs. */
module CalculatorClient {
  import opened Remote
  import opened Operations

  /** A call of the client interface: the method called and its arguments. */
  datatype CalculatorCall =
    | Add(authToken: string, input1: string, input2: string)
    | Subtract(authToken: string, input1: string, input2: string)
    | Multiply(authToken: string, input1: string, input2: string)
    | Divide(authToken: string, input1: string, input2: string)
    | Sqrt(authToken: string, input1: string)
    | RandString(authToken: string)

  /** What every operation resolves with. */
  datatype OperationResult = OperationResult(result: string, creditBalance: real)

  /** The operation a client method performs. */
  function OperationOf(c: CalculatorCall): OperationType
  {
    match c
    case Add(_, _, _) => ADD
    case Subtract(_, _, _) => SUBTRACT
    case Multiply(_, _, _) => MULTIPLY
    case Divide(_, _, _) => DIVIDE
    case Sqrt(_, _) => SQRT
    case RandString(_) => RAND_STR
  }

  /** The last path segment each operation is posted to. */
  function EndpointName(op: OperationType): (name: string)
    ensures OperationOfEndpoint(name) == Some(op)
  {
    match op
    case ADD => "add"
    case SUBTRACT => "subtract"
    case MULTIPLY => "multiply"
    case DIVIDE => "divide"
    case SQRT => "square-root"
    case RAND_STR => "random-string"
  }

  function OperationOfEndpoint(name: string): Option<OperationType>
  {
    if name == "add" then Some(ADD)
    else if name == "subtract" then Some(SUBTRACT)
    else if name == "multiply" then Some(MULTIPLY)
    else if name == "divide" then Some(DIVIDE)
    else if name == "square-root" then Some(SQRT)
    else if name == "random-string" then Some(RAND_STR)
    else None
  }

  /** The six operations use six distinct endpoints. */
  lemma EndpointNamesDistinct(a: OperationType, b: OperationType)
    ensures EndpointName(a) == EndpointName(b) ==> a == b
  {
  }

  const CalculatorPrefix: string := "/calculator/"

  /** `invokeOperation`: POST to `/calculator/<url>` with the bearer header;
      operands left undefined are not part of the JSON body. */
  function InvokeOperation(url: string, authToken: string, input1: Option<string>, input2: Option<string>): (r: HttpRequest)
    ensures r.verb == POST && r.path == CalculatorPrefix + url && r.authorization == Bearer(authToken)
    ensures r.params == map[]
    ensures r.body.Keys <= {"input1", "input2"}
    ensures "input1" in r.body <==> input1.Some?
    ensures "input2" in r.body <==> input2.Some?
    ensures input1.Some? ==> r.body["input1"] == input1.value
    ensures input2.Some? ==> r.body["input2"] == input2.value
  {
    var withFirst: map<string, string> := if input1.Some? then map["input1" := input1.value] else map[];
    var body := if input2.Some? then withFirst["input2" := input2.value] else withFirst;
    HttpRequest(POST, CalculatorPrefix + url, Bearer(authToken), map[], body)
  }

  /** How many operands a request body carries. */
  function BodyInputCount(r: HttpRequest): nat
  {
    (if "input1" in r.body then 1 else 0) + (if "input2" in r.body then 1 else 0)
  }

  /** The request each client method sends. */
  function CallRequest(c: CalculatorCall): (r: HttpRequest)
    ensures r.verb == POST && r.path == CalculatorPrefix + EndpointName(OperationOf(c))
    ensures r.authorization == Bearer(c.authToken)
    ensures BodyInputCount(r) == RequiredInputs(OperationOf(c))
    ensures "input1" in r.body ==> !c.RandString? && r.body["input1"] == c.input1
    ensures "input2" in r.body ==> !c.RandString? && !c.Sqrt? && r.body["input2"] == c.input2
    ensures r.params == map[] && r.body.Keys <= {"input1", "input2"}
  {
    match c
    case Add(t, a, b) => InvokeOperation("add", t, Some(a), Some(b))
    case Subtract(t, a, b) => InvokeOperation("subtract", t, Some(a), Some(b))
    case Multiply(t, a, b) => InvokeOperation("multiply", t, Some(a), Some(b))
    case Divide(t, a, b) => InvokeOperation("divide", t, Some(a), Some(b))
    case Sqrt(t, a) => InvokeOperation("square-root", t, Some(a), None)
    case RandString(t) => InvokeOperation("random-string", t, None, None)
  }

  /** The client method: post the request and hand back the response data
      unchanged. */
  function Invoke(post: HttpRequest -> Result<OperationResult>, c: CalculatorCall): (r: Result<OperationResult>)
    ensures r == post(CallRequest(c))
  {
    post(CallRequest(c))
  }
}
