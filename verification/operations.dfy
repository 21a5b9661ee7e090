/** The operation model: the operation enum, the number of inputs each
    operation requires, the sort direction and the operation record with
    the names of its attributes. */
module Operations {
  import opened Remote

  datatype OperationType = ADD | SUBTRACT | MULTIPLY | DIVIDE | SQRT | RAND_STR

  /** The enum's values in declaration order (what `Object.values` yields). */
  const AllOperationTypes: seq<OperationType> := [ADD, SUBTRACT, MULTIPLY, DIVIDE, SQRT, RAND_STR]

  /** The enum has exactly six values, each listed once. */
  lemma AllOperationTypesComplete()
    ensures |AllOperationTypes| == 6
    ensures forall op: OperationType :: op in AllOperationTypes
    ensures forall i, j :: 0 <= i < j < |AllOperationTypes| ==> AllOperationTypes[i] != AllOperationTypes[j]
  {
    forall op: OperationType ensures op in AllOperationTypes {
      match op
      case ADD => assert AllOperationTypes[0] == op;
      case SUBTRACT => assert AllOperationTypes[1] == op;
      case MULTIPLY => assert AllOperationTypes[2] == op;
      case DIVIDE => assert AllOperationTypes[3] == op;
      case SQRT => assert AllOperationTypes[4] == op;
      case RAND_STR => assert AllOperationTypes[5] == op;
    }
  }

  /** The binary arithmetic operations. */
  predicate IsBinary(op: OperationType)
  {
    op == ADD || op == SUBTRACT || op == MULTIPLY || op == DIVIDE
  }

  /** How many operands the calculator asks for before an operation may run. */
  function RequiredInputs(op: OperationType): (n: nat)
    ensures n <= 2
    ensures n == 2 <==> IsBinary(op)
    ensures n == 1 <==> op == SQRT
    ensures n == 0 <==> op == RAND_STR
  {
    match op
    case ADD => 2
    case SUBTRACT => 2
    case MULTIPLY => 2
    case DIVIDE => 2
    case SQRT => 1
    case RAND_STR => 0
  }

  datatype SortDir = Asc | Desc

  /** The wire spelling of a sort direction. */
  function SortDirName(d: SortDir): (s: string)
    ensures s == "asc" <==> d == Asc
    ensures s == "desc" <==> d == Desc
  {
    match d
    case Asc => "asc"
    case Desc => "desc"
  }

  function SortDirFromName(s: string): Option<SortDir>
  {
    if s == "asc" then Some(Asc) else if s == "desc" then Some(Desc) else None
  }

  /** A sort direction survives being written to the wire and read back. */
  lemma SortDirNameRoundTrip(d: SortDir)
    ensures SortDirFromName(SortDirName(d)) == Some(d)
  {
  }

  /** Opaque date: the text the backend sent, not parsed by this model. */
  datatype Date = Date(text: string)

  /** One past calculation. Cost and balance are numbers only stored and copied. */
  datatype OperationRecord = OperationRecord(
    id: string,
    opType: OperationType,
    input: seq<string>,
    result: string,
    createdDate: Date,
    cost: real,
    creditBalance: real)

  /** `keyof OperationRecord`: the seven attribute names. */
  datatype RecordAttribute = Id | Type | Input | Result | CreatedDate | Cost | CreditBalance

  const AllAttributes: seq<RecordAttribute> := [Id, Type, Input, Result, CreatedDate, Cost, CreditBalance]

  /** The attribute's name, as sent in the `sortField` parameter. */
  function AttributeName(a: RecordAttribute): string
  {
    match a
    case Id => "id"
    case Type => "type"
    case Input => "input"
    case Result => "result"
    case CreatedDate => "createdDate"
    case Cost => "cost"
    case CreditBalance => "creditBalance"
  }

  function AttributeFromName(s: string): (r: Option<RecordAttribute>)
    ensures r.Some? ==> AttributeName(r.value) == s
  {
    if s == "id" then Some(Id)
    else if s == "type" then Some(Type)
    else if s == "input" then Some(Input)
    else if s == "result" then Some(Result)
    else if s == "createdDate" then Some(CreatedDate)
    else if s == "cost" then Some(Cost)
    else if s == "creditBalance" then Some(CreditBalance)
    else None
  }

  /** Every attribute name reads back as its attribute, so names are distinct. */
  lemma AttributeNameRoundTrip(a: RecordAttribute)
    ensures AttributeFromName(AttributeName(a)) == Some(a)
  {
  }

  /** The attribute type ranges over exactly the seven record fields. */
  lemma AllAttributesComplete()
    ensures |AllAttributes| == 7
    ensures forall a: RecordAttribute :: a in AllAttributes
    ensures forall i, j :: 0 <= i < j < |AllAttributes| ==> AttributeName(AllAttributes[i]) != AttributeName(AllAttributes[j])
  {
    forall a: RecordAttribute ensures a in AllAttributes {
      match a
      case Id => assert AllAttributes[0] == a;
      case Type => assert AllAttributes[1] == a;
      case Input => assert AllAttributes[2] == a;
      case Result => assert AllAttributes[3] == a;
      case CreatedDate => assert AllAttributes[4] == a;
      case Cost => assert AllAttributes[5] == a;
      case CreditBalance => assert AllAttributes[6] == a;
    }
    forall i, j | 0 <= i < j < |AllAttributes|
      ensures AttributeName(AllAttributes[i]) != AttributeName(AllAttributes[j])
    {
      AttributeNameRoundTrip(AllAttributes[i]);
      AttributeNameRoundTrip(AllAttributes[j]);
    }
  }
}
