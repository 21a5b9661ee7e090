/** The records table: its column headers, which of them sort, what a click
    on a header asks for, and the page sizes offered. */
module OperationRecordsTable {
  import opened Remote
  import opened Operations
  import opened RecordsStore

  /** One column header (alignment and test ids are left out). */
  datatype HeadCell = HeadCell(id: RecordAttribute, caption: string, sortable: bool)

  /** `headCells`: the six columns in display order. */
  const HeadCells: seq<HeadCell> := [
    HeadCell(CreatedDate, "Executed At", true),
    HeadCell(Type, "Operation", true),
    HeadCell(Input, "Input", false),
    HeadCell(Result, "Output", true),
    HeadCell(Cost, "Cost", false),
    HeadCell(CreditBalance, "Credit Balance", false)]

  /** The attribute of each column, in display order. */
  function ColumnIds(): (ids: seq<RecordAttribute>)
    ensures |ids| == |HeadCells| && forall i :: 0 <= i < |HeadCells| ==> ids[i] == HeadCells[i].id
  {
    seq(|HeadCells|, i requires 0 <= i < |HeadCells| => HeadCells[i].id)
  }

  predicate IsSortableAttribute(a: RecordAttribute)
  {
    a == CreatedDate || a == Type || a == Result
  }

  /** Exactly the executed-at, operation and output columns sort; each
      attribute but the id has one column, and no column repeats. */
  lemma SortableColumns()
    ensures |HeadCells| == 6
    ensures forall i :: 0 <= i < |HeadCells| ==> (HeadCells[i].sortable <==> IsSortableAttribute(HeadCells[i].id))
    ensures forall i :: 0 <= i < |HeadCells| ==> HeadCells[i].id != Id
    ensures forall a: RecordAttribute :: a != Id ==> a in ColumnIds()
    ensures forall i, j :: 0 <= i < |HeadCells| && 0 <= j < |HeadCells| && HeadCells[i].id == HeadCells[j].id ==> i == j
  {
    var ids := ColumnIds();
    forall a: RecordAttribute | a != Id
      ensures a in ids
    {
      match a
      case CreatedDate => assert ids[0] == a;
      case Type => assert ids[1] == a;
      case Input => assert ids[2] == a;
      case Result => assert ids[3] == a;
      case Cost => assert ids[4] == a;
      case CreditBalance => assert ids[5] == a;
    }
  }

  /** What the table asks the page to sort by. */
  datatype SortEvent = SortEvent(orderBy: RecordAttribute, sortDir: SortDir)

  /** `handleSort`: the clicked column, ascending unless it is already the
      sort column, in which case the direction flips. */
  function HandleSort(orderBy: RecordAttribute, sortDir: SortDir, col: HeadCell): (e: SortEvent)
    ensures e.orderBy == col.id
    ensures orderBy == col.id ==> e.sortDir != sortDir
    ensures orderBy != col.id ==> e.sortDir == Asc
  {
    var newSortDir := if orderBy == col.id then (if sortDir == Asc then Desc else Asc) else Asc;
    SortEvent(col.id, newSortDir)
  }

  /** A click on a header: only sortable headers carry a sort label, so only
      they emit an event. */
  function ClickHeader(orderBy: RecordAttribute, sortDir: SortDir, col: HeadCell): (e: Option<SortEvent>)
    ensures e.Some? <==> col.sortable
    ensures e.Some? ==> e.value.orderBy == col.id
    ensures e.Some? && orderBy == col.id ==> e.value.sortDir != sortDir
    ensures e.Some? && orderBy != col.id ==> e.value.sortDir == Asc
  {
    if col.sortable then Some(HandleSort(orderBy, sortDir, col)) else None
  }

  /** Clicking the sort column twice gives back the original direction. */
  lemma ToggleTwiceRestores(orderBy: RecordAttribute, sortDir: SortDir, col: HeadCell)
    requires col.id == orderBy
    ensures var e1 := HandleSort(orderBy, sortDir, col);
            HandleSort(e1.orderBy, e1.sortDir, col) == SortEvent(orderBy, sortDir)
  {
  }

  /** The input, cost and credit-balance columns never emit a sort event. */
  lemma NonSortableColumnsNeverEmit(orderBy: RecordAttribute, sortDir: SortDir, i: int)
    requires 0 <= i < |HeadCells|
    requires !IsSortableAttribute(HeadCells[i].id)
    ensures ClickHeader(orderBy, sortDir, HeadCells[i]) == None
  {
  }

  /** MUI's `sortDirection` of a header cell: undefined, `false`, or a direction. */
  datatype CellSortDirection = Undefined | Inactive | Active(dir: SortDir)

  /** `getSortDirection`. */
  function GetSortDirection(orderBy: RecordAttribute, sortDir: SortDir, cell: HeadCell): (r: CellSortDirection)
    ensures r == Undefined <==> !cell.sortable
    ensures r == Inactive <==> cell.sortable && orderBy != cell.id
    ensures r.Active? <==> cell.sortable && orderBy == cell.id
    ensures r.Active? ==> r.dir == sortDir
  {
    if cell.sortable then (if orderBy == cell.id then Active(sortDir) else Inactive) else Undefined
  }

  /** At most one header shows a direction at a time. */
  lemma AtMostOneActiveHeader(orderBy: RecordAttribute, sortDir: SortDir, i: int, j: int)
    requires 0 <= i < |HeadCells| && 0 <= j < |HeadCells|
    requires GetSortDirection(orderBy, sortDir, HeadCells[i]).Active?
    requires GetSortDirection(orderBy, sortDir, HeadCells[j]).Active?
    ensures i == j
  {
  }

  /** `rowsPerPageOptions`. */
  const PageSizeOptions: seq<int> := [5, 10, 15]

  /** The choices are exactly 5, 10 and 15, and the store's initial page size
      is one of them. */
  lemma PageSizeChoices()
    ensures (set k | k in PageSizeOptions) == {5, 10, 15}
    ensures InitialQuery.pageSize in PageSizeOptions
  {
  }
}
