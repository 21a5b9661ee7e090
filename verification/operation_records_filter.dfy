/** The filter form above the records table: an operation type (or "ALL")
    and two substring fields, applied or cleared as a whole. */
module RecordsFilter {
  import opened Operations
  import opened RecordsStore

  /** `OperationRecordsFilterValues`: what the form hands to the page. */
  datatype FilterValues = FilterValues(operationType: TypeFilter, inputContains: string, outputContains: string)

  const DefaultFilterValues: FilterValues := FilterValues(All, "", "")

  /** The options of the type selector: "ALL" first, then every operation
      type in declaration order. */
  function SelectableTypes(): (opts: seq<TypeFilter>)
    ensures |opts| == 7 && opts[0] == All
    ensures forall f: TypeFilter :: f in opts
    ensures forall i, j :: 0 <= i < j < |opts| ==> opts[i] != opts[j]
  {
    AllOperationTypesComplete();
    var opts := [All] + seq(|AllOperationTypes|, i requires 0 <= i < |AllOperationTypes| => Only(AllOperationTypes[i]));
    assert forall f: TypeFilter :: f in opts by {
      forall f: TypeFilter ensures f in opts {
        if f.Only? {
          assert f.op in AllOperationTypes;
          var k :| 0 <= k < |AllOperationTypes| && AllOperationTypes[k] == f.op;
          assert opts[k + 1] == f;
        }
      }
    }
    opts
  }

  class OperationRecordsFilter {
    var operationType: TypeFilter
    var inputContains: string
    var outputContains: string

    function Values(): FilterValues
      reads this
    {
      FilterValues(operationType, inputContains, outputContains)
    }

    constructor ()
      ensures Values() == DefaultFilterValues
    {
      operationType, inputContains, outputContains := All, "", "";
    }

    /** The type selector's change handler. */
    method HandleOperationTypeChanged(t: TypeFilter)
      modifies this
      ensures Values() == old(Values()).(operationType := t)
    {
      operationType := t;
    }

    /** The input-contains field's change handler. */
    method HandleInputContainsChanged(str: string)
      modifies this
      ensures Values() == old(Values()).(inputContains := str)
    {
      inputContains := str;
    }

    /** The output-contains field's change handler. */
    method HandleOutputContainsChanged(str: string)
      modifies this
      ensures Values() == old(Values()).(outputContains := str)
    {
      outputContains := str;
    }

    /** `handleSubmit`: applies exactly the three current values. */
    method HandleSubmit() returns (applied: FilterValues)
      ensures applied.operationType == operationType
      ensures applied.inputContains == inputContains && applied.outputContains == outputContains
    {
      applied := FilterValues(operationType, inputContains, outputContains);
    }

    /** `handleClear`: resets the three fields and applies the defaults. */
    method HandleClear() returns (applied: FilterValues)
      modifies this
      ensures Values() == DefaultFilterValues && applied == DefaultFilterValues
    {
      operationType, inputContains, outputContains := All, "", "";
      applied := DefaultFilterValues;
    }
  }

  /** Whatever was typed, a submit right after a clear applies the defaults. */
  method SubmitAfterClear(t: TypeFilter, inputContains: string, outputContains: string) returns (applied: FilterValues)
    ensures applied == DefaultFilterValues
  {
    var form := new OperationRecordsFilter();
    form.HandleOperationTypeChanged(t);
    form.HandleInputContainsChanged(inputContains);
    form.HandleOutputContainsChanged(outputContains);
    var cleared := form.HandleClear();
    applied := form.HandleSubmit();
  }
}
