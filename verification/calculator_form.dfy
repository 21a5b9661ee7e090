/** The calculator form: an operation selector, as many operand inputs as
    the operation requires, and the result of the last calculation. */
module CalculatorForm {
  import opened Remote
  import opened Operations

  /** What the form hands to the page when a calculation is asked for. */
  datatype CalculationTriggered = CalculationTriggered(operationType: OperationType, input1: string, input2: string)

  /** A call of `onCalculateTriggered`, with the loading flag during it. */
  datatype Trigger = Trigger(event: CalculationTriggered, loading: bool)

  /** The form-validity effect: an operation with one operand needs the
      first input valid, one with two operands needs both; otherwise the
      form is valid. */
  function ValidFormFor(required: nat, input1Valid: bool, input2Valid: bool): (valid: bool)
    ensures required <= 2 ==>
              (valid <==> required == 0 || (required == 1 && input1Valid) || (required == 2 && input1Valid && input2Valid))
  {
    if required == 1 && !input1Valid then false
    else if required == 2 && (!input1Valid || !input2Valid) then false
    else true
  }

  /** How many operand inputs are rendered for a required-input count. */
  function InputControlCount(required: nat): (n: nat)
    ensures n <= 2
    ensures required <= 2 ==> n == required
  {
    (if required > 0 then 1 else 0) + (if required > 1 then 1 else 0)
  }

  /** Every operation renders exactly as many inputs as it requires. */
  lemma InputControlsMatchOperation(op: OperationType)
    ensures InputControlCount(RequiredInputs(op)) == RequiredInputs(op)
  {
  }

  class Calculator {
    var operation: OperationType
    var requiredInputs: nat
    var input1: string
    var input2: string
    /** What each operand input last reported through `onValidityChange`. */
    var input1Valid: bool
    var input2Valid: bool
    var operationResult: string
    var loading: bool
    /** Every `onCalculateTriggered` call made so far. */
    ghost var triggered: seq<Trigger>

    /** The required count follows the operation, and an input reports
        valid only when its value is non-empty. */
    ghost predicate Valid()
      reads this
    {
      requiredInputs == RequiredInputs(operation) &&
      (input1Valid ==> input1 != "") &&
      (input2Valid ==> input2 != "")
    }

    /** `validForm`, as the effect keeps it after every change of its inputs. */
    function ValidForm(): bool
      reads this
    {
      ValidFormFor(requiredInputs, input1Valid, input2Valid)
    }

    constructor ()
      ensures Valid()
      ensures operation == ADD && requiredInputs == 2 && !ValidForm()
      ensures input1 == "" && input2 == "" && operationResult == "" && !loading && triggered == []
    {
      operation := ADD;
      requiredInputs := RequiredInputs(ADD);
      input1, input2 := "", "";
      input1Valid, input2Valid := false, false;
      operationResult := "";
      loading := false;
      triggered := [];
    }

    /** The first operand input changed: a number input is valid exactly
        when its value is non-empty. */
    method HandleInput1Changed(value: string)
      requires Valid() && requiredInputs >= 1
      modifies this
      ensures Valid()
      ensures input1 == value && input1Valid == (value != "")
      ensures operation == old(operation) && requiredInputs == old(requiredInputs)
      ensures input2 == old(input2) && input2Valid == old(input2Valid)
      ensures operationResult == old(operationResult) && loading == old(loading) && triggered == old(triggered)
    {
      input1 := value;
      input1Valid := value != "";
    }

    /** The second operand input changed. */
    method HandleInput2Changed(value: string)
      requires Valid() && requiredInputs >= 2
      modifies this
      ensures Valid()
      ensures input2 == value && input2Valid == (value != "")
      ensures operation == old(operation) && requiredInputs == old(requiredInputs)
      ensures input1 == old(input1) && input1Valid == old(input1Valid)
      ensures operationResult == old(operationResult) && loading == old(loading) && triggered == old(triggered)
    {
      input2 := value;
      input2Valid := value != "";
    }

    /** `handleChangeOperation`: no selection, or the current operation, is
        ignored; another operation is selected with its required count and
        the shown result is cleared. An input that appears because of the
        change is freshly mounted and reports itself invalid. */
    method HandleChangeOperation(newOperation: Option<OperationType>)
      requires Valid()
      modifies this
      ensures Valid()
      ensures newOperation.None? || newOperation.value == old(operation) ==> unchanged(this)
      ensures newOperation.Some? && newOperation.value != old(operation) ==>
                operation == newOperation.value && requiredInputs == RequiredInputs(newOperation.value) &&
                operationResult == "" &&
                input1 == old(input1) && input2 == old(input2) &&
                input1Valid == (if old(requiredInputs) < 1 <= requiredInputs then false else old(input1Valid)) &&
                input2Valid == (if old(requiredInputs) < 2 <= requiredInputs then false else old(input2Valid)) &&
                loading == old(loading) && triggered == old(triggered)
    {
      if newOperation.Some? && newOperation.value != operation {
        var before := requiredInputs;
        operation := newOperation.value;
        requiredInputs := RequiredInputs(newOperation.value);
        operationResult := "";
        if before < 1 <= requiredInputs {
          input1Valid := false;
        }
        if before < 2 <= requiredInputs {
          input2Valid := false;
        }
      }
    }

    /** `handleCalculate`: with a valid form the page's handler is called
        while loading, and the string it returns is shown; otherwise
        nothing happens. */
    method HandleCalculate(onCalculate: CalculationTriggered -> string)
      requires Valid()
      modifies this
      ensures Valid()
      ensures !old(ValidForm()) ==> unchanged(this)
      ensures old(ValidForm()) ==>
                var ev := CalculationTriggered(old(operation), old(input1), old(input2));
                triggered == old(triggered) + [Trigger(ev, true)] &&
                operationResult == onCalculate(ev) && !loading &&
                operation == old(operation) && requiredInputs == old(requiredInputs) &&
                input1 == old(input1) && input2 == old(input2) &&
                input1Valid == old(input1Valid) && input2Valid == old(input2Valid)
    {
      if ValidForm() {
        loading := true;
        var ev := CalculationTriggered(operation, input1, input2);
        triggered := triggered + [Trigger(ev, loading)];
        operationResult := onCalculate(ev);
        loading := false;
      }
    }

    /** The calculate button's `disabled`. It is enabled exactly when no
        calculation is under way and every operand input the operation
        shows reports valid; when it is enabled, every operand the
        operation needs is non-empty. */
    function CalculateDisabled(): (disabled: bool)
      reads this
      requires Valid()
      ensures !disabled <==> !loading && (requiredInputs >= 1 ==> input1Valid) && (requiredInputs >= 2 ==> input2Valid)
      ensures !disabled ==> !loading
      ensures !disabled && requiredInputs >= 1 ==> input1 != ""
      ensures !disabled && requiredInputs >= 2 ==> input2 != ""
    {
      !ValidForm() || loading
    }
  }

  /** An operation that takes no operand can always be calculated while
      nothing is loading, whatever the operand inputs last reported. */
  lemma RandomStringAlwaysEnabled(c: Calculator)
    requires c.Valid() && c.operation == RAND_STR && !c.loading
    ensures !c.CalculateDisabled()
  {
  }
}
