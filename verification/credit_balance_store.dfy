/** The credit balance store: the latest balance the backend reported. */
module CreditBalance {

  /** The value shown before the backend has reported a balance. */
  const UnknownBalance: real := -1.0

  class CreditBalanceStore {
    var creditBalance: real

    constructor ()
      ensures creditBalance == UnknownBalance
    {
      creditBalance := UnknownBalance;
    }

    /** `setCreditBalance`, the only mutator: the balance is replaced, never
        adjusted, so the last write wins. */
    method SetCreditBalance(v: real)
      modifies this
      ensures creditBalance == v
    {
      creditBalance := v;
    }
  }

  /** Two reports in a row: the balance is the second, not a sum. */
  method LastWriteWins(first: real, second: real) returns (balance: real)
    ensures balance == second
  {
    var store := new CreditBalanceStore();
    store.SetCreditBalance(first);
    store.SetCreditBalance(second);
    balance := store.creditBalance;
  }
}
