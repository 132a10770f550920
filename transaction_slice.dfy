/** The web client's transactions store (`app/src/store/transactionSlice.ts`):
    the list of transactions the client shows, a loading flag and an error
    text, changed in place by the reducers of the `fetchTransactions` and
    `sendPayment` requests and by `clearError`. A rejected request carries
    the thrown error's message, which may be missing. */
module TransactionSlice {
  import opened Wrappers
  import opened TransactionController

  const FetchFailed: string := "Failed to fetch transactions"
  const SendFailed: string := "Failed to send payment"

  class TransactionState {
    var transactions: seq<TransactionResponse>
    var isLoading: bool
    var error: Option<string>

    /** While a request is in flight no error is shown, and a shown error
        is never empty. */
    predicate Valid()
      reads this
    {
      (isLoading ==> error.None?) && (error.Some? ==> error.value != [])
    }

    /** `initialState`. */
    constructor ()
      ensures Valid()
      ensures transactions == [] && !isLoading && error.None?
    {
      transactions := [];
      isLoading := false;
      error := None;
    }

    method ClearError()
      requires Valid()
      modifies this
      ensures Valid()
      ensures error.None?
      ensures transactions == old(transactions) && isLoading == old(isLoading)
    {
      error := None;
    }

    /** `fetchTransactions.pending` and `sendPayment.pending`. */
    method Pending()
      requires Valid()
      modifies this
      ensures Valid()
      ensures isLoading && error.None?
      ensures transactions == old(transactions)
    {
      isLoading := true;
      error := None;
    }

    /** `fetchTransactions.fulfilled`: the fetched list replaces the old. */
    method FetchFulfilled(payload: seq<TransactionResponse>)
      requires Valid()
      modifies this
      ensures Valid()
      ensures transactions == payload && !isLoading && error.None?
    {
      isLoading := false;
      transactions := payload;
      error := None;
    }

    /** `sendPayment.fulfilled`: the sent transaction goes to the front. */
    method SendFulfilled(payload: TransactionResponse)
      requires Valid()
      modifies this
      ensures Valid()
      ensures transactions == [payload] + old(transactions)
      ensures |transactions| == |old(transactions)| + 1 && transactions[1..] == old(transactions)
      ensures !isLoading && error.None?
    {
      isLoading := false;
      transactions := [payload] + transactions;
      error := None;
    }

    /** `fetchTransactions.rejected` and `sendPayment.rejected`: the list
        is kept and the message, or the request's fallback, is shown. */
    method Rejected(message: Option<string>, fallback: string)
      requires Valid()
      requires fallback == FetchFailed || fallback == SendFailed
      modifies this
      ensures Valid()
      ensures transactions == old(transactions) && !isLoading
      ensures error == Some(TextOr(message, fallback))
    {
      isLoading := false;
      error := Some(TextOr(message, fallback));
    }
  }

  /** A send that goes through puts the new transaction first and keeps
      every earlier one after it. */
  method SendRoundTrip(state: TransactionState, payload: TransactionResponse)
    requires state.Valid()
    modifies state
    ensures state.Valid()
    ensures |state.transactions| >= 1
    ensures state.transactions[0] == payload && state.transactions[1..] == old(state.transactions)
    ensures !state.isLoading && state.error.None?
  {
    state.Pending();
    state.SendFulfilled(payload);
  }

  /** A send that fails leaves the list as it was and shows an error. */
  method SendFails(state: TransactionState, message: Option<string>)
    requires state.Valid()
    modifies state
    ensures state.Valid()
    ensures state.transactions == old(state.transactions)
    ensures state.error.Some? && state.error.value != [] && !state.isLoading
  {
    state.Pending();
    state.Rejected(message, SendFailed);
  }
}
