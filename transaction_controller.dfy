/** `TransactionController`: the payment lifecycle create -> process ->
    notify, with any failure after the row exists rewriting it to
    `failed`. The processing decision, the store's faults and the webhook's
    delivery are inputs. */
module TransactionController {
  import opened Wrappers
  import opened Store
  import Webhook

  datatype CreateTransactionDTO = CreateTransactionDTO(recipient: string, amount: int, currency: string)

  /** What clients see of a transaction: no owner. */
  datatype TransactionResponse = TransactionResponse(
    id: nat, recipient: string, amount: int, currency: string, status: Status, timestamp: nat)

  const ProcessingFailed: string := "Payment processing failed"

  /** `mapToTransactionResponse`. */
  function MapToTransactionResponse(t: Transaction): (r: TransactionResponse)
    ensures r.id == t.id && r.status == t.status && r.timestamp == t.timestamp
    ensures r.recipient == t.recipient && r.amount == t.amount && r.currency == t.currency
  {
    TransactionResponse(t.id, t.recipient, t.amount, t.currency, t.status, t.timestamp)
  }

  /** The response does not depend on the row's owner, and rows that agree
      on everything else give the same response. */
  lemma ResponseForgetsOwner(t: Transaction, owner: nat)
    ensures MapToTransactionResponse(t.(userId := owner)) == MapToTransactionResponse(t)
    ensures forall u: Transaction :: MapToTransactionResponse(u) == MapToTransactionResponse(t) ==> u == t.(userId := u.userId)
  {
  }

  function MapAll(rows: seq<Transaction>): (r: seq<TransactionResponse>)
    ensures |r| == |rows|
    ensures forall i :: 0 <= i < |rows| ==> r[i] == MapToTransactionResponse(rows[i])
  {
    seq(|rows|, i requires 0 <= i < |rows| => MapToTransactionResponse(rows[i]))
  }

  /** `error instanceof Error ? error : new Error('Payment processing failed')`. */
  function AsError(e: Thrown): (r: Thrown)
    ensures r.ErrorObject?
    ensures e.ErrorObject? ==> r == e
  {
    if e.ErrorObject? then e else ErrorObject(ProcessingFailed)
  }

  /** The webhook data `createTransaction` sends for a processed row. */
  function WebhookDataOf(t: Transaction): Webhook.PaymentWebhookData {
    Webhook.PaymentWebhookData(t.id, t.userId, t.recipient, t.amount, t.currency, t.timestamp)
  }

  /** `getUserTransactions`: one response per store row, in store order; a
      store error propagates. */
  method GetUserTransactions(db: Database, userId: nat, fault: bool)
    returns (r: Result<seq<TransactionResponse>, Thrown>)
    ensures fault <==> r.Err?
    ensures r.Ok? ==> |r.value| == |History(db.transactions, userId)|
    ensures r.Ok? ==> forall i :: 0 <= i < |r.value| ==>
                        r.value[i] == MapToTransactionResponse(History(db.transactions, userId)[i])
  {
    var rows := db.GetUserTransactions(userId, fault);
    if rows.Err? {
      return Err(StoreThrown(rows.error));
    }
    r := Ok(MapAll(rows.value));
  }

  /** `processPayment`: a declined payment throws without writing; an
      approved one sets the row to `completed` and returns the store's
      record. */
  method ProcessPayment(db: Database, t: Transaction, approved: bool, fault: bool)
    returns (r: Result<Transaction, Thrown>)
    requires db.Valid()
    modifies db
    ensures db.Valid()
    ensures !approved ==> r == Err(ErrorObject(ProcessingFailed)) && db.transactions == old(db.transactions)
                          && db.statusWrites == old(db.statusWrites)
    ensures approved ==> db.statusWrites == old(db.statusWrites) + [(t.id, Completed)]
    ensures approved && !fault && RowOf(old(db.transactions), t.id).Some? ==>
              var k := RowOf(old(db.transactions), t.id).value;
              && r == Ok(old(db.transactions)[k].(status := Completed))
              && db.transactions == old(db.transactions)[k := r.value]
    ensures approved && fault ==> r == Err(StoreThrown(IoFault)) && db.transactions == old(db.transactions)
    ensures db.users == old(db.users) && db.lastTransactionId == old(db.lastTransactionId)
  {
    if !approved {
      return Err(ErrorObject(ProcessingFailed));
    }
    var updated := db.UpdateTransactionStatus(t.id, Completed, fault);
    if updated.Err? {
      return Err(StoreThrown(updated.error));
    }
    r := Ok(updated.value);
  }

  /** The status a created row ends with: `completed` only when the
      payment was approved, marked completed and notified; otherwise
      `failed`, unless writing `failed` itself fails, when the row keeps the
      status it had. */
  function FinalStatus(approved: bool, completeFault: bool, network: Webhook.Delivery, failFault: bool): Status {
    if approved && !completeFault && network.Delivered? then Completed
    else if !failFault then Failed
    else if approved && !completeFault then Completed
    else Pending
  }

  /** The error `createTransaction` rethrows once the row exists. */
  function FailureOf(approved: bool, completeFault: bool, network: Webhook.Delivery, failFault: bool): Thrown
    requires !(approved && !completeFault && network.Delivered?)
  {
    if failFault then StoreThrown(IoFault)
    else if !approved then ErrorObject(ProcessingFailed)
    else if completeFault then StoreThrown(IoFault)
    else AsError(network.error)
  }

  /** A completed payment whose webhook fails is recorded as failed, and
      the caller gets the webhook's error (as an `Error`). */
  lemma WebhookFailureIsFatal(e: Thrown)
    ensures FinalStatus(true, false, Webhook.Rejected(e), false) == Failed
    ensures FailureOf(true, false, Webhook.Rejected(e), false) == AsError(e)
  {
  }

  /** `createTransaction`. The row is inserted as `pending`; the payment is
      processed; the webhook fires for the processed row; the response is
      returned. Whatever fails after the insert - the decline, the status
      update or the webhook - leads to one `failed` write and a rethrow, so
      a completed payment whose webhook fails ends up `failed`. When the
      insert itself fails nothing else happens. */
  method CreateTransaction(
    db: Database, hook: Webhook.WebhookClient, userId: nat, dto: CreateTransactionDTO, now: nat,
    insertFault: bool, approved: bool, completeFault: bool, network: Webhook.Delivery, failFault: bool)
    returns (r: Result<TransactionResponse, Thrown>)
    requires db.Valid()
    modifies db, hook
    ensures db.Valid()
    ensures db.users == old(db.users)
    // the insert fails: nothing else is attempted
    ensures insertFault ==> && r == Err(StoreThrown(IoFault))
                            && db.transactions == old(db.transactions)
                            && db.statusWrites == old(db.statusWrites)
                            && hook.sent == old(hook.sent)
    // the insert succeeds: one new row with the caller's fields and its final status
    ensures !insertFault ==>
              var row := Transaction(old(db.lastTransactionId) + 1, userId, dto.recipient, dto.amount,
                                     dto.currency, Pending, now);
              && db.lastTransactionId == row.id
              && db.transactions == old(db.transactions)
                                    + [row.(status := FinalStatus(approved, completeFault, network, failFault))]
              && hook.sent == old(hook.sent) + (if approved && !completeFault
                                                then [Webhook.PaymentPost(WebhookDataOf(row.(status := Completed)), now)]
                                                else [])
              && (r.Ok? <==> approved && !completeFault && network.Delivered?)
              && (r.Ok? ==> && r.value == MapToTransactionResponse(row.(status := Completed))
                            && db.statusWrites == old(db.statusWrites) + [(row.id, Completed)])
              && (r.Err? ==> && r.error == FailureOf(approved, completeFault, network, failFault)
                             && db.statusWrites == old(db.statusWrites)
                                                   + (if approved then [(row.id, Completed)] else [])
                                                   + [(row.id, Failed)])
  {
    var created := db.InsertTransaction(NewTransaction(userId, dto.recipient, dto.amount, dto.currency, Pending, now), insertFault);
    if created.Err? {
      // `createdTransaction` is still null: no status update
      return Err(AsError(StoreThrown(created.error)));
    }
    RowOfLast(old(db.transactions), created.value);
    r := SettlePayment(db, hook, created.value, |old(db.transactions)|, now, approved, completeFault, network, failFault);
  }

  /** The part of `createTransaction` after the insert: the rest of the
      `try` block and the `catch` that marks the row failed. */
  method SettlePayment(
    db: Database, hook: Webhook.WebhookClient, row: Transaction, ghost n: nat, now: nat,
    approved: bool, completeFault: bool, network: Webhook.Delivery, failFault: bool)
    returns (r: Result<TransactionResponse, Thrown>)
    requires db.Valid()
    requires n < |db.transactions| && db.transactions[n] == row && RowOf(db.transactions, row.id) == Some(n)
    requires row.status == Pending
    modifies db, hook
    ensures db.Valid()
    ensures db.users == old(db.users) && db.lastTransactionId == old(db.lastTransactionId)
    ensures db.transactions == old(db.transactions)[n := row.(status := FinalStatus(approved, completeFault, network, failFault))]
    ensures hook.sent == old(hook.sent) + (if approved && !completeFault
                                           then [Webhook.PaymentPost(WebhookDataOf(row.(status := Completed)), now)]
                                           else [])
    ensures r.Ok? <==> approved && !completeFault && network.Delivered?
    ensures r.Ok? ==> && r.value == MapToTransactionResponse(row.(status := Completed))
                      && db.statusWrites == old(db.statusWrites) + [(row.id, Completed)]
    ensures r.Err? ==> && r.error == FailureOf(approved, completeFault, network, failFault)
                       && db.statusWrites == old(db.statusWrites)
                                             + (if approved then [(row.id, Completed)] else [])
                                             + [(row.id, Failed)]
  {
    var failure: Thrown;
    var processed := ProcessPayment(db, row, approved, completeFault);
    if processed.Ok? {
      var delivery := hook.TriggerPaymentWebhook(WebhookDataOf(processed.value), now, network);
      if delivery.Delivered? {
        return Ok(MapToTransactionResponse(processed.value));
      }
      failure := delivery.error;
    } else {
      failure := processed.error;
    }
    assert RowOf(db.transactions, row.id) == Some(n) by {
      RowOfSameIds(old(db.transactions), db.transactions, row.id);
    }
    // catch: mark the created row failed, then rethrow
    var marked := db.UpdateTransactionStatus(row.id, Failed, failFault);
    if marked.Err? {
      return Err(StoreThrown(marked.error));
    }
    r := Err(AsError(failure));
  }

  /** Looking a row up by id depends only on the ids. */
  lemma RowOfSameIds(a: seq<Transaction>, b: seq<Transaction>, id: nat)
    requires |a| == |b| && forall i :: 0 <= i < |a| ==> a[i].id == b[i].id
    ensures RowOf(a, id) == RowOf(b, id)
  {
    if a != [] {
      RowOfSameIds(a[1..], b[1..], id);
    }
  }

  /** A row appended after rows with smaller ids is found at the end. */
  lemma RowOfLast(rows: seq<Transaction>, t: Transaction)
    requires forall i :: 0 <= i < |rows| ==> rows[i].id < t.id
    ensures RowOf(rows + [t], t.id) == Some(|rows|)
  {
    if rows != [] {
      assert (rows + [t])[1..] == rows[1..] + [t];
      RowOfLast(rows[1..], t);
    }
  }
}
