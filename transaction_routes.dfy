/** The transaction routes the server mounts (`routes/transactions.ts`):
    `GET /transactions` and `POST /send`. The caller's id comes from the
    authentication middleware. */
module TransactionRoutes {
  import opened Wrappers
  import opened Store
  import Text
  import Webhook
  import TransactionController

  type TransactionResponse = TransactionController.TransactionResponse

  /** The `amount` field of the request body: a numeric value (in cents)
      or anything `isNumeric` refuses. */
  datatype AmountInput = Numeric(cents: int) | NotNumeric

  datatype SendRequest = SendRequest(recipient: string, amount: AmountInput, currency: string)

  datatype Body =
    | TransactionList(transactions: seq<TransactionResponse>)
    | Sent(message: string, transaction: TransactionResponse)
    | ValidationErrors(fields: seq<string>)
    | Failure(error: string)

  datatype Reply = Reply(status: nat, body: Body)

  /** The fields the validators reject, in the order they are declared:
      an empty recipient, a non-numeric or non-positive amount, a currency
      that is not three characters long. */
  function InvalidFields(req: SendRequest): (fields: seq<string>)
    ensures fields == [] <==> |req.recipient| >= 1 && req.amount.Numeric? && req.amount.cents > 0
                                && |req.currency| == 3
  {
    (if |req.recipient| >= 1 then [] else ["recipient"])
    + (if req.amount.Numeric? && req.amount.cents > 0 then [] else ["amount"])
    + (if |req.currency| == 3 then [] else ["currency"])
  }

  /** `GET /transactions`: the store's rows for the caller, in store order,
      each with exactly its six public fields; 500 on a store error. */
  method GetTransactions(db: Database, userId: nat, fault: bool) returns (reply: Reply)
    ensures fault ==> reply == Reply(500, Failure("Internal server error"))
    ensures !fault ==> reply.status == 200 && reply.body.TransactionList?
    ensures !fault ==> reply.body.transactions == TransactionController.MapAll(History(db.transactions, userId))
  {
    var rows := db.GetUserTransactions(userId, fault);
    if rows.Err? {
      return Reply(500, Failure("Internal server error"));
    }
    reply := Reply(200, TransactionList(TransactionController.MapAll(rows.value)));
  }

  /** `POST /send`. Invalid input answers 400 before any write. Otherwise
      the row is inserted by the store (which records it as `completed`)
      with the currency upper-cased; the webhook is tried once and its
      failure is swallowed; the answer is 201 with the stored row. A store
      error answers 500 without a webhook call. */
  method SendPayment(db: Database, hook: Webhook.WebhookClient, userId: nat, req: SendRequest,
                     now: nat, fault: bool, network: Webhook.Delivery)
    returns (reply: Reply)
    requires db.Valid()
    modifies db, hook
    ensures db.Valid()
    ensures db.users == old(db.users) && db.statusWrites == old(db.statusWrites)
    ensures InvalidFields(req) != [] ==>
              && reply == Reply(400, ValidationErrors(InvalidFields(req)))
              && db.transactions == old(db.transactions) && hook.sent == old(hook.sent)
    ensures InvalidFields(req) == [] && fault ==>
              && reply == Reply(500, Failure("Payment failed"))
              && db.transactions == old(db.transactions) && hook.sent == old(hook.sent)
    ensures InvalidFields(req) == [] && !fault ==>
              var row := Transaction(old(db.lastTransactionId) + 1, userId, req.recipient, req.amount.cents,
                                     Text.Upper(req.currency), Completed, now);
              && db.transactions == old(db.transactions) + [row]
              && hook.sent == old(hook.sent) + [Webhook.PaymentPost(
                   Webhook.PaymentWebhookData(row.id, userId, req.recipient, req.amount.cents,
                                              Text.Upper(req.currency), now), now)]
              && reply == Reply(201, Sent("Payment sent successfully",
                                          TransactionController.MapToTransactionResponse(row)))
  {
    var invalid := InvalidFields(req);
    if invalid != [] {
      return Reply(400, ValidationErrors(invalid));
    }
    var currency := Text.Upper(req.currency);
    var created := db.CreateTransaction(userId, req.recipient, req.amount.cents, currency, now, fault);
    if created.Err? {
      return Reply(500, Failure("Payment failed"));
    }
    var t := created.value;
    var delivery := hook.TriggerPaymentWebhook(
      Webhook.PaymentWebhookData(t.id, userId, req.recipient, req.amount.cents, currency, t.timestamp),
      now, network);
    // a rejected delivery is logged and otherwise ignored
    reply := Reply(201, Sent("Payment sent successfully", TransactionController.MapToTransactionResponse(t)));
  }

  /** The two payment paths disagree when the webhook fails: the
      controller turns the payment into a `failed` row and an error, the
      mounted route keeps a `completed` row and answers 201. */
  method WebhookFailurePolicies(userId: nat, now: nat, e: Thrown)
    returns (controllerResult: Result<TransactionResponse, Thrown>, controllerRow: Status,
             routeReply: Reply, routeRow: Status)
    ensures controllerResult.Err? && controllerRow == Failed
    ensures routeReply.status == 201 && routeRow == Completed
  {
    var down := Webhook.Rejected(e);
    var db1 := new Database();
    var hook1 := new Webhook.WebhookClient();
    controllerResult := TransactionController.CreateTransaction(
      db1, hook1, userId, TransactionController.CreateTransactionDTO("Bob", 10000, "USD"), now,
      false, true, false, down, false);
    controllerRow := db1.transactions[0].status;

    var db2 := new Database();
    var hook2 := new Webhook.WebhookClient();
    routeReply := SendPayment(db2, hook2, userId, SendRequest("Bob", Numeric(10000), "USD"), now, false, down);
    routeRow := db2.transactions[0].status;
  }
}
