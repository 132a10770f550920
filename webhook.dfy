/** `WebhookService`: builds the `payment.sent` event and makes one POST
    to the fixed webhook URL. The network is an input: whether the POST
    resolves or rejects, and with what. */
module Webhook {
  import opened Wrappers

  const WebhookUrl: string := "https://usewebhook.com/02ab5031c7b88a66f5bff68b6130b30e"
  const TimeoutMs: nat := 5000
  const PaymentSentEvent: string := "payment.sent"
  const ContentType: string := "application/json"
  const UserAgent: string := "PaymentApp-Webhook/1.0"

  /** What the caller hands to `triggerPaymentWebhook` (camelCase). */
  datatype PaymentWebhookData = PaymentWebhookData(
    transactionId: nat, userId: nat, recipient: string, amount: int,
    currency: string, timestamp: nat)

  /** The `data` object of the event (snake_case, plus a status). */
  datatype EventData = EventData(
    transaction_id: nat, user_id: nat, recipient: string, amount: int,
    currency: string, timestamp: nat, status: string)

  datatype Payload = Payload(event: string, data: EventData, timestamp: nat)

  /** One outbound HTTP request. */
  datatype Post = Post(url: string, body: Payload, timeoutMs: nat, contentType: string, userAgent: string)

  /** How the POST ended. */
  datatype Delivery = Delivered | Rejected(error: Thrown)

  /** Reads the caller's data back out of an event. */
  function DataOf(p: Payload): PaymentWebhookData {
    PaymentWebhookData(p.data.transaction_id, p.data.user_id, p.data.recipient,
                       p.data.amount, p.data.currency, p.data.timestamp)
  }

  /** The event for a payment: always `payment.sent` with status
      `completed`, stamped with the current time, and carrying the caller's
      fields unchanged under their snake_case names. */
  function BuildPayload(d: PaymentWebhookData, now: nat): (p: Payload)
    ensures p.event == PaymentSentEvent && p.data.status == "completed" && p.timestamp == now
    ensures DataOf(p) == d
  {
    Payload(PaymentSentEvent,
            EventData(d.transactionId, d.userId, d.recipient, d.amount, d.currency, d.timestamp, "completed"),
            now)
  }

  /** The only request `triggerPaymentWebhook` makes for `d`. */
  function PaymentPost(d: PaymentWebhookData, now: nat): Post {
    Post(WebhookUrl, BuildPayload(d, now), TimeoutMs, ContentType, UserAgent)
  }

  /** Two events carry the same data exactly when they were built from the
      same data: the status field adds nothing that depends on the input. */
  lemma PayloadInjective(d1: PaymentWebhookData, d2: PaymentWebhookData, now: nat)
    ensures BuildPayload(d1, now) == BuildPayload(d2, now) <==> d1 == d2
  {
    if BuildPayload(d1, now) == BuildPayload(d2, now) {
      assert DataOf(BuildPayload(d1, now)) == DataOf(BuildPayload(d2, now));
    }
  }

  /** The outbound side of the service: the requests made so far. */
  class WebhookClient {
    var sent: seq<Post>

    constructor ()
      ensures sent == []
    {
      sent := [];
    }

    /** `triggerPaymentWebhook`: exactly one POST, no retry; a failure is
        handed back to the caller unchanged. */
    method TriggerPaymentWebhook(d: PaymentWebhookData, now: nat, network: Delivery)
      returns (r: Delivery)
      modifies this
      ensures sent == old(sent) + [PaymentPost(d, now)]
      ensures r == network
    {
      var payload := BuildPayload(d, now);
      sent := sent + [Post(WebhookUrl, payload, TimeoutMs, ContentType, UserAgent)];
      r := network;
    }
  }
}
