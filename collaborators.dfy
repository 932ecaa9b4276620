/**
 * What the handlers send to and receive from their collaborators: Apple's
 * `verifyReceipt` endpoint, Google's `purchases.subscriptions.get`, and the
 * data store. Timestamps arrive already parsed into milliseconds.
 */
module Collaborators {
  import opened Wrappers
  import opened Store

  /** One entry of Apple's `latest_receipt_info`. */
  datatype ReceiptInfo = ReceiptInfo(expiresDateMs: Millis, purchaseDateMs: Millis)

  /**
   * A parsed `verifyReceipt` response. `latestReceiptInfo` is None when the
   * field is missing; `json` is the response as `JSON.stringify` renders it.
   */
  datatype AppleResponse = AppleResponse(
    status: int,
    latestReceiptInfo: Option<seq<ReceiptInfo>>,
    latestReceipt: Option<string>,
    json: string)

  /** The fields of a Google `SubscriptionPurchase` the handlers read. */
  datatype GooglePurchase = GooglePurchase(startTimeMillis: Option<Millis>, expiryTimeMillis: Option<Millis>)

  /** A missing start time reads as 0. */
  function StartMillis(g: GooglePurchase): Millis {
    g.startTimeMillis.GetOr(0)
  }

  /** A missing expiry time reads as 0. */
  function ExpiryMillis(g: GooglePurchase): Millis {
    g.expiryTimeMillis.GetOr(0)
  }

  /** Each request a handler makes of a collaborator, in the order made. */
  datatype Call =
    | GetLastSubscription
    | GetLastReceipt
    | GetLastPurchaseToken
    | GetUser
    | VerifyReceipt(receipt: string)
    | VerifyPurchase(subscriptionId: Option<string>, token: string)
    | CreateSubscription(sub: Subscription)

  /** JavaScript truthiness of an optional string: present and not empty. */
  predicate Truthy(s: Option<string>) {
    s.Some? && s.value != ""
  }

  /** No call of the trace asks Google. */
  predicate NoGoogleCall(calls: seq<Call>) {
    forall i :: 0 <= i < |calls| ==> !calls[i].VerifyPurchase?
  }

  /** No call of the trace asks Apple. */
  predicate NoAppleCall(calls: seq<Call>) {
    forall i :: 0 <= i < |calls| ==> !calls[i].VerifyReceipt?
  }
}
