/** How the two handlers meet in the shared subscription table. */
module Interplay {
  import opened Wrappers
  import opened Store
  import opened Collaborators
  import IsPremium
  import Subscribe

  /**
   * A purchase stored by `subscribe` that expires after `today` makes
   * `isPremium` on `today` answer active from the table alone, with an
   * expiry no earlier than the purchase's.
   */
  lemma SubscribedUserIsPremium(
                                auth: Option<string>, users: set<UserId>, input: Subscribe.Input, now: Millis, rs: seq<Record>, today: Millis,
                                apple: string -> AppleResponse, google: (Option<string>, string) -> Option<GooglePurchase>,
                                accepts: Subscription -> bool,
                                apple': string -> AppleResponse, google': (Option<string>, string) -> Option<GooglePurchase>,
                                accepts': Subscription -> bool)
    requires var o := Subscribe.Decide(auth, users, input, now, apple, google, accepts);
             o.created.Some? && o.created.value.expiryDate > today
    ensures var sub := Subscribe.Decide(auth, users, input, now, apple, google, accepts).created.value;
            var p := IsPremium.Decide(auth, Persist(rs, Some(sub)), today, apple', google', accepts');
            && p.response.Status? && p.response.result
            && p.response.expiryDate >= sub.expiryDate
            && p.created == None
            && p.calls == [GetLastSubscription]
  {
  }

  /**
   * For one Apple answer, `isPremium` stores entry 0's expiry while
   * `subscribe` stores the latest one: the two differ exactly when some
   * entry expires after entry 0.
   */
  lemma EntryZeroVersusAggregate(user: UserId, info: seq<ReceiptInfo>, response: AppleResponse, today: Millis)
    requires |info| > 0
    ensures var premium := IsPremium.AppleRenewal(user, info[0], response, today);
            var subscribed := Subscribe.AppleSubscription(user, info, response.latestReceipt);
            && premium.expiryDate == info[0].expiresDateMs
            && (premium.expiryDate != subscribed.expiryDate <==>
                  exists i :: 0 <= i < |info| && info[i].expiresDateMs > info[0].expiresDateMs)
  {
  }

  /** With a single entry in `latest_receipt_info` both handlers store the same expiry and purchase date. */
  lemma SingleEntryAgrees(user: UserId, entry: ReceiptInfo, response: AppleResponse, today: Millis)
    ensures var premium := IsPremium.AppleRenewal(user, entry, response, today);
            var subscribed := Subscribe.AppleSubscription(user, [entry], response.latestReceipt);
            && premium.expiryDate == subscribed.expiryDate
            && premium.purchaseDate == subscribed.purchaseDate
            && premium.receipt == subscribed.receipt
  {
  }
}
