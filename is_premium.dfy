/**
 * The `isPremium` handler: is the logged-in user's subscription active today?
 * It tries, in order, the user's record with the latest expiry, a
 * re-verification of the latest stored Apple receipt, and a re-verification
 * of the latest stored Google purchase token; a re-verification that finds
 * a future expiry stores a new record.
 */
module IsPremium {
  import opened Wrappers
  import opened Store
  import opened Collaborators

  datatype Failure = LoginRequired | Unexpected

  /** `{data: {result, expiryDate}}` or `{error}`. */
  datatype Response = Status(result: bool, expiryDate: Millis) | Error(failure: Failure)

  function Message(f: Failure): string {
    match f
    case LoginRequired => "Login required!"
    case Unexpected => "An unexpected error occured during authentication."
  }

  /** The answer, the subscription stored (if a create returned an id) and the calls made. */
  datatype Outcome = Outcome(response: Response, created: Option<Subscription>, calls: seq<Call>)

  /** How a re-verification ends: a stored renewal, no renewal, or a thrown error. */
  datatype Renewal = Renewed(sub: Subscription) | Declined | Threw

  datatype Attempt = Attempt(renewal: Renewal, calls: seq<Call>)

  /** The record of an Apple renewal: entry 0's dates, started today, with the latest receipt. */
  function AppleRenewal(user: UserId, entry: ReceiptInfo, response: AppleResponse, today: Millis): Subscription {
    Subscription(user, entry.expiresDateMs, entry.purchaseDateMs, today, response.latestReceipt, None, None)
  }

  /** The record of a Google renewal: purchased today, the stored token and product id. */
  function GoogleRenewal(user: UserId, stored: Record, g: GooglePurchase, today: Millis): Subscription {
    Subscription(user, ExpiryMillis(g), today, StartMillis(g), None,
                 stored.sub.purchaseToken, stored.sub.subscriptionId)
  }

  /** The record with the latest expiry already covers today. */
  predicate CacheActive(rs: seq<Record>, user: UserId, today: Millis) {
    var last := Latest(rs, user, AnyRecord);
    last.Some? && last.value.sub.expiryDate > today
  }

  /** Re-verification of the latest stored Apple receipt. */
  function AppleAttempt(rs: seq<Record>, user: UserId, today: Millis,
                        apple: string -> AppleResponse, accepts: Subscription -> bool): Attempt
  {
    match Latest(rs, user, HasReceipt)
    case None => Attempt(Declined, [])
    case Some(stored) =>
      var receipt := stored.sub.receipt.value;
      var response := apple(receipt);
      var sent := [VerifyReceipt(receipt)];
      if response.status != 0 then Attempt(Declined, sent)
      else
        match response.latestReceiptInfo
        case None => Attempt(Threw, sent)
        case Some(info) =>
          if |info| == 0 || info[0].expiresDateMs <= today then Attempt(Declined, sent)
          else
            var sub := AppleRenewal(user, info[0], response, today);
            Attempt(if accepts(sub) then Renewed(sub) else Declined, sent + [CreateSubscription(sub)])
  }

  /** Re-verification of the latest stored Google purchase token; a rejected
      `purchases.subscriptions.get` is no data. */
  function GoogleAttempt(rs: seq<Record>, user: UserId, today: Millis,
                         google: (Option<string>, string) -> Option<GooglePurchase>,
                         accepts: Subscription -> bool): Attempt
  {
    match Latest(rs, user, HasPurchaseToken)
    case None => Attempt(Declined, [])
    case Some(stored) =>
      var token := stored.sub.purchaseToken.value;
      var sent := [VerifyPurchase(stored.sub.subscriptionId, token)];
      match google(stored.sub.subscriptionId, token)
      case None => Attempt(Declined, sent)
      case Some(g) =>
        if ExpiryMillis(g) <= today then Attempt(Declined, sent)
        else
          var sub := GoogleRenewal(user, stored, g, today);
          Attempt(if accepts(sub) then Renewed(sub) else Declined, sent + [CreateSubscription(sub)])
  }

  /** What the handler does, for a store holding `rs` and the collaborators' answers. */
  function Decide(auth: Option<string>, rs: seq<Record>, today: Millis,
                  apple: string -> AppleResponse,
                  google: (Option<string>, string) -> Option<GooglePurchase>,
                  accepts: Subscription -> bool): Outcome
  {
    if !Truthy(auth) then Outcome(Error(LoginRequired), None, [])
    else
      var user := auth.value;
      if CacheActive(rs, user, today) then
        Outcome(Status(true, Latest(rs, user, AnyRecord).value.sub.expiryDate), None, [GetLastSubscription])
      else
        var a := AppleAttempt(rs, user, today, apple, accepts);
        var calls := [GetLastSubscription, GetLastReceipt] + a.calls;
        match a.renewal
        case Renewed(sub) => Outcome(Status(true, sub.expiryDate), Some(sub), calls)
        case Threw => Outcome(Error(Unexpected), None, calls)
        case Declined =>
          var g := GoogleAttempt(rs, user, today, google, accepts);
          var calls' := calls + [GetLastPurchaseToken] + g.calls;
          if g.renewal.Renewed? then
            Outcome(Status(true, g.renewal.sub.expiryDate), Some(g.renewal.sub), calls')
          else
            Outcome(Status(false, today), None, calls')
  }

  /** The created subscription of a renewal, if any. */
  function Stored(r: Renewal): Option<Subscription> {
    if r.Renewed? then Some(r.sub) else None
  }

  /** The Apple re-verification, run against the store `table`. */
  method TryApple(table: SubscriptionTable, user: UserId, today: Millis,
                  apple: string -> AppleResponse, accepts: Subscription -> bool)
    returns (renewal: Renewal, calls: seq<Call>)
    requires table.Valid()
    modifies table
    ensures table.Valid()
    ensures var a := AppleAttempt(old(table.records), user, today, apple, accepts);
            renewal == a.renewal && calls == a.calls &&
            table.records == Persist(old(table.records), Stored(renewal))
  {
    renewal, calls := Declined, [];
    var lastReceipt := Latest(table.records, user, HasReceipt);
    if lastReceipt.Some? {
      var receipt := lastReceipt.value.sub.receipt.value;
      var appleResponse := apple(receipt);
      calls := [VerifyReceipt(receipt)];
      if appleResponse.status == 0 {
        if appleResponse.latestReceiptInfo.None? {
          return Threw, calls;
        }
        var info := appleResponse.latestReceiptInfo.value;
        if |info| > 0 && info[0].expiresDateMs > today {
          var sub := AppleRenewal(user, info[0], appleResponse, today);
          calls := calls + [CreateSubscription(sub)];
          var id := table.Create(sub, accepts(sub));
          if id.Some? {
            renewal := Renewed(sub);
          }
        }
      }
    }
  }

  /** The Google re-verification, run against the store `table`. */
  method TryGoogle(table: SubscriptionTable, user: UserId, today: Millis,
                   google: (Option<string>, string) -> Option<GooglePurchase>,
                   accepts: Subscription -> bool)
    returns (renewal: Renewal, calls: seq<Call>)
    requires table.Valid()
    modifies table
    ensures table.Valid()
    ensures var g := GoogleAttempt(old(table.records), user, today, google, accepts);
            renewal == g.renewal && calls == g.calls &&
            table.records == Persist(old(table.records), Stored(renewal))
  {
    renewal, calls := Declined, [];
    var lastToken := Latest(table.records, user, HasPurchaseToken);
    if lastToken.Some? {
      var token := lastToken.value.sub.purchaseToken.value;
      var googleData := google(lastToken.value.sub.subscriptionId, token);
      calls := [VerifyPurchase(lastToken.value.sub.subscriptionId, token)];
      if googleData.Some? && ExpiryMillis(googleData.value) > today {
        var sub := GoogleRenewal(user, lastToken.value, googleData.value, today);
        calls := calls + [CreateSubscription(sub)];
        var id := table.Create(sub, accepts(sub));
        if id.Some? {
          renewal := Renewed(sub);
        }
      }
    }
  }

  /** The handler, run against the store `table`. */
  method Handle(table: SubscriptionTable, auth: Option<string>, today: Millis,
                apple: string -> AppleResponse,
                google: (Option<string>, string) -> Option<GooglePurchase>,
                accepts: Subscription -> bool)
    returns (response: Response, calls: seq<Call>)
    requires table.Valid()
    modifies table
    ensures table.Valid()
    ensures var o := Decide(auth, old(table.records), today, apple, google, accepts);
            response == o.response && calls == o.calls &&
            table.records == Persist(old(table.records), o.created)
  {
    if !Truthy(auth) {
      return Error(LoginRequired), [];
    }
    var user := auth.value;

    calls := [GetLastSubscription];
    var last := Latest(table.records, user, AnyRecord);
    if last.Some? && last.value.sub.expiryDate > today {
      return Status(true, last.value.sub.expiryDate), calls;
    }

    calls := calls + [GetLastReceipt];
    var appleRenewal, appleCalls := TryApple(table, user, today, apple, accepts);
    calls := calls + appleCalls;
    if appleRenewal.Renewed? {
      return Status(true, appleRenewal.sub.expiryDate), calls;
    } else if appleRenewal.Threw? {
      return Error(Unexpected), calls;
    }

    calls := calls + [GetLastPurchaseToken];
    var googleRenewal, googleCalls := TryGoogle(table, user, today, google, accepts);
    calls := calls + googleCalls;
    if googleRenewal.Renewed? {
      return Status(true, googleRenewal.sub.expiryDate), calls;
    }
    return Status(false, today), calls;
  }

  // Properties of the decision

  /** Apple's answer ends the chain: no stored receipt, a status other than 0,
      an empty `latest_receipt_info`, an entry 0 not after today, or a create
      that returns no id. (A missing `latest_receipt_info` with status 0 throws.) */
  predicate AppleDeclines(rs: seq<Record>, user: UserId, today: Millis,
                          apple: string -> AppleResponse, accepts: Subscription -> bool)
  {
    match Latest(rs, user, HasReceipt)
    case None => true
    case Some(stored) =>
      var response := apple(stored.sub.receipt.value);
      || response.status != 0
      || (&& response.latestReceiptInfo.Some?
          && var info := response.latestReceiptInfo.value;
             || |info| == 0
             || info[0].expiresDateMs <= today
             || !accepts(AppleRenewal(user, info[0], response, today)))
  }

  /** Google confirms the latest stored token with a future expiry and the create returns an id. */
  predicate GoogleRenews(rs: seq<Record>, user: UserId, today: Millis,
                         google: (Option<string>, string) -> Option<GooglePurchase>,
                         accepts: Subscription -> bool)
  {
    match Latest(rs, user, HasPurchaseToken)
    case None => false
    case Some(stored) =>
      match google(stored.sub.subscriptionId, stored.sub.purchaseToken.value)
      case None => false
      case Some(g) => ExpiryMillis(g) > today && accepts(GoogleRenewal(user, stored, g, today))
  }

  /** Apple answers the latest stored receipt with status 0 but without
      `latest_receipt_info`, so indexing it throws. */
  predicate AppleLacksInfo(rs: seq<Record>, user: UserId, apple: string -> AppleResponse) {
    match Latest(rs, user, HasReceipt)
    case None => false
    case Some(stored) =>
      var response := apple(stored.sub.receipt.value);
      response.status == 0 && response.latestReceiptInfo.None?
  }

  /** Without a logged-in user nothing is read or written. */
  lemma LoginRequiredFirst(auth: Option<string>, rs: seq<Record>, today: Millis,
                           apple: string -> AppleResponse,
                           google: (Option<string>, string) -> Option<GooglePurchase>,
                           accepts: Subscription -> bool)
    requires !Truthy(auth)
    ensures Decide(auth, rs, today, apple, google, accepts) == Outcome(Error(LoginRequired), None, [])
  {
  }

  /** A stored expiry after today is the answer: nothing is created and neither store is asked. */
  lemma CachedExpiryWins(auth: Option<string>, rs: seq<Record>, today: Millis,
                         apple: string -> AppleResponse,
                         google: (Option<string>, string) -> Option<GooglePurchase>,
                         accepts: Subscription -> bool)
    requires Truthy(auth) && CacheActive(rs, auth.value, today)
    ensures var o := Decide(auth, rs, today, apple, google, accepts);
            && o.response == Status(true, Latest(rs, auth.value, AnyRecord).value.sub.expiryDate)
            && o.created == None
            && o.calls == [GetLastSubscription]
  {
  }

  /**
   * Apple confirms the latest stored receipt with an entry 0 expiring after
   * today: one record is created from entry 0, the latest receipt and today,
   * the answer is active with entry 0's expiry, and Google is not asked.
   */
  lemma AppleRenewalRecorded(auth: Option<string>, rs: seq<Record>, today: Millis,
                             apple: string -> AppleResponse,
                             google: (Option<string>, string) -> Option<GooglePurchase>,
                             accepts: Subscription -> bool, stored: Record)
    requires Truthy(auth) && !CacheActive(rs, auth.value, today)
    requires Latest(rs, auth.value, HasReceipt) == Some(stored)
    requires var response := apple(stored.sub.receipt.value);
             && response.status == 0
             && response.latestReceiptInfo.Some? && |response.latestReceiptInfo.value| > 0
             && response.latestReceiptInfo.value[0].expiresDateMs > today
             && accepts(AppleRenewal(auth.value, response.latestReceiptInfo.value[0], response, today))
    ensures var response := apple(stored.sub.receipt.value);
            var entry := response.latestReceiptInfo.value[0];
            var o := Decide(auth, rs, today, apple, google, accepts);
            && o.response == Status(true, entry.expiresDateMs)
            && o.created.Some?
            && o.created.value.userId == auth.value
            && o.created.value.expiryDate == entry.expiresDateMs
            && o.created.value.purchaseDate == entry.purchaseDateMs
            && o.created.value.startDate == today
            && o.created.value.receipt == response.latestReceipt
            && o.created.value.purchaseToken.None?
            && o.created.value.subscriptionId.None?
            && o.calls == [GetLastSubscription, GetLastReceipt, VerifyReceipt(stored.sub.receipt.value),
                           CreateSubscription(o.created.value)]
            && NoGoogleCall(o.calls)
  {
  }

  /** Two Apple answers that agree in status, latest receipt and entry 0. */
  predicate SameEntryZero(a: AppleResponse, b: AppleResponse) {
    && a.status == b.status
    && a.latestReceipt == b.latestReceipt
    && a.latestReceiptInfo.Some? == b.latestReceiptInfo.Some?
    && (a.latestReceiptInfo.Some? ==>
          && (|a.latestReceiptInfo.value| == 0 <==> |b.latestReceiptInfo.value| == 0)
          && (|a.latestReceiptInfo.value| > 0 ==>
                a.latestReceiptInfo.value[0] == b.latestReceiptInfo.value[0]))
  }

  /** Only entry 0 of `latest_receipt_info` matters: later entries change nothing. */
  lemma OnlyEntryZeroCounts(auth: Option<string>, rs: seq<Record>, today: Millis,
                            apple: string -> AppleResponse, apple': string -> AppleResponse,
                            google: (Option<string>, string) -> Option<GooglePurchase>,
                            accepts: Subscription -> bool)
    requires forall receipt :: SameEntryZero(apple(receipt), apple'(receipt))
    ensures Decide(auth, rs, today, apple, google, accepts) == Decide(auth, rs, today, apple', google, accepts)
  {
  }

  /** When Apple's answer does not end the chain, Google's decides it. */
  lemma AppleFallsThroughToGoogle(auth: Option<string>, rs: seq<Record>, today: Millis,
                                  apple: string -> AppleResponse,
                                  google: (Option<string>, string) -> Option<GooglePurchase>,
                                  accepts: Subscription -> bool)
    requires Truthy(auth) && !CacheActive(rs, auth.value, today)
    requires AppleDeclines(rs, auth.value, today, apple, accepts)
    ensures var o := Decide(auth, rs, today, apple, google, accepts);
            && GetLastPurchaseToken in o.calls
            && o.response.Status?
            && (o.response.result <==> GoogleRenews(rs, auth.value, today, google, accepts))
  {
  }

  /**
   * Google confirms the latest stored token with an expiry after today: one
   * record is created with that token and product id, no receipt, purchase
   * date today and Google's start time (0 when missing), and the answer is
   * active with Google's expiry.
   */
  lemma GoogleRenewalRecorded(auth: Option<string>, rs: seq<Record>, today: Millis,
                              apple: string -> AppleResponse,
                              google: (Option<string>, string) -> Option<GooglePurchase>,
                              accepts: Subscription -> bool, stored: Record, g: GooglePurchase)
    requires Truthy(auth) && !CacheActive(rs, auth.value, today)
    requires AppleDeclines(rs, auth.value, today, apple, accepts)
    requires Latest(rs, auth.value, HasPurchaseToken) == Some(stored)
    requires google(stored.sub.subscriptionId, stored.sub.purchaseToken.value) == Some(g)
    requires ExpiryMillis(g) > today && accepts(GoogleRenewal(auth.value, stored, g, today))
    ensures var o := Decide(auth, rs, today, apple, google, accepts);
            && o.response == Status(true, ExpiryMillis(g))
            && o.created.Some?
            && o.created.value.userId == auth.value
            && o.created.value.expiryDate == g.expiryTimeMillis.GetOr(0)
            && o.created.value.purchaseDate == today
            && o.created.value.startDate == g.startTimeMillis.GetOr(0)
            && o.created.value.receipt.None?
            && o.created.value.purchaseToken == stored.sub.purchaseToken
            && o.created.value.subscriptionId == stored.sub.subscriptionId
            && o.calls[|o.calls| - 1] == CreateSubscription(o.created.value)
  {
  }

  /** With no source confirming a future expiry (no token, no data from Google,
      an expiry not after today, or no id from the create) the answer is
      inactive as of today and nothing is stored. */
  lemma NoSourceIsInactive(auth: Option<string>, rs: seq<Record>, today: Millis,
                           apple: string -> AppleResponse,
                           google: (Option<string>, string) -> Option<GooglePurchase>,
                           accepts: Subscription -> bool)
    requires Truthy(auth) && !CacheActive(rs, auth.value, today)
    requires AppleDeclines(rs, auth.value, today, apple, accepts)
    requires !GoogleRenews(rs, auth.value, today, google, accepts)
    ensures var o := Decide(auth, rs, today, apple, google, accepts);
            o.response == Status(false, today) && o.created == None
  {
  }

  /**
   * The shape of every answer: an active answer expires after today and an
   * inactive one is dated today; a record is stored only with an active
   * answer carrying its expiry, for the logged-in user, and only after a
   * re-verification; the only errors are a missing login and Apple's status
   * 0 without `latest_receipt_info`.
   */
  lemma ResponseShape(auth: Option<string>, rs: seq<Record>, today: Millis,
                      apple: string -> AppleResponse,
                      google: (Option<string>, string) -> Option<GooglePurchase>,
                      accepts: Subscription -> bool)
    ensures var o := Decide(auth, rs, today, apple, google, accepts);
            && (o.response.Status? && o.response.result ==> o.response.expiryDate > today)
            && (o.response.Status? && !o.response.result ==> o.response.expiryDate == today)
            && (o.response == Error(LoginRequired) <==> !Truthy(auth))
            && (o.response == Error(Unexpected) <==>
                  Truthy(auth) && !CacheActive(rs, auth.value, today) && AppleLacksInfo(rs, auth.value, apple))
            && (o.created.Some? ==>
                  && o.response == Status(true, o.created.value.expiryDate)
                  && o.created.value.userId == auth.value
                  && CreateSubscription(o.created.value) in o.calls
                  && !CacheActive(rs, auth.value, today))
            && (o.response.Error? ==> o.created == None)
  {
  }

  /** A renewal is visible at once: asked again on the same day, the handler
      answers from the new record alone, with its expiry. */
  lemma {:induction false} RenewalIsCachedNextTime(auth: Option<string>, rs: seq<Record>, today: Millis,
                                                   apple: string -> AppleResponse,
                                                   google: (Option<string>, string) -> Option<GooglePurchase>,
                                                   accepts: Subscription -> bool,
                                                   apple': string -> AppleResponse,
                                                   google': (Option<string>, string) -> Option<GooglePurchase>,
                                                   accepts': Subscription -> bool)
    requires Decide(auth, rs, today, apple, google, accepts).created.Some?
    ensures var sub := Decide(auth, rs, today, apple, google, accepts).created.value;
            var rs' := Persist(rs, Some(sub));
            Decide(auth, rs', today, apple', google', accepts') ==
              Outcome(Status(true, sub.expiryDate), None, [GetLastSubscription])
  {
    var sub := Decide(auth, rs, today, apple, google, accepts).created.value;
    ResponseShape(auth, rs, today, apple, google, accepts);
    var user := auth.value;
    var r := Record(|rs|, sub);
    forall i | 0 <= i < |rs| && Matches(rs[i], user, AnyRecord)
      ensures rs[i].sub.expiryDate < r.sub.expiryDate
    {
      assert rs[i].sub.expiryDate <= Latest(rs, user, AnyRecord).value.sub.expiryDate;
    }
    LatestTakesNewMaximum(rs, r, user, AnyRecord);
  }

  /** The handler writes only records of the logged-in user: every query of another user is unaffected. */
  lemma OtherUsersUntouched(auth: Option<string>, rs: seq<Record>, today: Millis,
                            apple: string -> AppleResponse,
                            google: (Option<string>, string) -> Option<GooglePurchase>,
                            accepts: Subscription -> bool, other: UserId, f: Filter)
    requires !Truthy(auth) || other != auth.value
    ensures var o := Decide(auth, rs, today, apple, google, accepts);
            Latest(Persist(rs, o.created), other, f) == Latest(rs, other, f)
  {
  }
}
