/**
 * The `subscribe` handler: verify a new Apple receipt or Google purchase of
 * the logged-in user and store it as a subscription record.
 */
module Subscribe {
  import opened Wrappers
  import opened Store
  import opened Collaborators

  /** The mutation's arguments as the client sends them. */
  datatype Input = Input(receipt: Option<string>, purchaseToken: Option<string>, subscriptionId: Option<string>)

  datatype Failure =
    | LoginRequired
    | UserNotFound
    | MissingInput
    | AppleResponded(response: AppleResponse)
    | RestoreFailed
    | VerifyFailed
    | CreateFailed
    | Unexpected

  /** `{data: {result: true}}` or `{error}`. */
  datatype Response = Subscribed | Error(failure: Failure)

  function Message(f: Failure): string {
    match f
    case LoginRequired => "Login required!"
    case UserNotFound => "User not found!"
    case MissingInput => "Missing input."
    case AppleResponded(response) => "Apple responded with: " + response.json
    case RestoreFailed => "An error occured while restoring subscription"
    case VerifyFailed => "An error occured while verifying the purchase."
    case CreateFailed => "An error occured while creating Subscription."
    case Unexpected => "An unexpected error occured during subscribe."
  }

  /** The answer, the subscription stored (if the create returned an id) and the calls made. */
  datatype Outcome = Outcome(response: Response, created: Option<Subscription>, calls: seq<Call>)

  /** `Math.max` of a non-empty list. */
  function MaxOf(xs: seq<int>): (m: int)
    requires |xs| > 0
    ensures m in xs
    ensures forall i :: 0 <= i < |xs| ==> xs[i] <= m
  {
    if |xs| == 1 then xs[0]
    else
      var rest := MaxOf(xs[1..]);
      assert forall i :: 1 <= i < |xs| ==> xs[i] == xs[1..][i - 1];
      if xs[0] >= rest then xs[0] else rest
  }

  /** `Math.min` of a non-empty list. */
  function MinOf(xs: seq<int>): (m: int)
    requires |xs| > 0
    ensures m in xs
    ensures forall i :: 0 <= i < |xs| ==> m <= xs[i]
  {
    if |xs| == 1 then xs[0]
    else
      var rest := MinOf(xs[1..]);
      assert forall i :: 1 <= i < |xs| ==> xs[i] == xs[1..][i - 1];
      if xs[0] <= rest then xs[0] else rest
  }

  /** `latest_receipt_info.map(v => parseInt(v.expires_date_ms))`. */
  function ExpiryDates(info: seq<ReceiptInfo>): seq<Millis> {
    seq(|info|, i requires 0 <= i < |info| => info[i].expiresDateMs)
  }

  /** `latest_receipt_info.map(v => parseInt(v.purchase_date_ms))`. */
  function PurchaseDates(info: seq<ReceiptInfo>): seq<Millis> {
    seq(|info|, i requires 0 <= i < |info| => info[i].purchaseDateMs)
  }

  /**
   * The record of an Apple purchase: it expires with the latest entry of
   * `latest_receipt_info`, was purchased and started with the earliest, and
   * keeps Apple's latest receipt.
   */
  function AppleSubscription(user: UserId, info: seq<ReceiptInfo>, latestReceipt: Option<string>): (s: Subscription)
    requires |info| > 0
    ensures forall i :: 0 <= i < |info| ==> info[i].expiresDateMs <= s.expiryDate
    ensures exists i :: 0 <= i < |info| && info[i].expiresDateMs == s.expiryDate
    ensures forall i :: 0 <= i < |info| ==> s.purchaseDate <= info[i].purchaseDateMs
    ensures exists i :: 0 <= i < |info| && info[i].purchaseDateMs == s.purchaseDate
    ensures s.startDate == s.purchaseDate
    ensures s.userId == user && s.receipt == latestReceipt
    ensures s.purchaseToken.None? && s.subscriptionId.None?
  {
    var expiry := MaxOf(ExpiryDates(info));
    var purchase := MinOf(PurchaseDates(info));
    assert forall i :: 0 <= i < |info| ==> ExpiryDates(info)[i] == info[i].expiresDateMs;
    assert forall i :: 0 <= i < |info| ==> PurchaseDates(info)[i] == info[i].purchaseDateMs;
    Subscription(user, expiry, purchase, purchase, latestReceipt, None, None)
  }

  /** The record of a Google purchase: Google's times (0 when missing), purchased now. */
  function GoogleSubscription(user: UserId, token: string, subscriptionId: string, g: GooglePurchase, now: Millis): Subscription {
    Subscription(user, ExpiryMillis(g), now, StartMillis(g), None, Some(token), Some(subscriptionId))
  }

  /** The Apple path: verify the submitted receipt and store the aggregate. */
  function AppleOutcome(user: UserId, receipt: string, apple: string -> AppleResponse,
                        accepts: Subscription -> bool): Outcome
  {
    var response := apple(receipt);
    var calls := [GetUser, VerifyReceipt(receipt)];
    if response.status != 0 then Outcome(Error(AppleResponded(response)), None, calls)
    else
      match response.latestReceiptInfo
      case None => Outcome(Error(Unexpected), None, calls)
      case Some(info) =>
        if |info| == 0 then Outcome(Error(AppleResponded(response)), None, calls)
        else
          var sub := AppleSubscription(user, info, response.latestReceipt);
          if accepts(sub) then Outcome(Subscribed, Some(sub), calls + [CreateSubscription(sub)])
          else Outcome(Error(RestoreFailed), None, calls + [CreateSubscription(sub)])
  }

  /** The Google path: verify the token and store Google's times. */
  function GoogleOutcome(user: UserId, token: string, subscriptionId: string, now: Millis,
                         google: (Option<string>, string) -> Option<GooglePurchase>,
                         accepts: Subscription -> bool): Outcome
  {
    var calls := [GetUser, VerifyPurchase(Some(subscriptionId), token)];
    match google(Some(subscriptionId), token)
    case None => Outcome(Error(VerifyFailed), None, calls)
    case Some(g) =>
      var sub := GoogleSubscription(user, token, subscriptionId, g, now);
      if accepts(sub) then Outcome(Subscribed, Some(sub), calls + [CreateSubscription(sub)])
      else Outcome(Error(CreateFailed), None, calls + [CreateSubscription(sub)])
  }

  /** What the handler does, for the store's `users` and the collaborators' answers. */
  function Decide(auth: Option<string>, users: set<UserId>, input: Input, now: Millis,
                  apple: string -> AppleResponse,
                  google: (Option<string>, string) -> Option<GooglePurchase>,
                  accepts: Subscription -> bool): Outcome
  {
    if !Truthy(auth) then Outcome(Error(LoginRequired), None, [])
    else if auth.value !in users then Outcome(Error(UserNotFound), None, [GetUser])
    else if Truthy(input.receipt) then AppleOutcome(auth.value, input.receipt.value, apple, accepts)
    else if Truthy(input.purchaseToken) && Truthy(input.subscriptionId) then
      GoogleOutcome(auth.value, input.purchaseToken.value, input.subscriptionId.value, now, google, accepts)
    else Outcome(Error(MissingInput), None, [GetUser])
  }

  /** The handler, run against the store `table`. */
  method Handle(table: SubscriptionTable, auth: Option<string>, input: Input, now: Millis,
                apple: string -> AppleResponse,
                google: (Option<string>, string) -> Option<GooglePurchase>,
                accepts: Subscription -> bool)
    returns (response: Response, calls: seq<Call>)
    requires table.Valid()
    modifies table
    ensures table.Valid()
    ensures var o := Decide(auth, table.users, input, now, apple, google, accepts);
            response == o.response && calls == o.calls &&
            table.records == Persist(old(table.records), o.created)
  {
    if !Truthy(auth) {
      return Error(LoginRequired), [];
    }
    var userId := auth.value;

    calls := [GetUser];
    if userId !in table.users {
      return Error(UserNotFound), calls;
    }

    if Truthy(input.receipt) {
      var receipt := input.receipt.value;
      var appleResponse := apple(receipt);
      calls := calls + [VerifyReceipt(receipt)];
      if appleResponse.status == 0 && appleResponse.latestReceiptInfo.None? {
        return Error(Unexpected), calls;
      }
      if appleResponse.status == 0 && |appleResponse.latestReceiptInfo.value| > 0 {
        var sub := AppleSubscription(userId, appleResponse.latestReceiptInfo.value, appleResponse.latestReceipt);
        calls := calls + [CreateSubscription(sub)];
        var id := table.Create(sub, accepts(sub));
        if id.None? {
          return Error(RestoreFailed), calls;
        }
      } else {
        return Error(AppleResponded(appleResponse)), calls;
      }
    } else if Truthy(input.purchaseToken) && Truthy(input.subscriptionId) {
      var token, subscriptionId := input.purchaseToken.value, input.subscriptionId.value;
      var googleData := google(Some(subscriptionId), token);
      calls := calls + [VerifyPurchase(Some(subscriptionId), token)];
      if googleData.Some? {
        var sub := GoogleSubscription(userId, token, subscriptionId, googleData.value, now);
        calls := calls + [CreateSubscription(sub)];
        var id := table.Create(sub, accepts(sub));
        if id.None? {
          return Error(CreateFailed), calls;
        }
      } else {
        return Error(VerifyFailed), calls;
      }
    } else {
      return Error(MissingInput), calls;
    }

    return Subscribed, calls;
  }

  // Properties of the decision

  /** Without a logged-in user nothing is read or written. */
  lemma LoginRequiredFirst(auth: Option<string>, users: set<UserId>, input: Input, now: Millis,
                           apple: string -> AppleResponse,
                           google: (Option<string>, string) -> Option<GooglePurchase>,
                           accepts: Subscription -> bool)
    requires !Truthy(auth)
    ensures Decide(auth, users, input, now, apple, google, accepts) == Outcome(Error(LoginRequired), None, [])
  {
  }

  /** An unknown user is reported before the input is looked at. */
  lemma UserCheckedBeforeInput(auth: Option<string>, users: set<UserId>, input: Input, now: Millis,
                               apple: string -> AppleResponse,
                               google: (Option<string>, string) -> Option<GooglePurchase>,
                               accepts: Subscription -> bool)
    requires Truthy(auth) && auth.value !in users
    ensures Decide(auth, users, input, now, apple, google, accepts) == Outcome(Error(UserNotFound), None, [GetUser])
  {
  }

  /** A receipt selects the Apple path: the token and product id are then ignored and Google is not asked. */
  lemma ReceiptTakesPrecedence(auth: Option<string>, users: set<UserId>, input: Input, now: Millis,
                               apple: string -> AppleResponse,
                               google: (Option<string>, string) -> Option<GooglePurchase>,
                               accepts: Subscription -> bool,
                               token: Option<string>, subscriptionId: Option<string>)
    requires Truthy(input.receipt)
    ensures var o := Decide(auth, users, input, now, apple, google, accepts);
            && o == Decide(auth, users, Input(input.receipt, token, subscriptionId), now, apple, google, accepts)
            && NoGoogleCall(o.calls)
  {
  }

  /** For a known user, "Missing input." is the answer exactly when there is
      neither a receipt nor both a token and a product id; nothing is then stored. */
  lemma MissingInputExactly(auth: Option<string>, users: set<UserId>, input: Input, now: Millis,
                            apple: string -> AppleResponse,
                            google: (Option<string>, string) -> Option<GooglePurchase>,
                            accepts: Subscription -> bool)
    requires Truthy(auth) && auth.value in users
    ensures var o := Decide(auth, users, input, now, apple, google, accepts);
            && (o.response == Error(MissingInput) <==>
                  !Truthy(input.receipt) && !(Truthy(input.purchaseToken) && Truthy(input.subscriptionId)))
            && (o.response == Error(MissingInput) ==> o.created == None && o.calls == [GetUser])
  {
  }

  /**
   * Apple accepts the receipt: one create is asked for, with the aggregate of
   * all entries of `latest_receipt_info` and Apple's latest receipt rather than
   * the submitted one; success follows exactly when it returns an id.
   */
  lemma AppleAggregateStored(auth: Option<string>, users: set<UserId>, input: Input, now: Millis,
                             apple: string -> AppleResponse,
                             google: (Option<string>, string) -> Option<GooglePurchase>,
                             accepts: Subscription -> bool)
    requires Truthy(auth) && auth.value in users && Truthy(input.receipt)
    requires var response := apple(input.receipt.value);
             response.status == 0 && response.latestReceiptInfo.Some? && |response.latestReceiptInfo.value| > 0
    ensures var response := apple(input.receipt.value);
            var info := response.latestReceiptInfo.value;
            var sub := AppleSubscription(auth.value, info, response.latestReceipt);
            var o := Decide(auth, users, input, now, apple, google, accepts);
            && o.calls == [GetUser, VerifyReceipt(input.receipt.value), CreateSubscription(sub)]
            && (forall i :: 0 <= i < |info| ==> info[i].expiresDateMs <= sub.expiryDate)
            && (forall i :: 0 <= i < |info| ==> sub.purchaseDate <= info[i].purchaseDateMs)
            && sub.startDate == sub.purchaseDate
            && sub.receipt == response.latestReceipt
            && o.response == (if accepts(sub) then Subscribed else Error(RestoreFailed))
            && o.created == (if accepts(sub) then Some(sub) else None)
  {
  }

  /** A status other than 0, or no entry in `latest_receipt_info`, is reported with Apple's answer and nothing is stored. */
  lemma AppleRejectionReported(auth: Option<string>, users: set<UserId>, input: Input, now: Millis,
                               apple: string -> AppleResponse,
                               google: (Option<string>, string) -> Option<GooglePurchase>,
                               accepts: Subscription -> bool)
    requires Truthy(auth) && auth.value in users && Truthy(input.receipt)
    requires var response := apple(input.receipt.value);
             response.status != 0 || response.latestReceiptInfo == Some([])
    ensures Decide(auth, users, input, now, apple, google, accepts) ==
            Outcome(Error(AppleResponded(apple(input.receipt.value))), None,
                    [GetUser, VerifyReceipt(input.receipt.value)])
  {
  }

  /** Status 0 without `latest_receipt_info` throws, and the generic error is reported. */
  lemma AppleMissingInfoIsUnexpected(auth: Option<string>, users: set<UserId>, input: Input, now: Millis,
                                     apple: string -> AppleResponse,
                                     google: (Option<string>, string) -> Option<GooglePurchase>,
                                     accepts: Subscription -> bool)
    requires Truthy(auth) && auth.value in users && Truthy(input.receipt)
    requires apple(input.receipt.value).status == 0 && apple(input.receipt.value).latestReceiptInfo.None?
    ensures var o := Decide(auth, users, input, now, apple, google, accepts);
            o.response == Error(Unexpected) && o.created == None
  {
  }

  /**
   * The Google path: no data from Google is an error and stores nothing;
   * otherwise one create is asked for with the submitted token and product
   * id, no receipt, purchase date `now` and Google's times, whether or not
   * the expiry lies after `now`.
   */
  lemma GoogleOutcomes(auth: Option<string>, users: set<UserId>, input: Input, now: Millis,
                       apple: string -> AppleResponse,
                       google: (Option<string>, string) -> Option<GooglePurchase>,
                       accepts: Subscription -> bool)
    requires Truthy(auth) && auth.value in users && !Truthy(input.receipt)
    requires Truthy(input.purchaseToken) && Truthy(input.subscriptionId)
    ensures var o := Decide(auth, users, input, now, apple, google, accepts);
            var data := google(input.subscriptionId, input.purchaseToken.value);
            && NoAppleCall(o.calls)
            && (data.None? ==>
                  && o.response == Error(VerifyFailed)
                  && o.created == None
                  && o.calls == [GetUser, VerifyPurchase(input.subscriptionId, input.purchaseToken.value)])
            && (data.Some? ==>
                  var sub := o.calls[|o.calls| - 1].sub;
                  && o.calls[|o.calls| - 1].CreateSubscription?
                  && sub.userId == auth.value
                  && sub.expiryDate == data.value.expiryTimeMillis.GetOr(0)
                  && sub.startDate == data.value.startTimeMillis.GetOr(0)
                  && sub.purchaseDate == now
                  && sub.receipt.None?
                  && sub.purchaseToken == input.purchaseToken
                  && sub.subscriptionId == input.subscriptionId
                  && o.response == (if accepts(sub) then Subscribed else Error(CreateFailed))
                  && o.created == (if accepts(sub) then Some(sub) else None))
  {
  }

  /** Count of create requests in a trace. */
  function Creates(calls: seq<Call>): nat {
    if calls == [] then 0
    else (if calls[0].CreateSubscription? then 1 else 0) + Creates(calls[1..])
  }

  lemma {:induction false} CreatesInShortTrace(c1: Call, c2: Call, tail: seq<Call>)
    requires !c1.CreateSubscription? && !c2.CreateSubscription? && |tail| <= 1
    ensures Creates([c1, c2] + tail) == if tail != [] && tail[0].CreateSubscription? then 1 else 0
  {
    assert ([c1, c2] + tail)[1..] == [c2] + tail;
    assert ([c2] + tail)[1..] == tail;
    if tail != [] {
      assert tail[1..] == [];
      assert Creates(tail) == if tail[0].CreateSubscription? then 1 else 0;
    }
    assert Creates([c2] + tail) == Creates(tail);
  }

  /**
   * Success is answered exactly when a create returned an id: then the
   * stored subscription is the one of the last call, and that is the only
   * create asked for. No answer follows more than one create.
   */
  lemma SubscribedExactlyAfterOneCreate(auth: Option<string>, users: set<UserId>, input: Input, now: Millis,
                                        apple: string -> AppleResponse,
                                        google: (Option<string>, string) -> Option<GooglePurchase>,
                                        accepts: Subscription -> bool)
    ensures var o := Decide(auth, users, input, now, apple, google, accepts);
            && (o.response == Subscribed <==> o.created.Some?)
            && (o.created.Some? ==>
                  o.calls[|o.calls| - 1] == CreateSubscription(o.created.value) && Creates(o.calls) == 1)
            && Creates(o.calls) <= 1
  {
    var o := Decide(auth, users, input, now, apple, google, accepts);
    if |o.calls| >= 2 {
      assert o.calls == [o.calls[0], o.calls[1]] + o.calls[2..];
      CreatesInShortTrace(o.calls[0], o.calls[1], o.calls[2..]);
    } else if |o.calls| == 1 {
      assert o.calls[1..] == [];
    }
  }

  /** The two entries of the aggregation example: expiry 100 and 200, purchase 10 and 20. */
  lemma AggregationExample(user: UserId, latestReceipt: Option<string>)
    ensures var s := AppleSubscription(user, [ReceiptInfo(100, 10), ReceiptInfo(200, 20)], latestReceipt);
            s.expiryDate == 200 && s.purchaseDate == 10 && s.startDate == 10
  {
  }
}
