/**
 * The subscription table of the external data store, as far as the two
 * handlers use it: the `Subscription` entity, the "latest matching record"
 * queries (filter on the owning user, order by `expiryDate` descending,
 * first 1) and the `createSubscription` mutation.
 */
module Store {
  import opened Wrappers

  type UserId = string

  /** A point in time in milliseconds since the epoch. */
  type Millis = int

  /** The attributes `createSubscription` is called with. */
  datatype Subscription = Subscription(
    userId: UserId,
    expiryDate: Millis,
    purchaseDate: Millis,
    startDate: Millis,
    receipt: Option<string>,
    purchaseToken: Option<string>,
    subscriptionId: Option<string>)

  /** A stored subscription: the identifier the store assigned, and its attributes. */
  datatype Record = Record(id: nat, sub: Subscription)

  /** The three filters of the queries: all of a user's records, those with a
      non-null receipt, those with a non-null purchase token. */
  datatype Filter = AnyRecord | HasReceipt | HasPurchaseToken

  predicate Matches(r: Record, user: UserId, f: Filter) {
    && r.sub.userId == user
    && match f
       case AnyRecord => true
       case HasReceipt => r.sub.receipt.Some?
       case HasPurchaseToken => r.sub.purchaseToken.Some?
  }

  /**
   * The first record of `user` passing `f` when ordered by expiry date
   * descending: a matching record whose expiry no other matching record
   * exceeds, or None when no record matches. Among records with the same
   * expiry the earliest stored one is taken.
   */
  function Latest(rs: seq<Record>, user: UserId, f: Filter): (o: Option<Record>)
    ensures o.Some? ==> o.value in rs && Matches(o.value, user, f)
    ensures o.Some? ==> forall i :: 0 <= i < |rs| && Matches(rs[i], user, f) ==>
                          rs[i].sub.expiryDate <= o.value.sub.expiryDate
    ensures o.None? ==> forall i :: 0 <= i < |rs| ==> !Matches(rs[i], user, f)
    decreases |rs|
  {
    if rs == [] then None
    else
      var earlier := Latest(rs[..|rs| - 1], user, f);
      var last := rs[|rs| - 1];
      if !Matches(last, user, f) then earlier
      else if earlier.Some? && last.sub.expiryDate <= earlier.value.sub.expiryDate then earlier
      else Some(last)
  }

  /** Storing a record another query does not select leaves that query's answer alone. */
  lemma LatestIgnoresOthers(rs: seq<Record>, r: Record, user: UserId, f: Filter)
    requires !Matches(r, user, f)
    ensures Latest(rs + [r], user, f) == Latest(rs, user, f)
  {
  }

  /** A stored record that expires after every earlier match becomes the query's answer. */
  lemma LatestTakesNewMaximum(rs: seq<Record>, r: Record, user: UserId, f: Filter)
    requires Matches(r, user, f)
    requires forall i :: 0 <= i < |rs| && Matches(rs[i], user, f) ==> rs[i].sub.expiryDate < r.sub.expiryDate
    ensures Latest(rs + [r], user, f) == Some(r)
  {
  }

  /** The table after a create that returned an identifier (`created` present) or not. */
  function Persist(rs: seq<Record>, created: Option<Subscription>): (r: seq<Record>)
    ensures |r| == |rs| + (if created.Some? then 1 else 0) && rs <= r
    ensures created.Some? ==> r[|rs|].sub == created.value
  {
    match created
    case None => rs
    case Some(sub) => rs + [Record(|rs|, sub)]
  }

  /** The subscription table and the users of the data store. */
  class SubscriptionTable {
    var records: seq<Record>
    const users: set<UserId>

    /** Identifiers are assigned in order of creation, so no two records share one. */
    ghost predicate Valid()
      reads this
    {
      forall i :: 0 <= i < |records| ==> records[i].id == i
    }

    constructor (users: set<UserId>)
      ensures Valid() && records == [] && this.users == users
    {
      this.records := [];
      this.users := users;
    }

    /**
     * The `createSubscription` mutation. `accepted` is the store's answer:
     * whether it returns an identifier. A mutation that returns none writes nothing.
     */
    method Create(sub: Subscription, accepted: bool) returns (id: Option<nat>)
      requires Valid()
      modifies this
      ensures Valid()
      ensures id == (if accepted then Some(|old(records)|) else None)
      ensures accepted ==> forall r :: r in old(records) ==> r.id != id.value
      ensures records == Persist(old(records), if accepted then Some(sub) else None)
    {
      if accepted {
        id := Some(|records|);
        records := records + [Record(|records|, sub)];
      } else {
        id := None;
      }
    }
  }
}
