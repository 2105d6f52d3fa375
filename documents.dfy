/** The documents of the three collections (users, orders, deposits) and the ad accounts
    embedded in orders, with the matching rules of the queries the handlers send. */
module Documents {
  import opened Sequences
  import opened JsValues

  /** A document `_id`, treated as an opaque key. */
  type ObjectId = nat

  /** A registered user: the request body of `/register`, stored as it came. */
  datatype User = User(email: string, password: string, firstName: string, lastName: string, balance: int)

  /** An ad account embedded in an order's `adAccounts` array. `bmId` is Undefined while
      the field is absent. */
  datatype AdAccount = AdAccount(
    id: string,
    name: string,
    adAccountType: string,
    status: string,
    timezone: string,
    deposit: JsValue,
    bmId: JsValue)

  /** An order: the request body of `/order` plus the `_id` the insert assigns. */
  datatype Order = Order(
    id: ObjectId,
    userEmail: string,
    totalAmount: int,
    status: string,
    adAccounts: seq<AdAccount>)

  /** A deposit as `/deposit/:email` inserts it (the timestamp is not modelled). */
  datatype Deposit = Deposit(
    id: ObjectId,
    userEmail: string,
    amount: int,
    transactionId: JsValue,
    imgLink: JsValue,
    paymentMethod: JsValue,
    status: string)

  /** The filter `{ "adAccounts.id": accountId }` on one order. */
  predicate ContainsAccount(o: Order, accountId: string)
  {
    exists j :: 0 <= j < |o.adAccounts| && o.adAccounts[j].id == accountId
  }

  /** The query of a positional update: `{ "adAccounts.id": accountId }`, optionally
      together with `_id: orderId`. */
  datatype AccountQuery = AccountQuery(orderId: Option<ObjectId>, accountId: string)

  predicate MatchesQuery(q: AccountQuery, o: Order)
  {
    (q.orderId.None? || o.id == q.orderId.value) && ContainsAccount(o, q.accountId)
  }

  function QueryMatcher(q: AccountQuery): Order -> bool
  {
    (o: Order) => MatchesQuery(q, o)
  }

  function AccountIdIs(accountId: string): AdAccount -> bool
  {
    (a: AdAccount) => a.id == accountId
  }

  function OrderIdIs(id: ObjectId): Order -> bool
  {
    (o: Order) => o.id == id
  }

  function DepositIdIs(id: ObjectId): Deposit -> bool
  {
    (d: Deposit) => d.id == id
  }

  /** The element `"adAccounts.$"` denotes in `updateOne(q, { $set: ... })`: the first order
      matching q and, in it, the first ad account whose id matched. None when no order matches. */
  function PositionalTarget(orders: seq<Order>, q: AccountQuery): (t: Option<(nat, nat)>)
    ensures t.None? <==> forall i :: 0 <= i < |orders| ==> !MatchesQuery(q, orders[i])
    ensures t.Some? ==>
      && t.value.0 < |orders|
      && MatchesQuery(q, orders[t.value.0])
      && (forall i :: 0 <= i < t.value.0 ==> !MatchesQuery(q, orders[i]))
    ensures t.Some? ==>
      && t.value.1 < |orders[t.value.0].adAccounts|
      && orders[t.value.0].adAccounts[t.value.1].id == q.accountId
      && (forall j :: 0 <= j < t.value.1 ==> orders[t.value.0].adAccounts[j].id != q.accountId)
  {
    match FirstIndex(orders, QueryMatcher(q))
    case None => None
    case Some(i) =>
      match FirstIndex(orders[i].adAccounts, AccountIdIs(q.accountId))
      case None => assert false; None
      case Some(j) => Some((i, j))
  }

  /** The orders with ad account j of order i replaced by a. */
  function SetAccount(orders: seq<Order>, i: nat, j: nat, a: AdAccount): (r: seq<Order>)
    requires i < |orders| && j < |orders[i].adAccounts|
    ensures |r| == |orders|
    ensures forall k :: 0 <= k < |orders| && k != i ==> r[k] == orders[k]
    ensures r[i].id == orders[i].id && r[i].userEmail == orders[i].userEmail
    ensures r[i].totalAmount == orders[i].totalAmount && r[i].status == orders[i].status
    ensures |r[i].adAccounts| == |orders[i].adAccounts| && r[i].adAccounts[j] == a
    ensures forall k :: 0 <= k < |orders[i].adAccounts| && k != j ==> r[i].adAccounts[k] == orders[i].adAccounts[k]
  {
    orders[i := orders[i].(adAccounts := orders[i].adAccounts[j := a])]
  }

  /** A positional update that keeps the account's id keeps the positional target. */
  lemma TargetStable(orders: seq<Order>, q: AccountQuery, i: nat, j: nat, a: AdAccount)
    requires PositionalTarget(orders, q) == Some((i, j))
    requires a.id == orders[i].adAccounts[j].id
    ensures PositionalTarget(SetAccount(orders, i, j, a), q) == Some((i, j))
  {
    var r := SetAccount(orders, i, j, a);
    assert MatchesQuery(q, r[i]) by {
      assert r[i].adAccounts[j].id == q.accountId;
    }
    var t := PositionalTarget(r, q);
    assert t.value.0 == i by {
      if t.value.0 < i {
        assert false;
      }
    }
  }
}
