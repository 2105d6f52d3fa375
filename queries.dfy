/** The read-side derivations: the `getBMShares` aggregation, the flattening of a user's
    ad accounts, and the listings of pending orders and of a user's deposits. */
module Queries {
  import opened Sequences
  import opened JsValues
  import opened Documents

  /** One document of `$unwind: "$adAccounts"`: the order with a single ad account. */
  datatype Unwound = Unwound(order: Order, account: AdAccount)

  /** One entry of `/getBMShares`; `orderId` is the `_id` that `$project` keeps. */
  datatype BMShare = BMShare(orderId: ObjectId, id: string, accountName: string, email: string, bmId: JsValue, status: string)

  function PairWith(o: Order): AdAccount -> Unwound
  {
    (a: AdAccount) => Unwound(o, a)
  }

  function UnwindOrder(o: Order): seq<Unwound>
  {
    Map(o.adAccounts, PairWith(o))
  }

  /** `$unwind: "$adAccounts"` over the whole collection. */
  function Unwind(orders: seq<Order>): seq<Unwound>
  {
    Flatten(Map(orders, UnwindOrder))
  }

  /** The ad-account test of `$match`: `bmId` exists and is not null, `status` is "Pending". */
  predicate IsPendingShare(a: AdAccount)
  {
    a.bmId != Undefined && a.bmId != Null && a.status == "Pending"
  }

  predicate MatchStage(u: Unwound)
  {
    IsPendingShare(u.account)
  }

  /** `$project: { id, accountName, email, bmId, status }`. */
  function ProjectShare(u: Unwound): BMShare
  {
    BMShare(u.order.id, u.account.id, u.account.name, u.order.userEmail, u.account.bmId, u.account.status)
  }

  /** The `/getBMShares` pipeline: `$unwind`, `$match`, `$project`. */
  function GetBMShares(orders: seq<Order>): seq<BMShare>
  {
    Map(Filter(Unwind(orders), MatchStage), ProjectShare)
  }

  lemma UnwindMember(orders: seq<Order>, u: Unwound)
    ensures u in Unwind(orders) <==>
      exists i, j :: 0 <= i < |orders| && 0 <= j < |orders[i].adAccounts| && u == Unwound(orders[i], orders[i].adAccounts[j])
  {
    var groups := Map(orders, UnwindOrder);
    FlattenMember(groups, u);
    if u in Unwind(orders) {
      var i :| 0 <= i < |groups| && u in groups[i];
      var j :| 0 <= j < |groups[i]| && groups[i][j] == u;
      assert u == Unwound(orders[i], orders[i].adAccounts[j]);
    }
    if exists i, j :: 0 <= i < |orders| && 0 <= j < |orders[i].adAccounts| && u == Unwound(orders[i], orders[i].adAccounts[j]) {
      var i, j :| 0 <= i < |orders| && 0 <= j < |orders[i].adAccounts| && u == Unwound(orders[i], orders[i].adAccounts[j]);
      assert groups[i][j] == u;
    }
  }

  /** `$unwind` keeps the collection's order: the pairs of earlier orders come first. */
  lemma UnwindAppend(a: seq<Order>, b: seq<Order>)
    ensures Unwind(a + b) == Unwind(a) + Unwind(b)
  {
    MapAppend(a, b, UnwindOrder);
    FlattenAppend(Map(a, UnwindOrder), Map(b, UnwindOrder));
  }

  /** One order unwinds to one pair per embedded ad account, in array order. */
  lemma UnwindOne(o: Order)
    ensures |Unwind([o])| == |o.adAccounts|
    ensures forall j :: 0 <= j < |o.adAccounts| ==> Unwind([o])[j] == Unwound(o, o.adAccounts[j])
  {
    var u := UnwindOrder(o);
    assert Map([o], UnwindOrder) == [u];
    assert Flatten([u]) == u + Flatten([u][1..]);
    assert [u][1..] == [];
    assert u + [] == u;
  }

  /** An entry is produced exactly for a pending, BM-assigned ad account of some order, and
      it is that account's projection. */
  lemma BMSharesMember(orders: seq<Order>, sh: BMShare)
    ensures sh in GetBMShares(orders) <==>
      exists i, j ::
        && 0 <= i < |orders| && 0 <= j < |orders[i].adAccounts|
        && IsPendingShare(orders[i].adAccounts[j])
        && sh == ProjectShare(Unwound(orders[i], orders[i].adAccounts[j]))
  {
    if sh in GetBMShares(orders) {
      BMShareHasSource(orders, sh);
    }
    if exists i, j ::
        && 0 <= i < |orders| && 0 <= j < |orders[i].adAccounts|
        && IsPendingShare(orders[i].adAccounts[j])
        && sh == ProjectShare(Unwound(orders[i], orders[i].adAccounts[j]))
    {
      var i, j :|
        && 0 <= i < |orders| && 0 <= j < |orders[i].adAccounts|
        && IsPendingShare(orders[i].adAccounts[j])
        && sh == ProjectShare(Unwound(orders[i], orders[i].adAccounts[j]));
      BMShareOfSource(orders, i, j);
    }
  }

  lemma BMShareHasSource(orders: seq<Order>, sh: BMShare)
    requires sh in GetBMShares(orders)
    ensures exists i, j ::
      && 0 <= i < |orders| && 0 <= j < |orders[i].adAccounts|
      && IsPendingShare(orders[i].adAccounts[j])
      && sh == ProjectShare(Unwound(orders[i], orders[i].adAccounts[j]))
  {
    var matched := Filter(Unwind(orders), MatchStage);
    var k :| 0 <= k < |matched| && GetBMShares(orders)[k] == sh;
    var u := matched[k];
    assert u in matched;
    UnwindMember(orders, u);
    var i, j :| 0 <= i < |orders| && 0 <= j < |orders[i].adAccounts| && u == Unwound(orders[i], orders[i].adAccounts[j]);
    assert IsPendingShare(orders[i].adAccounts[j]);
  }

  lemma BMShareOfSource(orders: seq<Order>, i: nat, j: nat)
    requires i < |orders| && j < |orders[i].adAccounts|
    requires IsPendingShare(orders[i].adAccounts[j])
    ensures ProjectShare(Unwound(orders[i], orders[i].adAccounts[j])) in GetBMShares(orders)
  {
    var matched := Filter(Unwind(orders), MatchStage);
    var u := Unwound(orders[i], orders[i].adAccounts[j]);
    UnwindMember(orders, u);
    FilterKeeps(Unwind(orders), MatchStage, u);
    var k :| 0 <= k < |matched| && matched[k] == u;
    assert GetBMShares(orders)[k] == ProjectShare(u);
  }

  /** Every entry describes a pending ad account that has a BM id. */
  lemma BMSharesArePending(orders: seq<Order>, sh: BMShare)
    requires sh in GetBMShares(orders)
    ensures sh.status == "Pending" && sh.bmId != Undefined && sh.bmId != Null
  {
    BMSharesMember(orders, sh);
  }

  /** The entries of earlier orders come first: the result follows the collection's order. */
  lemma BMSharesAppend(a: seq<Order>, b: seq<Order>)
    ensures GetBMShares(a + b) == GetBMShares(a) + GetBMShares(b)
  {
    MapAppend(a, b, UnwindOrder);
    FlattenAppend(Map(a, UnwindOrder), Map(b, UnwindOrder));
    FilterAppend(Unwind(a), Unwind(b), MatchStage);
    MapAppend(Filter(Unwind(a), MatchStage), Filter(Unwind(b), MatchStage), ProjectShare);
  }

  /** The entries one order contributes, account by account in `adAccounts` order: a
      reference definition of the pipeline restricted to one order. */
  function AccountShares(orderId: ObjectId, email: string, accounts: seq<AdAccount>): seq<BMShare>
  {
    if |accounts| == 0 then []
    else
      var a := accounts[0];
      (if IsPendingShare(a) then [BMShare(orderId, a.id, a.name, email, a.bmId, a.status)] else [])
      + AccountShares(orderId, email, accounts[1..])
  }

  lemma {:induction false} AccountSharesAppend(orderId: ObjectId, email: string, a: seq<AdAccount>, b: seq<AdAccount>)
    ensures AccountShares(orderId, email, a + b) == AccountShares(orderId, email, a) + AccountShares(orderId, email, b)
  {
    if |a| == 0 {
      assert a + b == b;
    } else {
      assert (a + b)[1..] == a[1..] + b;
      AccountSharesAppend(orderId, email, a[1..], b);
    }
  }

  /** Unwinding, matching and projecting the accounts paired with `o` yields their entries. */
  lemma {:induction false} PairedShares(o: Order, accounts: seq<AdAccount>)
    ensures Map(Filter(Map(accounts, PairWith(o)), MatchStage), ProjectShare) == AccountShares(o.id, o.userEmail, accounts)
  {
    if |accounts| > 0 {
      var pairs := Map(accounts, PairWith(o));
      assert pairs == [Unwound(o, accounts[0])] + Map(accounts[1..], PairWith(o));
      assert pairs[1..] == Map(accounts[1..], PairWith(o));
      var head := if MatchStage(pairs[0]) then [pairs[0]] else [];
      assert Filter(pairs, MatchStage) == head + Filter(pairs[1..], MatchStage);
      MapAppend(head, Filter(pairs[1..], MatchStage), ProjectShare);
      PairedShares(o, accounts[1..]);
    }
  }

  /** The pipeline over a single order yields exactly that order's account entries. */
  lemma BMSharesOfOrder(o: Order)
    ensures GetBMShares([o]) == AccountShares(o.id, o.userEmail, o.adAccounts)
  {
    var u := UnwindOrder(o);
    assert Map([o], UnwindOrder) == [u];
    assert Flatten([u]) == u + Flatten([u][1..]);
    assert [u][1..] == [];
    assert u + [] == u;
    PairedShares(o, o.adAccounts);
  }

  /** Within one order the entries follow the `adAccounts` array: the entries of the first
      accounts come before those of the later ones. */
  lemma BMSharesAccountsAppend(o: Order, a: seq<AdAccount>, b: seq<AdAccount>)
    ensures GetBMShares([o.(adAccounts := a + b)]) ==
      GetBMShares([o.(adAccounts := a)]) + GetBMShares([o.(adAccounts := b)])
  {
    BMSharesOfOrder(o.(adAccounts := a + b));
    BMSharesOfOrder(o.(adAccounts := a));
    BMSharesOfOrder(o.(adAccounts := b));
    AccountSharesAppend(o.id, o.userEmail, a, b);
  }

  /** One embedded ad account yields exactly one entry when it matches, and none otherwise. */
  lemma BMSharesOneAccount(o: Order, x: AdAccount)
    ensures GetBMShares([o.(adAccounts := [x])]) ==
      if IsPendingShare(x) then [BMShare(o.id, x.id, x.name, o.userEmail, x.bmId, x.status)] else []
  {
    BMSharesOfOrder(o.(adAccounts := [x]));
    assert [x][1..] == [];
  }

  function OwnedBy(email: string): Order -> bool
  {
    (o: Order) => o.userEmail == email
  }

  function AccountsOf(o: Order): seq<AdAccount>
  {
    o.adAccounts
  }

  /** `orders.map(order => order.adAccounts).flat()` over the orders whose `userEmail` is email. */
  function UserAdAccounts(orders: seq<Order>, email: string): seq<AdAccount>
  {
    Flatten(Map(Filter(orders, OwnedBy(email)), AccountsOf))
  }

  /** An ad account is listed exactly when it is embedded in one of the user's orders. */
  lemma UserAdAccountsMember(orders: seq<Order>, email: string, a: AdAccount)
    ensures a in UserAdAccounts(orders, email) <==>
      exists i :: 0 <= i < |orders| && orders[i].userEmail == email && a in orders[i].adAccounts
  {
    var mine := Filter(orders, OwnedBy(email));
    var lists := Map(mine, AccountsOf);
    FlattenMember(lists, a);
    if a in UserAdAccounts(orders, email) {
      var k :| 0 <= k < |lists| && a in lists[k];
      assert mine[k] in mine;
    }
    if exists i :: 0 <= i < |orders| && orders[i].userEmail == email && a in orders[i].adAccounts {
      var i :| 0 <= i < |orders| && orders[i].userEmail == email && a in orders[i].adAccounts;
      FilterKeeps(orders, OwnedBy(email), orders[i]);
      var k :| 0 <= k < |mine| && mine[k] == orders[i];
      assert a in lists[k];
    }
  }

  /** The listing is empty exactly when none of the user's orders embeds an ad account. */
  lemma UserAdAccountsEmpty(orders: seq<Order>, email: string)
    ensures UserAdAccounts(orders, email) == [] <==>
      forall i :: 0 <= i < |orders| && orders[i].userEmail == email ==> orders[i].adAccounts == []
  {
    var mine := Filter(orders, OwnedBy(email));
    var lists := Map(mine, AccountsOf);
    FlattenEmpty(lists);
    if UserAdAccounts(orders, email) == [] {
      forall i | 0 <= i < |orders| && orders[i].userEmail == email
        ensures orders[i].adAccounts == []
      {
        FilterKeeps(orders, OwnedBy(email), orders[i]);
        var k :| 0 <= k < |mine| && mine[k] == orders[i];
        assert lists[k] == orders[i].adAccounts;
      }
    }
    if forall i :: 0 <= i < |orders| && orders[i].userEmail == email ==> orders[i].adAccounts == [] {
      forall k | 0 <= k < |lists| ensures lists[k] == [] {
        assert mine[k] in mine;
        var i :| 0 <= i < |orders| && orders[i] == mine[k];
        assert orders[i].userEmail == email;
      }
    }
  }

  /** A new order's accounts are listed after those of the user's earlier orders. */
  lemma UserAdAccountsAfterInsert(orders: seq<Order>, email: string, o: Order)
    ensures UserAdAccounts(orders + [o], email) ==
      UserAdAccounts(orders, email) + (if o.userEmail == email then o.adAccounts else [])
  {
    var p := OwnedBy(email);
    FilterAppend(orders, [o], p);
    assert Filter([o], p) == (if o.userEmail == email then [o] else []) + Filter([o][1..], p);
    MapAppend(Filter(orders, p), Filter([o], p), AccountsOf);
    FlattenAppend(Map(Filter(orders, p), AccountsOf), Map(Filter([o], p), AccountsOf));
    if o.userEmail == email {
      assert Flatten(Map([o], AccountsOf)) == o.adAccounts + Flatten([]);
    }
  }

  predicate IsPendingOrder(o: Order)
  {
    o.status == "pending"
  }

  /** `/getOrders`: the orders with status "pending", most recently inserted first. */
  function PendingOrdersNewestFirst(orders: seq<Order>): seq<Order>
  {
    Reverse(Filter(orders, IsPendingOrder))
  }

  /** Exactly the pending orders are listed. */
  lemma PendingOrdersMember(orders: seq<Order>, o: Order)
    ensures o in PendingOrdersNewestFirst(orders) <==> o in orders && o.status == "pending"
  {
    var f := Filter(orders, IsPendingOrder);
    if o in orders && o.status == "pending" {
      FilterKeeps(orders, IsPendingOrder, o);
      var k :| 0 <= k < |f| && f[k] == o;
      assert Reverse(f)[|f| - 1 - k] == o;
    }
    if o in Reverse(f) {
      var k :| 0 <= k < |f| && Reverse(f)[k] == o;
      assert f[|f| - 1 - k] in f;
    }
  }

  /** A newly placed pending order heads the listing; any other new order leaves it as it was. */
  lemma PendingOrdersAfterInsert(orders: seq<Order>, o: Order)
    ensures PendingOrdersNewestFirst(orders + [o]) ==
      (if o.status == "pending" then [o] + PendingOrdersNewestFirst(orders) else PendingOrdersNewestFirst(orders))
  {
    ReverseFilterSnoc(orders, o, IsPendingOrder);
  }

  function DepositOf(email: string): Deposit -> bool
  {
    (d: Deposit) => d.userEmail == email
  }

  /** `/getDeposits/:email`: the user's deposits, most recently inserted first. */
  function DepositsNewestFirst(deposits: seq<Deposit>, email: string): seq<Deposit>
  {
    Reverse(Filter(deposits, DepositOf(email)))
  }

  /** Exactly the user's deposits are listed. */
  lemma DepositsMember(deposits: seq<Deposit>, email: string, d: Deposit)
    ensures d in DepositsNewestFirst(deposits, email) <==> d in deposits && d.userEmail == email
  {
    var f := Filter(deposits, DepositOf(email));
    if d in deposits && d.userEmail == email {
      FilterKeeps(deposits, DepositOf(email), d);
      var k :| 0 <= k < |f| && f[k] == d;
      assert Reverse(f)[|f| - 1 - k] == d;
    }
    if d in Reverse(f) {
      var k :| 0 <= k < |f| && Reverse(f)[k] == d;
      assert f[|f| - 1 - k] in f;
    }
  }

  /** A new deposit of the user heads the user's listing; others leave it as it was. */
  lemma DepositsAfterInsert(deposits: seq<Deposit>, email: string, d: Deposit)
    ensures DepositsNewestFirst(deposits + [d], email) ==
      (if d.userEmail == email then [d] + DepositsNewestFirst(deposits, email) else DepositsNewestFirst(deposits, email))
  {
    ReverseFilterSnoc(deposits, d, DepositOf(email));
  }

  predicate IsPendingDeposit(d: Deposit)
  {
    d.status == "pending"
  }

  /** `/getPendingDeposits`: the deposits with status "pending", in collection order. */
  function PendingDeposits(deposits: seq<Deposit>): (r: seq<Deposit>)
    ensures forall d :: d in r <==> d in deposits && d.status == "pending"
  {
    var r := Filter(deposits, IsPendingDeposit);
    assert forall d :: d in deposits && d.status == "pending" ==> d in r by {
      forall d | d in deposits && d.status == "pending" ensures d in r {
        FilterKeeps(deposits, IsPendingDeposit, d);
      }
    }
    r
  }

  /** A new pending deposit is listed last, after the earlier ones; any other new deposit
      leaves the listing as it was. */
  lemma PendingDepositsAfterInsert(deposits: seq<Deposit>, d: Deposit)
    ensures PendingDeposits(deposits + [d]) ==
      PendingDeposits(deposits) + (if d.status == "pending" then [d] else [])
  {
    FilterAppend(deposits, [d], IsPendingDeposit);
    assert Filter([d], IsPendingDeposit) == (if IsPendingDeposit(d) then [d] else []) + Filter([d][1..], IsPendingDeposit);
  }
}
