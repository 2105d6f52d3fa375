/** The route handlers of the service, as methods of one store that holds the three
    collections. Each handler runs its guards in the source's order, answers with a
    `Reply`, and writes at most what the source writes. */
module Handlers {
  import opened Sequences
  import opened JsValues
  import opened EmailFormat
  import opened Documents
  import opened Queries

  /** The fields `/deposit/:email` requires, in the order it checks them. */
  const REQUIRED_DEPOSIT_FIELDS: seq<string> := ["userEmail", "amount", "transactionId", "imgLink", "paymentMethod"]

  /** The responses of the handlers, one constructor per message. */
  datatype Reply =
    | Registered
    | EmailAlreadyRegistered
    | InvalidEmailFormat
    | UserNotFound
    | InsufficientBalance
    | OrderPlaced(orderId: ObjectId, updatedBalance: int)
    | FieldRequired(field: string)
    | InvalidAmountFormat
    | DepositCreated(depositId: ObjectId)
    | DepositNotFound
    | UserNotFoundForBalanceUpdate
    | DepositApproved(deposit: Deposit, userBalance: int)
    | DepositStatusUpdated(deposit: Deposit)
    | BmIdRequired
    | AdAccountNotFound
    | AdAccountUpdated(account: AdAccount)
    | BMShareNotUpdated
    | BMShareStatusUpdated
    | OrderNotUpdated
    | OrderStatusUpdated
    | AdAccountNotUpdated
    | AdAccountStatusUpdated
    | NoAdAccounts
    | AdAccounts(accounts: seq<AdAccount>)
    | Deposits(deposits: seq<Deposit>)
  {
    /** The HTTP status code sent with the reply. */
    function Code(): nat
    {
      match this
      case Registered => 201
      case OrderPlaced(_, _) => 201
      case DepositCreated(_) => 201
      case EmailAlreadyRegistered => 400
      case InvalidEmailFormat => 400
      case InsufficientBalance => 400
      case FieldRequired(_) => 400
      case InvalidAmountFormat => 400
      case BmIdRequired => 400
      case UserNotFound => 404
      case DepositNotFound => 404
      case UserNotFoundForBalanceUpdate => 404
      case AdAccountNotFound => 404
      case BMShareNotUpdated => 404
      case OrderNotUpdated => 404
      case AdAccountNotUpdated => 404
      case NoAdAccounts => 404
      case _ => 200
    }
  }

  function MissingIn(body: map<string, JsValue>): string -> bool
  {
    (name: string) => !Truthy(Field(body, name))
  }

  /** The position in REQUIRED_DEPOSIT_FIELDS of the first field that the body lacks or
      holds a falsy value for; None when all five are truthy. */
  function FirstMissingField(body: map<string, JsValue>): (r: Option<nat>)
    ensures r.Some? ==> r.value < |REQUIRED_DEPOSIT_FIELDS|
    ensures r.Some? ==> !Truthy(Field(body, REQUIRED_DEPOSIT_FIELDS[r.value]))
    ensures r.Some? ==> forall k :: 0 <= k < r.value ==> Truthy(Field(body, REQUIRED_DEPOSIT_FIELDS[k]))
    ensures r.None? <==> forall k :: 0 <= k < |REQUIRED_DEPOSIT_FIELDS| ==> Truthy(Field(body, REQUIRED_DEPOSIT_FIELDS[k]))
  {
    FirstIndex(REQUIRED_DEPOSIT_FIELDS, MissingIn(body))
  }

  /** The required-field loop of `/deposit/:email`, which stops at the first falsy field. */
  method FindMissingField(body: map<string, JsValue>) returns (missing: Option<nat>)
    ensures missing == FirstMissingField(body)
  {
    var i := 0;
    while i < |REQUIRED_DEPOSIT_FIELDS|
      invariant 0 <= i <= |REQUIRED_DEPOSIT_FIELDS|
      invariant forall k :: 0 <= k < i ==> Truthy(Field(body, REQUIRED_DEPOSIT_FIELDS[k]))
    {
      if !Truthy(Field(body, REQUIRED_DEPOSIT_FIELDS[i])) {
        return Some(i);
      }
      i := i + 1;
    }
    return None;
  }

  /** The users, orders and deposits collections. */
  class Store {
    var users: map<string, User>
    var orders: seq<Order>
    var deposits: seq<Deposit>

    /** Users are keyed by their own email, `_id`s are unique within a collection, and
        no stored deposit has a negative amount. */
    ghost predicate Valid()
      reads this
    {
      && (forall e :: e in users ==> users[e].email == e)
      && (forall i, j :: 0 <= i < j < |orders| ==> orders[i].id != orders[j].id)
      && (forall i, j :: 0 <= i < j < |deposits| ==> deposits[i].id != deposits[j].id)
      && (forall i :: 0 <= i < |deposits| ==> deposits[i].amount >= 0)
    }

    ghost predicate BalancesNonNegative()
      reads this
    {
      forall e :: e in users ==> users[e].balance >= 0
    }

    constructor ()
      ensures Valid() && BalancesNonNegative()
      ensures users == map[] && orders == [] && deposits == []
    {
      users, orders, deposits := map[], [], [];
    }

    /** `POST /register`: the duplicate check comes before the format check. */
    method Register(data: User) returns (reply: Reply)
      requires Valid()
      modifies this
      ensures Valid()
      ensures orders == old(orders) && deposits == old(deposits)
      ensures data.email in old(users) ==> reply == EmailAlreadyRegistered && users == old(users)
      ensures data.email !in old(users) && !ValidateEmail(data.email) ==>
        reply == InvalidEmailFormat && users == old(users)
      ensures data.email !in old(users) && ValidateEmail(data.email) ==>
        && reply == Registered
        && users == old(users)[data.email := data]
        && users.Keys == old(users).Keys + {data.email}
      ensures old(BalancesNonNegative()) && data.balance >= 0 ==> BalancesNonNegative()
    {
      if data.email in users {
        return EmailAlreadyRegistered;
      }
      if !ValidateEmail(data.email) {
        return InvalidEmailFormat;
      }
      users := users[data.email := data];
      reply := Registered;
    }

    /** `POST /order`; `data.id` is the `_id` the insert assigns. */
    method PlaceOrder(data: Order) returns (reply: Reply)
      requires Valid()
      requires forall i :: 0 <= i < |orders| ==> orders[i].id != data.id
      modifies this
      ensures Valid()
      ensures deposits == old(deposits)
      ensures !ValidateEmail(data.userEmail) ==>
        reply == InvalidEmailFormat && users == old(users) && orders == old(orders)
      ensures ValidateEmail(data.userEmail) && data.userEmail !in old(users) ==>
        reply == UserNotFound && users == old(users) && orders == old(orders)
      ensures ValidateEmail(data.userEmail) && data.userEmail in old(users)
              && old(users)[data.userEmail].balance < data.totalAmount ==>
        reply == InsufficientBalance && users == old(users) && orders == old(orders)
      ensures ValidateEmail(data.userEmail) && data.userEmail in old(users)
              && old(users)[data.userEmail].balance >= data.totalAmount ==>
        var user := old(users)[data.userEmail];
        var newBalance := user.balance - data.totalAmount;
        && newBalance >= 0
        && reply == OrderPlaced(data.id, newBalance)
        && users == old(users)[data.userEmail := user.(balance := newBalance)]
        && users[data.userEmail].balance == reply.updatedBalance
        && orders == old(orders) + [data]
      ensures old(BalancesNonNegative()) ==> BalancesNonNegative()
    {
      if !ValidateEmail(data.userEmail) {
        return InvalidEmailFormat;
      }
      if data.userEmail !in users {
        return UserNotFound;
      }
      var user := users[data.userEmail];
      if user.balance < data.totalAmount {
        return InsufficientBalance;
      }
      var updatedBalance := user.balance - data.totalAmount;
      users := users[data.userEmail := user.(balance := updatedBalance)];
      orders := orders + [data];
      reply := OrderPlaced(data.id, updatedBalance);
    }

    /** `POST /deposit/:email`. `userExists` is the answer of the user lookup and
        `parsedAmount` the value of `parseFloat(amount)` (None for NaN); `newId` is the
        `_id` the insert assigns. */
    method CreateDeposit(body: map<string, JsValue>, userExists: bool, parsedAmount: Option<int>, newId: ObjectId)
      returns (reply: Reply)
      requires Valid()
      requires forall i :: 0 <= i < |deposits| ==> deposits[i].id != newId
      modifies this
      ensures Valid()
      ensures users == old(users) && orders == old(orders)
      ensures FirstMissingField(body).Some? ==>
        reply == FieldRequired(REQUIRED_DEPOSIT_FIELDS[FirstMissingField(body).value]) && deposits == old(deposits)
      ensures FirstMissingField(body).None? && !ValidateEmail(ToJsString(Field(body, "userEmail"))) ==>
        reply == InvalidEmailFormat && deposits == old(deposits)
      ensures FirstMissingField(body).None? && ValidateEmail(ToJsString(Field(body, "userEmail"))) && !userExists ==>
        reply == UserNotFound && deposits == old(deposits)
      ensures FirstMissingField(body).None? && ValidateEmail(ToJsString(Field(body, "userEmail"))) && userExists
              && (parsedAmount.None? || parsedAmount.value < 0) ==>
        reply == InvalidAmountFormat && deposits == old(deposits)
      ensures FirstMissingField(body).None? && ValidateEmail(ToJsString(Field(body, "userEmail"))) && userExists
              && parsedAmount.Some? && parsedAmount.value >= 0 ==>
        && reply == DepositCreated(newId)
        && deposits == old(deposits) + [Deposit(newId, Field(body, "userEmail").s, parsedAmount.value,
             Field(body, "transactionId"), Field(body, "imgLink"), Field(body, "paymentMethod"), "pending")]
    {
      var missing := FindMissingField(body);
      if missing.Some? {
        return FieldRequired(REQUIRED_DEPOSIT_FIELDS[missing.value]);
      }
      var userEmail := Field(body, "userEmail");
      if !ValidateEmail(ToJsString(userEmail)) {
        return InvalidEmailFormat;
      }
      if !userExists {
        return UserNotFound;
      }
      if parsedAmount.None? || parsedAmount.value < 0 {
        return InvalidAmountFormat;
      }
      if !userEmail.Str? {
        NonStringRejected(userEmail);
        assert false;
      }
      var deposit := Deposit(newId, userEmail.s, parsedAmount.value, Field(body, "transactionId"),
                             Field(body, "imgLink"), Field(body, "paymentMethod"), "pending");
      deposits := deposits + [deposit];
      reply := DepositCreated(newId);
    }

    /** `updateOne({ email }, { $inc: { balance: amount } })`, answering its matchedCount. */
    method IncBalance(email: string, amount: int) returns (matchedCount: nat)
      modifies this
      ensures orders == old(orders) && deposits == old(deposits)
      ensures email in old(users) ==>
        matchedCount == 1 && users == old(users)[email := old(users)[email].(balance := old(users)[email].balance + amount)]
      ensures email !in old(users) ==> matchedCount == 0 && users == old(users)
    {
      if email in users {
        users := users[email := users[email].(balance := users[email].balance + amount)];
        matchedCount := 1;
      } else {
        matchedCount := 0;
      }
    }

    /** `PUT /approveDeposit/:id`: the status is written before the user is looked up,
        and the balance grows only when the new status is "approved". Nothing prevents
        approving the same deposit twice. */
    method ApproveDeposit(id: ObjectId, status: string) returns (reply: Reply)
      requires Valid()
      modifies this
      ensures Valid()
      ensures orders == old(orders)
      ensures FirstIndex(old(deposits), DepositIdIs(id)).None? ==>
        reply == DepositNotFound && users == old(users) && deposits == old(deposits)
      ensures FirstIndex(old(deposits), DepositIdIs(id)).Some? ==>
        var k := FirstIndex(old(deposits), DepositIdIs(id)).value;
        var d := old(deposits)[k];
        && deposits == old(deposits)[k := d.(status := status)]
        && (d.userEmail !in old(users) ==> reply == UserNotFound && users == old(users))
        && (d.userEmail in old(users) && status == "approved" ==>
              var balance := old(users)[d.userEmail].balance + d.amount;
              && reply == DepositApproved(d.(status := status), balance)
              && users == old(users)[d.userEmail := old(users)[d.userEmail].(balance := balance)])
        && (d.userEmail in old(users) && status != "approved" ==>
              reply == DepositStatusUpdated(d.(status := status)) && users == old(users))
      ensures old(BalancesNonNegative()) ==> BalancesNonNegative()
    {
      var found := FirstIndex(deposits, DepositIdIs(id));
      if found.None? {
        return DepositNotFound;
      }
      var k := found.value;
      var depositData := deposits[k];
      var updated := depositData.(status := status);
      deposits := deposits[k := updated];
      if depositData.userEmail !in users {
        return UserNotFound;
      }
      var userExist := users[depositData.userEmail];
      if status == "approved" {
        var matchedCount := IncBalance(depositData.userEmail, depositData.amount);
        if matchedCount == 0 {
          return UserNotFoundForBalanceUpdate;
        }
        return DepositApproved(updated, userExist.balance + depositData.amount);
      }
      reply := DepositStatusUpdated(updated);
    }

    /** `PUT /updateAdAccountBmId/:id`: sets `bmId` and status "Paused" on the first ad
        account with that id in the first order holding one, and answers that account as
        read back by a second lookup. */
    method UpdateAdAccountBmId(accountId: string, bmId: JsValue) returns (reply: Reply)
      requires Valid()
      modifies this
      ensures Valid()
      ensures users == old(users) && deposits == old(deposits)
      ensures !Truthy(bmId) ==> reply == BmIdRequired && orders == old(orders)
      ensures Truthy(bmId) && PositionalTarget(old(orders), AccountQuery(None, accountId)).None? ==>
        reply == AdAccountNotFound && orders == old(orders)
      ensures Truthy(bmId) && PositionalTarget(old(orders), AccountQuery(None, accountId)).Some? ==>
        var (i, j) := PositionalTarget(old(orders), AccountQuery(None, accountId)).value;
        var account := old(orders)[i].adAccounts[j].(bmId := bmId, status := "Paused");
        && orders == SetAccount(old(orders), i, j, account)
        && reply == AdAccountUpdated(account)
    {
      if !Truthy(bmId) {
        return BmIdRequired;
      }
      var query := AccountQuery(None, accountId);
      var target := PositionalTarget(orders, query);
      if target.None? {
        return AdAccountNotFound;
      }
      var (i, j) := target.value;
      var account := orders[i].adAccounts[j].(bmId := bmId, status := "Paused");
      orders := SetAccount(orders, i, j, account);
      TargetStable(old(orders), query, i, j, account);
      var (i', j') := PositionalTarget(orders, query).value;
      reply := AdAccountUpdated(orders[i'].adAccounts[j']);
    }

    /** `updateOne(query, { $set: { "adAccounts.$.status": status } })`, answering whether
        it modified a document (modifiedCount > 0). */
    method SetPositionalStatus(query: AccountQuery, status: string) returns (modified: bool)
      requires Valid()
      modifies this
      ensures Valid()
      ensures users == old(users) && deposits == old(deposits)
      ensures PositionalTarget(old(orders), query).None? ==> !modified && orders == old(orders)
      ensures PositionalTarget(old(orders), query).Some? ==>
        var (i, j) := PositionalTarget(old(orders), query).value;
        var account := old(orders)[i].adAccounts[j];
        && modified == (account.status != status)
        && orders == (if modified then SetAccount(old(orders), i, j, account.(status := status)) else old(orders))
    {
      var target := PositionalTarget(orders, query);
      if target.None? {
        return false;
      }
      var (i, j) := target.value;
      var account := orders[i].adAccounts[j];
      modified := account.status != status;
      if modified {
        orders := SetAccount(orders, i, j, account.(status := status));
      }
    }

    /** `PUT /updateBMShareStatus/:id`: 404 when no ad account has the id or its status
        already equals the new one. */
    method UpdateBMShareStatus(accountId: string, status: string) returns (reply: Reply)
      requires Valid()
      modifies this
      ensures Valid()
      ensures users == old(users) && deposits == old(deposits)
      ensures PositionalTarget(old(orders), AccountQuery(None, accountId)).None? ==>
        reply == BMShareNotUpdated && orders == old(orders)
      ensures PositionalTarget(old(orders), AccountQuery(None, accountId)).Some? ==>
        var (i, j) := PositionalTarget(old(orders), AccountQuery(None, accountId)).value;
        var account := old(orders)[i].adAccounts[j];
        if account.status == status then reply == BMShareNotUpdated && orders == old(orders)
        else reply == BMShareStatusUpdated && orders == SetAccount(old(orders), i, j, account.(status := status))
    {
      var modified := SetPositionalStatus(AccountQuery(None, accountId), status);
      reply := if modified then BMShareStatusUpdated else BMShareNotUpdated;
    }

    /** `PUT /updateAdAccountStatus/:orderId/:accountId`: the same update restricted to the
        order with `_id` orderId. */
    method UpdateAdAccountStatus(orderId: ObjectId, accountId: string, status: string) returns (reply: Reply)
      requires Valid()
      modifies this
      ensures Valid()
      ensures users == old(users) && deposits == old(deposits)
      ensures PositionalTarget(old(orders), AccountQuery(Some(orderId), accountId)).None? ==>
        reply == AdAccountNotUpdated && orders == old(orders)
      ensures PositionalTarget(old(orders), AccountQuery(Some(orderId), accountId)).Some? ==>
        var (i, j) := PositionalTarget(old(orders), AccountQuery(Some(orderId), accountId)).value;
        var account := old(orders)[i].adAccounts[j];
        && old(orders)[i].id == orderId
        && if account.status == status then reply == AdAccountNotUpdated && orders == old(orders)
           else reply == AdAccountStatusUpdated && orders == SetAccount(old(orders), i, j, account.(status := status))
    {
      var modified := SetPositionalStatus(AccountQuery(Some(orderId), accountId), status);
      reply := if modified then AdAccountStatusUpdated else AdAccountNotUpdated;
    }

    /** `PUT /updateOrderStatus/:id`: 404 when no order has the id or its status already
        equals the new one. */
    method UpdateOrderStatus(orderId: ObjectId, status: string) returns (reply: Reply)
      requires Valid()
      modifies this
      ensures Valid()
      ensures users == old(users) && deposits == old(deposits)
      ensures FirstIndex(old(orders), OrderIdIs(orderId)).None? ==>
        reply == OrderNotUpdated && orders == old(orders)
      ensures FirstIndex(old(orders), OrderIdIs(orderId)).Some? ==>
        var i := FirstIndex(old(orders), OrderIdIs(orderId)).value;
        if old(orders)[i].status == status then reply == OrderNotUpdated && orders == old(orders)
        else reply == OrderStatusUpdated && orders == old(orders)[i := old(orders)[i].(status := status)]
    {
      var found := FirstIndex(orders, OrderIdIs(orderId));
      if found.None? {
        return OrderNotUpdated;
      }
      var i := found.value;
      if orders[i].status == status {
        return OrderNotUpdated;
      }
      orders := orders[i := orders[i].(status := status)];
      reply := OrderStatusUpdated;
    }

    /** `GET /getUserAdAccounts/:email`: 404 for an unknown user and for a user whose
        orders embed no ad account; otherwise the flattened accounts. */
    function GetUserAdAccounts(email: string): (reply: Reply)
      reads this
      ensures reply == UserNotFound <==> email !in users
      ensures reply == NoAdAccounts <==>
        email in users && forall i :: 0 <= i < |orders| && orders[i].userEmail == email ==> orders[i].adAccounts == []
      ensures reply.Code() == 200 ==> reply.AdAccounts? && reply.accounts != []
      ensures reply.AdAccounts? ==> reply.accounts == UserAdAccounts(orders, email)
      ensures email in users && UserAdAccounts(orders, email) != [] ==> reply == AdAccounts(UserAdAccounts(orders, email))
    {
      UserAdAccountsEmpty(orders, email);
      if email !in users then UserNotFound
      else
        var accounts := UserAdAccounts(orders, email);
        if |accounts| == 0 then NoAdAccounts else AdAccounts(accounts)
    }

    /** `GET /getDeposits/:email`: 404 for an unknown user, otherwise the user's deposits
        newest first. */
    function GetDeposits(email: string): (reply: Reply)
      reads this
      ensures reply == UserNotFound <==> email !in users
      ensures email in users ==> reply == Deposits(DepositsNewestFirst(deposits, email))
      ensures reply.Deposits? ==> forall d :: d in reply.deposits <==> d in deposits && d.userEmail == email
    {
      if email !in users then UserNotFound
      else
        var result := DepositsNewestFirst(deposits, email);
        assert forall d :: d in result <==> d in deposits && d.userEmail == email by {
          forall d ensures d in result <==> d in deposits && d.userEmail == email {
            DepositsMember(deposits, email, d);
          }
        }
        Deposits(result)
    }
  }
}
