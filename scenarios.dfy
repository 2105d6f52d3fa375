/** Client code that uses only the handlers' contracts: concrete request sequences and
    what the contracts let a caller conclude about them. */
module Scenarios {
  import opened Sequences
  import opened JsValues
  import opened EmailFormat
  import opened Documents
  import opened Handlers

  lemma SampleAddressValid()
    ensures ValidateEmail("ann@mail.io")
  {
    FormAccepted("ann@mail.io", 3, 8);
  }

  /** A store holding one registered user with the given balance. */
  method StoreWithAnn(balance: int) returns (store: Store)
    ensures fresh(store) && store.Valid()
    ensures store.users == map["ann@mail.io" := User("ann@mail.io", "pw", "Ann", "Lee", balance)]
    ensures store.orders == [] && store.deposits == []
  {
    store := new Store();
    SampleAddressValid();
    var r := store.Register(User("ann@mail.io", "pw", "Ann", "Lee", balance));
  }

  /** Registering the same email a second time is refused with 400. */
  method DuplicateRegistrationScenario()
  {
    var store := StoreWithAnn(0);
    var r := store.Register(User("ann@mail.io", "other", "Other", "Name", 5));
    assert r == EmailAlreadyRegistered && r.Code() == 400;
    assert store.users["ann@mail.io"].firstName == "Ann";
  }

  /** Balance 100 and an order of 40 leave balance 60. */
  method OrderDeductsScenario()
  {
    var store := StoreWithAnn(100);
    SampleAddressValid();
    var order := Order(1, "ann@mail.io", 40, "pending", []);
    var r := store.PlaceOrder(order);
    assert r == OrderPlaced(1, 60);
    assert store.users["ann@mail.io"].balance == 60;
    assert store.orders == [order];
  }

  /** An order above the balance is refused and changes nothing. */
  method OverspendScenario()
  {
    var store := StoreWithAnn(60);
    SampleAddressValid();
    var r := store.PlaceOrder(Order(2, "ann@mail.io", 61, "pending", []));
    assert r == InsufficientBalance && r.Code() == 400;
    assert store.users["ann@mail.io"].balance == 60 && store.orders == [];
  }

  function SampleDepositBody(): map<string, JsValue>
  {
    map["userEmail" := Str("ann@mail.io"), "amount" := Str("25"), "transactionId" := Str("t1"),
        "imgLink" := Str("i"), "paymentMethod" := Str("card")]
  }

  lemma SampleDepositBodyComplete()
    ensures FirstMissingField(SampleDepositBody()).None?
    ensures Field(SampleDepositBody(), "userEmail") == Str("ann@mail.io")
  {
    var body := SampleDepositBody();
    assert Truthy(Field(body, "userEmail"));
    assert Truthy(Field(body, "amount"));
    assert Truthy(Field(body, "transactionId"));
    assert Truthy(Field(body, "imgLink"));
    assert Truthy(Field(body, "paymentMethod"));
  }

  /** A complete deposit body is stored as a pending deposit. */
  method DepositScenario() returns (store: Store)
    ensures fresh(store) && store.Valid()
    ensures store.users == map["ann@mail.io" := User("ann@mail.io", "pw", "Ann", "Lee", 0)]
    ensures |store.deposits| == 1 && store.deposits[0].id == 7
    ensures store.deposits[0].userEmail == "ann@mail.io" && store.deposits[0].amount == 25
    ensures store.deposits[0].status == "pending"
  {
    store := StoreWithAnn(0);
    SampleDepositBodyComplete();
    SampleAddressValid();
    var r := store.CreateDeposit(SampleDepositBody(), true, Some(25), 7);
    assert r == DepositCreated(7);
  }

  /** Approving the same deposit twice credits its amount twice; another status credits
      nothing but is still written. */
  method RepeatedApprovalScenario()
  {
    var store := DepositScenario();
    var r := store.ApproveDeposit(7, "approved");
    assert store.users["ann@mail.io"].balance == 25;
    r := store.ApproveDeposit(7, "approved");
    assert r.Code() == 200 && store.users["ann@mail.io"].balance == 50;
    r := store.ApproveDeposit(7, "rejected");
    assert r.Code() == 200 && store.users["ann@mail.io"].balance == 50;
    assert store.deposits[0].status == "rejected";
  }

  /** A body without a transaction id is refused, naming that field. */
  method MissingFieldScenario()
  {
    var store := StoreWithAnn(0);
    var body := map["userEmail" := Str("ann@mail.io"), "amount" := Num(25), "imgLink" := Str("i")];
    assert Truthy(Field(body, "userEmail")) && Truthy(Field(body, "amount"));
    assert !Truthy(Field(body, "transactionId"));
    var r := store.CreateDeposit(body, true, Some(25), 7);
    assert r == FieldRequired("transactionId") && r.Code() == 400;
    assert store.deposits == [];
  }
}
