/** Properties of the ledger rules across several service calls: the invariants every call
    keeps, the freezing of closed accounts, the deposit/withdraw round trip, the double
    close, and the two ways the service compares a status with "Closed". */
module AccountLaws {
  import opened Wrappers
  import opened Accounts

  /** One call of the account service's public operations. */
  datatype Call =
    | CreateCall(request: CreateAccountRequest, token: UuidPrefix)
    | DepositCall(number: string, amount: Option<int>)
    | WithdrawCall(number: string, amount: Option<int>)
    | CloseCall(closeNumber: Option<string>)

  function Outcome(store: Store, customers: map<int, Customer>, call: Call): Result<Account, Error> {
    match call
    case CreateCall(request, token) => Create(customers, request, token)
    case DepositCall(number, amount) => Deposit(store, number, amount)
    case WithdrawCall(number, amount) => Withdraw(store, number, amount)
    case CloseCall(number) => Close(store, number)
  }

  /** The repository after one call. */
  function Step(store: Store, customers: map<int, Customer>, call: Call): Store {
    Save(store, Outcome(store, customers, call))
  }

  /** The repository after a sequence of calls, in order. */
  function Run(store: Store, customers: map<int, Customer>, calls: seq<Call>): Store
    decreases |calls|
  {
    if calls == [] then store else Run(Step(store, customers, calls[0]), customers, calls[1..])
  }

  /** The invariants the service keeps on the repository: numbers match keys, no balance is
      negative, and every status is "Active" or "Closed". */
  predicate Healthy(store: Store) {
    Consistent(store) && NonNegative(store) && CanonicalStatuses(store)
  }

  /** The account number a call may write a new record under, if it creates one. */
  predicate MayCreate(call: Call, number: string) {
    call.CreateCall? && GenerateAccountNumber(call.token) == number
  }

  lemma {:induction false} EqualsIgnoreCaseReflexive(s: string)
    ensures EqualsIgnoreCase(s, s)
  {
    if |s| > 0 {
      EqualsIgnoreCaseReflexive(s[1..]);
    }
  }

  /** On the two words the service writes, the case-insensitive test of closeAccount and the
      exact test of depositCash agree. */
  lemma CanonicalStatusTestsAgree(status: string)
    requires status == ACTIVE || status == CLOSED
    ensures EqualsIgnoreCase(CLOSED, status) <==> status == CLOSED
  {
    if status == CLOSED {
      EqualsIgnoreCaseReflexive(CLOSED);
    } else {
      assert !CharEqualsIgnoreCase(CLOSED[0], status[0]);
    }
  }

  lemma StepKeepsHealthy(store: Store, customers: map<int, Customer>, call: Call)
    requires Healthy(store)
    ensures Healthy(Step(store, customers, call))
  {
    var r := Outcome(store, customers, call);
    var store' := Step(store, customers, call);
    forall n | n in store'
      ensures store'[n].accountNumber == n && store'[n].balance >= 0
      ensures store'[n].status == ACTIVE || store'[n].status == CLOSED
    {
      if r.Success? && n == r.value.accountNumber {
        match call
        case CreateCall(_, _) =>
        case DepositCall(number, _) => assert store[number].accountNumber == number;
        case WithdrawCall(number, _) => assert store[number].accountNumber == number;
        case CloseCall(number) => assert store[number.value].accountNumber == number.value;
      }
    }
  }

  /** Whatever sequence of calls is made, the repository stays consistent, no balance goes
      negative and no status other than "Active" or "Closed" appears. */
  lemma {:induction false} RunKeepsHealthy(store: Store, customers: map<int, Customer>, calls: seq<Call>)
    requires Healthy(store)
    ensures Healthy(Run(store, customers, calls))
    decreases |calls|
  {
    if calls != [] {
      StepKeepsHealthy(store, customers, calls[0]);
      RunKeepsHealthy(Step(store, customers, calls[0]), customers, calls[1..]);
    }
  }

  /** A call leaves an account whose status is exactly "Closed" untouched, unless it creates
      a new account under the same number. */
  lemma StepKeepsClosed(store: Store, customers: map<int, Customer>, call: Call, number: string)
    requires Consistent(store)
    requires number in store && store[number].status == CLOSED
    requires !MayCreate(call, number)
    ensures Consistent(Step(store, customers, call))
    ensures number in Step(store, customers, call) && Step(store, customers, call)[number] == store[number]
  {
    var r := Outcome(store, customers, call);
    if r.Success? {
      match call
      case CreateCall(_, _) =>
      case DepositCall(m, _) => assert m != number;
      case WithdrawCall(m, _) => assert m != number;
      case CloseCall(m) =>
        if m.value == number {
          EqualsIgnoreCaseReflexive(CLOSED);
          assert false;
        }
    }
  }

  /** Once an account's status is "Closed", no sequence of calls changes its record: the
      balance is frozen and the status never returns to "Active". Creating an account with
      a colliding number is the one exception, because the repository files records by number. */
  lemma {:induction false} ClosedAccountFrozen(store: Store, customers: map<int, Customer>, calls: seq<Call>, number: string)
    requires Consistent(store)
    requires number in store && store[number].status == CLOSED
    requires forall i :: 0 <= i < |calls| ==> !MayCreate(calls[i], number)
    ensures number in Run(store, customers, calls)
    ensures Run(store, customers, calls)[number] == store[number]
    decreases |calls|
  {
    if calls != [] {
      StepKeepsClosed(store, customers, calls[0], number);
      var rest := calls[1..];
      assert forall i :: 0 <= i < |rest| ==> rest[i] == calls[i + 1];
      ClosedAccountFrozen(Step(store, customers, calls[0]), customers, rest, number);
    }
  }

  /** Depositing an amount into an Active account with a non-negative balance and withdrawing the same amount again
      both succeed and give back the original repository. */
  lemma DepositThenWithdrawRestores(store: Store, number: string, amount: int)
    requires Consistent(store)
    requires number in store && store[number].status == ACTIVE && store[number].balance >= 0 && amount > 0
    ensures Deposit(store, number, Some(amount)).Success?
    ensures Withdraw(Save(store, Deposit(store, number, Some(amount))), number, Some(amount)).Success?
    ensures Save(Save(store, Deposit(store, number, Some(amount))),
                 Withdraw(Save(store, Deposit(store, number, Some(amount))), number, Some(amount))) == store
  {
    var d := Deposit(store, number, Some(amount));
    var s1 := Save(store, d);
    assert d.value.accountNumber == number && s1[number] == d.value;
    var w := Withdraw(s1, number, Some(amount));
    assert w.value == store[number];
    assert Save(s1, w) == store[number := store[number]];
  }

  /** A successful close is followed by a refused one: the second close fails with
      AlreadyClosed and saves nothing. */
  lemma SecondCloseFails(store: Store, number: string)
    requires Consistent(store)
    requires Close(store, Some(number)).Success?
    ensures Close(Save(store, Close(store, Some(number))), Some(number)) == Failure(AlreadyClosed(number))
  {
    EqualsIgnoreCaseReflexive(CLOSED);
  }

  /** The status comparisons differ in letter case: an account whose status is "closed" in
      lower case takes deposits (the exact test of depositCash), refuses withdrawals (the
      exact test against "Active") and cannot be closed (the case-insensitive test of
      closeAccount). */
  lemma LowerCaseClosedAsymmetry(store: Store, number: string, amount: int)
    requires number != "" && number in store && store[number].status == "closed" && amount > 0
    ensures Deposit(store, number, Some(amount)).Success?
    ensures Withdraw(store, number, Some(amount)) == Failure(InsufficientBalanceOrClosed)
    ensures Close(store, Some(number)) == Failure(AlreadyClosed(number))
  {
    var s := store[number].status;
    assert CharEqualsIgnoreCase(CLOSED[0], s[0]);
    assert CLOSED[1..] == s[1..];
    EqualsIgnoreCaseReflexive(s[1..]);
  }

  /** Distinct UUID prefixes give distinct account numbers. */
  lemma AccountNumberInjective(t1: UuidPrefix, t2: UuidPrefix)
    requires t1 != t2
    ensures GenerateAccountNumber(t1) != GenerateAccountNumber(t2)
  {
    var i :| 0 <= i < 8 && t1[i] != t2[i];
    assert GenerateAccountNumber(t1)[i + 2] != GenerateAccountNumber(t2)[i + 2];
  }

  // Scenarios of the service's unit tests, with amounts in cents.

  lemma CustomerNotFoundMessage()
    ensures Message(CustomerNotFound(1)) == "Customer with ID 1 not found"
  {
    assert IntToString(1) == "1";
  }

  lemma AccountNotFoundMessage()
    ensures Message(AccountNotFound("AC12345678")) == "Account with number 'AC12345678' not found"
  {
  }

  lemma DepositScenario()
    ensures var c := Customer(1, "John Doe");
            var store := map["AC12345678" := Account("AC12345678", 10000, ACTIVE, "Savings", c)];
            Deposit(store, "AC12345678", Some(5000)) == Success(Account("AC12345678", 15000, ACTIVE, "Savings", c))
  {
  }

  lemma WithdrawScenarios()
    ensures var c := Customer(1, "John Doe");
            var store := map["AC12345678" := Account("AC12345678", 10000, ACTIVE, "Savings", c)];
            Withdraw(store, "AC12345678", Some(5000)) == Success(Account("AC12345678", 5000, ACTIVE, "Savings", c))
    ensures var c := Customer(1, "John Doe");
            var store := map["AC12345678" := Account("AC12345678", 3000, ACTIVE, "Savings", c)];
            Withdraw(store, "AC12345678", Some(5000)) == Failure(InsufficientBalanceOrClosed)
  {
  }
}
