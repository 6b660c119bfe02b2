/** The account ledger rules of the banking back office: creating an account for a known
    customer, depositing and withdrawing cash, closing an account and looking one up.
    The account repository is a map from account number to account record, held in a
    field of `AccountService`; the customer repository is a second, read-only map.
    Amounts and balances are integers in minor currency units. */
module Accounts {
  import opened Wrappers

  /** The two status words the service writes. Statuses are kept as strings, because the
      service compares them as strings, and not always in the same way. */
  const ACTIVE: string := "Active"
  const CLOSED: string := "Closed"

  datatype Customer = Customer(id: int, name: string)

  datatype Account = Account(
    accountNumber: string,
    balance: int,
    status: string,
    accountType: string,
    customer: Customer)

  /** The body of a create-account request. The account type is not checked by the
      service: any string is stored as given. */
  datatype CreateAccountRequest = CreateAccountRequest(customerId: int, accountType: string)

  /** The failures the service raises; each one names what the exception's message names. */
  datatype Error =
    | InvalidAmount                     // missing or non-positive amount
    | AccountNotFound(number: string)
    | CustomerNotFound(id: int)
    | AccountClosed(number: string)     // deposit on an account whose status is exactly "Closed"
    | InsufficientBalanceOrClosed       // every refused withdrawal
    | InvalidAccountNumber              // close with a null or empty account number
    | AlreadyClosed(number: string)

  /** The exception class: resource-not-found (a 404 at the HTTP layer) or illegal argument.
      Exactly the resource-not-found failures say "not found" at the end of their message. */
  function IsResourceNotFound(e: Error): (r: bool)
    ensures r ==> Message(e)[|Message(e)| - 10..] == " not found"
  {
    e.AccountNotFound? || e.CustomerNotFound?
  }

  function NatToString(n: nat): string
    decreases n
  {
    var digit := ['0' + (n % 10) as char];
    if n < 10 then digit else NatToString(n / 10) + digit
  }

  function IntToString(i: int): string {
    if i < 0 then "-" + NatToString(-i) else NatToString(i)
  }

  /** The exception message of each failure; a failure about an account names its number,
      quoted, right after "Account with number ". */
  function Message(e: Error): (m: string)
    ensures |m| >= 10
    ensures (e.AccountNotFound? || e.AccountClosed? || e.AlreadyClosed?) ==>
      "Account with number '" + e.number + "'" <= m
  {
    match e
    case InvalidAmount => "Amount must be greater than zero."
    case AccountNotFound(n) => "Account with number '" + n + "' not found"
    case CustomerNotFound(id) => "Customer with ID " + IntToString(id) + " not found"
    case AccountClosed(n) => "Account with number '" + n + "' is closed"
    case InsufficientBalanceOrClosed => "Insufficient balance or account is closed."
    case InvalidAccountNumber => "Account number cannot be null or empty"
    case AlreadyClosed(n) => "Account with number '" + n + "' is already closed"
  }

  type Store = map<string, Account>

  /** Every record is filed under its own account number. */
  predicate Consistent(store: Store) {
    forall n :: n in store ==> store[n].accountNumber == n
  }

  predicate NonNegative(store: Store) {
    forall n :: n in store ==> store[n].balance >= 0
  }

  /** Every status is one of the two words the service itself writes. */
  predicate CanonicalStatuses(store: Store) {
    forall n :: n in store ==> store[n].status == ACTIVE || store[n].status == CLOSED
  }

  /** The repository's lookup by account number. */
  function Lookup(store: Store, number: string): (r: Option<Account>)
    ensures r.Some? <==> number in store
    ensures r.Some? ==> r.value == store[number]
  {
    if number in store then Some(store[number]) else None
  }

  /** The repository's save: an upsert keyed by the record's account number. A failed
      operation saves nothing. */
  function Save(store: Store, r: Result<Account, Error>): (store': Store)
    ensures r.Failure? ==> store' == store
    ensures r.Success? ==> store'.Keys == store.Keys + {r.value.accountNumber}
    ensures r.Success? ==> store'[r.value.accountNumber] == r.value
    ensures forall n :: n in store && (r.Failure? || n != r.value.accountNumber) ==> n in store' && store'[n] == store[n]
  {
    if r.Success? then store[r.value.accountNumber := r.value] else store
  }

  // ---------------------------------------------------------------------------------------
  // Java's String.equalsIgnoreCase

  predicate IsAsciiLetter(c: char) { 'A' <= c <= 'Z' || 'a' <= c <= 'z' }

  /** Character.toUpperCase on the characters whose upper case is an ASCII letter:
      the ASCII lower-case letters, the long s (U+017F) and the dotless i (U+0131). */
  function UpperCase(c: char): (u: char)
    ensures u == c || 'A' <= u <= 'Z'
    ensures 'a' <= c <= 'z' ==> u as int == c as int - 32
    ensures 'A' <= c <= 'Z' ==> u == c
  {
    if 'a' <= c <= 'z' then (c as int - 32) as char
    else if c == '\U{017F}' then 'S'
    else if c == '\U{0131}' then 'I'
    else c
  }

  /** Character.toLowerCase on the characters whose lower case is an ASCII letter:
      the ASCII upper-case letters, the Kelvin sign (U+212A) and the dotted capital I (U+0130). */
  function LowerCase(c: char): (l: char)
    ensures l == c || 'a' <= l <= 'z'
    ensures 'A' <= c <= 'Z' ==> l as int == c as int + 32
    ensures 'a' <= c <= 'z' ==> l == c
  {
    if 'A' <= c <= 'Z' then (c as int + 32) as char
    else if c == '\U{212A}' then 'k'
    else if c == '\U{0130}' then 'i'
    else c
  }

  /** The per-character test of equalsIgnoreCase: equal, equal upper cases, or equal lower
      cases of the upper cases. */
  function CharEqualsIgnoreCase(a: char, b: char): (r: bool)
    ensures a == b ==> r
    ensures IsAsciiLetter(a) && IsAsciiLetter(b) ==> (r <==> a == b || a as int - b as int == 32 || b as int - a as int == 32)
  {
    a == b || UpperCase(a) == UpperCase(b) || LowerCase(UpperCase(a)) == LowerCase(UpperCase(b))
  }

  /** Both strings have the same length and agree ignoring case at every position. */
  function EqualsIgnoreCase(a: string, b: string): (r: bool)
    ensures r <==> |a| == |b| && forall i :: 0 <= i < |a| ==> CharEqualsIgnoreCase(a[i], b[i])
  {
    |a| == |b| && (|a| == 0 || (CharEqualsIgnoreCase(a[0], b[0]) && EqualsIgnoreCase(a[1..], b[1..])))
  }

  // ---------------------------------------------------------------------------------------
  // Account numbers

  predicate IsLowerHexDigit(c: char) { '0' <= c <= '9' || 'a' <= c <= 'f' }

  predicate IsUpperHexDigit(c: char) { '0' <= c <= '9' || 'A' <= c <= 'F' }

  /** The first eight characters of a random UUID's text form: eight lower-case hex digits.
      The randomness itself is the caller's choice of this value. */
  type UuidPrefix = s: string | |s| == 8 && forall i :: 0 <= i < |s| ==> IsLowerHexDigit(s[i])
    witness "00000000"

  /** "AC" followed by the upper-cased UUID prefix. */
  function GenerateAccountNumber(token: UuidPrefix): (n: string)
    ensures |n| == 10 && n[..2] == "AC"
    ensures forall i :: 2 <= i < 10 ==> IsUpperHexDigit(n[i])
    ensures forall i :: 0 <= i < 8 ==> n[i + 2] == UpperCase(token[i])
  {
    "AC" + seq(8, i requires 0 <= i < 8 => UpperCase(token[i]))
  }

  // ---------------------------------------------------------------------------------------
  // The ledger rules, as functions of the repositories' contents

  predicate PositiveAmount(amount: Option<int>) {
    amount.Some? && amount.value > 0
  }

  /** createAccount: the customer must exist; the new account starts empty and Active. */
  function Create(customers: map<int, Customer>, request: CreateAccountRequest, token: UuidPrefix)
    : (r: Result<Account, Error>)
    ensures request.customerId !in customers <==> r == Failure(CustomerNotFound(request.customerId))
    ensures r.Success? ==>
      && r.value.accountNumber == GenerateAccountNumber(token)
      && r.value.balance == 0
      && r.value.status == ACTIVE
      && r.value.accountType == request.accountType
      && r.value.customer == customers[request.customerId]
  {
    if request.customerId !in customers then Failure(CustomerNotFound(request.customerId))
    else Success(Account(GenerateAccountNumber(token), 0, ACTIVE, request.accountType, customers[request.customerId]))
  }

  /** depositCash: amount check, then lookup, then the exact "Closed" check. */
  function Deposit(store: Store, number: string, amount: Option<int>): (r: Result<Account, Error>)
    ensures !PositiveAmount(amount) ==> r == Failure(InvalidAmount)
    ensures PositiveAmount(amount) && number !in store ==> r == Failure(AccountNotFound(number))
    ensures PositiveAmount(amount) && number in store && store[number].status == CLOSED ==>
      r == Failure(AccountClosed(number))
    ensures r.Success? <==> PositiveAmount(amount) && number in store && store[number].status != CLOSED
    ensures r.Success? ==>
      && r.value.balance == store[number].balance + amount.value
      && r.value.(balance := store[number].balance) == store[number]
  {
    if !PositiveAmount(amount) then Failure(InvalidAmount)
    else if number !in store then Failure(AccountNotFound(number))
    else if store[number].status == CLOSED then Failure(AccountClosed(number))
    else Success(store[number].(balance := store[number].balance + amount.value))
  }

  /** withdrawCash: amount check, then lookup, then one combined test of status and funds. */
  function Withdraw(store: Store, number: string, amount: Option<int>): (r: Result<Account, Error>)
    ensures !PositiveAmount(amount) ==> r == Failure(InvalidAmount)
    ensures PositiveAmount(amount) && number !in store ==> r == Failure(AccountNotFound(number))
    ensures r.Success? <==>
      PositiveAmount(amount) && number in store
      && store[number].status == ACTIVE && store[number].balance >= amount.value
    ensures PositiveAmount(amount) && number in store && r.Failure? ==> r == Failure(InsufficientBalanceOrClosed)
    ensures r.Success? ==>
      && r.value.balance == store[number].balance - amount.value
      && 0 <= r.value.balance < store[number].balance
      && r.value.(balance := store[number].balance) == store[number]
  {
    if !PositiveAmount(amount) then Failure(InvalidAmount)
    else if number !in store then Failure(AccountNotFound(number))
    else if store[number].status == ACTIVE && store[number].balance >= amount.value then
      Success(store[number].(balance := store[number].balance - amount.value))
    else Failure(InsufficientBalanceOrClosed)
  }

  /** closeAccount: a null or empty number is refused before the lookup; "Closed" in any
      letter case counts as already closed. */
  function Close(store: Store, number: Option<string>): (r: Result<Account, Error>)
    ensures number.None? || number.value == "" ==> r == Failure(InvalidAccountNumber)
    ensures number.Some? && number.value != "" && number.value !in store ==>
      r == Failure(AccountNotFound(number.value))
    ensures number.Some? && number.value != "" && number.value in store
            && EqualsIgnoreCase(CLOSED, store[number.value].status) ==>
      r == Failure(AlreadyClosed(number.value))
    ensures r.Success? <==>
      number.Some? && number.value != "" && number.value in store
      && !EqualsIgnoreCase(CLOSED, store[number.value].status)
    ensures r.Success? ==>
      && r.value.status == CLOSED
      && r.value.(status := store[number.value].status) == store[number.value]
  {
    if number.None? || number.value == "" then Failure(InvalidAccountNumber)
    else if number.value !in store then Failure(AccountNotFound(number.value))
    else if EqualsIgnoreCase(CLOSED, store[number.value].status) then Failure(AlreadyClosed(number.value))
    else Success(store[number.value].(status := CLOSED))
  }

  // ---------------------------------------------------------------------------------------
  // The service, over its two repositories

  class AccountService {
    /** The account repository, keyed by account number. */
    var accounts: Store
    /** The customer repository, keyed by customer id; only read here. */
    var customers: map<int, Customer>

    ghost predicate Valid()
      reads this
    {
      Consistent(accounts)
    }

    constructor (accounts: Store, customers: map<int, Customer>)
      requires Consistent(accounts)
      ensures Valid()
      ensures this.accounts == accounts && this.customers == customers
    {
      this.accounts := accounts;
      this.customers := customers;
    }

    method CreateAccount(request: CreateAccountRequest, token: UuidPrefix) returns (r: Result<Account, Error>)
      requires Valid()
      modifies this`accounts
      ensures Valid()
      ensures r == Create(customers, request, token)
      ensures accounts == Save(old(accounts), r)
      ensures NonNegative(old(accounts)) ==> NonNegative(accounts)
    {
      if request.customerId !in customers {
        return Failure(CustomerNotFound(request.customerId));
      }
      var customer := customers[request.customerId];
      var account := Account(GenerateAccountNumber(token), 0, ACTIVE, request.accountType, customer);
      accounts := accounts[account.accountNumber := account];
      r := Success(account);
    }

    method DepositCash(number: string, amount: Option<int>) returns (r: Result<Account, Error>)
      requires Valid()
      modifies this`accounts
      ensures Valid()
      ensures r == Deposit(old(accounts), number, amount)
      ensures accounts == Save(old(accounts), r)
      ensures NonNegative(old(accounts)) ==> NonNegative(accounts)
    {
      if amount.None? || amount.value <= 0 {
        return Failure(InvalidAmount);
      }
      if number !in accounts {
        return Failure(AccountNotFound(number));
      }
      var account := accounts[number];
      if account.status == CLOSED {
        return Failure(AccountClosed(number));
      }
      account := account.(balance := account.balance + amount.value);
      accounts := accounts[account.accountNumber := account];
      r := Success(account);
    }

    method WithdrawCash(number: string, amount: Option<int>) returns (r: Result<Account, Error>)
      requires Valid()
      modifies this`accounts
      ensures Valid()
      ensures r == Withdraw(old(accounts), number, amount)
      ensures accounts == Save(old(accounts), r)
      ensures NonNegative(old(accounts)) ==> NonNegative(accounts)
    {
      if amount.None? || amount.value <= 0 {
        return Failure(InvalidAmount);
      }
      if number !in accounts {
        return Failure(AccountNotFound(number));
      }
      var account := accounts[number];
      if account.status == ACTIVE && account.balance >= amount.value {
        account := account.(balance := account.balance - amount.value);
        accounts := accounts[account.accountNumber := account];
        return Success(account);
      }
      r := Failure(InsufficientBalanceOrClosed);
    }

    method CloseAccount(number: Option<string>) returns (r: Result<Account, Error>)
      requires Valid()
      modifies this`accounts
      ensures Valid()
      ensures r == Close(old(accounts), number)
      ensures accounts == Save(old(accounts), r)
      ensures NonNegative(old(accounts)) ==> NonNegative(accounts)
    {
      if number.None? || number.value == "" {
        return Failure(InvalidAccountNumber);
      }
      if number.value !in accounts {
        return Failure(AccountNotFound(number.value));
      }
      var account := accounts[number.value];
      if EqualsIgnoreCase(CLOSED, account.status) {
        return Failure(AlreadyClosed(number.value));
      }
      account := account.(status := CLOSED);
      accounts := accounts[account.accountNumber := account];
      r := Success(account);
    }

    /** getAccountByNumber: the repository's answer, absence included. */
    method GetAccountByNumber(number: string) returns (r: Option<Account>)
      requires Valid()
      ensures r.Some? <==> number in accounts
      ensures r.Some? ==> r.value == accounts[number] && r.value.accountNumber == number
    {
      r := Lookup(accounts, number);
    }
  }
}
