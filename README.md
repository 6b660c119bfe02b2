# Bank back office: account ledger rules and customer form validation

A Dafny model of two parts of a small banking back office.

- **Account ledger rules** (`AccountService`): create an account for a known customer, deposit
  cash, withdraw cash, close an account, and look an account up. The account repository is a
  `map` from account number to account record, held in a field of the class
  `Accounts.AccountService`. The customer repository is a second map that the service only reads.
  Every method is an imperative step (look up, check, update the record, save it back). Each one is
  proved against a pure function of the repository (`Accounts.Create`, `Deposit`, `Withdraw`,
  `Close`). Lemmas in `AccountLaws` then prove properties across sequences of calls.
- **Customer form validation** (`validateForm` of the create-customer and edit-customer forms): an
  ordered chain of checks that returns the first failing message, or `""`. The regular expressions
  are written as predicates over characters. The e-mail pattern is stated twice: once as the regular
  expression reads (some `@` and some later `.`), once as a deterministic matcher. The two are
  proved to accept the same strings.

Modelling choices:

- Amounts and balances are integers in minor currency units. A missing (`null`) amount is `None`.
- Statuses are strings. Deposit compares the status with `"Closed"` exactly. Withdraw compares it
  with `"Active"` exactly. Close uses Java's `equalsIgnoreCase`, so `"closed"` counts as closed
  there but not for deposit. The model keeps that difference: see `LowerCaseClosedAsymmetry` and
  `CanonicalStatusTestsAgree`.
- The random part of an account number is a parameter: the first eight characters of a UUID's text
  form (eight lower-case hex digits). The number is `"AC"` followed by those upper-cased.
- The repository's save is an upsert keyed by the record's account number.

Where the service does less than the request annotations and the data model suggest, the model follows the service:

- The account type is not restricted to `Saving`/`Current` by the service. Any string is stored.
- A non-negative balance and a two-valued status are not enforced on a store the service reads. They
  are proved to be preserved by every call (`RunKeepsHealthy`).
- A closed account's balance is frozen only when its status is exactly `"Closed"`
  (`ClosedAccountFrozen`). A deposit into an account whose status is `"closed"` succeeds.

## Model

| member | source | states |
|---|---|---|
| `Accounts.Lookup` | backend-spring-boot-app/src/main/java/com/maybank/assignment/service/AccountService.java:53 | the repository lookup yields a record exactly when the number is a key, and then that key's record |
| `Accounts.Save` | backend-spring-boot-app/src/main/java/com/maybank/assignment/service/AccountService.java:63 | a failure saves nothing; a success files the record under its own number and leaves every other entry as it was |
| `Accounts.GenerateAccountNumber` | backend-spring-boot-app/src/main/java/com/maybank/assignment/service/AccountService.java:42-44 | the number is 10 characters: "AC" then the eight UUID characters upper-cased, all upper-case hex digits |
| `Accounts.Create` | backend-spring-boot-app/src/main/java/com/maybank/assignment/service/AccountService.java:24-40 | fails with customer-not-found exactly when the customer id is absent; otherwise the new account has the generated number, balance 0, status "Active", the requested type and the found customer |
| `Accounts.Deposit` | backend-spring-boot-app/src/main/java/com/maybank/assignment/service/AccountService.java:47-64 | a missing or non-positive amount fails first, then an absent number, then a status exactly "Closed"; success exactly otherwise, and then only the balance changes, rising by the amount |
| `Accounts.Withdraw` | backend-spring-boot-app/src/main/java/com/maybank/assignment/service/AccountService.java:67-81 | amount and lookup checks as for deposit; success exactly when the status is exactly "Active" and the balance covers the amount; every other refusal is the single combined error; on success only the balance changes, falling by the amount and staying non-negative |
| `Accounts.Close` | backend-spring-boot-app/src/main/java/com/maybank/assignment/service/AccountService.java:84-99 | a null or empty number fails before the lookup, then an absent number, then a status equal to "Closed" ignoring case; otherwise only the status changes, to "Closed" |
| `Accounts.AccountService.constructor` | backend-spring-boot-app/src/main/java/com/maybank/assignment/service/AccountService.java:17-21 | the service starts over the given account and customer repositories |
| `Accounts.AccountService.CreateAccount` | backend-spring-boot-app/src/main/java/com/maybank/assignment/service/AccountService.java:24-40 | returns what `Create` decides and saves the new account; records stay filed under their numbers and non-negative balances stay non-negative |
| `Accounts.AccountService.DepositCash` | backend-spring-boot-app/src/main/java/com/maybank/assignment/service/AccountService.java:47-64 | returns what `Deposit` decides and saves exactly that outcome; records stay filed under their numbers and non-negative balances stay non-negative |
| `Accounts.AccountService.WithdrawCash` | backend-spring-boot-app/src/main/java/com/maybank/assignment/service/AccountService.java:67-81 | returns what `Withdraw` decides and saves exactly that outcome; records stay filed under their numbers and non-negative balances stay non-negative |
| `Accounts.AccountService.CloseAccount` | backend-spring-boot-app/src/main/java/com/maybank/assignment/service/AccountService.java:84-99 | returns what `Close` decides and saves exactly that outcome; records stay filed under their numbers and non-negative balances stay non-negative |
| `Accounts.AccountService.GetAccountByNumber` | backend-spring-boot-app/src/main/java/com/maybank/assignment/service/AccountService.java:102-104 | returns the stored record for the number, or nothing when it is absent |
| `Accounts.Message` | backend-spring-boot-app/src/main/java/com/maybank/assignment/service/AccountService.java:27-95 | every failure has a non-empty message; a failure about an account names its number, quoted, after "Account with number " |
| `Accounts.IsResourceNotFound` | backend-spring-boot-app/src/main/java/com/maybank/assignment/service/AccountService.java:55-57 | the failures raised as resource-not-found are ones whose message ends in " not found" |
| `Accounts.UpperCase` | backend-spring-boot-app/src/main/java/com/maybank/assignment/service/AccountService.java:94 | Java's upper-casing, as far as it lands on ASCII: ASCII lower-case letters move to upper case, upper-case letters stay, other results are the character itself or an ASCII capital |
| `Accounts.LowerCase` | backend-spring-boot-app/src/main/java/com/maybank/assignment/service/AccountService.java:94 | Java's lower-casing, as far as it lands on ASCII: ASCII capitals move to lower case, lower-case letters stay, other results are the character itself or an ASCII small letter |
| `Accounts.CharEqualsIgnoreCase` | backend-spring-boot-app/src/main/java/com/maybank/assignment/service/AccountService.java:94 | equal characters match; two ASCII letters match exactly when they are the same letter in either case |
| `Accounts.EqualsIgnoreCase` | backend-spring-boot-app/src/main/java/com/maybank/assignment/service/AccountService.java:94 | the strings match exactly when they have the same length and match ignoring case at every position |
| `AccountLaws.EqualsIgnoreCaseReflexive` | backend-spring-boot-app/src/main/java/com/maybank/assignment/service/AccountService.java:94 | every status equals itself ignoring case |
| `AccountLaws.CanonicalStatusTestsAgree` | backend-spring-boot-app/src/main/java/com/maybank/assignment/service/AccountService.java:94 | on "Active" and "Closed" the case-insensitive closed test of close agrees with the exact test of deposit |
| `AccountLaws.StepKeepsHealthy` | backend-spring-boot-app/src/main/java/com/maybank/assignment/service/AccountService.java:24-99 | one call keeps records filed under their numbers, balances non-negative and statuses in {"Active", "Closed"} |
| `AccountLaws.RunKeepsHealthy` | backend-spring-boot-app/src/main/java/com/maybank/assignment/service/AccountService.java:24-99 | any sequence of calls keeps those three invariants |
| `AccountLaws.StepKeepsClosed` | backend-spring-boot-app/src/main/java/com/maybank/assignment/service/AccountService.java:58-96 | one call leaves a record whose status is exactly "Closed" unchanged, unless it creates an account under the same number |
| `AccountLaws.ClosedAccountFrozen` | backend-spring-boot-app/src/main/java/com/maybank/assignment/service/AccountService.java:58-96 | after any sequence of calls creating no colliding number, a "Closed" account's record, balance and status included, is unchanged |
| `AccountLaws.DepositThenWithdrawRestores` | backend-spring-boot-app/src/main/java/com/maybank/assignment/service/AccountService.java:62-78 | on an Active account with a non-negative balance, depositing an amount and withdrawing it both succeed and restore the repository exactly |
| `AccountLaws.SecondCloseFails` | backend-spring-boot-app/src/main/java/com/maybank/assignment/service/AccountService.java:94-98 | after a successful close, closing the same account again fails with already-closed |
| `AccountLaws.LowerCaseClosedAsymmetry` | backend-spring-boot-app/src/main/java/com/maybank/assignment/service/AccountService.java:58-96 | with status "closed", deposit succeeds, withdraw fails with the combined error, close fails with already-closed |
| `AccountLaws.AccountNumberInjective` | backend-spring-boot-app/src/main/java/com/maybank/assignment/service/AccountService.java:43 | distinct UUID prefixes give distinct account numbers |
| `AccountLaws.CustomerNotFoundMessage` | backend-spring-boot-app/src/test/java/com/maybank/assignment/service/AccountServiceTest.java:76-84 | the customer-not-found message for id 1 is the one the test expects |
| `AccountLaws.AccountNotFoundMessage` | backend-spring-boot-app/src/test/java/com/maybank/assignment/service/AccountServiceTest.java:159-168 | the account-not-found message names the account number as the test expects |
| `AccountLaws.DepositScenario` | backend-spring-boot-app/src/test/java/com/maybank/assignment/service/AccountServiceTest.java:133-144 | 100.00 plus a deposit of 50.00 gives 150.00 with the other fields unchanged |
| `AccountLaws.WithdrawScenarios` | backend-spring-boot-app/src/test/java/com/maybank/assignment/service/AccountServiceTest.java:181-228 | 100.00 less 50.00 gives 50.00; withdrawing 50.00 from 30.00 fails with the combined error |
| `FormPatterns.AllPresent` | frontend-react-app/src/CreateCustomerForm.js:27 | the falsy test: true only when every field is non-empty, false only when some field is empty |
| `FormPatterns.ValidName` | frontend-react-app/src/CreateCustomerForm.js:32-33 | a name accepted by `/^[A-Za-z\s]+$/` is non-empty and holds no digit and none of `._%+-` |
| `FormPatterns.ValidPhone` | frontend-react-app/src/CreateCustomerForm.js:44-45 | a phone accepted by `/^[0-9]{9,15}$/` has 9 to 15 characters, none a letter or white space |
| `FormPatterns.EmailPattern` | frontend-react-app/src/CreateCustomerForm.js:38-39 | an address the e-mail regular expression accepts has at least six characters and contains `@` |
| `FormPatterns.MatchEmail` | frontend-react-app/src/CreateCustomerForm.js:38-39 | the decision procedure for the e-mail pattern: an accepted address has its first `@` after a non-empty local part and at least four characters after it |
| `FormPatterns.IndexOf` | frontend-react-app/src/CreateCustomerForm.js:38 | used by `MatchEmail`, the decision procedure for the pattern at :38: the first position of a character, or -1 when it does not occur |
| `FormPatterns.LastIndexOf` | frontend-react-app/src/CreateCustomerForm.js:38 | used by `MatchEmail`, the decision procedure for the pattern at :38: the last position of a character, or -1 when it does not occur |
| `FormPatterns.MatchEmailSound` | frontend-react-app/src/CreateCustomerForm.js:38-39 | every address the matcher accepts matches the e-mail regular expression |
| `FormPatterns.MatchEmailComplete` | frontend-react-app/src/CreateCustomerForm.js:38-39 | every address matching the e-mail regular expression is accepted by the matcher |
| `FormPatterns.MatchEmailCorrect` | frontend-react-app/src/CreateCustomerForm.js:38-41 | the matcher and the regular expression accept the same addresses |
| `CreateCustomerForm.ValidateForm` | frontend-react-app/src/CreateCustomerForm.js:26-50 | "" exactly when all four checks pass; each message exactly when its check is the first to fail, in the order required fields, name, e-mail, phone |
| `CreateCustomerForm.DateOfBirthOnlyPresence` | frontend-react-app/src/CreateCustomerForm.js:27-29 | the content of a present date of birth never changes the result |
| `EditCustomerForm.ValidateForm` | frontend-react-app/src/EditCustomerForm.js:35-55 | as for the create form, with the name message "Name must contain only alphabets." |
| `EditCustomerForm.AgreesWithCreateForm` | frontend-react-app/src/EditCustomerForm.js:40-43 | the edit form accepts exactly what the create form accepts, and gives the same message except for the wording of the name message |

## Left out

- Floating-point amounts: the service uses `Double`. Rounding is not modelled, nor NaN and infinite amounts. A NaN amount passes the `amount <= 0` check.
- A `null` account number passed to deposit or withdraw: the number is a plain string there. Close takes an optional number, because it checks for `null` itself.
- A `null` status on a stored account: statuses are never null in the model. In the source, deposit (AccountService.java:58) and withdraw (:76) would throw a NullPointerException on such a record, while close (:94) would succeed, because `"Closed".equalsIgnoreCase(null)` is false, and write "Closed".
- A `null` customer id and the request's Bean Validation annotations (required fields, the `Saving|Current` pattern): the framework enforces these before the service runs.
- The persistence layer's behaviour when a generated account number collides with a stored one: the `Account` entity and its repository are not part of this model. The model overwrites the stored record, and `ClosedAccountFrozen` excludes colliding creates.
- The randomness of `UUID.randomUUID`: the eight-character prefix is a parameter.
- Concurrency: two calls racing on the same account can lose an update in the source. The model is sequential.
- The object that the repository's save returns: it is taken to be the saved record.
- Accounts.UpperCase, Accounts.LowerCase: cover only the characters whose Java case mapping is an ASCII letter. This is exact whenever one side of a comparison is ASCII, which is always the case here ("Closed").
- Customer records beyond an id and a name: the customer entity is not part of this model.
- The exception classes and their mapping to HTTP status codes: `IsResourceNotFound` tells the two classes apart, and the controllers are not part of this model.
- The customer CRUD service and repository, the controllers, and the React components' state, submission, fetching and navigation are not part of this model.
