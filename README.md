# Javabank customer aggregate and mock account service, in Dafny

This project models the two stateful pieces of the Javabank teaching application:

- **The customer ownership aggregate** (`Customer`). A customer holds a profile
  (first name, last name, email, phone) and owns two ordered lists of children,
  its accounts and its recipients. Adding a child appends it and points the
  child's back-reference at the customer. Removing a child deletes its first
  occurrence from the list and clears the back-reference. Module `Model`
  (`model.dfy`) has `Customer`, `Account` and `Recipient` as classes whose methods
  update fields in place. The lists are `seq` fields.
- **The mock account service** (`MockAccountService`). It keeps an id → Account
  map and offers `get`, `deposit`, `withdraw` and `transfer`. Module
  `MockServices` (`mock_account_service.dfy`) has it as a class over a
  `map<int, Account>`. Each method changes only the accounts it looks up.

Two value-level modules back these:

- `Lists` (`lists.dfy`) gives the meaning of `java.util.List.remove(Object)`:
  remove the first occurrence, if any. It relates this to `indexOf` and to appending.
- `Ledger` (`ledger.dfy`) views the service's balances as a `map<int, int>`.
  It specifies credit, debit, withdraw and transfer on that map and proves what each does
  to the total of all balances. The service methods are proved against these
  functions whenever distinct ids hold distinct account objects.

Modelling choices:

- The account kinds (checking, savings) are not part of the model. So an
  `Account`'s admission rules `CanCredit`, `CanDebit` and `CanWithdraw` are
  arbitrary policies, fixed when the account is constructed. Nothing is
  assumed about them.
- `Account.credit` and `Account.debit` are outside this model. `Credit` and `Debit`
  are ASSUMED to add and subtract `amount` unconditionally. This additive reading
  agrees with JpaCustomerDaoIntegrationTest.java:128-151, where fresh accounts
  credited with 100 and 101 read back those balances.
- Java `double` amounts and balances are modelled as `int`.
- Nullable profile strings are `Option<string>`. `None` stands for `null`.
- List membership uses reference identity. `AbstractModel`'s equality is not part
  of this model.
- What the service code itself checks:
  - `withdraw` (MockAccountService.java:31-37) consults only `canWithdraw()` before
    calling `debit`; it never calls `canDebit`. That the balance then drops
    unconditionally follows from the assumed `Debit`.
  - `transfer` (MockAccountService.java:49) evaluates `src.canDebit(amount) && dst.canCredit(amount)` with
    short-circuit `&&`. So the destination id only has to be present when the
    source may be debited. `Transfer`'s precondition says exactly that.
    `deposit` and `withdraw` dereference their lookup without a null check, so
    their id must be present.

## Model

| member | source | states |
|---|---|---|
| `Lists.RemoveFirst` | src/main/java/io/codeforall/bootcamp/javabank/persistence/model/Customer.java:158 | `List.remove(Object)`: an absent element leaves the list unchanged; a present one shortens it by one; the multiset loses exactly one copy of the element |
| `Lists.RemoveFirstIsSplice` | src/main/java/io/codeforall/bootcamp/javabank/persistence/model/Customer.java:158 | removal splices out exactly the first occurrence (the `indexOf` position), keeping every other element in its order |
| `Lists.RemoveFirstUndoesAppend` | src/main/java/io/codeforall/bootcamp/javabank/persistence/model/Customer.java:152-160 | removing an element just appended to a list that did not hold it gives back the original list: remove undoes add |
| `Lists.RemoveFirstLeavesNoCopy` | src/main/java/io/codeforall/bootcamp/javabank/persistence/model/Customer.java:157-160 | after a removal no copy of the element is left exactly when it was listed at most once |
| `Model.Account.constructor` | src/test/java/io/codeforall/bootcamp/javabank/persistence/jpa/dao/JpaCustomerDaoIntegrationTest.java:130-131 | a new account has balance 0, no owner, and the admission policies of its kind |
| `Model.Account.Credit` | src/test/java/io/codeforall/bootcamp/javabank/persistence/jpa/dao/JpaCustomerDaoIntegrationTest.java:132-133 | (assumed) crediting adds the amount to the balance |
| `Model.Account.Debit` | src/main/java/io/codeforall/bootcamp/javabank/services/mock/MockAccountService.java:37 | (assumed) debiting subtracts the amount from the balance, with no admission check of its own |
| `Model.Customer.constructor` | src/main/java/io/codeforall/bootcamp/javabank/persistence/model/Customer.java:47-60 | a new customer has empty accounts and recipients lists and a null profile, and trivially owns its children |
| `Model.Customer.SetFirstName` | src/main/java/io/codeforall/bootcamp/javabank/persistence/model/Customer.java:67-78 | the getter returns the value set; the other profile fields and both lists are unchanged |
| `Model.Customer.SetLastName` | src/main/java/io/codeforall/bootcamp/javabank/persistence/model/Customer.java:85-96 | the getter returns the value set; the other profile fields and both lists are unchanged |
| `Model.Customer.SetEmail` | src/main/java/io/codeforall/bootcamp/javabank/persistence/model/Customer.java:103-114 | the getter returns the value set; the other profile fields and both lists are unchanged |
| `Model.Customer.SetPhone` | src/main/java/io/codeforall/bootcamp/javabank/persistence/model/Customer.java:121-132 | the getter returns the value set; the other profile fields and both lists are unchanged |
| `Model.Customer.AddAccount` | src/main/java/io/codeforall/bootcamp/javabank/persistence/model/Customer.java:152-155 | the account is appended after the earlier ones, its owner becomes this customer, recipients are untouched, and ownership consistency is preserved |
| `Model.Customer.RemoveAccount` | src/main/java/io/codeforall/bootcamp/javabank/persistence/model/Customer.java:157-160 | the first occurrence of the account is removed, its owner becomes null, recipients are untouched, and ownership consistency is preserved whenever no copy of the account is left, which by `Lists.RemoveFirstLeavesNoCopy` means it was listed at most once |
| `Model.Customer.AddRecipient` | src/main/java/io/codeforall/bootcamp/javabank/persistence/model/Customer.java:162-165 | the recipient is appended, its owner becomes this customer, accounts are untouched, and ownership consistency is preserved |
| `Model.Customer.RemoveRecipient` | src/main/java/io/codeforall/bootcamp/javabank/persistence/model/Customer.java:167-170 | the first occurrence of the recipient is removed, its owner becomes null, accounts are untouched, and ownership consistency is preserved whenever no copy of the recipient is left |
| `Model.AccountsKeepInsertionOrder` | src/test/java/io/codeforall/bootcamp/javabank/persistence/jpa/dao/JpaCustomerDaoIntegrationTest.java:128-151 | two distinct credited accounts added to a new customer come back as exactly the list of those two accounts, in insertion order, with their balances, both owned by the customer |
| `Model.RemoveSecondOfTwoAccounts` | src/test/java/io/codeforall/bootcamp/javabank/persistence/jpa/dao/JpaCustomerDaoIntegrationTest.java:204-217 | removing the second of two accounts leaves exactly the first, still owned and with its balance; the removed one has no owner |
| `Ledger.Credit` | src/main/java/io/codeforall/bootcamp/javabank/services/mock/MockAccountService.java:22-24 | (assumed) what `deposit` does: only the balance under the id changes, by exactly the amount, and the total of all balances grows by the amount |
| `Ledger.Debit` | src/main/java/io/codeforall/bootcamp/javabank/services/mock/MockAccountService.java:37 | (assumed) only the balance under the id changes, dropping by exactly the amount, and the total drops by the amount |
| `Ledger.Withdraw` | src/main/java/io/codeforall/bootcamp/javabank/services/mock/MockAccountService.java:29-38 | nothing changes unless withdrawal is allowed; otherwise only that balance drops by the amount; the total drops by the amount withdrawn |
| `Ledger.Transfer` | src/main/java/io/codeforall/bootcamp/javabank/services/mock/MockAccountService.java:43-53 | nothing changes unless admitted, or when source and destination coincide; otherwise the source loses and the destination gains exactly the amount; no other balance changes; the total is conserved |
| `Ledger.TransferAllOrNothing` | src/main/java/io/codeforall/bootcamp/javabank/services/mock/MockAccountService.java:49-52 | between two different accounts and for a non-zero amount, the source changes exactly when the destination does, and their sum is kept |
| `MockServices.MockAccountService.Get` | src/main/java/io/codeforall/bootcamp/javabank/services/mock/MockAccountService.java:14-17 | returns the account stored under the id, or null when there is none |
| `MockServices.MockAccountService.Deposit` | src/main/java/io/codeforall/bootcamp/javabank/services/mock/MockAccountService.java:22-24 | the account under the id gains the amount and keeps its owner; nothing else is modified; with distinct accounts per id the balances follow `Ledger.Credit` |
| `MockServices.MockAccountService.Withdraw` | src/main/java/io/codeforall/bootcamp/javabank/services/mock/MockAccountService.java:29-38 | a no-op when `CanWithdraw()` is false; otherwise it calls `Debit` without consulting `CanDebit`, so the balance drops by the amount (assumed, via `Debit`); with distinct accounts per id the balances follow `Ledger.Withdraw` |
| `MockServices.MockAccountService.Transfer` | src/main/java/io/codeforall/bootcamp/javabank/services/mock/MockAccountService.java:43-53 | a no-op unless the source can debit and the destination can credit (both judged before either changes); when admitted between different accounts, exactly the amount moves; the sum of the two balances is always kept; with distinct accounts per id the balances follow `Ledger.Transfer` |
| `MockServices.TransferBetweenUnconstrainedAccounts` | src/main/java/io/codeforall/bootcamp/javabank/services/mock/MockAccountService.java:43-53 | moving 50 from an account holding 100 to one holding 0, with no admission restrictions, leaves 50 in each |

## Left out

- Bean Validation annotations on the profile fields (`@NotBlank`, `@Size`, `@Email`, `@Pattern`): their meaning belongs to the validator library.
- JPA mapping: cascade, orphan removal, eager fetching and the DAO. This is ORM behaviour. Removing a child only unlinks it in memory here; nothing is deleted.
- `Customer.toString`: debugging output.
- `getAccounts` and `getRecipients` return the live Java lists, so a caller could mutate them. The model returns the sequence as a value. This aliasing is not captured.
- Consistency across customers: `addAccount` does not detach the account from a previous owner. The ownership invariant is stated per customer only.
- The `id` and `equals` of `AbstractModel` are not part of this model. Children are compared by reference.
- The concrete checking and savings rules (overdraft limit, minimum balance) are not part of this model. The admission predicates stay arbitrary.
- `AbstractMockService`, which owns and fills `modelMap`, is not part of this model. The service's constructor takes the map as it is.
- `Account.setCustomer` (and `Recipient.setCustomer`): their bodies are not in the source; each is modelled as a plain field update.
- Null children: `AddAccount`, `RemoveAccount`, `AddRecipient` and `RemoveRecipient` take non-null children by their types. In Java, `addAccount(null)` appends `null` and then throws a NullPointerException at `setCustomer`, and `removeAccount(null)` removes the first `null` and then throws (Customer.java:153-154, 158-159; the recipient methods alike). That list change before the exception is not modelled.
- MockServices.MockAccountService.Withdraw: the unguarded drop of the balance when `canWithdraw()` holds follows from the assumed unconditional `Debit`; if the real `Account.debit` checks `canDebit` itself, a withdrawal could be refused there.
- Floating-point behaviour of `double` amounts: amounts are unbounded integers.
- The web controller, its DTO and the configuration constants: presentation glue and string constants.
