# Banking system: accounts, transfers and the bank-wide ledger

A Dafny model of the in-memory retail-bank simulation in
`CodeAlpha_BankingSystem_AbdelrhmanSameehZahran.cpp`: customers, savings and
checking accounts with a balance and a private transaction history, deposits,
withdrawals, transfers, interest and fees, and a bank service that routes
requests to accounts by id and keeps its own mirror ledger.

The source's objects update their fields in place, so the model is imperative:

- `ledger.dfy` (module `Ledger`): the value types. `Customer` and
  `Transaction` are datatypes. `Entry` is what a transaction says without its
  id and timestamp. `Appended(before, after, added)` states that a history
  only grows at its end. `NetFlow` reads a history as money movements.
- `accounts.dfy` (module `Accounts`): class `Account`. The C++ subclasses
  become a `Variant` field, `Savings(interestRate)` or
  `Checking(transactionFee)`. Virtual `Withdraw` dispatches on it.
  `GetAccountId` (lines 118-120) is the constant field `accountId`. Two
  invariants are kept. `Valid()`: every recorded entry belongs to the account
  and passed the recording guard. `Reconciled()`: the balance equals the
  opening balance plus the recorded movements.
- `bank.dfy` (module `Banking`): class `Bank`, with `customers`, `accounts`
  and `ledger` as sequence fields. `FirstIndex` is the first-match lookup that
  `FindAccountById`'s loop is proved against.
- `scenarios.dfy` (module `Scenarios`): the demonstration in `main` and three
  behaviours worth pinning down, each on fresh objects.

Amounts are exact `real` numbers. The effects of deposits, withdrawals and
transfers are stated once, as two-state predicates (`Deposited`, `Withdrew`,
`Transferred`). The account methods ensure them, and the bank's methods
ensure them of the account they find.

The behaviours a reader might not expect, which the model keeps as the code
has them:

- A checking withdrawal can leave the balance below zero. The fee is taken
  after the balance check, with no floor.
- The fee record appears only when the fee is positive. The interest record
  appears only when the interest is positive. The balance moves either way.
  So a negative fee or negative interest moves money without a record, and
  `Reconciled()` is preserved only when neither happens.
- A bank request for an unknown id leaves the ledger untouched. A request for
  a known id adds one mirror record even when the account refused it. The
  mirror has no guard, so it can hold an amount of zero or less.
- For every amount and balance that is not NaN, once `Account::Transfer`'s
  three pre-checks pass its inner withdrawal cannot fail, so the "Transfer
  failed" branch is dead. With a NaN amount or balance every pre-check
  passes and the withdrawal's guard fails; the model has no NaN.

## Model

| member | source | states |
|---|---|---|
| `Ledger.NewTransaction` | CodeAlpha_BankingSystem_AbdelrhmanSameehZahran.cpp:37-43 | a new record carries the given account id, type and amount; its id and timestamp are unconstrained |
| `Accounts.Account.constructor` | CodeAlpha_BankingSystem_AbdelrhmanSameehZahran.cpp:68-69 | a new account has the given id, balance, customer and variant, an empty history, and both invariants |
| `Accounts.Account.RecordTransaction` | CodeAlpha_BankingSystem_AbdelrhmanSameehZahran.cpp:53-65 | appends exactly one entry when the type is non-empty and the amount positive, otherwise nothing; existing entries stay in place; keeps `Valid()` |
| `Accounts.Account.Deposit` | CodeAlpha_BankingSystem_AbdelrhmanSameehZahran.cpp:71-79 | for a > 0 the balance rises by exactly a and one ("Deposit", a) entry is appended; for a <= 0 nothing changes; keeps the history reconciled |
| `Accounts.Account.BaseWithdraw` | CodeAlpha_BankingSystem_AbdelrhmanSameehZahran.cpp:81-91 | succeeds iff 0 < a <= balance; on success the balance falls by exactly a and one ("Withdrawal", a) entry is appended; on failure nothing changes |
| `Accounts.Account.DeductTransactionFee` | CodeAlpha_BankingSystem_AbdelrhmanSameehZahran.cpp:173-177 | the balance falls by the fee with no floor; a "Transaction Fee" entry is appended only when the fee is positive |
| `Accounts.Account.CheckingWithdraw` | CodeAlpha_BankingSystem_AbdelrhmanSameehZahran.cpp:165-171 | succeeds iff the shared withdrawal does; on success the balance becomes old - a - fee, possibly negative, and the history gains "Withdrawal" then the fee entry |
| `Accounts.Account.Withdraw` | CodeAlpha_BankingSystem_AbdelrhmanSameehZahran.cpp:81-91 | the virtual withdrawal: for either variant, succeeds iff 0 < a <= balance, and otherwise changes nothing; the fee applies only to a checking account |
| `Accounts.Account.CalculateInterest` | CodeAlpha_BankingSystem_AbdelrhmanSameehZahran.cpp:140-145 | the balance becomes old + old * rate / 100; an "Interest" entry with that interest is appended only when it is positive |
| `Accounts.Account.Transfer` | CodeAlpha_BankingSystem_AbdelrhmanSameehZahran.cpp:93-116 | no change when a <= 0, balance < a or no destination; otherwise the source's withdrawal (and fee), the destination's deposit and a "Transfer to <id>" note, also when source and destination are one account; for distinct accounts the sum of the two balances falls by exactly the fee |
| `Banking.FirstIndex` | CodeAlpha_BankingSystem_AbdelrhmanSameehZahran.cpp:206-213 | the index of the first account in directory order with the id, or none exactly when no account has it |
| `Banking.Bank.FindAccountById` | CodeAlpha_BankingSystem_AbdelrhmanSameehZahran.cpp:206-213 | the linear scan returns the first account with the id, or null when there is none, and changes nothing |
| `Banking.Bank.constructor` | CodeAlpha_BankingSystem_AbdelrhmanSameehZahran.cpp:190-194 | a new bank has no customers, no accounts and an empty ledger |
| `Banking.Bank.RecordTransaction` | CodeAlpha_BankingSystem_AbdelrhmanSameehZahran.cpp:196-203 | appends exactly one mirror entry, with no guard on type or amount |
| `Banking.Bank.AddCustomer` | CodeAlpha_BankingSystem_AbdelrhmanSameehZahran.cpp:216-219 | the customer list gains the customer at its end |
| `Banking.Bank.CreateSavingsAccount` | CodeAlpha_BankingSystem_AbdelrhmanSameehZahran.cpp:221-224 | the directory keeps its accounts and gains one fresh savings account at its end, with no duplicate-id check |
| `Banking.Bank.CreateCheckingAccount` | CodeAlpha_BankingSystem_AbdelrhmanSameehZahran.cpp:226-229 | the directory keeps its accounts and gains one fresh checking account at its end, with no duplicate-id check |
| `Banking.Bank.Deposit` | CodeAlpha_BankingSystem_AbdelrhmanSameehZahran.cpp:231-239 | unknown id: nothing changes; known id: the first such account deposits, no other account changes, and one ("Deposit", a) mirror is appended even if the account refused |
| `Banking.Bank.Withdraw` | CodeAlpha_BankingSystem_AbdelrhmanSameehZahran.cpp:241-249 | unknown id: nothing changes; known id: the first such account withdraws, no other account changes, and one ("Withdrawal", a) mirror is appended whether or not it succeeded |
| `Banking.Bank.Transfer` | CodeAlpha_BankingSystem_AbdelrhmanSameehZahran.cpp:251-260 | either id unknown: nothing changes; both known: the account-level transfer between the first matches, no third account changes, and one "Transfer to <toId>" mirror for the outgoing side only |
| `Scenarios.DemonstrationAccounts` | CodeAlpha_BankingSystem_AbdelrhmanSameehZahran.cpp:285-292 | the demonstration's two accounts: A001 savings at 1000 and 2.5%, A002 checking at 500 with fee 1 |
| `Scenarios.DemonstrationOpening` | CodeAlpha_BankingSystem_AbdelrhmanSameehZahran.cpp:295-296 | after deposit 200 and withdraw 50: A001 = 1200, A002 = 449, two ledger entries |
| `Scenarios.Demonstration` | CodeAlpha_BankingSystem_AbdelrhmanSameehZahran.cpp:279-303 | the demonstration ends with A001 = 1100 and 3 entries, A002 = 549 and 3 entries, and 3 ledger entries, each listed |
| `Scenarios.FeeOverdraws` | CodeAlpha_BankingSystem_AbdelrhmanSameehZahran.cpp:165-177 | withdrawing a checking account's whole balance succeeds and the fee leaves it at -1 |
| `Scenarios.RefusedRequestsAreMirrored` | CodeAlpha_BankingSystem_AbdelrhmanSameehZahran.cpp:231-249 | a refused withdrawal and a zero deposit leave the account untouched but are both mirrored; an unknown id leaves no mirror |
| `Scenarios.InterestAccrual` | CodeAlpha_BankingSystem_AbdelrhmanSameehZahran.cpp:140-145 | 2.5% on 1000 adds a recorded 25; on a balance of -100 the balance becomes -102.5 with no record |

## Left out

- Console output: every status line, `ViewAccountInfo` in its three versions (lines 122-130, 147-155, 179-187) and `DisplayRecentTransactions` (lines 262-268). They only print state the model holds as fields.
- Transaction ids and timestamps: `rand()` and the clock (lines 39-42, 59-62, 197-200, 280) are picked as arbitrary strings. Nothing is claimed about their uniqueness. Only the console output, which is left out, reads the timestamp (lines 128, 153, 185, 266); nothing reads the id.
- Floating point: balances, interest and fees are exact reals, so `double` rounding is not modelled, and neither are non-finite values (NaN, infinities). With NaN every comparison in the guards at lines 54, 72, 82, 94 and 99 is false, so a NaN amount passes `Transfer`'s pre-checks and then fails its withdrawal (line 114).
- Memory management: heap allocation is object allocation; the destructor (lines 270-276) has no counterpart.
- Inheritance: the two subclasses are a variant field of one class. The rate and the fee are constant fields, since nothing assigns them after construction.
