# ATM account entity, modelled in Dafny

This project models `BankAccount`, the account entity of a small console
ATM application. An account holds an owner name and an eight-digit
account number, both fixed when the account is created. It also holds a
balance and a four-digit PIN, and every write to those two goes through a
setter that validates before it assigns. Deposit, withdraw and transfer
check their amount first. A transfer debits the sender and then credits
the recipient, and the recipient may be the sender itself. The project
also models one rule from the console front end: a transfer recipient is
looked up by account number, and the lookup succeeds only when exactly
one account matches.

Files:

- `decimal.dfy` (module `Decimal`): the two .NET string operations the
  account number is built with. `Int64.ToString` and `String.PadLeft`
  become `ToString` and `PadLeft`. `Value` reads a digit string back as a
  number.
- `bank_account.dfy` (module `AtmApp`): the `Outcome` of an operation, the
  PIN and account-number formats, and the class `BankAccount` with its
  validators, setters and operations.
- `directory.dfy` (module `Directory`): recipient lookup by account number.
- `walkthrough.dfy` (module `Walkthrough`): client methods that drive two
  accounts through a session, using nothing but the contracts.

Modelling decisions:

- Each exception becomes an `Outcome` value: `Ok`, `InvalidAmount` or
  `NotEnoughBalance`. A method that would throw returns the matching
  value and changes nothing, just as the source throws before it assigns.
- Money is `real`, standing in for `double`.
- A constructor cannot fail in Dafny, so the source constructor is modelled
  by the static method `Create`. `Create` runs the two checks in the
  source's order (balance first, then PIN) and, if both pass, calls the
  Dafny constructor to commit.
- The random source is a parameter. `Create` receives `draw`, the value
  `NextInt64(99999999)` returned. Its one requirement, `draw < 99999999`,
  is that call's documented range. The account number is
  `PadLeft(ToString(draw), 8, '0')`.
- `OwnerName` and `AccountNumber` are `const` fields, so the verifier
  itself ensures that neither changes after construction.
- The model keeps three quirks of the code:
  - A malformed PIN fails with `InvalidAmount`, not with a PIN error.
    `InvalidPinException` is declared but never thrown.
  - An overdrawing transfer fails with `InvalidAmount`, the balance
    setter's error, not with `NotEnoughBalance`. `Transfer` makes no
    availability check of its own.
  - The owner name is never validated.

## Model

| member | source | states |
|---|---|---|
| `Decimal.ToString` | BankAccount.cs:43 | `Int64.ToString` of a non-negative number: at least one character, all decimal digits, and a leading '0' only for zero |
| `Decimal.PadLeft` | BankAccount.cs:43 | `PadLeft(width, pad)`: length is the larger of `width` and the input's length; the input is kept as the suffix; every added character is `pad` |
| `Decimal.ValueOfToString` | BankAccount.cs:43 | the digits `ToString` writes read back as the original number |
| `Decimal.ToStringLength` | BankAccount.cs:43 | a number below 10^k is written with at most k digits, so a draw below 99999999 needs at most eight |
| `Decimal.ValueOfLeadingZeros` | BankAccount.cs:43 | padding with '0' on the left leaves a digit string's value unchanged |
| `AtmApp.IsPin` | BankAccount.cs:11 | the PIN pattern `^\d{4}$`: exactly four characters, each '0'..'9' |
| `AtmApp.PinOf` | BankAccount.cs:11 | every number 0..9999, zero-padded to four characters, is a PIN that reads back as that number, so "0000" through "9999" all pass the pattern |
| `AtmApp.Outcome` | BankAccount.cs:5-7 | `Ok`, or one of the exceptions: `InvalidAmount` for `InvalidAmountException`, `NotEnoughBalance` for `NotEnoughBalanceException`; `InvalidPinException` has no counterpart because nothing throws it |
| `AtmApp.AccountNumberOf` | BankAccount.cs:43 | the number formatted from a draw is exactly eight decimal digits and reads back as the draw, so "99999999" is never assigned |
| `AtmApp.AccountNumberInjective` | BankAccount.cs:43 | two draws give the same account number if and only if they are equal |
| `AtmApp.BankAccount.constructor` | BankAccount.cs:38-44 | after both checks pass: the invariant holds, and the owner name, balance, PIN and account number are the ones given |
| `AtmApp.BankAccount.Create` | BankAccount.cs:38-44 | succeeds exactly when the initial balance is non-negative and the PIN has four digits; each failure is `InvalidAmount` and creates no account; on success a fresh valid account holding the given name, balance, PIN and formatted number |
| `AtmApp.BankAccount.ValidateAmount` | BankAccount.cs:71-74 | passes exactly the strictly positive amounts; anything else is `InvalidAmount` |
| `AtmApp.BankAccount.ValidateBalance` | BankAccount.cs:76-79 | passes exactly the non-negative balances; a negative one is `InvalidAmount` |
| `AtmApp.BankAccount.ValidatePin` | BankAccount.cs:66-69 | passes exactly the four-digit strings; any other string is `InvalidAmount`, not a PIN error |
| `AtmApp.BankAccount.ValidateBalanceAvailability` | BankAccount.cs:81-84 | passes exactly the amounts up to the current balance; a larger one is `NotEnoughBalance` |
| `AtmApp.BankAccount.SetBalance` | BankAccount.cs:18-26 | assigns the value exactly when it is non-negative; otherwise `InvalidAmount` and the balance is unchanged |
| `AtmApp.BankAccount.SetPin` | BankAccount.cs:28-36 | assigns the PIN exactly when it has four digits; otherwise `InvalidAmount` and the old PIN stays; the invariant is preserved |
| `AtmApp.BankAccount.Deposit` | BankAccount.cs:46-50 | a positive amount is added to the balance; any other amount is `InvalidAmount` and changes nothing; the PIN is outside the frame; the invariant is preserved |
| `AtmApp.BankAccount.Withdraw` | BankAccount.cs:52-57 | a non-positive amount is `InvalidAmount` (checked first); an amount above the balance is `NotEnoughBalance`; otherwise the balance drops by the amount (to zero when it equals the balance); a failure changes nothing; the invariant is preserved |
| `AtmApp.BankAccount.Transfer` | BankAccount.cs:59-64 | succeeds exactly when 0 < amount <= sender balance; every failure, overdraft included, is `InvalidAmount` and leaves both balances unchanged; for two distinct accounts a success moves the amount from one to the other and the sum of the two balances is always preserved; a transfer to oneself leaves the balance as it was; both invariants are preserved |
| `Directory.Resolve` | Program.cs:77 | `Single` lookup by account number: `NotFound` exactly when no account has the number, `Ambiguous` exactly when two positions share it, otherwise the one listed account with that number |
| `Directory.ResolveDistinct` | Program.cs:77 | when the listed account numbers are pairwise distinct, each listed account is found by its own number |

## Left out

- The random draw at BankAccount.cs:43 (`new Random().NextInt64(99999999)`) is a parameter of `Create`. Account numbers are not unique: the source makes no check, and `AccountNumberInjective` only says that different draws give different numbers.
- `double` arithmetic: rounding, NaN and infinities are not modelled. Amounts and balances are exact `real` values.
- The regex `^\d{4}$` is read as "four ASCII digits". The .NET engine also accepts non-ASCII Unicode digits, and a trailing newline before `$`. Neither is modelled.
- The console front end in Program.cs: menus, prompts, input validators, the three-attempt PIN login, greetings, and the display rounding of the balance. It also covers the `catch` that reports every transfer failure as a missing account. Because of this, the chain "resolve, then transfer" is only exercised in `Walkthrough.Session`, not modelled as an operation. Only the `Single` lookup rule of Program.cs:77 is modelled. Null entries of the front end's `List<BankAccount?>` are not modelled.
- PIN authentication is a string comparison in the front end (Program.cs:48). The core has no such operation.
- Locking and concurrency: the source has none and runs on one thread. A transfer is atomic in the model because nothing else can run in between.
