/** The account entity of the ATM application: a balance and a PIN that are
    only ever written through validating setters, an owner name and an
    account number fixed at construction, and deposit, withdraw and
    transfer operations that check their amount before touching state.
    Every exception the source throws becomes an `Outcome` other than `Ok`. */
module AtmApp {
  import opened Decimal

  /** `Ok`, or the exception an operation throws. The source also declares
      an `InvalidPinException`, but no code path throws it: a malformed PIN
      is reported as `InvalidAmount`. */
  datatype Outcome = Ok | InvalidAmount | NotEnoughBalance

  const ACCOUNT_NUMBER_LENGTH: nat := 8

  /** Exclusive upper bound of the random draw behind an account number. */
  const ACCOUNT_NUMBER_BOUND: nat := 99999999

  /** The PIN pattern `^\d{4}$`, read as exactly four ASCII digits. */
  predicate IsPin(s: string) {
    |s| == 4 && AllDigits(s)
  }

  /** The four-character, zero-padded text of a number below 10000: the
      PINs are exactly "0000" through "9999". */
  function PinOf(n: nat): (r: string)
    requires n < 10000
    ensures IsPin(r)
    ensures Value(r) == n
  {
    var digits := ToString(n);
    ToStringLength(n, 4);
    ValueOfToString(n);
    ValueOfLeadingZeros(4 - |digits|, digits);
    assert PadLeft(digits, 4, '0') == seq(4 - |digits|, _ => '0') + digits;
    PadLeft(digits, 4, '0')
  }

  predicate IsAccountNumber(s: string) {
    |s| == ACCOUNT_NUMBER_LENGTH && AllDigits(s)
  }

  /** The account number made from a random draw in [0, 99999999): its
      decimal text, left-padded with '0' to eight characters. The text
      always has eight digits and reads back as the draw, so different
      draws give different numbers, and "99999999" is never produced. */
  function AccountNumberOf(draw: nat): (r: string)
    requires draw < ACCOUNT_NUMBER_BOUND
    ensures IsAccountNumber(r)
    ensures Value(r) == draw
  {
    var digits := ToString(draw);
    ToStringLength(draw, ACCOUNT_NUMBER_LENGTH);
    ValueOfToString(draw);
    ValueOfLeadingZeros(ACCOUNT_NUMBER_LENGTH - |digits|, digits);
    assert PadLeft(digits, ACCOUNT_NUMBER_LENGTH, '0')
        == seq(ACCOUNT_NUMBER_LENGTH - |digits|, _ => '0') + digits;
    PadLeft(digits, ACCOUNT_NUMBER_LENGTH, '0')
  }

  /** Two draws yield the same account number exactly when they are equal. */
  lemma AccountNumberInjective(a: nat, b: nat)
    requires a < ACCOUNT_NUMBER_BOUND && b < ACCOUNT_NUMBER_BOUND
    ensures AccountNumberOf(a) == AccountNumberOf(b) <==> a == b
  {
  }

  class BankAccount {
    const OwnerName: string
    const AccountNumber: string
    var balance: real
    var pin: string

    /** What every setter protects: a non-negative balance and a well-formed
        PIN, next to the eight-digit number fixed at construction. */
    ghost predicate Valid()
      reads this
    {
      balance >= 0.0 && IsPin(pin) && IsAccountNumber(AccountNumber)
    }

    /** The commit step of construction, reached only once both checks of
        `Create` have passed. */
    constructor (ownerName: string, initialBalance: real, initialPin: string, draw: nat)
      requires initialBalance >= 0.0 && IsPin(initialPin)
      requires draw < ACCOUNT_NUMBER_BOUND
      ensures Valid()
      ensures OwnerName == ownerName && AccountNumber == AccountNumberOf(draw)
      ensures balance == initialBalance && pin == initialPin
    {
      OwnerName := ownerName;
      balance := initialBalance;
      pin := initialPin;
      AccountNumber := AccountNumberOf(draw);
    }

    /** `new BankAccount(ownerName, initialBalance, pin)`: the balance
        setter's check, then the PIN setter's, then the account number from
        `draw`, the value the random source returned. Either failure is
        `InvalidAmount` and creates no account. */
    static method Create(ownerName: string, initialBalance: real, pin: string, draw: nat)
      returns (r: Outcome, account: BankAccount?)
      requires draw < ACCOUNT_NUMBER_BOUND
      ensures r == Ok <==> initialBalance >= 0.0 && IsPin(pin)
      ensures r != Ok ==> r == InvalidAmount && account == null
      ensures r == Ok ==> account != null && fresh(account) && account.Valid()
      ensures r == Ok ==> account.OwnerName == ownerName && account.AccountNumber == AccountNumberOf(draw)
      ensures r == Ok ==> account.balance == initialBalance && account.pin == pin
    {
      account := null;
      r := ValidateBalance(initialBalance);
      if r != Ok {
        return;
      }
      r := ValidatePin(pin);
      if r != Ok {
        return;
      }
      account := new BankAccount(ownerName, initialBalance, pin, draw);
    }

    /** Rejects amounts that are not strictly positive. */
    static function ValidateAmount(amount: real): (r: Outcome)
      ensures r == Ok <==> amount > 0.0
      ensures r != Ok ==> r == InvalidAmount
    {
      if amount <= 0.0 then InvalidAmount else Ok
    }

    /** Rejects a prospective balance that is negative. */
    static function ValidateBalance(value: real): (r: Outcome)
      ensures r == Ok <==> value >= 0.0
      ensures r != Ok ==> r == InvalidAmount
    {
      if value < 0.0 then InvalidAmount else Ok
    }

    /** Rejects a PIN that is not four digits, with `InvalidAmount`. */
    static function ValidatePin(value: string): (r: Outcome)
      ensures r == Ok <==> IsPin(value)
      ensures r != Ok ==> r == InvalidAmount
    {
      if !IsPin(value) then InvalidAmount else Ok
    }

    /** Rejects an amount larger than the current balance. */
    function ValidateBalanceAvailability(amount: real): (r: Outcome)
      reads this
      ensures r == Ok <==> amount <= balance
      ensures r != Ok ==> r == NotEnoughBalance
    {
      if amount > balance then NotEnoughBalance else Ok
    }

    /** The private `Balance` setter: validate, then assign. */
    method SetBalance(value: real) returns (r: Outcome)
      modifies this`balance
      ensures r == Ok <==> value >= 0.0
      ensures r != Ok ==> r == InvalidAmount
      ensures balance == if r == Ok then value else old(balance)
    {
      r := ValidateBalance(value);
      if r == Ok {
        balance := value;
      }
    }

    /** The public `Pin` setter: validate, then assign; a rejected PIN
        leaves the old one in place. */
    method SetPin(value: string) returns (r: Outcome)
      requires Valid()
      modifies this`pin
      ensures Valid()
      ensures r == Ok <==> IsPin(value)
      ensures r != Ok ==> r == InvalidAmount
      ensures pin == if r == Ok then value else old(pin)
    {
      r := ValidatePin(value);
      if r == Ok {
        pin := value;
      }
    }

    /** Adds a strictly positive amount to the balance. */
    method Deposit(amount: real) returns (r: Outcome)
      requires Valid()
      modifies this`balance
      ensures Valid()
      ensures r == Ok <==> amount > 0.0
      ensures r != Ok ==> r == InvalidAmount
      ensures balance == if r == Ok then old(balance) + amount else old(balance)
    {
      r := ValidateAmount(amount);
      if r != Ok {
        return;
      }
      r := SetBalance(balance + amount);
    }

    /** Takes a strictly positive amount, at most the balance, out of the
        account; the amount is checked before its availability. */
    method Withdraw(amount: real) returns (r: Outcome)
      requires Valid()
      modifies this`balance
      ensures Valid()
      ensures amount <= 0.0 ==> r == InvalidAmount
      ensures 0.0 < amount && amount > old(balance) ==> r == NotEnoughBalance
      ensures 0.0 < amount <= old(balance) ==> r == Ok
      ensures balance == if r == Ok then old(balance) - amount else old(balance)
    {
      r := ValidateAmount(amount);
      if r != Ok {
        return;
      }
      r := ValidateBalanceAvailability(amount);
      if r != Ok {
        return;
      }
      r := SetBalance(balance - amount);
    }

    /** Debits this account, then credits `recipient`. There is no
        availability check: an overdraft is caught by the balance setter
        as `InvalidAmount` before anything is written, and the credit,
        which cannot fail on a valid recipient, is then never reached.
        When `recipient` is this very account the two steps cancel out. */
    method Transfer(recipient: BankAccount, amount: real) returns (r: Outcome)
      requires Valid() && recipient.Valid()
      modifies this`balance, recipient`balance
      ensures Valid() && recipient.Valid()
      ensures r == Ok <==> 0.0 < amount <= old(balance)
      ensures r != Ok ==> r == InvalidAmount
      ensures r != Ok ==> balance == old(balance) && recipient.balance == old(recipient.balance)
      ensures r == Ok && recipient != this ==>
                balance == old(balance) - amount && recipient.balance == old(recipient.balance) + amount
      ensures r == Ok && recipient == this ==> balance == old(balance)
      ensures recipient != this ==> balance + recipient.balance == old(balance) + old(recipient.balance)
    {
      r := ValidateAmount(amount);
      if r != Ok {
        return;
      }
      r := SetBalance(balance - amount);
      if r != Ok {
        return;
      }
      r := recipient.SetBalance(recipient.balance + amount);
    }
  }
}
