/** Client code that uses the account operations through their contracts
    only. Each method is one concrete run, not a general property. */
module Walkthrough {
  import opened AtmApp
  import opened Directory

  /** Two accounts open with distinct numbers; a malformed PIN opens none. */
  method Opening() {
    var r, a := BankAccount.Create("Ana", 100.0, "1234", 4021);
    assert r == Ok;
    var b: BankAccount?;
    r, b := BankAccount.Create("Beto", 0.0, "0000", 17);
    assert r == Ok;
    assert a.AccountNumber != b.AccountNumber by {
      AccountNumberInjective(4021, 17);
    }
    var bad: BankAccount?;
    assert !IsPin("12a4") by {
      assert "12a4"[2] == 'a';
    }
    r, bad := BankAccount.Create("Carla", 5.0, "12a4", 9);
    assert r == InvalidAmount && bad == null;
  }

  /** Deposits, withdrawals and transfers between two distinct accounts. */
  method Session(a: BankAccount, b: BankAccount)
    requires a.Valid() && b.Valid() && a != b
    requires a.AccountNumber != b.AccountNumber
    requires a.balance == 100.0 && b.balance == 0.0
    modifies a, b
  {
    var r := a.Deposit(50.0);
    assert r == Ok && a.balance == 150.0;
    r := a.Deposit(0.0);
    assert r == InvalidAmount && a.balance == 150.0;

    r := a.Withdraw(200.0);
    assert r == NotEnoughBalance && a.balance == 150.0;

    assert Resolve([a, b], b.AccountNumber) == Found(b) by {
      ResolveDistinct([a, b], 1);
    }

    r := a.Transfer(b, 150.0);
    assert r == Ok && a.balance == 0.0 && b.balance == 150.0;

    // An overdrawing transfer reports the balance setter's error.
    r := a.Transfer(b, 1.0);
    assert r == InvalidAmount && a.balance == 0.0 && b.balance == 150.0;

    r := b.Transfer(b, 40.0);
    assert r == Ok && b.balance == 150.0;
  }

  /** Setting the same PIN twice, then a malformed one. */
  method PinChanges(a: BankAccount)
    requires a.Valid()
    modifies a
  {
    var r := a.SetPin("4321");
    assert r == Ok && a.pin == "4321";
    r := a.SetPin("4321");
    assert r == Ok && a.pin == "4321";
    r := a.SetPin("123");
    assert r == InvalidAmount && a.pin == "4321";
  }
}
