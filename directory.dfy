/** Finding a transfer's recipient among the registered accounts by account
    number, with the rule of `Enumerable.Single`: exactly one match is an
    answer, none or several is a failure. */
module Directory {
  import opened AtmApp

  datatype Lookup = Found(account: BankAccount) | NotFound | Ambiguous

  /** True when the accounts at two different positions both carry `number`. */
  ghost predicate Duplicated(accounts: seq<BankAccount>, number: string) {
    exists i, j :: 0 <= i < j < |accounts| && accounts[i].AccountNumber == number && accounts[j].AccountNumber == number
  }

  /** The account whose number is `number`, if it is the only one listed
      with that number. */
  function Resolve(accounts: seq<BankAccount>, number: string): (r: Lookup)
    ensures r == NotFound <==> forall i :: 0 <= i < |accounts| ==> accounts[i].AccountNumber != number
    ensures r == Ambiguous <==> Duplicated(accounts, number)
    ensures r.Found? ==> exists i :: 0 <= i < |accounts| && accounts[i] == r.account
    ensures r.Found? ==> r.account.AccountNumber == number
    decreases |accounts|
  {
    if accounts == [] then NotFound
    else
      var rest := Resolve(accounts[1..], number);
      if accounts[0].AccountNumber != number then
        assert Duplicated(accounts[1..], number) ==> Duplicated(accounts, number) by {
          if Duplicated(accounts[1..], number) {
            var i, j :| 0 <= i < j < |accounts[1..]| && accounts[1..][i].AccountNumber == number
                        && accounts[1..][j].AccountNumber == number;
            assert accounts[i + 1] == accounts[1..][i] && accounts[j + 1] == accounts[1..][j];
          }
        }
        rest
      else if rest == NotFound then
        Found(accounts[0])
      else
        assert Duplicated(accounts, number) by {
          var k :| 0 <= k < |accounts[1..]| && accounts[1..][k].AccountNumber == number;
          assert accounts[k + 1] == accounts[1..][k];
        }
        Ambiguous
  }

  /** In a list whose account numbers are pairwise different, every listed
      account is found by its own number. */
  lemma {:induction false} ResolveDistinct(accounts: seq<BankAccount>, k: nat)
    requires forall i, j :: 0 <= i < j < |accounts| ==> accounts[i].AccountNumber != accounts[j].AccountNumber
    requires k < |accounts|
    ensures Resolve(accounts, accounts[k].AccountNumber) == Found(accounts[k])
  {
  }
}
