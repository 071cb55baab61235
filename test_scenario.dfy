/**
 * The test suite's scenario: one shared account created with 100 and a
 * second one created with 200, exercised by consecutive calls whose effects
 * carry over from one test to the next. The scenario is replayed twice, on
 * `Account` objects and on the history model, and both are proved to give
 * the balances and errors the tests expect.
 */
module TestScenario {
  import opened BankAccount
  import AccountHistory

  /** Replays the suite on two account objects. `reported` holds what
      `getBalance` returns at each check, `errors` the errors thrown, in
      order, and `mine`, `other` the two balances at the end. */
  method SharedAccountRun() returns (reported: seq<int>, errors: seq<Error>, mine: int, other: int)
    ensures reported == [100, 400, 200, 50, 250]
    ensures errors == [InsufficientFunds(100), InsufficientFunds(100), TransferFailed, SynchronizationFailed]
    ensures mine == 250 && other == 350
  {
    var myAccount := GetBankAccount(100);
    var otherAccount := GetBankAccount(200);

    // a new account reports its initial balance
    var b := myAccount.GetBalance();
    reported := [b];

    // three failing calls; the two debits report the balance at the time
    var w := myAccount.Withdraw(150);
    var t1 := myAccount.Transfer(150, otherAccount);
    var t2 := myAccount.Transfer(150, myAccount);
    errors := [w.error, t1.error, t2.error];

    // deposit and withdraw return the account itself, so the chained
    // getBalance sees the new balance
    var self := myAccount.Deposit(300);
    b := self.GetBalance();
    reported := reported + [b];
    var d := myAccount.Withdraw(200);
    b := d.value.GetBalance();
    reported := reported + [b];

    // a transfer returns the source account
    var t3 := myAccount.Transfer(150, otherAccount);
    b := t3.value.GetBalance();
    reported := reported + [b];

    // synchronisation overwrites with a fetched number, and fails on null
    var s1 := myAccount.SynchronizeBalance(Some(250));
    b := myAccount.GetBalance();
    reported := reported + [b];
    var s2 := myAccount.SynchronizeBalance(None);
    errors := errors + [s2.error];

    mine := myAccount.GetBalance();
    other := otherAccount.GetBalance();
  }

  /** Synchronisation overwrites: whatever an account held before, after a
      fetch that yields `n` it holds exactly `n`, and a second
      synchronisation with the same value changes nothing. */
  method SynchronizationOverwrites(prior: int, n: int) returns (once: int, twice: int)
    ensures once == n && twice == n
  {
    var account := GetBankAccount(prior);
    var _ := account.SynchronizeBalance(Some(n));
    once := account.GetBalance();
    var _ := account.SynchronizeBalance(Some(n));
    twice := account.GetBalance();
  }

  /** The suite's calls on the history model: position 0 is the shared
      account, position 1 the other one. */
  function SuiteCalls(): (calls: seq<AccountHistory.Call>)
    ensures AccountHistory.AllWellFormed(2, calls)
  {
    [ AccountHistory.Withdraw(0, 150),
      AccountHistory.Transfer(0, 1, 150),
      AccountHistory.Transfer(0, 0, 150),
      AccountHistory.Deposit(0, 300),
      AccountHistory.Withdraw(0, 200),
      AccountHistory.Transfer(0, 1, 150),
      AccountHistory.SynchronizeBalance(0, Some(250)),
      AccountHistory.SynchronizeBalance(0, None) ]
  }

  /** The history model gives the suite's outcomes and final balances. */
  lemma SuiteRun()
    ensures AccountHistory.Run([100, 200], SuiteCalls()) == (SuiteOutcomes(), [250, 350])
  {
    // the run is built from its last call backwards, one call in front at a time
    var calls, outcomes := SuiteCalls(), SuiteOutcomes();
    assert AccountHistory.Run([250, 350], calls[8..]) == (outcomes[8..], [250, 350]);
    PrependSuiteCall(7, [250, 350], [250, 350]);
    assert [50, 350][0 := 250] == [250, 350];
    PrependSuiteCall(6, [50, 350], [250, 350]);
    assert [200, 200][0 := 50][1 := 350] == [50, 350];
    PrependSuiteCall(5, [200, 200], [50, 350]);
    assert [400, 200][0 := 200] == [200, 200];
    PrependSuiteCall(4, [400, 200], [200, 200]);
    assert [100, 200][0 := 400] == [400, 200];
    PrependSuiteCall(3, [100, 200], [400, 200]);
    PrependSuiteCall(2, [100, 200], [100, 200]);
    PrependSuiteCall(1, [100, 200], [100, 200]);
    PrependSuiteCall(0, [100, 200], [100, 200]);
  }

  /** Call `k` of the suite takes `before` to `after` with outcome `k`, so the
      run from call `k` on follows from the run from call `k + 1` on. */
  lemma PrependSuiteCall(k: nat, before: seq<int>, after: seq<int>)
    requires k < 8 && |before| == 2
    requires AccountHistory.Step(before, SuiteCalls()[k]) == (SuiteOutcomes()[k], after)
    requires AccountHistory.Run(after, SuiteCalls()[k + 1..]) == (SuiteOutcomes()[k + 1..], [250, 350])
    ensures AccountHistory.Run(before, SuiteCalls()[k..]) == (SuiteOutcomes()[k..], [250, 350])
  {
    var calls, outcomes := SuiteCalls(), SuiteOutcomes();
    assert calls[k..] == [calls[k]] + calls[k + 1..];
    assert outcomes[k..] == [outcomes[k]] + outcomes[k + 1..];
    AccountHistory.RunPrepend(before, calls[k], calls[k + 1..]);
  }

  /** What the suite's calls return or throw, in order. */
  function SuiteOutcomes(): seq<Result<()>> {
    [ Failure(InsufficientFunds(100)), Failure(InsufficientFunds(100)), Failure(TransferFailed),
      Success(()), Success(()), Success(()), Success(()), Failure(SynchronizationFailed) ]
  }
}
