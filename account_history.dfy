/**
 * Consecutive calls against a fixed set of accounts, as a test suite makes
 * them against shared account objects. The accounts are a sequence of
 * balances; an account is named by its position, so two calls name the same
 * account exactly when they name the same position (reference identity).
 *
 * Every call is given its meaning by the functions of `BankAccount`, so the
 * lemmas here are about the same operations the `Account` methods perform.
 */
module AccountHistory {
  import opened BankAccount

  /** One call against the accounts. */
  datatype Call =
    | Deposit(account: nat, amount: int)
    | Withdraw(account: nat, amount: int)
    | Transfer(account: nat, target: nat, amount: int)
    | SynchronizeBalance(account: nat, fetched: Option<int>)

  /** The call names accounts among `count` and, where it moves money, a positive amount. */
  predicate WellFormed(count: nat, c: Call) {
    match c
    case Deposit(i, a) => i < count && a > 0
    case Withdraw(i, a) => i < count && a > 0
    case Transfer(i, j, a) => i < count && j < count && a > 0
    case SynchronizeBalance(i, _) => i < count
  }

  predicate AllWellFormed(count: nat, calls: seq<Call>) {
    forall k :: 0 <= k < |calls| ==> WellFormed(count, calls[k])
  }

  /** The accounts a call may change. */
  function Touched(c: Call): set<nat> {
    match c
    case Transfer(i, j, _) => {i, j}
    case _ => {c.account}
  }

  /** The outcome of one call and the balances after it. */
  function Step(accounts: seq<int>, c: Call): (r: (Result<()>, seq<int>))
    requires WellFormed(|accounts|, c)
    ensures |r.1| == |accounts|
    // a failed call changes no balance
    ensures r.0.Failure? ==> r.1 == accounts
    // a call changes no balance of an account it does not name
    ensures forall k :: 0 <= k < |accounts| && k !in Touched(c) ==> r.1[k] == accounts[k]
  {
    match c
    case Deposit(i, a) =>
      (Success(()), accounts[i := Deposited(accounts[i], a)])
    case Withdraw(i, a) =>
      var w := Withdrawn(accounts[i], a);
      (w.Replace(()), if w.Success? then accounts[i := w.value] else accounts)
    case Transfer(i, j, a) =>
      var t := Transferred(accounts[i], accounts[j], i == j, a);
      (t.Replace(()), if t.Success? then accounts[i := t.value.0][j := t.value.1] else accounts)
    case SynchronizeBalance(i, f) =>
      var s := Synchronized(f);
      (s.Replace(()), if s.Success? then accounts[i := s.value] else accounts)
  }

  /** The outcomes of the calls, in order, and the balances after the last. */
  function Run(accounts: seq<int>, calls: seq<Call>): (r: (seq<Result<()>>, seq<int>))
    requires AllWellFormed(|accounts|, calls)
    ensures |r.0| == |calls| && |r.1| == |accounts|
    decreases |calls|
  {
    if calls == [] then
      ([], accounts)
    else
      var first := Step(accounts, calls[0]);
      var rest := Run(first.1, calls[1..]);
      ([first.0] + rest.0, rest.1)
  }

  /** A run that starts with call `c` is that call's step followed by the run
      of the remaining calls. */
  lemma RunPrepend(accounts: seq<int>, c: Call, calls: seq<Call>)
    requires WellFormed(|accounts|, c) && AllWellFormed(|accounts|, calls)
    ensures AllWellFormed(|accounts|, [c] + calls)
    ensures Run(accounts, [c] + calls)
         == ([Step(accounts, c).0] + Run(Step(accounts, c).1, calls).0, Run(Step(accounts, c).1, calls).1)
  {
    assert ([c] + calls)[1..] == calls;
  }

  /** Calls carry their effects over: running `first` and then `second` is
      running `second` from the balances `first` leaves, with the outcomes of
      both in order. */
  lemma {:induction false} RunAppend(accounts: seq<int>, first: seq<Call>, second: seq<Call>)
    requires AllWellFormed(|accounts|, first) && AllWellFormed(|accounts|, second)
    ensures AllWellFormed(|accounts|, first + second)
    ensures Run(accounts, first + second)
         == (Run(accounts, first).0 + Run(Run(accounts, first).1, second).0,
             Run(Run(accounts, first).1, second).1)
    decreases |first|
  {
    if first == [] {
      assert first + second == second;
      assert Run(accounts, first) == ([], accounts);
      assert [] + Run(accounts, second).0 == Run(accounts, second).0;
    } else {
      var c, next := first[0], Step(accounts, first[0]).1;
      assert AllWellFormed(|next|, first[1..]) by {
        forall k | 0 <= k < |first[1..]| ensures WellFormed(|next|, first[1..][k]) {
          assert first[1..][k] == first[k + 1];
        }
      }
      RunAppend(next, first[1..], second);
      assert first + second == [c] + (first[1..] + second);
      RunPrepend(accounts, c, first[1..] + second);
      var tail := Run(next, first[1..]);
      assert [Step(accounts, c).0] + (tail.0 + Run(tail.1, second).0)
          == ([Step(accounts, c).0] + tail.0) + Run(tail.1, second).0;
    }
  }

  /** The money held by all the accounts together. */
  function Total(accounts: seq<int>): int {
    if accounts == [] then 0 else accounts[0] + Total(accounts[1..])
  }

  /** Changing one balance changes the total by the difference. */
  lemma {:induction false} TotalUpdate(accounts: seq<int>, i: nat, v: int)
    requires i < |accounts|
    ensures Total(accounts[i := v]) == Total(accounts) - accounts[i] + v
  {
    if i == 0 {
      assert accounts[i := v][1..] == accounts[1..];
    } else {
      assert accounts[i := v][1..] == accounts[1..][i - 1 := v];
      TotalUpdate(accounts[1..], i - 1, v);
    }
  }

  /** A transfer, whether it succeeds or fails, leaves the total unchanged. */
  lemma TransferConservesTotal(accounts: seq<int>, c: Call)
    requires c.Transfer? && WellFormed(|accounts|, c)
    ensures Total(Step(accounts, c).1) == Total(accounts)
  {
    var t := Transferred(accounts[c.account], accounts[c.target], c.account == c.target, c.amount);
    if t.Success? {
      var debited := accounts[c.account := t.value.0];
      TotalUpdate(accounts, c.account, t.value.0);
      TotalUpdate(debited, c.target, t.value.1);
    }
  }

  /** Any run of transfers between the accounts keeps the total unchanged. */
  lemma {:induction false} TransfersConserveTotal(accounts: seq<int>, calls: seq<Call>)
    requires AllWellFormed(|accounts|, calls)
    requires forall k :: 0 <= k < |calls| ==> calls[k].Transfer?
    ensures Total(Run(accounts, calls).1) == Total(accounts)
    decreases |calls|
  {
    if calls != [] {
      var next := Step(accounts, calls[0]).1;
      TransferConservesTotal(accounts, calls[0]);
      assert AllWellFormed(|next|, calls[1..]) by {
        forall k | 0 <= k < |calls[1..]| ensures WellFormed(|next|, calls[1..][k]) {
          assert calls[1..][k] == calls[k + 1];
        }
      }
      TransfersConserveTotal(next, calls[1..]);
    }
  }

  /** No account is overdrawn. */
  predicate NonNegative(accounts: seq<int>) {
    forall k :: 0 <= k < |accounts| ==> accounts[k] >= 0
  }

  /** Every balance the calls fetch for synchronisation is non-negative. */
  predicate FetchesNonNegative(calls: seq<Call>) {
    forall k :: 0 <= k < |calls| && calls[k].SynchronizeBalance? && calls[k].fetched.Some?
      ==> calls[k].fetched.value >= 0
  }

  /** Starting from balances that are not negative, and fetching only
      non-negative balances, no run of calls ever overdraws an account:
      debits are checked against the balance before anything changes. */
  lemma {:induction false} RunKeepsNonNegative(accounts: seq<int>, calls: seq<Call>)
    requires AllWellFormed(|accounts|, calls) && NonNegative(accounts) && FetchesNonNegative(calls)
    ensures NonNegative(Run(accounts, calls).1)
    decreases |calls|
  {
    if calls != [] {
      var c := calls[0];
      var next := Step(accounts, c).1;
      forall k | 0 <= k < |next| ensures next[k] >= 0 {
        if k in Touched(c) && c.Transfer? && c.account != c.target {
          DebitKeepsNonNegative(accounts[c.account], accounts[c.target], false, c.amount);
        }
      }
      assert AllWellFormed(|next|, calls[1..]) by {
        forall k | 0 <= k < |calls[1..]| ensures WellFormed(|next|, calls[1..][k]) {
          assert calls[1..][k] == calls[k + 1];
        }
      }
      assert FetchesNonNegative(calls[1..]) by {
        forall k | 0 <= k < |calls[1..]| ensures calls[1..][k] == calls[k + 1] { }
      }
      RunKeepsNonNegative(next, calls[1..]);
    }
  }
}
