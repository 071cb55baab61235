/**
 * A bank account that holds one balance and changes it in place: deposit,
 * withdraw, transfer to another account, and synchronisation of the balance
 * with a value fetched from elsewhere. Failures are values of `Result`, one
 * `Error` kind per error class the account throws.
 *
 * Each operation is given twice: as a pure function on balances, which says
 * what the operation means, and as a method of `Account`, which changes the
 * `balance` field and is proved to agree with that function.
 */
module BankAccount {

  /** A value that may be missing. The fetched balance is an `Option<int>`:
      `None` stands for the null a failed fetch yields. */
  datatype Option<T> = None | Some(value: T)

  /** The three error kinds the account throws. */
  datatype Error =
    | InsufficientFunds(balance: int)  // a debit exceeded the balance; carries that balance
    | TransferFailed                   // a transfer named its own source as the target
    | SynchronizationFailed            // the fetch yielded no balance

  /** What an operation returns, or the error it throws instead. */
  datatype Result<T> = Success(value: T) | Failure(error: Error) {

    /** The success value, or `default` when the operation failed. */
    function GetOr(default: T): T {
      match this
      case Success(v) => v
      case Failure(_) => default
    }

    /** The same outcome with the success value replaced by `v`. */
    function Replace<U>(v: U): Result<U> {
      match this
      case Success(_) => Success(v)
      case Failure(e) => Failure(e)
    }
  }

  // ---------------------------------------------------------------------------
  // The operations as functions on balances
  // ---------------------------------------------------------------------------

  /** The balance after depositing `amount`: a deposit never fails and always
      increases the balance. */
  function Deposited(balance: int, amount: int): (r: int)
    requires amount > 0
    ensures r > balance
  {
    balance + amount
  }

  /** A withdrawal of `amount`: the new balance, or `InsufficientFunds`
      carrying the current balance when `amount` exceeds it. */
  function Withdrawn(balance: int, amount: int): (r: Result<int>)
    requires amount > 0
    ensures r.Success? <==> amount <= balance
    ensures r.Success? ==> r.value < balance && balance - r.value == amount
    ensures r.Failure? ==> r.error == InsufficientFunds(balance)
  {
    if amount > balance then Failure(InsufficientFunds(balance)) else Success(balance - amount)
  }

  /** A transfer of `amount` from an account with balance `source` to one with
      balance `target`; `sameAccount` says whether the target is the source
      account itself. On success, the new balances of source and target. */
  function Transferred(source: int, target: int, sameAccount: bool, amount: int): (r: Result<(int, int)>)
    requires amount > 0
    // a transfer to the account itself fails whatever the amount
    ensures sameAccount ==> r == Failure(TransferFailed)
    // otherwise it fails exactly when a withdrawal of the amount would fail, with the same error
    ensures !sameAccount ==> r.Replace(()) == Withdrawn(source, amount).Replace(())
    // money moves from source to target and none is created or lost
    ensures r.Success? ==> r.value.1 - target == amount && r.value.0 + r.value.1 == source + target
  {
    if sameAccount then
      Failure(TransferFailed)
    else
      match Withdrawn(source, amount)
      case Failure(e) => Failure(e)
      case Success(debited) => Success((debited, Deposited(target, amount)))
  }

  /** Synchronisation with a fetched value: the fetched number becomes the new
      balance; a missing value is `SynchronizationFailed`. */
  function Synchronized(fetched: Option<int>): (r: Result<int>)
    ensures r.Success? <==> fetched.Some?
    ensures r.Success? ==> r.value == fetched.value
    ensures r.Failure? ==> r.error == SynchronizationFailed
  {
    match fetched
    case Some(n) => Success(n)
    case None => Failure(SynchronizationFailed)
  }

  // ---------------------------------------------------------------------------
  // Properties that relate the operations
  // ---------------------------------------------------------------------------

  /** From a non-negative balance, withdrawing what was just deposited
      succeeds and restores the balance. */
  lemma WithdrawUndoesDeposit(balance: int, amount: int)
    requires amount > 0 && balance >= 0
    ensures Withdrawn(Deposited(balance, amount), amount) == Success(balance)
  {
  }

  /** A debit, by withdrawal or by transfer, never takes a non-negative balance
      below zero, nor the balance it credits. */
  lemma DebitKeepsNonNegative(source: int, target: int, sameAccount: bool, amount: int)
    requires amount > 0 && source >= 0 && target >= 0
    ensures Withdrawn(source, amount).GetOr(source) >= 0
    ensures Transferred(source, target, sameAccount, amount).GetOr((source, target)).0 >= 0
    ensures Transferred(source, target, sameAccount, amount).GetOr((source, target)).1 >= 0
  {
  }

  // ---------------------------------------------------------------------------
  // The account object
  // ---------------------------------------------------------------------------

  /** An account; accounts are told apart by reference, not by balance. */
  class Account {
    var balance: int

    constructor (initialBalance: int)
      ensures balance == initialBalance
    {
      balance := initialBalance;
    }

    /** The current balance; changes nothing. */
    method GetBalance() returns (b: int)
      ensures b == balance
    {
      b := balance;
    }

    /** Adds `amount` and returns this account, so calls can be chained. */
    method Deposit(amount: int) returns (self: Account)
      requires amount > 0
      modifies this
      ensures self == this
      ensures balance == Deposited(old(balance), amount)
    {
      balance := balance + amount;
      self := this;
    }

    /** Subtracts `amount` and returns this account, or fails with
        `InsufficientFunds` and leaves the balance as it was. */
    method Withdraw(amount: int) returns (r: Result<Account>)
      requires amount > 0
      modifies this
      ensures r == Withdrawn(old(balance), amount).Replace(this)
      ensures balance == Withdrawn(old(balance), amount).GetOr(old(balance))
    {
      if amount > balance {
        return Failure(InsufficientFunds(balance));
      }
      balance := balance - amount;
      return Success(this);
    }

    /** Moves `amount` from this account to `target` and returns this account.
        Fails with `TransferFailed` when `target` is this account, otherwise
        with `InsufficientFunds` when funds are short; a failed transfer
        changes neither balance. */
    method Transfer(amount: int, target: Account) returns (r: Result<Account>)
      requires amount > 0
      modifies this, target
      ensures r == Transferred(old(balance), old(target.balance), target == this, amount).Replace(this)
      ensures (balance, target.balance)
           == Transferred(old(balance), old(target.balance), target == this, amount)
                .GetOr((old(balance), old(target.balance)))
    {
      if target == this {
        return Failure(TransferFailed);
      }
      var debit := Withdraw(amount);
      if debit.Failure? {
        return Failure(debit.error);
      }
      var _ := target.Deposit(amount);
      return Success(this);
    }

    /** Overwrites the balance with the fetched value, or fails with
        `SynchronizationFailed` and leaves the balance as it was when the
        fetch yielded nothing. */
    method SynchronizeBalance(fetched: Option<int>) returns (r: Result<()>)
      modifies this
      ensures r == Synchronized(fetched).Replace(())
      ensures balance == Synchronized(fetched).GetOr(old(balance))
    {
      match fetched
      case None =>
        return Failure(SynchronizationFailed);
      case Some(n) =>
        balance := n;
        return Success(());
    }
  }

  /** The factory: a new account holding `initialBalance`. */
  method GetBankAccount(initialBalance: int) returns (account: Account)
    ensures fresh(account)
    ensures account.balance == initialBalance
  {
    account := new Account(initialBalance);
  }
}
