/**
 * The account service as the back end runs it: an object over the account
 * table (a map keyed by account number) and the transaction table (a log
 * that only grows). Each method checks its error conditions first and then
 * updates the fields in the order the service saves its rows; each is
 * specified by the matching function of module Ledger, and keeps
 * Ledger.Valid.
 */
module Service {
  import opened Wrappers
  import opened Entities
  import Ledger

  class AccountService {
    var accounts: map<string, Account>
    var log: seq<Transaction>
    var nextAccountId: nat

    /** The repositories' contents as a value. */
    function State(): Ledger.Bank
      reads this
    {
      Ledger.Bank(accounts, log, nextAccountId)
    }

    ghost predicate Valid()
      reads this
    {
      Ledger.Valid(State())
    }

    constructor ()
      ensures Valid() && State() == Ledger.Empty
    {
      accounts := map[];
      log := [];
      nextAccountId := 1;
    }

    method CreateAccount(accountNumber: string, ownerName: string, password: string)
      returns (r: Result<Account, Ledger.Error>)
      requires Valid()
      modifies this
      ensures Valid()
      ensures var s := Ledger.CreateAccount(old(State()), accountNumber, ownerName, password);
        State() == s.bank && r == s.result
    {
      Ledger.CreatePreservesValid(State(), accountNumber, ownerName, password);
      if accountNumber in accounts {
        return Err(Ledger.DuplicateAccount);
      }
      var account := Account(nextAccountId, accountNumber, ownerName, password, 0.0);
      accounts := accounts[accountNumber := account];
      nextAccountId := nextAccountId + 1;
      return Ok(account);
    }

    method GetAccount(accountNumber: string) returns (r: Result<Account, Ledger.Error>)
      ensures r == Ledger.GetAccount(State(), accountNumber)
    {
      if accountNumber in accounts {
        return Ok(accounts[accountNumber]);
      }
      return Err(Ledger.AccountNotFound);
    }

    method Deposit(accountNumber: string, amount: Money) returns (r: Result<Transaction, Ledger.Error>)
      requires Valid()
      modifies this
      ensures Valid()
      ensures var s := Ledger.Deposit(old(State()), accountNumber, amount);
        State() == s.bank && r == s.result
    {
      Ledger.DepositPreservesValid(State(), accountNumber, amount);
      if amount <= 0.0 {
        return Err(Ledger.NonPositiveAmount(Ledger.DepositOp));
      }
      var found := GetAccount(accountNumber);
      if found.Err? {
        return Err(found.error);
      }
      var account := found.value;
      var newBalance := account.balance + amount;
      account := account.(balance := newBalance);
      accounts := accounts[accountNumber := account];
      var transaction := Transaction(|log| + 1, account.id, TransactionType.Deposit, amount, newBalance, None);
      log := log + [transaction];
      return Ok(transaction);
    }

    method Withdraw(accountNumber: string, amount: Money) returns (r: Result<Transaction, Ledger.Error>)
      requires Valid()
      modifies this
      ensures Valid()
      ensures var s := Ledger.Withdraw(old(State()), accountNumber, amount);
        State() == s.bank && r == s.result
    {
      Ledger.WithdrawPreservesValid(State(), accountNumber, amount);
      if amount <= 0.0 {
        return Err(Ledger.NonPositiveAmount(Ledger.WithdrawOp));
      }
      var found := GetAccount(accountNumber);
      if found.Err? {
        return Err(found.error);
      }
      var account := found.value;
      if account.balance < amount {
        return Err(Ledger.InsufficientFunds);
      }
      var newBalance := account.balance - amount;
      account := account.(balance := newBalance);
      accounts := accounts[accountNumber := account];
      var transaction := Transaction(|log| + 1, account.id, TransactionType.Withdraw, amount, newBalance, None);
      log := log + [transaction];
      return Ok(transaction);
    }

    method GetTransactionHistory(accountNumber: string) returns (r: Result<seq<Transaction>, Ledger.Error>)
      ensures r == Ledger.TransactionHistory(State(), accountNumber)
    {
      var found := GetAccount(accountNumber);
      if found.Err? {
        return Err(found.error);
      }
      return Ok(Ledger.History(log, found.value.id));
    }

    method Authenticate(accountNumber: string, password: string) returns (r: Result<bool, Ledger.Error>)
      ensures r == Ledger.Authenticate(State(), accountNumber, password)
    {
      var found := GetAccount(accountNumber);
      if found.Err? {
        return Err(found.error);
      }
      return Ok(found.value.password == password);
    }

    method Transfer(fromAccountNumber: string, toAccountNumber: string, amount: Money)
      returns (r: Result<Transaction, Ledger.Error>)
      requires Valid()
      modifies this
      ensures Valid()
      ensures var s := Ledger.Transfer(old(State()), fromAccountNumber, toAccountNumber, amount);
        State() == s.bank && r == s.result
    {
      ghost var before := State();
      Ledger.TransferPreservesValid(before, fromAccountNumber, toAccountNumber, amount);
      if amount <= 0.0 {
        return Err(Ledger.NonPositiveAmount(Ledger.TransferOp));
      }
      var fromFound := GetAccount(fromAccountNumber);
      if fromFound.Err? {
        return Err(fromFound.error);
      }
      var fromAccount := fromFound.value;
      if fromAccount.balance < amount {
        return Err(Ledger.InsufficientFunds);
      }
      var toFound := GetAccount(toAccountNumber);
      if toFound.Err? {
        return Err(toFound.error);
      }
      // Debit the source.
      var fromNewBalance := fromAccount.balance - amount;
      fromAccount := fromAccount.(balance := fromNewBalance);
      accounts := accounts[fromAccountNumber := fromAccount];
      // Credit the destination; it is the same row as the source when the numbers agree.
      var toAccount := accounts[toAccountNumber];
      var toNewBalance := toAccount.balance + amount;
      toAccount := toAccount.(balance := toNewBalance);
      accounts := accounts[toAccountNumber := toAccount];
      // Record both sides.
      var fromTransaction := Transaction(|log| + 1, fromAccount.id, TransferOut, amount, fromNewBalance,
                                         Some(Ledger.OutPrefix + toAccount.ownerName));
      log := log + [fromTransaction];
      var toTransaction := Transaction(|log| + 1, toAccount.id, TransferIn, amount, toNewBalance,
                                       Some(Ledger.InPrefix + fromAccount.ownerName));
      log := log + [toTransaction];
      assert log == before.log + [fromTransaction, toTransaction];
      return Ok(fromTransaction);
    }
  }
}
