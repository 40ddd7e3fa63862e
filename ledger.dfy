/**
 * The account ledger of the bank back end, as pure functions over a value
 * `Bank` that holds what the two repositories hold: the accounts, keyed by
 * account number, and the append-only transaction log. Each operation
 * returns the bank afterwards together with its result or the error it
 * throws. The class `Service.AccountService` performs the same operations
 * in place and is specified by these functions.
 */
module Ledger {
  import opened Wrappers
  import opened Entities

  /** The exceptions the service throws, one per distinct message. */
  datatype Operation = DepositOp | WithdrawOp | TransferOp
  datatype Error =
    | DuplicateAccount
    | AccountNotFound
    | NonPositiveAmount(op: Operation)
    | InsufficientFunds

  /** The message text each exception carries. */
  function Message(e: Error): (m: string)
    ensures m != ""
  {
    match e
    case DuplicateAccount => "口座番号が既に存在します"
    case AccountNotFound => "口座が見つかりません"
    case NonPositiveAmount(DepositOp) => "入金額は0円より大きくなければなりません"
    case NonPositiveAmount(WithdrawOp) => "出金額は0円より大きくなければなりません"
    case NonPositiveAmount(TransferOp) => "振込金額は0円より大きくなければなりません"
    case InsufficientFunds => "残高不足です"
  }

  /** Each exception carries its own text: no two kinds share a message. */
  lemma MessagesDistinct(e1: Error, e2: Error)
    requires e1 != e2
    ensures Message(e1) != Message(e2)
  {
  }

  /**
   * The persistent state. `nextAccountId` is the identity the account table
   * hands out next; transaction ids follow the log position.
   */
  datatype Bank = Bank(accounts: map<string, Account>, log: seq<Transaction>, nextAccountId: nat)

  /** The bank after an operation, and what the operation returned or threw. */
  datatype Step<+T> = Step(bank: Bank, result: Result<T, Error>)

  const Empty := Bank(map[], [], 1)

  const OutPrefix: string := "振込先: "
  const InPrefix: string := "振込元: "

  // ---------------------------------------------------------------------
  // The ledger's meaning: balances are the running sum of the log.
  // ---------------------------------------------------------------------

  /** Sum of what the entries of `log` belonging to account `id` did to its balance. */
  function Net(log: seq<Transaction>, id: nat): Money
  {
    if log == [] then 0.0
    else Net(log[..|log| - 1], id) + (if log[|log| - 1].accountId == id then Delta(log[|log| - 1]) else 0.0)
  }

  /** Account `n` is stored under its own number, has a live id, and its balance is its net log sum. */
  predicate AccountOk(b: Bank, n: string)
    requires n in b.accounts
  {
    var a := b.accounts[n];
    && a.accountNumber == n
    && 1 <= a.id < b.nextAccountId
    && a.balance >= 0.0
    && a.balance == Net(b.log, a.id)
  }

  /** Log entry `i` has id `i + 1`, a positive amount, and records the balance its account had right after it. */
  predicate RecordOk(b: Bank, i: nat)
    requires i < |b.log|
  {
    var t := b.log[i];
    && t.id == i + 1
    && 1 <= t.accountId < b.nextAccountId
    && t.amount > 0.0
    && t.balanceAfter >= 0.0
    && t.balanceAfter == Net(b.log[..i + 1], t.accountId)
  }

  /** The invariant every operation preserves. */
  predicate Valid(b: Bank)
  {
    && b.nextAccountId >= 1
    && (forall n :: n in b.accounts ==> AccountOk(b, n))
    && (forall n, m :: n in b.accounts && m in b.accounts && b.accounts[n].id == b.accounts[m].id ==> n == m)
    && (forall i :: 0 <= i < |b.log| ==> RecordOk(b, i))
  }

  /** `after` differs from `before` only in the balance of account `n`, which is now `balance`. */
  predicate Rebalanced(before: map<string, Account>, after: map<string, Account>, n: string, balance: Money)
  {
    && n in before
    && after.Keys == before.Keys
    && after[n] == before[n].(balance := balance)
    && (forall m :: m in before && m != n ==> after[m] == before[m])
  }

  // ---------------------------------------------------------------------
  // The operations.
  // ---------------------------------------------------------------------

  /** `createAccount`: a fresh account with balance zero, unless the number is taken. */
  function CreateAccount(b: Bank, number: string, owner: string, password: string): (s: Step<Account>)
    ensures s.result.Err? <==> number in b.accounts
    ensures s.result.Err? ==> s.result.error == DuplicateAccount && s.bank == b
    ensures s.result.Ok? ==>
      var a := s.result.value;
      && a.accountNumber == number && a.ownerName == owner && a.password == password
      && a.balance == 0.0
      && s.bank.accounts.Keys == b.accounts.Keys + {number}
      && s.bank.accounts[number] == a
      && (forall m :: m in b.accounts ==> s.bank.accounts[m] == b.accounts[m])
      && s.bank.log == b.log
  {
    if number in b.accounts then Step(b, Err(DuplicateAccount))
    else
      var a := Account(b.nextAccountId, number, owner, password, 0.0);
      Step(Bank(b.accounts[number := a], b.log, b.nextAccountId + 1), Ok(a))
  }

  /** `getAccount`: the stored account with this number, or "account not found". */
  function GetAccount(b: Bank, number: string): (r: Result<Account, Error>)
    ensures r.Ok? <==> number in b.accounts
    ensures r.Ok? ==> r.value == b.accounts[number]
    ensures r.Err? ==> r.error == AccountNotFound
    ensures Valid(b) && r.Ok? ==> r.value.accountNumber == number && r.value.balance >= 0.0
  {
    if number in b.accounts then Ok(b.accounts[number]) else Err(AccountNotFound)
  }

  /** `deposit`: the amount is checked before the account is looked up. */
  function Deposit(b: Bank, number: string, amount: Money): (s: Step<Transaction>)
    ensures s.result.Err? ==> s.bank == b
    ensures s.result == Err(NonPositiveAmount(DepositOp)) <==> amount <= 0.0
    ensures s.result == Err(AccountNotFound) <==> amount > 0.0 && number !in b.accounts
    ensures s.result.Ok? <==> amount > 0.0 && number in b.accounts
    ensures s.result.Ok? ==>
      var t := s.result.value;
      var a := b.accounts[number];
      && amount > 0.0 && number in b.accounts
      && Rebalanced(b.accounts, s.bank.accounts, number, a.balance + amount)
      && t == Transaction(|b.log| + 1, a.id, TransactionType.Deposit, amount, a.balance + amount, None)
      && s.bank.log == b.log + [t]
      && s.bank.nextAccountId == b.nextAccountId
  {
    if amount <= 0.0 then Step(b, Err(NonPositiveAmount(DepositOp)))
    else match GetAccount(b, number)
      case Err(e) => Step(b, Err(e))
      case Ok(a) =>
        var newBalance := a.balance + amount;
        var t := Transaction(|b.log| + 1, a.id, TransactionType.Deposit, amount, newBalance, None);
        Step(Bank(b.accounts[number := a.(balance := newBalance)], b.log + [t], b.nextAccountId), Ok(t))
  }

  /** `withdraw`: amount, then existence, then funds are checked, all before anything changes. */
  function Withdraw(b: Bank, number: string, amount: Money): (s: Step<Transaction>)
    ensures s.result.Err? ==> s.bank == b
    ensures s.result == Err(NonPositiveAmount(WithdrawOp)) <==> amount <= 0.0
    ensures s.result == Err(AccountNotFound) <==> amount > 0.0 && number !in b.accounts
    ensures s.result == Err(InsufficientFunds) <==>
      amount > 0.0 && number in b.accounts && b.accounts[number].balance < amount
    ensures s.result.Ok? <==> amount > 0.0 && number in b.accounts && b.accounts[number].balance >= amount
    ensures s.result.Ok? ==>
      var t := s.result.value;
      var a := b.accounts[number];
      && 0.0 < amount <= a.balance
      && Rebalanced(b.accounts, s.bank.accounts, number, a.balance - amount)
      && t == Transaction(|b.log| + 1, a.id, TransactionType.Withdraw, amount, a.balance - amount, None)
      && s.bank.log == b.log + [t]
      && s.bank.nextAccountId == b.nextAccountId
  {
    if amount <= 0.0 then Step(b, Err(NonPositiveAmount(WithdrawOp)))
    else match GetAccount(b, number)
      case Err(e) => Step(b, Err(e))
      case Ok(a) =>
        if a.balance < amount then Step(b, Err(InsufficientFunds))
        else
          var newBalance := a.balance - amount;
          var t := Transaction(|b.log| + 1, a.id, TransactionType.Withdraw, amount, newBalance, None);
          Step(Bank(b.accounts[number := a.(balance := newBalance)], b.log + [t], b.nextAccountId), Ok(t))
  }

  /**
   * `transfer`. The source account is debited first; the destination is read
   * after the debit, so when both numbers name the same account the credit
   * lands on the debited balance (the persistence layer hands out one shared
   * instance). Two entries are appended, TRANSFER_OUT then TRANSFER_IN, and
   * the TRANSFER_OUT entry is returned.
   */
  function Transfer(b: Bank, from: string, to: string, amount: Money): Step<Transaction>
  {
    if amount <= 0.0 then Step(b, Err(NonPositiveAmount(TransferOp)))
    else match GetAccount(b, from)
      case Err(e) => Step(b, Err(e))
      case Ok(fromAccount) =>
        if fromAccount.balance < amount then Step(b, Err(InsufficientFunds))
        else match GetAccount(b, to)
          case Err(e) => Step(b, Err(e))
          case Ok(_) =>
            var fromNewBalance := fromAccount.balance - amount;
            var debited := b.accounts[from := fromAccount.(balance := fromNewBalance)];
            var toAccount := debited[to];
            var toNewBalance := toAccount.balance + amount;
            var credited := debited[to := toAccount.(balance := toNewBalance)];
            var outT := Transaction(|b.log| + 1, fromAccount.id, TransferOut, amount, fromNewBalance,
                                    Some(OutPrefix + toAccount.ownerName));
            var inT := Transaction(|b.log| + 2, toAccount.id, TransferIn, amount, toNewBalance,
                                   Some(InPrefix + fromAccount.ownerName));
            Step(Bank(credited, b.log + [outT, inT], b.nextAccountId), Ok(outT))
  }
  /**
   * What `transfer` promises. Errors come in the order amount, source,
   * source funds, destination, and leave the bank unchanged. Between two
   * accounts the source loses and the destination gains the amount, so
   * their sum is kept, and no other account changes; to the same account the
   * balance ends where it began. Either way TRANSFER_OUT then TRANSFER_IN is
   * appended and the TRANSFER_OUT entry is returned.
   */
  lemma TransferOutcome(b: Bank, from: string, to: string, amount: Money)
    ensures var s := Transfer(b, from, to, amount);
      && (s.result.Err? ==> s.bank == b)
      && (s.result == Err(NonPositiveAmount(TransferOp)) <==> amount <= 0.0)
      && (s.result == Err(InsufficientFunds) <==>
            amount > 0.0 && from in b.accounts && b.accounts[from].balance < amount)
      && (s.result == Err(AccountNotFound) <==>
            amount > 0.0 && (from !in b.accounts || (b.accounts[from].balance >= amount && to !in b.accounts)))
      && (s.result.Ok? <==>
            amount > 0.0 && from in b.accounts && b.accounts[from].balance >= amount && to in b.accounts)
    ensures var s := Transfer(b, from, to, amount);
      s.result.Ok? ==>
        && 0.0 < amount && from in b.accounts && to in b.accounts && amount <= b.accounts[from].balance
        && s.bank.nextAccountId == b.nextAccountId
        && s.bank.accounts.Keys == b.accounts.Keys
        && (forall m :: m in b.accounts && m != from && m != to ==> s.bank.accounts[m] == b.accounts[m])
        && |s.bank.log| == |b.log| + 2 && s.bank.log[..|b.log|] == b.log
        && s.result.value == s.bank.log[|b.log|]
    ensures var s := Transfer(b, from, to, amount);
      s.result.Ok? && from != to ==>
        var f := b.accounts[from];
        var d := b.accounts[to];
        && s.bank.accounts[from] == f.(balance := f.balance - amount)
        && s.bank.accounts[to] == d.(balance := d.balance + amount)
        && s.bank.accounts[from].balance + s.bank.accounts[to].balance == f.balance + d.balance
        && s.bank.log[|b.log|] ==
             Transaction(|b.log| + 1, f.id, TransferOut, amount, f.balance - amount, Some(OutPrefix + d.ownerName))
        && s.bank.log[|b.log| + 1] ==
             Transaction(|b.log| + 2, d.id, TransferIn, amount, d.balance + amount, Some(InPrefix + f.ownerName))
    ensures var s := Transfer(b, from, to, amount);
      s.result.Ok? && from == to ==>
        var f := b.accounts[from];
        && s.bank.accounts == b.accounts
        && s.bank.log[|b.log|] ==
             Transaction(|b.log| + 1, f.id, TransferOut, amount, f.balance - amount, Some(OutPrefix + f.ownerName))
        && s.bank.log[|b.log| + 1] ==
             Transaction(|b.log| + 2, f.id, TransferIn, amount, f.balance, Some(InPrefix + f.ownerName))
  {
  }

  /** `authenticate`: whether the stored password equals the given one; unknown accounts throw. */
  function Authenticate(b: Bank, number: string, password: string): (r: Result<bool, Error>)
    ensures r.Err? <==> number !in b.accounts
    ensures r.Err? ==> r.error == AccountNotFound
    ensures r.Ok? ==> (r.value <==> b.accounts[number].password == password)
  {
    match GetAccount(b, number)
    case Err(e) => Err(e)
    case Ok(a) => Ok(a.password == password)
  }

  /**
   * The entries of `log` that belong to account `id`, newest first: the
   * account-id query ordered by creation time, descending, with log order
   * standing for creation order.
   */
  function History(log: seq<Transaction>, id: nat): (h: seq<Transaction>)
    ensures |h| <= |log|
    ensures forall t :: t in h <==> t in log && t.accountId == id
  {
    if log == [] then []
    else
      var last := log[|log| - 1];
      (if last.accountId == id then [last] else []) + History(log[..|log| - 1], id)
  }

  /** `getTransactionHistory`: the history of an existing account, or "account not found". */
  function TransactionHistory(b: Bank, number: string): (r: Result<seq<Transaction>, Error>)
    ensures r.Err? <==> number !in b.accounts
    ensures r.Err? ==> r.error == AccountNotFound
    ensures r.Ok? ==> forall t :: t in r.value <==> t in b.log && t.accountId == b.accounts[number].id
  {
    match GetAccount(b, number)
    case Err(e) => Err(e)
    case Ok(a) => Ok(History(b.log, a.id))
  }

  // ---------------------------------------------------------------------
  // The invariant is preserved, so balances never go negative.
  // ---------------------------------------------------------------------

  lemma {:induction false} NetAppend(log: seq<Transaction>, t: Transaction, id: nat)
    ensures Net(log + [t], id) == Net(log, id) + (if t.accountId == id then Delta(t) else 0.0)
  {
    assert (log + [t])[..|log|] == log;
  }

  /** An account no entry refers to has net sum zero. */
  lemma {:induction false} NetUntouched(log: seq<Transaction>, id: nat)
    requires forall i :: 0 <= i < |log| ==> log[i].accountId != id
    ensures Net(log, id) == 0.0
  {
    if log != [] {
      NetUntouched(log[..|log| - 1], id);
    }
  }

  /**
   * Posting one entry of `kind` against account `n`: its balance moves by the
   * amount and the entry, carrying the new balance, is appended. Deposit and
   * withdraw are one posting; a transfer is two.
   */
  ghost function Post(b: Bank, n: string, kind: TransactionType, amount: Money, description: Option<string>): Bank
    requires n in b.accounts
  {
    var a := b.accounts[n];
    var newBalance := if IsCredit(kind) then a.balance + amount else a.balance - amount;
    Bank(b.accounts[n := a.(balance := newBalance)],
         b.log + [Transaction(|b.log| + 1, a.id, kind, amount, newBalance, description)],
         b.nextAccountId)
  }

  lemma PostPreservesValid(b: Bank, n: string, kind: TransactionType, amount: Money, description: Option<string>)
    requires Valid(b) && n in b.accounts && amount > 0.0
    requires !IsCredit(kind) ==> b.accounts[n].balance >= amount
    ensures Valid(Post(b, n, kind, amount, description))
  {
    var b' := Post(b, n, kind, amount, description);
    var t := b'.log[|b.log|];
    assert b'.log == b.log + [t];
    assert AccountOk(b, n);
    forall m | m in b'.accounts
      ensures AccountOk(b', m)
    {
      NetAppend(b.log, t, b.accounts[m].id);
    }
    forall i | 0 <= i < |b'.log|
      ensures RecordOk(b', i)
    {
      if i < |b.log| {
        assert RecordOk(b, i);
        assert b'.log[..i + 1] == b.log[..i + 1];
      } else {
        assert b'.log[..i + 1] == b.log + [t];
        NetAppend(b.log, t, t.accountId);
      }
    }
  }

  lemma CreatePreservesValid(b: Bank, number: string, owner: string, password: string)
    requires Valid(b)
    ensures Valid(CreateAccount(b, number, owner, password).bank)
  {
    var b' := CreateAccount(b, number, owner, password).bank;
    if number !in b.accounts {
      forall i | 0 <= i < |b.log|
        ensures b.log[i].accountId != b.nextAccountId
      {
        assert RecordOk(b, i);
      }
      NetUntouched(b.log, b.nextAccountId);
      forall i | 0 <= i < |b'.log|
        ensures RecordOk(b', i)
      {
        assert RecordOk(b, i);
      }
      forall m | m in b'.accounts
        ensures AccountOk(b', m)
      {
        if m != number {
          assert AccountOk(b, m);
        }
      }
    }
  }

  lemma DepositPreservesValid(b: Bank, number: string, amount: Money)
    requires Valid(b)
    ensures Valid(Deposit(b, number, amount).bank)
  {
    if amount > 0.0 && number in b.accounts {
      PostPreservesValid(b, number, TransactionType.Deposit, amount, None);
    }
  }

  lemma WithdrawPreservesValid(b: Bank, number: string, amount: Money)
    requires Valid(b)
    ensures Valid(Withdraw(b, number, amount).bank)
  {
    if amount > 0.0 && number in b.accounts && b.accounts[number].balance >= amount {
      PostPreservesValid(b, number, TransactionType.Withdraw, amount, None);
    }
  }

  /**
   * A successful transfer is two postings: TRANSFER_OUT against the source,
   * then TRANSFER_IN against the destination as it stands after the debit.
   */
  lemma TransferIsTwoPostings(b: Bank, from: string, to: string, amount: Money)
    requires amount > 0.0 && from in b.accounts && to in b.accounts && b.accounts[from].balance >= amount
    ensures Transfer(b, from, to, amount).bank ==
      Post(Post(b, from, TransferOut, amount, Some(OutPrefix + b.accounts[to].ownerName)),
           to, TransferIn, amount, Some(InPrefix + b.accounts[from].ownerName))
  {
    var f := b.accounts[from];
    var debited := b.accounts[from := f.(balance := f.balance - amount)];
    var toAccount := debited[to];
    assert toAccount.ownerName == b.accounts[to].ownerName;
    var outT := Transaction(|b.log| + 1, f.id, TransferOut, amount, f.balance - amount,
                            Some(OutPrefix + b.accounts[to].ownerName));
    var b1 := Post(b, from, TransferOut, amount, Some(OutPrefix + b.accounts[to].ownerName));
    assert b1 == Bank(debited, b.log + [outT], b.nextAccountId);
  }

  lemma TransferPreservesValid(b: Bank, from: string, to: string, amount: Money)
    requires Valid(b)
    ensures Valid(Transfer(b, from, to, amount).bank)
  {
    if amount > 0.0 && from in b.accounts && to in b.accounts && b.accounts[from].balance >= amount {
      var outDescription := Some(OutPrefix + b.accounts[to].ownerName);
      var b1 := Post(b, from, TransferOut, amount, outDescription);
      PostPreservesValid(b, from, TransferOut, amount, outDescription);
      PostPreservesValid(b1, to, TransferIn, amount, Some(InPrefix + b.accounts[from].ownerName));
      TransferIsTwoPostings(b, from, to, amount);
    }
  }

  /** Every balance is non-negative in every state the operations reach from a valid one. */
  lemma ValidBalancesNonNegative(b: Bank, number: string)
    requires Valid(b) && number in b.accounts
    ensures b.accounts[number].balance >= 0.0
    ensures b.accounts[number].balance == Net(b.log, b.accounts[number].id)
  {
    assert AccountOk(b, number);
  }

  /** The history lists the newest entry first. */
  lemma {:induction false} HistoryNewestFirst(log: seq<Transaction>, id: nat)
    requires forall i :: 0 <= i < |log| ==> log[i].id == i + 1
    ensures forall i, j :: 0 <= i < j < |History(log, id)| ==> History(log, id)[i].id > History(log, id)[j].id
  {
    if log != [] {
      var prefix := log[..|log| - 1];
      HistoryNewestFirst(prefix, id);
      var h := History(prefix, id);
      forall t | t in h
        ensures t.id < |log|
      {
        var k :| 0 <= k < |prefix| && prefix[k] == t;
      }
    }
  }

  /** In a valid bank, `getTransactionHistory` returns the account's entries newest first. */
  lemma TransactionHistoryOrdered(b: Bank, number: string)
    requires Valid(b)
    ensures var r := TransactionHistory(b, number);
      r.Ok? ==> forall i, j :: 0 <= i < j < |r.value| ==> r.value[i].id > r.value[j].id
  {
    forall i | 0 <= i < |b.log|
      ensures b.log[i].id == i + 1
    {
      assert RecordOk(b, i);
    }
    if number in b.accounts {
      HistoryNewestFirst(b.log, b.accounts[number].id);
    }
  }
}
