/**
 * The two persistent record shapes of the bank back end: an account and
 * one row of the transaction log. Money is an exact decimal in the source
 * (BigDecimal); here it is a `real`, which is exact as well.
 */
module Entities {
  import opened Wrappers

  type Money = real

  /** The four kinds of log entry. */
  datatype TransactionType = Deposit | Withdraw | TransferIn | TransferOut

  /** An account row. `id` is the generated identity key; `accountNumber` is unique. */
  datatype Account = Account(
    id: nat,
    accountNumber: string,
    ownerName: string,
    password: string,
    balance: Money)

  /**
   * A transaction row. `accountId` is the id of the account the row belongs to
   * (the many-to-one `account` reference); `description` is null except on transfers.
   */
  datatype Transaction = Transaction(
    id: nat,
    accountId: nat,
    kind: TransactionType,
    amount: Money,
    balanceAfter: Money,
    description: Option<string>)

  /** Whether an entry of this kind adds its amount to the balance or takes it away. */
  predicate IsCredit(kind: TransactionType)
  {
    kind == Deposit || kind == TransferIn
  }

  /** What an entry does to its account's balance. */
  function Delta(t: Transaction): (d: Money)
    ensures IsCredit(t.kind) ==> d == t.amount
    ensures !IsCredit(t.kind) ==> d == -t.amount
  {
    match t.kind
    case Deposit => t.amount
    case TransferIn => t.amount
    case Withdraw => -t.amount
    case TransferOut => -t.amount
  }
}
