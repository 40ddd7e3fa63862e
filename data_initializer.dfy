/**
 * The start-up seeding of the bank: two test accounts are created and each
 * receives one deposit, in that order, inside a catch-all. The first call
 * that throws ends the run; whatever the calls before it did stays in
 * place, since nothing is rolled back.
 */
module DataInitializer {
  import opened Wrappers
  import opened Entities
  import Ledger
  import Service

  const FirstNumber: string := "1234567890"
  const FirstOwner: string := "山田太郎"
  const FirstPassword: string := "password123"
  const FirstDeposit: Money := 100000.0

  const SecondNumber: string := "0987654321"
  const SecondOwner: string := "佐藤花子"
  const SecondPassword: string := "password456"
  const SecondDeposit: Money := 50000.0

  /** The bank after a run, and whether every call succeeded (otherwise the catch block ran). */
  datatype Seeded = Seeded(bank: Ledger.Bank, completed: bool)

  /** What a run does to bank `b`. */
  function Seed(b: Ledger.Bank): Seeded
  {
    var s1 := Ledger.CreateAccount(b, FirstNumber, FirstOwner, FirstPassword);
    if s1.result.Err? then Seeded(s1.bank, false) else
    var s2 := Ledger.Deposit(s1.bank, FirstNumber, FirstDeposit);
    if s2.result.Err? then Seeded(s2.bank, false) else
    var s3 := Ledger.CreateAccount(s2.bank, SecondNumber, SecondOwner, SecondPassword);
    if s3.result.Err? then Seeded(s3.bank, false) else
    var s4 := Ledger.Deposit(s3.bank, SecondNumber, SecondDeposit);
    Seeded(s4.bank, s4.result.Ok?)
  }

  /** `run`: the calls in order; the first failure is caught and ends the sequence. */
  method Run(service: Service.AccountService) returns (completed: bool)
    requires service.Valid()
    modifies service
    ensures service.Valid()
    ensures Seed(old(service.State())) == Seeded(service.State(), completed)
  {
    completed := false;
    var r1 := service.CreateAccount(FirstNumber, FirstOwner, FirstPassword);
    if r1.Err? { return; }
    var r2 := service.Deposit(FirstNumber, FirstDeposit);
    if r2.Err? { return; }
    var r3 := service.CreateAccount(SecondNumber, SecondOwner, SecondPassword);
    if r3.Err? { return; }
    var r4 := service.Deposit(SecondNumber, SecondDeposit);
    if r4.Err? { return; }
    completed := true;
  }

  /** Seeding keeps the ledger invariant. */
  lemma SeedPreservesValid(b: Ledger.Bank)
    requires Ledger.Valid(b)
    ensures Ledger.Valid(Seed(b).bank)
  {
    var s1 := Ledger.CreateAccount(b, FirstNumber, FirstOwner, FirstPassword);
    Ledger.CreatePreservesValid(b, FirstNumber, FirstOwner, FirstPassword);
    var s2 := Ledger.Deposit(s1.bank, FirstNumber, FirstDeposit);
    Ledger.DepositPreservesValid(s1.bank, FirstNumber, FirstDeposit);
    var s3 := Ledger.CreateAccount(s2.bank, SecondNumber, SecondOwner, SecondPassword);
    Ledger.CreatePreservesValid(s2.bank, SecondNumber, SecondOwner, SecondPassword);
    Ledger.DepositPreservesValid(s3.bank, SecondNumber, SecondDeposit);
  }

  /**
   * From an empty store the run completes: the two accounts hold 100000 and
   * 50000, each history is the single DEPOSIT of that amount, and both
   * passwords authenticate.
   */
  lemma SeedFromEmpty()
    ensures var r := Seed(Ledger.Empty);
      && r.completed
      && r.bank.accounts.Keys == {FirstNumber, SecondNumber}
      && r.bank.accounts[FirstNumber].balance == FirstDeposit
      && r.bank.accounts[SecondNumber].balance == SecondDeposit
      && r.bank.accounts[FirstNumber].ownerName == FirstOwner
      && r.bank.accounts[SecondNumber].ownerName == SecondOwner
      && Ledger.Authenticate(r.bank, FirstNumber, FirstPassword) == Ok(true)
      && Ledger.Authenticate(r.bank, SecondNumber, SecondPassword) == Ok(true)
      && Ledger.TransactionHistory(r.bank, FirstNumber) ==
           Ok([Transaction(1, 1, TransactionType.Deposit, FirstDeposit, FirstDeposit, None)])
      && Ledger.TransactionHistory(r.bank, SecondNumber) ==
           Ok([Transaction(2, 2, TransactionType.Deposit, SecondDeposit, SecondDeposit, None)])
  {
    var s1 := Ledger.CreateAccount(Ledger.Empty, FirstNumber, FirstOwner, FirstPassword);
    var s2 := Ledger.Deposit(s1.bank, FirstNumber, FirstDeposit);
    var s3 := Ledger.CreateAccount(s2.bank, SecondNumber, SecondOwner, SecondPassword);
    var s4 := Ledger.Deposit(s3.bank, SecondNumber, SecondDeposit);
    var t1 := Transaction(1, 1, TransactionType.Deposit, FirstDeposit, FirstDeposit, None);
    var t2 := Transaction(2, 2, TransactionType.Deposit, SecondDeposit, SecondDeposit, None);
    assert FirstNumber != SecondNumber;
    assert s4.bank.log == [t1, t2];
    assert [t1, t2][..1] == [t1];
    assert s4.bank.accounts[FirstNumber].id == 1 && s4.bank.accounts[SecondNumber].id == 2;
    assert Ledger.History([t1, t2], 1) == [t1];
    assert Ledger.History([t1, t2], 2) == [t2];
  }

  /**
   * On any valid bank the run completes exactly when neither test number is
   * taken; the two accounts then hold 100000 and 50000, and the log gains
   * exactly one DEPOSIT entry for each, carrying that deposit as its balance.
   */
  lemma SeedCompletes(b: Ledger.Bank)
    requires Ledger.Valid(b)
    ensures Seed(b).completed <==> FirstNumber !in b.accounts && SecondNumber !in b.accounts
    ensures Seed(b).completed ==>
      && Seed(b).bank.accounts[FirstNumber].balance == FirstDeposit
      && Seed(b).bank.accounts[SecondNumber].balance == SecondDeposit
      && Seed(b).bank.log == b.log + [
           Transaction(|b.log| + 1, b.nextAccountId, TransactionType.Deposit, FirstDeposit, FirstDeposit, None),
           Transaction(|b.log| + 2, b.nextAccountId + 1, TransactionType.Deposit, SecondDeposit, SecondDeposit, None)]
  {
    assert FirstNumber != SecondNumber;
  }

  /** If the first account already exists, the first call throws and the store is untouched. */
  lemma SeedWhenAlreadySeeded(b: Ledger.Bank)
    requires FirstNumber in b.accounts
    ensures Seed(b) == Seeded(b, false)
  {
  }

  /** Running twice is the same as running once. */
  lemma SeedIdempotent(b: Ledger.Bank)
    ensures Seed(Seed(b).bank) == Seeded(Seed(b).bank, false)
  {
    var s1 := Ledger.CreateAccount(b, FirstNumber, FirstOwner, FirstPassword);
    if s1.result.Ok? {
      var s2 := Ledger.Deposit(s1.bank, FirstNumber, FirstDeposit);
      assert FirstNumber in s2.bank.accounts;
      var s3 := Ledger.CreateAccount(s2.bank, SecondNumber, SecondOwner, SecondPassword);
      assert FirstNumber in s3.bank.accounts;
      var s4 := Ledger.Deposit(s3.bank, SecondNumber, SecondDeposit);
      assert FirstNumber in s4.bank.accounts;
    }
  }

  /**
   * If only the second account already exists, the first account is created
   * and funded, the second creation throws, and nothing is rolled back.
   */
  lemma SeedPartial(b: Ledger.Bank)
    requires FirstNumber !in b.accounts && SecondNumber in b.accounts
    ensures var r := Seed(b);
      && !r.completed
      && r.bank.accounts.Keys == b.accounts.Keys + {FirstNumber}
      && r.bank.accounts[FirstNumber] ==
           Account(b.nextAccountId, FirstNumber, FirstOwner, FirstPassword, FirstDeposit)
      && (forall n :: n in b.accounts ==> r.bank.accounts[n] == b.accounts[n])
      && r.bank.log ==
           b.log + [Transaction(|b.log| + 1, b.nextAccountId, TransactionType.Deposit, FirstDeposit, FirstDeposit, None)]
  {
  }
}
