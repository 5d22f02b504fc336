/** Concrete scenarios of the bank: the demonstration in the entry point, and the
    behaviours worth pinning down (a fee that overdraws, mirrors of refused
    requests, interest accrual). Each allocates its own objects and reports
    what they hold at the end. */
module Scenarios {
  import opened Ledger
  import opened Accounts
  import opened Banking

  /** The setting of the demonstration in the entry point: two customers, a
      savings account A001 (1000 at 2.5%) and a checking account A002 (500,
      fee 1). */
  method DemonstrationAccounts() returns (bank: Bank, a001: Account, a002: Account)
    ensures fresh(bank) && fresh(a001) && fresh(a002)
    ensures bank.Valid() && bank.accounts == [a001, a002] && a001 != a002 && bank.ledger == []
    ensures a001.accountId == "A001" && a001.variant == Savings(2.5)
    ensures a002.accountId == "A002" && a002.variant == Checking(1.0)
    ensures a001.balance == 1000.0 && a001.history == []
    ensures a002.balance == 500.0 && a002.history == []
  {
    bank := new Bank();
    var alice := Customer("Alice", "C001", "alice@example.com");
    var bob := Customer("Bob", "C002", "bob@example.com");
    bank.AddCustomer(alice);
    bank.AddCustomer(bob);
    bank.CreateSavingsAccount("A001", 1000.0, alice, 2.5);
    bank.CreateCheckingAccount("A002", 500.0, bob, 1.0);
    a001, a002 := bank.accounts[0], bank.accounts[1];
  }

  /** The demonstration's first two requests: deposit 200 into A001, withdraw
      50 from A002. */
  method DemonstrationOpening() returns (bank: Bank, a001: Account, a002: Account)
    ensures fresh(bank) && fresh(a001) && fresh(a002)
    ensures bank.Valid() && bank.accounts == [a001, a002] && a001 != a002
    ensures a001.accountId == "A001" && a001.variant == Savings(2.5)
    ensures a002.accountId == "A002" && a002.variant == Checking(1.0)
    ensures a001.balance == 1200.0 && Entries(a001.history) == [Entry("A001", "Deposit", 200.0)]
    ensures a002.balance == 449.0
    ensures Entries(a002.history) == [Entry("A002", "Withdrawal", 50.0), Entry("A002", "Transaction Fee", 1.0)]
    ensures Entries(bank.ledger) == [Entry("A001", "Deposit", 200.0), Entry("A002", "Withdrawal", 50.0)]
  {
    bank, a001, a002 := DemonstrationAccounts();
    assert FirstIndex(bank.accounts, "A001") == Some(0);
    assert FirstIndex(bank.accounts, "A002") == Some(1);
    assert Entries(bank.ledger) == [];

    bank.Deposit("A001", 200.0);
    assert a002 in bank.accounts;
    assert a001.balance == 1200.0 && Entries(a001.history) == [Entry("A001", "Deposit", 200.0)];
    assert a002.balance == 500.0 && a002.history == [];

    bank.Withdraw("A002", 50.0);
    assert a001 in bank.accounts;
  }

  /** The whole demonstration: the opening above, then a transfer of 100 from
      A001 to A002. */
  method Demonstration()
    returns (savings: real, savingsLog: seq<Entry>, checking: real, checkingLog: seq<Entry>, bankLog: seq<Entry>)
    ensures savings == 1100.0 && checking == 549.0
    ensures savingsLog == [Entry("A001", "Deposit", 200.0),
                           Entry("A001", "Withdrawal", 100.0),
                           Entry("A001", "Transfer to A002", 100.0)]
    ensures checkingLog == [Entry("A002", "Withdrawal", 50.0),
                            Entry("A002", "Transaction Fee", 1.0),
                            Entry("A002", "Deposit", 100.0)]
    ensures bankLog == [Entry("A001", "Deposit", 200.0),
                        Entry("A002", "Withdrawal", 50.0),
                        Entry("A001", "Transfer to A002", 100.0)]
  {
    var bank, a001, a002 := DemonstrationOpening();
    assert FirstIndex(bank.accounts, "A001") == Some(0);
    assert FirstIndex(bank.accounts, "A002") == Some(1);
    assert a001.FeeEntries() == [];
    bank.Transfer("A001", "A002", 100.0);
    TransferNoteToA002();
    savings, savingsLog := a001.balance, Entries(a001.history);
    checking, checkingLog := a002.balance, Entries(a002.history);
    bankLog := Entries(bank.ledger);
  }

  lemma TransferNoteToA002()
    ensures "Transfer to " + "A002" == "Transfer to A002"
  {
  }

  /** A checking withdrawal of the whole balance succeeds, and the fee then
      takes the balance below zero. */
  method FeeOverdraws() returns (ok: bool, balance: real, log: seq<Entry>)
    ensures ok && balance == -1.0
    ensures log == [Entry("C1", "Withdrawal", 50.0), Entry("C1", "Transaction Fee", 1.0)]
  {
    var holder := Customer("Carol", "C003", "carol@example.com");
    var account := new Account("C1", 50.0, holder, Checking(1.0));
    ok := account.Withdraw(50.0);
    balance, log := account.balance, Entries(account.history);
  }

  /** The account refuses an overdrawing withdrawal and a zero deposit, yet the
      ledger mirrors both; a request for an unknown id leaves no trace at all. */
  method RefusedRequestsAreMirrored() returns (balance: real, accountLog: seq<Entry>, bankLog: seq<Entry>)
    ensures balance == 500.0 && accountLog == []
    ensures bankLog == [Entry("A002", "Withdrawal", 600.0), Entry("A002", "Deposit", 0.0)]
  {
    var bank := new Bank();
    var bob := Customer("Bob", "C002", "bob@example.com");
    bank.CreateCheckingAccount("A002", 500.0, bob, 1.0);
    var account := bank.accounts[0];
    assert bank.accounts == [account];
    assert FirstIndex(bank.accounts, "A002") == Some(0);
    assert FirstIndex(bank.accounts, "Z999") == None;
    assert Entries(bank.ledger) == [] && account.history == [];
    bank.Withdraw("A002", 600.0);
    assert account.balance == 500.0 && account.history == [];
    assert Entries(bank.ledger) == [Entry("A002", "Withdrawal", 600.0)];
    bank.Deposit("A002", 0.0);
    assert account.balance == 500.0 && account.history == [];
    bank.Deposit("Z999", 10.0);
    assert account in bank.accounts;
    balance, accountLog, bankLog := account.balance, Entries(account.history), Entries(bank.ledger);
  }

  /** Interest at 2.5% on 1000 adds 25 and records it; on an overdrawn balance
      the (negative) interest moves the balance but is not recorded. */
  method InterestAccrual() returns (earned: real, earnedLog: seq<Entry>, owed: real, owedLog: seq<Entry>)
    ensures earned == 1025.0 && earnedLog == [Entry("S1", "Interest", 25.0)]
    ensures owed == -102.5 && owedLog == []
  {
    var holder := Customer("Dana", "C004", "dana@example.com");
    var positive := new Account("S1", 1000.0, holder, Savings(2.5));
    positive.CalculateInterest();
    var negative := new Account("S2", -100.0, holder, Savings(2.5));
    negative.CalculateInterest();
    earned, earnedLog := positive.balance, Entries(positive.history);
    owed, owedLog := negative.balance, Entries(negative.history);
  }
}
