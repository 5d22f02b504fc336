/** Accounts: a balance and a private, append-only history, in one of two
    variants that differ in how a withdrawal and an interest accrual behave. */
module Accounts {
  import opened Ledger

  /** The subclass an account was created as, with that subclass's own field:
      a savings account earns interest at a percentage rate, a checking account
      pays a flat fee on every successful withdrawal. */
  datatype Variant = Savings(interestRate: real) | Checking(transactionFee: real)

  /** Interest is never negative when the balance and the rate do not have opposite signs. */
  lemma InterestNotNegative(balance: real, rate: real)
    requires balance * rate >= 0.0
    ensures balance * (rate / 100.0) >= 0.0
  {
  }

  class Account {
    const accountId: string
    var balance: real
    const customer: Customer
    const variant: Variant
    var history: seq<Transaction>
    /** The balance the account was opened with. */
    ghost const opening: real

    /** Every record in the history belongs to this account and passed the
        recording guard. */
    ghost predicate Valid()
      reads this
    {
      forall t :: t in history ==> t.accountId == accountId && Recordable(t.kind, t.amount)
    }

    /** The balance is the opening balance plus the money movements the history records. */
    ghost predicate Reconciled()
      reads this
    {
      balance == opening + NetFlow(Entries(history))
    }

    /** The fee never pays money in: a fee of zero or less would move the balance
        without leaving a record. */
    predicate FeeSound() {
      variant.Checking? ==> variant.transactionFee >= 0.0
    }

    /** What a successful withdrawal costs on top of its amount. */
    function Fee(): real {
      if variant.Checking? then variant.transactionFee else 0.0
    }

    /** The fee record a successful withdrawal leaves, if the fee is positive. */
    function FeeEntries(): seq<Entry> {
      if Fee() > 0.0 then [Entry(accountId, "Transaction Fee", Fee())] else []
    }

    constructor (accountId: string, initialBalance: real, customer: Customer, variant: Variant)
      ensures this.accountId == accountId && balance == initialBalance
      ensures this.customer == customer && this.variant == variant
      ensures history == [] && Valid() && Reconciled()
    {
      this.accountId := accountId;
      balance := initialBalance;
      this.customer := customer;
      this.variant := variant;
      history := [];
      opening := initialBalance;
      assert Entries([]) == [];
    }

    /** Appends one record, or silently nothing when the type is empty or the
        amount is not positive. */
    method RecordTransaction(kind: string, amount: real)
      requires Valid()
      modifies this`history
      ensures Valid()
      ensures Appended(old(history), history,
                       if Recordable(kind, amount) then [Entry(accountId, kind, amount)] else [])
    {
      if !Recordable(kind, amount) {
        AppendedNothing(history);
        return;
      }
      var t := NewTransaction(accountId, kind, amount);
      AppendedOne(history, t);
      history := history + [t];
    }

    twostate predicate Deposited(amount: real)
      reads this
    {
      if amount > 0.0 then
        balance == old(balance) + amount &&
        Appended(old(history), history, [Entry(accountId, "Deposit", amount)])
      else
        balance == old(balance) && history == old(history)
    }

    method Deposit(amount: real)
      requires Valid()
      modifies this
      ensures Valid() && Deposited(amount)
      ensures old(Reconciled()) ==> Reconciled()
    {
      if amount > 0.0 {
        balance := balance + amount;
        RecordTransaction("Deposit", amount);
        NetFlowConcat(Entries(old(history)), [Entry(accountId, "Deposit", amount)]);
      }
    }

    /** The withdrawal every variant shares: it succeeds exactly when the amount
        is positive and covered by the balance. */
    method BaseWithdraw(amount: real) returns (ok: bool)
      requires Valid()
      modifies this
      ensures Valid()
      ensures ok == (0.0 < amount <= old(balance))
      ensures ok ==> balance == old(balance) - amount &&
                     Appended(old(history), history, [Entry(accountId, "Withdrawal", amount)])
      ensures !ok ==> balance == old(balance) && history == old(history)
      ensures old(Reconciled()) ==> Reconciled()
    {
      if amount > 0.0 && balance >= amount {
        balance := balance - amount;
        RecordTransaction("Withdrawal", amount);
        NetFlowConcat(Entries(old(history)), [Entry(accountId, "Withdrawal", amount)]);
        return true;
      }
      return false;
    }

    /** Takes the checking fee, with no floor: the balance may go below zero. */
    method DeductTransactionFee()
      requires Valid() && variant.Checking?
      modifies this
      ensures Valid()
      ensures balance == old(balance) - variant.transactionFee
      ensures Appended(old(history), history, FeeEntries())
      ensures old(Reconciled()) && FeeSound() ==> Reconciled()
    {
      balance := balance - variant.transactionFee;
      RecordTransaction("Transaction Fee", variant.transactionFee);
      NetFlowConcat(Entries(old(history)), FeeEntries());
    }

    /** The effect of a withdrawal, whichever variant runs it. */
    twostate predicate Withdrew(amount: real, ok: bool)
      reads this
    {
      ok == (0.0 < amount <= old(balance)) &&
      if ok then
        balance == old(balance) - amount - Fee() &&
        Appended(old(history), history, [Entry(accountId, "Withdrawal", amount)] + FeeEntries())
      else
        balance == old(balance) && history == old(history)
    }

    /** The checking override: the shared withdrawal, then the fee on success. */
    method CheckingWithdraw(amount: real) returns (ok: bool)
      requires Valid() && variant.Checking?
      modifies this
      ensures Valid() && Withdrew(amount, ok)
      ensures old(Reconciled()) && FeeSound() ==> Reconciled()
    {
      ok := BaseWithdraw(amount);
      if ok {
        ghost var mid := history;
        DeductTransactionFee();
        AppendedChain(old(history), mid, history, [Entry(accountId, "Withdrawal", amount)], FeeEntries());
      }
    }

    /** The virtual withdrawal: dispatches on the variant. */
    method Withdraw(amount: real) returns (ok: bool)
      requires Valid()
      modifies this
      ensures Valid() && Withdrew(amount, ok)
      ensures old(Reconciled()) && FeeSound() ==> Reconciled()
    {
      if variant.Checking? {
        ok := CheckingWithdraw(amount);
      } else {
        ok := BaseWithdraw(amount);
        assert FeeEntries() == [];
        assert [Entry(accountId, "Withdrawal", amount)] + [] == [Entry(accountId, "Withdrawal", amount)];
      }
    }

    /** Adds interest at the savings rate. The balance moves even when the
        interest is not positive, but only positive interest is recorded. */
    method CalculateInterest()
      requires Valid() && variant.Savings?
      modifies this
      ensures Valid()
      ensures balance == old(balance) + old(balance) * (variant.interestRate / 100.0)
      ensures var interest := old(balance) * (variant.interestRate / 100.0);
              Appended(old(history), history,
                       if interest > 0.0 then [Entry(accountId, "Interest", interest)] else [])
      ensures old(Reconciled()) && old(balance) * variant.interestRate >= 0.0 ==> Reconciled()
    {
      var interest := balance * (variant.interestRate / 100.0);
      if balance * variant.interestRate >= 0.0 {
        InterestNotNegative(balance, variant.interestRate);
      }
      balance := balance + interest;
      RecordTransaction("Interest", interest);
      NetFlowConcat(Entries(old(history)), if interest > 0.0 then [Entry(accountId, "Interest", interest)] else []);
    }

    /** The effect of a transfer. It does nothing unless the amount is positive,
        covered by the balance and the destination exists; then the source's
        withdrawal (with its fee), the destination's deposit and a
        "Transfer to <destination>" note on the source, in that order. A
        transfer to the account itself withdraws and deposits the same amount. */
    twostate predicate Transferred(dest: Account?, amount: real)
      reads this, dest
    {
      if amount <= 0.0 || old(balance) < amount || dest == null then
        balance == old(balance) && history == old(history) &&
        (dest != null ==> dest.balance == old(dest.balance) && dest.history == old(dest.history))
      else if dest == this then
        balance == old(balance) - Fee() &&
        Appended(old(history), history,
                 [Entry(accountId, "Withdrawal", amount)] + FeeEntries() +
                 [Entry(accountId, "Deposit", amount), Entry(accountId, "Transfer to " + accountId, amount)])
      else
        balance == old(balance) - amount - Fee() &&
        Appended(old(history), history,
                 [Entry(accountId, "Withdrawal", amount)] + FeeEntries() +
                 [Entry(accountId, "Transfer to " + dest.accountId, amount)]) &&
        dest.balance == old(dest.balance) + amount &&
        Appended(old(dest.history), dest.history, [Entry(dest.accountId, "Deposit", amount)])
    }

    method Transfer(dest: Account?, amount: real)
      requires Valid() && (dest != null ==> dest.Valid())
      modifies this, dest
      ensures Valid() && (dest != null ==> dest.Valid())
      ensures Transferred(dest, amount)
      ensures amount > 0.0 && old(balance) >= amount && dest != null && dest != this ==>
                balance + dest.balance == old(balance) + old(dest.balance) - Fee()
      ensures old(Reconciled()) && FeeSound() ==> Reconciled()
      ensures dest != null && dest != this && old(dest.Reconciled()) ==> dest.Reconciled()
    {
      if amount <= 0.0 {
        return;
      }
      if balance < amount {
        return;
      }
      if dest == null {
        return;
      }
      var ok := Withdraw(amount);
      // The checks above are exactly the withdrawal's own guard, so it cannot fail here.
      assert ok;
      ghost var afterWithdraw := history;
      ghost var destBefore := dest.history;
      dest.Deposit(amount);
      ghost var afterDeposit := history;
      var note := "Transfer to " + dest.accountId;
      RecordTransaction(note, amount);
      TransferNoteMovesNothing(accountId, dest.accountId, amount);
      var withdrawn := [Entry(accountId, "Withdrawal", amount)] + FeeEntries();
      var noted := [Entry(accountId, note, amount)];
      if dest == this {
        var deposited := [Entry(accountId, "Deposit", amount)];
        AppendedChain(old(history), afterWithdraw, afterDeposit, withdrawn, deposited);
        AppendedChain(old(history), afterDeposit, history, withdrawn + deposited, noted);
        assert withdrawn + deposited + noted ==
               [Entry(accountId, "Withdrawal", amount)] + FeeEntries() +
               [Entry(accountId, "Deposit", amount), Entry(accountId, note, amount)];
        NetFlowConcat(Entries(old(history)), withdrawn);
        NetFlowConcat(Entries(old(history)) + withdrawn, deposited);
        NetFlowConcat(Entries(old(history)) + withdrawn + deposited, noted);
        NetFlowConcat([Entry(accountId, "Withdrawal", amount)], FeeEntries());
      } else {
        AppendedChain(old(history), afterWithdraw, history, withdrawn, noted);
        NetFlowConcat(Entries(old(history)), withdrawn);
        NetFlowConcat(Entries(old(history)) + withdrawn, noted);
        NetFlowConcat([Entry(accountId, "Withdrawal", amount)], FeeEntries());
        NetFlowConcat(Entries(destBefore), [Entry(dest.accountId, "Deposit", amount)]);
      }
    }
  }
}
