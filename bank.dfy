/** The bank service: a directory of customers and accounts, routing of
    operations by account id, and a bank-wide ledger that mirrors each routed
    operation independently of the accounts' own histories. */
module Banking {
  import opened Ledger
  import opened Accounts

  datatype Option<T> = None | Some(value: T)

  /** Where the first account with the given id sits in the directory. */
  function FirstIndex(accounts: seq<Account>, id: string): (r: Option<nat>)
    ensures r.Some? ==> r.value < |accounts| && accounts[r.value].accountId == id
    ensures r.Some? ==> forall j :: 0 <= j < r.value ==> accounts[j].accountId != id
    ensures r.None? ==> forall j :: 0 <= j < |accounts| ==> accounts[j].accountId != id
  {
    if accounts == [] then None
    else if accounts[0].accountId == id then Some(0)
    else match FirstIndex(accounts[1..], id)
      case None => None
      case Some(k) => Some(k + 1)
  }

  class Bank {
    var customers: seq<Customer>
    var accounts: seq<Account>
    var ledger: seq<Transaction>

    ghost predicate Valid()
      reads this, accounts
    {
      forall a :: a in accounts ==> a.Valid()
    }

    constructor ()
      ensures customers == [] && accounts == [] && ledger == [] && Valid()
    {
      customers := [];
      accounts := [];
      ledger := [];
    }

    /** Appends a mirror record to the bank-wide ledger. Unlike an account's
        history, the ledger takes any type and any amount. */
    method RecordTransaction(accountId: string, kind: string, amount: real)
      modifies this`ledger
      ensures Appended(old(ledger), ledger, [Entry(accountId, kind, amount)])
    {
      var t := NewTransaction(accountId, kind, amount);
      AppendedOne(ledger, t);
      ledger := ledger + [t];
    }

    /** Linear search: the first account in directory order with the given id, or null. */
    method FindAccountById(id: string) returns (r: Account?)
      ensures FirstIndex(accounts, id).None? ==> r == null
      ensures FirstIndex(accounts, id).Some? ==> r == accounts[FirstIndex(accounts, id).value]
    {
      var i := 0;
      while i < |accounts|
        invariant 0 <= i <= |accounts|
        invariant forall j :: 0 <= j < i ==> accounts[j].accountId != id
      {
        if accounts[i].accountId == id {
          return accounts[i];
        }
        i := i + 1;
      }
      return null;
    }

    method AddCustomer(customer: Customer)
      modifies this`customers
      ensures customers == old(customers) + [customer]
    {
      customers := customers + [customer];
    }

    /** Opens a savings account at the end of the directory; an id already in
        use is not refused, so the new account is then never found by id. */
    method CreateSavingsAccount(accountId: string, initialBalance: real, customer: Customer, interestRate: real)
      requires Valid()
      modifies this`accounts
      ensures Valid()
      ensures |accounts| == |old(accounts)| + 1 && accounts[..|old(accounts)|] == old(accounts)
      ensures var a := accounts[|accounts| - 1];
              fresh(a) && a.accountId == accountId && a.balance == initialBalance &&
              a.customer == customer && a.variant == Savings(interestRate) &&
              a.history == [] && a.Reconciled()
    {
      var a := new Account(accountId, initialBalance, customer, Savings(interestRate));
      accounts := accounts + [a];
    }

    /** Opens a checking account at the end of the directory, with the same
        absence of a duplicate check. */
    method CreateCheckingAccount(accountId: string, initialBalance: real, customer: Customer, transactionFee: real)
      requires Valid()
      modifies this`accounts
      ensures Valid()
      ensures |accounts| == |old(accounts)| + 1 && accounts[..|old(accounts)|] == old(accounts)
      ensures var a := accounts[|accounts| - 1];
              fresh(a) && a.accountId == accountId && a.balance == initialBalance &&
              a.customer == customer && a.variant == Checking(transactionFee) &&
              a.history == [] && a.Reconciled()
    {
      var a := new Account(accountId, initialBalance, customer, Checking(transactionFee));
      accounts := accounts + [a];
    }

    /** Deposits into the first account with the id. When it exists, the
        ledger gains a "Deposit" mirror even if the account refused the amount. */
    method Deposit(accountId: string, amount: real)
      requires Valid()
      modifies this`ledger, accounts
      ensures Valid()
      ensures FirstIndex(accounts, accountId).None? ==>
                ledger == old(ledger) && forall a :: a in accounts ==> unchanged(a)
      ensures FirstIndex(accounts, accountId).Some? ==>
                var target := accounts[FirstIndex(accounts, accountId).value];
                target.Deposited(amount) &&
                (forall a :: a in accounts && a != target ==> unchanged(a)) &&
                Appended(old(ledger), ledger, [Entry(accountId, "Deposit", amount)])
      ensures forall a :: a in accounts && old(a.Reconciled()) ==> a.Reconciled()
    {
      var account := FindAccountById(accountId);
      if account != null {
        account.Deposit(amount);
        RecordTransaction(accountId, "Deposit", amount);
      }
    }

    /** Withdraws from the first account with the id, ignoring whether the
        account accepted; the ledger gains a "Withdrawal" mirror either way. */
    method Withdraw(accountId: string, amount: real)
      requires Valid()
      modifies this`ledger, accounts
      ensures Valid()
      ensures FirstIndex(accounts, accountId).None? ==>
                ledger == old(ledger) && forall a :: a in accounts ==> unchanged(a)
      ensures FirstIndex(accounts, accountId).Some? ==>
                var target := accounts[FirstIndex(accounts, accountId).value];
                target.Withdrew(amount, 0.0 < amount <= old(target.balance)) &&
                (forall a :: a in accounts && a != target ==> unchanged(a)) &&
                Appended(old(ledger), ledger, [Entry(accountId, "Withdrawal", amount)])
      ensures forall a :: a in accounts && old(a.Reconciled()) && a.FeeSound() ==> a.Reconciled()
    {
      var account := FindAccountById(accountId);
      if account != null {
        var _ := account.Withdraw(amount);
        RecordTransaction(accountId, "Withdrawal", amount);
      }
    }

    /** Transfers between the first accounts with the two ids (possibly the
        same account). When both exist the ledger gains one mirror, for the
        outgoing side only, whether or not the account-level transfer happened. */
    method Transfer(fromAccountId: string, toAccountId: string, amount: real)
      requires Valid()
      modifies this`ledger, accounts
      ensures Valid()
      ensures FirstIndex(accounts, fromAccountId).None? || FirstIndex(accounts, toAccountId).None? ==>
                ledger == old(ledger) && forall a :: a in accounts ==> unchanged(a)
      ensures FirstIndex(accounts, fromAccountId).Some? && FirstIndex(accounts, toAccountId).Some? ==>
                var source := accounts[FirstIndex(accounts, fromAccountId).value];
                var dest := accounts[FirstIndex(accounts, toAccountId).value];
                source.Transferred(dest, amount) &&
                (forall a :: a in accounts && a != source && a != dest ==> unchanged(a)) &&
                Appended(old(ledger), ledger, [Entry(fromAccountId, "Transfer to " + toAccountId, amount)])
      ensures forall a :: a in accounts && old(a.Reconciled()) && a.FeeSound() ==> a.Reconciled()
    {
      var source := FindAccountById(fromAccountId);
      var dest := FindAccountById(toAccountId);
      if source != null && dest != null {
        source.Transfer(dest, amount);
        RecordTransaction(fromAccountId, "Transfer to " + toAccountId, amount);
      }
    }
  }
}
