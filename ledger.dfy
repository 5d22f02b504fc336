/** Value types shared by accounts and the bank: customers, transaction records,
    and the reading of a history as a sequence of money movements. */
module Ledger {

  /** An account holder. A plain value: accounts keep their own copy. */
  datatype Customer = Customer(name: string, customerId: string, customerInfo: string)

  /** One recorded event. `transactionId` stands for the decimal text of a
      pseudo-random draw and `timestamp` for the wall-clock text taken when the
      record is made; neither is constrained. Only console output, which is not
      modelled, reads the timestamp; nothing reads the id. */
  datatype Transaction = Transaction(
    transactionId: string,
    accountId: string,
    kind: string,
    amount: real,
    timestamp: string)

  /** What a transaction says, leaving out its id and timestamp. */
  datatype Entry = Entry(accountId: string, kind: string, amount: real)

  function EntryOf(t: Transaction): Entry {
    Entry(t.accountId, t.kind, t.amount)
  }

  function Entries(h: seq<Transaction>): seq<Entry> {
    seq(|h|, i requires 0 <= i < |h| => EntryOf(h[i]))
  }

  /** `after` keeps every record of `before` untouched, in place, and continues
      with records that say exactly `added`: histories only ever grow at the end. */
  predicate Appended(before: seq<Transaction>, after: seq<Transaction>, added: seq<Entry>) {
    |before| <= |after| && after[..|before|] == before && Entries(after) == Entries(before) + added
  }

  /** The guard every account-level record passes: a non-empty type and a positive amount. */
  predicate Recordable(kind: string, amount: real) {
    kind != "" && amount > 0.0
  }

  /** Builds a transaction record. The id and the timestamp are whatever the
      random generator and the clock produce; the model picks any value. */
  method NewTransaction(accountId: string, kind: string, amount: real) returns (t: Transaction)
    ensures EntryOf(t) == Entry(accountId, kind, amount)
  {
    var id: string :| true;
    var stamp: string :| true;
    t := Transaction(id, accountId, kind, amount, stamp);
  }

  lemma AppendedNothing(h: seq<Transaction>)
    ensures Appended(h, h, [])
  {
    assert h[..|h|] == h;
  }

  lemma AppendedOne(h: seq<Transaction>, t: Transaction)
    ensures Appended(h, h + [t], [EntryOf(t)])
  {
    assert (h + [t])[..|h|] == h;
    assert Entries(h + [t]) == Entries(h) + [EntryOf(t)];
  }

  /** Two appends in a row are one append of both tails. */
  lemma AppendedChain(a: seq<Transaction>, b: seq<Transaction>, c: seq<Transaction>, x: seq<Entry>, y: seq<Entry>)
    requires Appended(a, b, x) && Appended(b, c, y)
    ensures Appended(a, c, x + y)
  {
    calc {
      c[..|a|];
      c[..|b|][..|a|];
      b[..|a|];
    }
    assert Entries(b) + y == Entries(a) + (x + y);
  }

  /** How an account-history entry moves the balance: deposits and interest add
      their amount, withdrawals and fees take it away, and the "Transfer to ..."
      note that follows a transfer's withdrawal moves nothing. */
  function Signed(e: Entry): real {
    if e.kind == "Deposit" || e.kind == "Interest" then e.amount
    else if e.kind == "Withdrawal" || e.kind == "Transaction Fee" then -e.amount
    else 0.0
  }

  /** The net money movement a sequence of entries records. */
  function NetFlow(es: seq<Entry>): real {
    if es == [] then 0.0 else NetFlow(es[..|es| - 1]) + Signed(es[|es| - 1])
  }

  lemma {:induction false} NetFlowConcat(xs: seq<Entry>, ys: seq<Entry>)
    ensures NetFlow(xs + ys) == NetFlow(xs) + NetFlow(ys)
  {
    if ys == [] {
      assert xs + ys == xs;
    } else {
      var init := ys[..|ys| - 1];
      assert (xs + ys)[..|xs + ys| - 1] == xs + init;
      assert (xs + ys)[|xs + ys| - 1] == ys[|ys| - 1];
      NetFlowConcat(xs, init);
    }
  }

  /** A "Transfer to <id>" note is none of the four money-moving labels. */
  lemma TransferNoteMovesNothing(accountId: string, dest: string, amount: real)
    ensures Signed(Entry(accountId, "Transfer to " + dest, amount)) == 0.0
  {
    var k := "Transfer to " + dest;
    assert k[5] == 'f';
    assert |k| == 12 + |dest|;
    assert "Transaction Fee"[5] == 'a';
  }
}
