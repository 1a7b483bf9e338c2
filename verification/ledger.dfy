/**
 * The customer ledger: one table of entries for all customers, where each
 * new entry of a customer carries that customer's running balance. Amounts
 * are in hundredths. An entry's "previous" entry is the last earlier entry of
 * the same customer in the table's order.
 */
module CustomerLedger {

  datatype Entry = Entry(customer: nat, description: string, debit: int, credit: int, balance: int)

  /** The entries of one customer, in table order. */
  function EntriesOf(entries: seq<Entry>, customer: nat): (own: seq<Entry>)
    ensures |own| <= |entries|
    ensures forall k :: 0 <= k < |own| ==> own[k].customer == customer
    ensures forall e :: e in own <==> e in entries && e.customer == customer
  {
    if entries == [] then []
    else
      var last := entries[|entries| - 1];
      EntriesOf(entries[..|entries| - 1], customer) + (if last.customer == customer then [last] else [])
  }

  /** The balance a customer's next entry starts from: 0 when there is none yet. */
  function LastBalance(own: seq<Entry>): (b: int)
    ensures own == [] ==> b == 0
    ensures Chained(own) ==> b == Net(own)
  {
    if own == [] then 0
    else
      LastBalanceIsNet(own);
      own[|own| - 1].balance
  }

  /** The sum of credit - debit over the given entries. */
  function Net(own: seq<Entry>): int {
    if own == [] then 0 else Net(own[..|own| - 1]) + own[|own| - 1].credit - own[|own| - 1].debit
  }

  /** The balance before entry k: that of entry k - 1, or 0 before the first. */
  function BalanceBefore(own: seq<Entry>, k: nat): int
    requires k <= |own|
  {
    if k == 0 then 0 else own[k - 1].balance
  }

  /** Every entry's balance is the one before it plus its credit minus its debit. */
  ghost predicate Chained(own: seq<Entry>) {
    forall k :: 0 <= k < |own| ==>
      own[k].balance == BalanceBefore(own, k) + own[k].credit - own[k].debit
  }

  /** Every entry's balance is the net of all entries up to and including it. */
  ghost predicate RunningTotals(own: seq<Entry>) {
    forall k :: 0 <= k < |own| ==> own[k].balance == Net(own[..k + 1])
  }

  lemma {:induction false} ChainedBalanceIsNet(own: seq<Entry>, k: nat)
    requires Chained(own) && k < |own|
    ensures own[k].balance == Net(own[..k + 1])
  {
    assert own[k].balance == BalanceBefore(own, k) + own[k].credit - own[k].debit;
    if k > 0 {
      ChainedBalanceIsNet(own, k - 1);
    } else {
      assert own[..k] == [];
    }
    NetOfPrefix(own, k);
  }

  /** The net up to entry k is the net before it plus entry k's own credit minus debit. */
  lemma NetOfPrefix(own: seq<Entry>, k: nat)
    requires k < |own|
    ensures Net(own[..k + 1]) == Net(own[..k]) + own[k].credit - own[k].debit
  {
    var p := own[..k + 1];
    assert p[..k] == own[..k] && p[k] == own[k];
  }

  /**
   * The step-by-step rule and the running-total reading of the balances say
   * the same thing.
   */
  lemma ChainedIffRunningTotals(own: seq<Entry>)
    ensures Chained(own) <==> RunningTotals(own)
  {
    if Chained(own) {
      forall k | 0 <= k < |own|
        ensures own[k].balance == Net(own[..k + 1])
      {
        ChainedBalanceIsNet(own, k);
      }
    }
    if RunningTotals(own) {
      forall k | 0 <= k < |own|
        ensures own[k].balance == BalanceBefore(own, k) + own[k].credit - own[k].debit
      {
        NetOfPrefix(own, k);
        if k > 0 {
          assert own[k - 1].balance == Net(own[..k]);
        }
      }
    }
  }

  /** The last balance of a consistent sequence is the net of all its entries. */
  lemma LastBalanceIsNet(own: seq<Entry>)
    requires own != []
    ensures Chained(own) ==> own[|own| - 1].balance == Net(own)
  {
    if Chained(own) {
      ChainedBalanceIsNet(own, |own| - 1);
      assert own[..|own|] == own;
    }
  }

  class Ledger {
    var entries: seq<Entry>

    /** Every customer's entries carry running balances. */
    ghost predicate Valid()
      reads this
    {
      forall c :: Chained(EntriesOf(entries, c))
    }

    constructor ()
      ensures Valid() && entries == []
    {
      entries := [];
    }

    /**
     * Appends an entry for `customer`, whose balance is the customer's
     * previous balance (0 for a first entry) plus the credit minus the debit.
     * Other customers' entries are not affected.
     */
    method Save(customer: nat, description: string, debit: int, credit: int) returns (e: Entry)
      requires Valid()
      modifies this
      ensures Valid()
      ensures e == Entry(customer, description, debit, credit,
                         LastBalance(EntriesOf(old(entries), customer)) + credit - debit)
      ensures entries == old(entries) + [e]
      ensures EntriesOf(entries, customer) == EntriesOf(old(entries), customer) + [e]
      ensures forall c :: c != customer ==> EntriesOf(entries, c) == EntriesOf(old(entries), c)
      ensures e.balance == Net(EntriesOf(entries, customer))
    {
      var own := EntriesOf(entries, customer);
      var previous := if own == [] then 0 else own[|own| - 1].balance;
      e := Entry(customer, description, debit, credit, previous + credit - debit);
      AppendKeepsChained(entries, e);
      entries := entries + [e];
    }
  }

  /**
   * Appending an entry whose balance follows the rule extends only its own
   * customer's entries and keeps every customer's entries chained.
   */
  lemma AppendKeepsChained(entries: seq<Entry>, e: Entry)
    requires forall c :: Chained(EntriesOf(entries, c))
    requires e.balance == LastBalance(EntriesOf(entries, e.customer)) + e.credit - e.debit
    ensures forall c :: EntriesOf(entries + [e], c) ==
                          EntriesOf(entries, c) + (if c == e.customer then [e] else [])
    ensures forall c :: Chained(EntriesOf(entries + [e], c))
    ensures e.balance == Net(EntriesOf(entries + [e], e.customer))
  {
    forall c
      ensures EntriesOf(entries + [e], c) == EntriesOf(entries, c) + (if c == e.customer then [e] else [])
      ensures Chained(EntriesOf(entries + [e], c))
    {
      EntriesOfAppend(entries, e, c);
      assert Chained(EntriesOf(entries, c));
      if c == e.customer {
        ChainedAppend(EntriesOf(entries, c), e);
      }
    }
    var grown := EntriesOf(entries + [e], e.customer);
    assert LastBalance(grown) == e.balance;
  }

  lemma EntriesOfAppend(entries: seq<Entry>, e: Entry, c: nat)
    ensures EntriesOf(entries + [e], c) == EntriesOf(entries, c) + (if e.customer == c then [e] else [])
  {
  }

  /** Appending an entry that follows the rule keeps a customer's entries consistent. */
  lemma ChainedAppend(own: seq<Entry>, e: Entry)
    requires Chained(own)
    requires e.balance == LastBalance(own) + e.credit - e.debit
    ensures Chained(own + [e])
  {
    var grown := own + [e];
    forall k | 0 <= k < |grown|
      ensures grown[k].balance == BalanceBefore(grown, k) + grown[k].credit - grown[k].debit
    {
      if k < |own| {
        assert grown[k] == own[k];
        assert own[k].balance == BalanceBefore(own, k) + own[k].credit - own[k].debit;
      } else if k > 0 {
        assert grown[k - 1] == own[|own| - 1];
      }
    }
  }

  /**
   * After any series of saves, the k-th entry of every customer holds the net
   * of that customer's entries 0..k.
   */
  lemma BalancesAreRunningTotals(ledger: Ledger, customer: nat, k: nat)
    requires ledger.Valid()
    requires k < |EntriesOf(ledger.entries, customer)|
    ensures EntriesOf(ledger.entries, customer)[k].balance ==
            Net(EntriesOf(ledger.entries, customer)[..k + 1])
  {
    ChainedIffRunningTotals(EntriesOf(ledger.entries, customer));
  }

  /** Opening 1000.00, a sale of 300.00 and a payment of 150.00 give 1000.00, 700.00, 850.00. */
  method LedgerScenario() {
    var ledger := new Ledger();
    var opening := ledger.Save(1, "Opening", 0, 100000);
    assert opening.balance == 100000;
    var sale := ledger.Save(1, "Sale", 30000, 0);
    assert sale.balance == 70000;
    var other := ledger.Save(2, "Opening", 0, 500);
    var payment := ledger.Save(1, "Payment", 0, 15000);
    assert payment.balance == 85000;
  }
}
