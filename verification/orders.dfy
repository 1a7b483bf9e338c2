/**
 * Sales orders: the payment roll-up over an order's payment transactions and
 * the numbering of the order's invoices. Money is counted in hundredths
 * (paise), as the two-decimal-place amount fields are fixed-point.
 */
module Orders {
  import opened Digits

  datatype Option<T> = None | Some(value: T)

  datatype PaymentStatus = Pending | Partial | Paid
  datatype DeliveryStatus = Processing | Shipped | Delivered
  datatype OrderType = Telephone | Location | Email
  datatype PaymentMode = Cash | Upi | BankTransfer | Cheque | Other

  /** A receipt against an order. */
  datatype PaymentTransaction = PaymentTransaction(amountPaid: int, mode: PaymentMode)

  /** The sum of the amounts paid by the given transactions. */
  function TotalPaid(ts: seq<PaymentTransaction>): (total: int)
    ensures ts == [] ==> total == 0
    ensures (forall i :: 0 <= i < |ts| ==> ts[i].amountPaid >= 0) ==>
              total >= 0 && forall i :: 0 <= i < |ts| ==> ts[i].amountPaid <= total
  {
    if ts == [] then 0 else ts[0].amountPaid + TotalPaid(ts[1..])
  }

  lemma {:induction false} TotalPaidConcat(a: seq<PaymentTransaction>, b: seq<PaymentTransaction>)
    ensures TotalPaid(a + b) == TotalPaid(a) + TotalPaid(b)
  {
    if a == [] {
      assert a + b == b;
    } else {
      TotalPaidConcat(a[1..], b);
      assert (a + b)[1..] == a[1..] + b;
    }
  }

  /** A new receipt adds exactly its amount to the total paid. */
  lemma {:induction false} TotalPaidAppend(ts: seq<PaymentTransaction>, t: PaymentTransaction)
    ensures TotalPaid(ts + [t]) == TotalPaid(ts) + t.amountPaid
  {
    TotalPaidConcat(ts, [t]);
  }

  /** Taking one transaction out of a list takes its amount out of the total. */
  lemma {:induction false} TotalPaidRemove(b: seq<PaymentTransaction>, i: nat)
    requires i < |b|
    ensures TotalPaid(b) == b[i].amountPaid + TotalPaid(b[..i] + b[i + 1..])
  {
    var pre, x, post := b[..i], b[i], b[i + 1..];
    assert b == (pre + [x]) + post;
    assert [x][1..] == [];
    assert TotalPaid([x]) == x.amountPaid;
    TotalPaidConcat(pre + [x], post);
    TotalPaidConcat(pre, [x]);
    TotalPaidConcat(pre, post);
  }

  /** The first transaction of `a` sits somewhere in any reordering `b` of it. */
  lemma {:induction false} MatchFirst(a: seq<PaymentTransaction>, b: seq<PaymentTransaction>) returns (i: nat)
    requires a != [] && multiset(a) == multiset(b)
    ensures i < |b| && b[i] == a[0]
    ensures multiset(a[1..]) == multiset(b[..i] + b[i + 1..])
  {
    assert a[0] in multiset(b);
    i :| 0 <= i < |b| && b[i] == a[0];
    assert a == [a[0]] + a[1..];
    assert b == b[..i] + [b[i]] + b[i + 1..];
    calc {
      multiset(a[1..]);
      multiset(a) - multiset{a[0]};
      multiset(b) - multiset{b[i]};
      multiset(b[..i] + b[i + 1..]);
    }
  }

  /**
   * The transactions of an order come back from the store in no particular
   * order; the total does not depend on that order.
   */
  lemma {:induction false} TotalPaidOrderFree(a: seq<PaymentTransaction>, b: seq<PaymentTransaction>)
    requires multiset(a) == multiset(b)
    ensures TotalPaid(a) == TotalPaid(b)
  {
    if a != [] {
      var i := MatchFirst(a, b);
      TotalPaidOrderFree(a[1..], b[..i] + b[i + 1..]);
      TotalPaidRemove(b, i);
    } else {
      assert |b| == |multiset(b)| == 0;
    }
  }

  /**
   * The payment status of an order: pending while nothing is paid, partial
   * while something but less than the grand total is paid, and paid once the
   * grand total is reached or exceeded.
   */
  function Classify(totalPaid: int, grandTotal: int): (s: PaymentStatus)
    ensures s == Pending <==> totalPaid == 0
    ensures s == Partial <==> totalPaid != 0 && totalPaid < grandTotal
    ensures s == Paid <==> totalPaid != 0 && totalPaid >= grandTotal
  {
    if totalPaid == 0 then Pending
    else if totalPaid < grandTotal then Partial
    else Paid
  }

  class SalesOrder {
    var customerId: nat
    var orderType: OrderType
    var subtotal: int
    var discountAmount: int
    var taxableAmount: int
    var taxAmount: int
    var grandTotal: int
    var totalPaid: int
    var balanceDue: int
    var paymentStatus: PaymentStatus
    var deliveryStatus: DeliveryStatus
    /** The payment transactions recorded against this order. */
    var transactions: seq<PaymentTransaction>

    constructor (customerId: nat, orderType: OrderType, subtotal: int, discountAmount: int,
                 taxableAmount: int, taxAmount: int, grandTotal: int)
      ensures this.customerId == customerId && this.orderType == orderType
      ensures this.subtotal == subtotal && this.discountAmount == discountAmount
      ensures this.taxableAmount == taxableAmount && this.taxAmount == taxAmount
      ensures this.grandTotal == grandTotal
      ensures totalPaid == 0 && balanceDue == 0 && paymentStatus == Pending
      ensures deliveryStatus == Processing && transactions == []
    {
      this.customerId := customerId;
      this.orderType := orderType;
      this.subtotal := subtotal;
      this.discountAmount := discountAmount;
      this.taxableAmount := taxableAmount;
      this.taxAmount := taxAmount;
      this.grandTotal := grandTotal;
      totalPaid, balanceDue := 0, 0;
      paymentStatus, deliveryStatus := Pending, Processing;
      transactions := [];
    }

    /** The stored roll-up agrees with the order's transactions. */
    predicate InSync()
      reads this
    {
      totalPaid == TotalPaid(transactions) &&
      balanceDue == grandTotal - totalPaid &&
      paymentStatus == Classify(totalPaid, grandTotal)
    }

    /**
     * Stores a payment transaction against this order. The roll-up is not
     * refreshed: that is left to a later UpdatePaymentStatus.
     */
    method RecordPayment(t: PaymentTransaction)
      modifies this`transactions
      ensures transactions == old(transactions) + [t]
      ensures TotalPaid(transactions) == TotalPaid(old(transactions)) + t.amountPaid
    {
      transactions := transactions + [t];
      TotalPaidAppend(old(transactions), t);
    }

    /**
     * Recomputes the total paid, the balance due and the payment status from
     * the transactions, and writes only those three fields. An overpaid
     * order is paid with a negative balance due. On an order whose roll-up is
     * already current it changes nothing, so a second call is a no-op.
     */
    method UpdatePaymentStatus()
      modifies this`totalPaid, this`balanceDue, this`paymentStatus
      ensures InSync()
      ensures totalPaid == TotalPaid(transactions)
      ensures balanceDue + totalPaid == grandTotal
      ensures paymentStatus == Pending <==> totalPaid == 0
      ensures paymentStatus == Partial <==> totalPaid != 0 && balanceDue > 0
      ensures paymentStatus == Paid <==> totalPaid != 0 && balanceDue <= 0
      ensures old(InSync()) ==>
                totalPaid == old(totalPaid) && balanceDue == old(balanceDue) &&
                paymentStatus == old(paymentStatus)
    {
      totalPaid := TotalPaid(transactions);
      balanceDue := grandTotal - totalPaid;
      if totalPaid == 0 {
        paymentStatus := Pending;
      } else if totalPaid < grandTotal {
        paymentStatus := Partial;
      } else {
        paymentStatus := Paid;
      }
    }
  }

  /** An order of 1000.00 paid by 400.00 and then 600.00. */
  method PaymentScenario() {
    var order := new SalesOrder(7, Telephone, 100000, 0, 100000, 0, 100000);
    order.RecordPayment(PaymentTransaction(40000, Cash));
    order.UpdatePaymentStatus();
    assert TotalPaid([PaymentTransaction(40000, Cash)]) == 40000;
    assert order.paymentStatus == Partial && order.balanceDue == 60000;
    order.RecordPayment(PaymentTransaction(60000, Upi));
    order.UpdatePaymentStatus();
    assert order.paymentStatus == Paid && order.balanceDue == 0;
  }

  /** Position of the first `c` in `s`, or `|s|` when there is none. */
  function IndexOf(s: string, c: char): (k: nat)
    ensures k <= |s|
    ensures k < |s| ==> s[k] == c
    ensures forall i :: 0 <= i < k ==> s[i] != c
  {
    if s == [] then 0 else if s[0] == c then 0 else 1 + IndexOf(s[1..], c)
  }

  /** The number given to invoice `invoiceId` of order `orderId`, such as INV007-ORD12. */
  function InvoiceNumber(invoiceId: nat, orderId: nat): (s: string)
    ensures |s| >= 11 && s[..3] == "INV"
    ensures ParseInvoiceNumber(s) == Some((invoiceId, orderId))
  {
    NatToStringRoundTrip(orderId);
    ParseInvoiceLayout(Pad3(invoiceId), NatToString(orderId));
    "INV" + Pad3(invoiceId) + "-ORD" + NatToString(orderId)
  }

  /** Reads an invoice number back into its invoice and order ids. */
  function ParseInvoiceNumber(s: string): Option<(nat, nat)> {
    if |s| < 3 || s[..3] != "INV" then None
    else
      var rest := s[3..];
      var k := IndexOf(rest, '-');
      var idText, tail := rest[..k], rest[k..];
      if |tail| < 4 || tail[..4] != "-ORD" then None
      else
        var orderText := tail[4..];
        if idText == [] || orderText == [] || !AllDigits(idText) || !AllDigits(orderText) then None
        else Some((DigitsValue(idText), DigitsValue(orderText)))
  }

  /** Any two non-empty digit strings joined in the invoice-number layout read back. */
  lemma ParseInvoiceLayout(idText: string, orderText: string)
    requires idText != [] && orderText != [] && AllDigits(idText) && AllDigits(orderText)
    ensures ParseInvoiceNumber("INV" + idText + "-ORD" + orderText) ==
            Some((DigitsValue(idText), DigitsValue(orderText)))
  {
    var s := "INV" + idText + "-ORD" + orderText;
    var rest := idText + ("-ORD" + orderText);
    assert s == "INV" + rest;
    assert s[..3] == "INV" && s[3..] == rest;
    assert rest[|idText|] == '-';
    assert IndexOf(rest, '-') == |idText|;
    assert rest[..|idText|] == idText && rest[|idText|..] == "-ORD" + orderText;
  }

  /** Invoice 7 of order 12 is numbered INV007-ORD12. */
  lemma InvoiceNumberExample()
    ensures InvoiceNumber(7, 12) == "INV007-ORD12"
  {
    var p := Pad3(7);
    assert NatToString(7) == "7";
    assert ZFill("7", 3) == "007";
    assert p == "007";
    var o := NatToString(12);
    assert o == "12";
    assert "INV" + p + "-ORD" + o == "INV007-ORD12";
  }

  /** Distinct invoices, or invoices of distinct orders, never share a number. */
  lemma InvoiceNumberInjective(i1: nat, o1: nat, i2: nat, o2: nat)
    requires InvoiceNumber(i1, o1) == InvoiceNumber(i2, o2)
    ensures i1 == i2 && o1 == o2
  {
    assert ParseInvoiceNumber(InvoiceNumber(i1, o1)) == Some((i1, o1));
    assert ParseInvoiceNumber(InvoiceNumber(i2, o2)) == Some((i2, o2));
  }

  class Invoice {
    /** The primary key, assigned by the store when the row is first written. */
    var id: Option<nat>
    var orderId: nat
    var invoiceNumber: string

    constructor (orderId: nat, invoiceNumber: string)
      ensures id == None && this.orderId == orderId && this.invoiceNumber == invoiceNumber
    {
      id := None;
      this.orderId := orderId;
      this.invoiceNumber := invoiceNumber;
    }

    /**
     * Saves the invoice; `nextId` is the key the store hands out to a new
     * row. An invoice saved without a number is given the number built from
     * its id and its order's id; a number already present is kept.
     */
    method Save(nextId: nat)
      modifies this`id, this`invoiceNumber
      ensures id == if old(id).Some? then old(id) else Some(nextId)
      ensures old(invoiceNumber) == [] ==> invoiceNumber == InvoiceNumber(id.value, orderId)
      ensures old(invoiceNumber) != [] ==> invoiceNumber == old(invoiceNumber)
      ensures invoiceNumber != []
    {
      if id.None? {
        id := Some(nextId);
      }
      if invoiceNumber == [] {
        invoiceNumber := InvoiceNumber(id.value, orderId);
      }
    }
  }
}
