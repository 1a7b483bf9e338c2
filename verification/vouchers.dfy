/**
 * Voucher numbering: a named series hands out codes made of the series'
 * prefix and its counter, zero-padded to four digits (PAY0001, PAY0002, ...).
 */
module Vouchers {
  import opened Digits

  /**
   * The code of the `n`-th voucher of a series: the prefix followed by at
   * least four digits, and those digits read back as `n`.
   */
  function VoucherCode(prefix: string, n: nat): (code: string)
    ensures |code| >= |prefix| + 4 && forall i :: 0 <= i < |prefix| ==> code[i] == prefix[i]
    ensures AllDigits(code[|prefix|..]) && DigitsValue(code[|prefix|..]) == n
  {
    ZeroPaddedRoundTrip(n, 4);
    var code := prefix + ZFill(NatToString(n), 4);
    assert code[|prefix|..] == ZFill(NatToString(n), 4);
    code
  }

  /** Two numbers of one series never share a code. */
  lemma VoucherCodeInjective(prefix: string, m: nat, n: nat)
    ensures VoucherCode(prefix, m) == VoucherCode(prefix, n) <==> m == n
  {
    var a, b := VoucherCode(prefix, m), VoucherCode(prefix, n);
    if a == b {
      assert a[|prefix|..] == b[|prefix|..];
    }
  }

  class VoucherNumber {
    var name: string
    var prefix: string
    var startFrom: nat
    var currentNumber: nat
    /** The codes handed out since this object was created, oldest first. */
    ghost var issued: seq<string>
    /** The counter's value when this object was created. */
    ghost var base: nat

    /** The codes handed out are those of the numbers after `base`, in order. */
    ghost predicate Valid()
      reads this
    {
      base + |issued| == currentNumber &&
      forall k :: 0 <= k < |issued| ==> issued[k] == VoucherCode(prefix, base + k + 1)
    }

    constructor (name: string, prefix: string, startFrom: nat, currentNumber: nat)
      ensures Valid() && issued == []
      ensures this.name == name && this.prefix == prefix
      ensures this.startFrom == startFrom && this.currentNumber == currentNumber
    {
      this.name := name;
      this.prefix := prefix;
      this.startFrom := startFrom;
      this.currentNumber := currentNumber;
      issued := [];
      base := currentNumber;
    }

    /**
     * Advances the counter by one and returns the code of the new number.
     * `startFrom` plays no part. The code differs from every code handed out
     * before by this series.
     */
    method GetNextVoucher() returns (code: string)
      requires Valid()
      modifies this`currentNumber, this`issued
      ensures Valid()
      ensures currentNumber == old(currentNumber) + 1
      ensures code == VoucherCode(prefix, currentNumber)
      ensures issued == old(issued) + [code]
      ensures code !in old(issued)
    {
      currentNumber := currentNumber + 1;
      code := VoucherCode(prefix, currentNumber);
      IssueNext(prefix, base, issued, currentNumber);
      issued := issued + [code];
    }
  }

  /**
   * Issuing the code of the next number keeps the issued codes those of the
   * numbers after `base`, and the new code is not among the earlier ones.
   */
  lemma IssueNext(prefix: string, base: nat, issued: seq<string>, n: nat)
    requires forall k :: 0 <= k < |issued| ==> issued[k] == VoucherCode(prefix, base + k + 1)
    requires n == base + |issued| + 1
    ensures VoucherCode(prefix, n) !in issued
    ensures forall k :: 0 <= k < |issued| + 1 ==>
              (issued + [VoucherCode(prefix, n)])[k] == VoucherCode(prefix, base + k + 1)
  {
    forall k | 0 <= k < |issued|
      ensures issued[k] != VoucherCode(prefix, n)
    {
      VoucherCodeInjective(prefix, base + k + 1, n);
    }
  }

  /** The codes handed out by one series are pairwise distinct. */
  lemma IssuedCodesDistinct(series: VoucherNumber)
    requires series.Valid()
    ensures forall i, j :: 0 <= i < j < |series.issued| ==> series.issued[i] != series.issued[j]
  {
    forall i, j | 0 <= i < j < |series.issued|
      ensures series.issued[i] != series.issued[j]
    {
      VoucherCodeInjective(series.prefix, series.base + i + 1, series.base + j + 1);
    }
  }

  /** A fresh PAY series hands out PAY0001 and then PAY0002. */
  method VoucherScenario() {
    var series := new VoucherNumber("Payment Voucher", "PAY", 1, 0);
    var first := series.GetNextVoucher();
    assert ZFill(NatToString(1), 4) == "0001";
    assert first == "PAY0001";
    var second := series.GetNextVoucher();
    assert ZFill(NatToString(2), 4) == "0002";
    assert second == "PAY0002";
  }
}
