/** Decimal rendering of naturals, as Python's `str(n)` writes them, and the
    slot labels `"1P"`, `"2P"`, ... built from it. */
module Decimal {

  /** The ASCII digit for `d`. */
  function DigitChar(d: nat): (c: char)
    requires d < 10
    ensures c as int == '0' as int + d
  {
    ('0' as int + d) as char
  }

  /** `str(n)`: base ten, most significant digit first, no leading zero. */
  function NatToString(n: nat): (r: string)
    ensures |r| >= 1
    ensures |r| == 1 <==> n < 10
    ensures forall i :: 0 <= i < |r| ==> '0' <= r[i] <= '9'
    ensures r[0] == '0' <==> n == 0
    decreases n
  {
    if n < 10 then [DigitChar(n)] else NatToString(n / 10) + [DigitChar(n % 10)]
  }

  /** Distinct numbers are written differently. */
  lemma {:induction false} NatToStringInjective(a: nat, b: nat)
    requires NatToString(a) == NatToString(b)
    ensures a == b
  {
    if a >= 10 && b >= 10 {
      var ra, rb := NatToString(a / 10), NatToString(b / 10);
      assert NatToString(a) == ra + [DigitChar(a % 10)];
      assert NatToString(b) == rb + [DigitChar(b % 10)];
      assert |ra| == |rb|;
      assert ra == NatToString(a)[..|ra|];
      assert rb == NatToString(b)[..|rb|];
      NatToStringInjective(a / 10, b / 10);
      assert DigitChar(a % 10) == NatToString(a)[|ra|];
    }
  }

  /** The label of the `k`-th slot, `f"{k}P"`. */
  function Label(k: nat): (r: string)
    ensures |r| >= 2 && r[|r| - 1] == 'P'
  {
    NatToString(k) + "P"
  }

  /** Two slot numbers share a label only if they are equal. */
  lemma LabelInjective(j: nat, k: nat)
    requires Label(j) == Label(k)
    ensures j == k
  {
    assert NatToString(j) == Label(j)[..|Label(j)| - 1];
    assert NatToString(k) == Label(k)[..|Label(k)| - 1];
    NatToStringInjective(j, k);
  }

  /** `"1P"` is the label of slot 1 and of no other slot. */
  lemma FirstLabel(k: nat)
    ensures Label(k) == "1P" <==> k == 1
  {
    assert Label(1) == "1P";
    if Label(k) == "1P" {
      LabelInjective(k, 1);
    }
  }
}
