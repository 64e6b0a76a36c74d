/**
 The weighted modulo-11 check digit shared by CPF and CNPJ numbers.
 */
module CheckDigit {
  import opened Digits

  const ValidationModulus: nat := 11

  /** Exclusive upper bound of Rust's `u32`, the type the source sums in. */
  const U32Limit: nat := 0x1_0000_0000

  /** The sum of a weight table. */
  function Total(ws: seq<nat>): nat {
    if |ws| == 0 then 0 else ws[0] + Total(ws[1..])
  }

  /** Dropping the first weight does not increase the total. */
  lemma TotalOfTail(ws: seq<nat>)
    requires |ws| > 0
    ensures Total(ws[1..]) <= Total(ws)
  {
  }

  /** The digits multiplied elementwise by the weights and summed: the zip, map
      and sum of `calculate_check_digit`. Every digit is at most 9, so the sum is
      at most nine times the total of the weights. */
  function WeightedSum(ds: string, ws: seq<nat>): (sum: nat)
    requires |ds| == |ws|
    requires AllDigits(ds)
    ensures sum <= 9 * Total(ws)
  {
    if |ds| == 0 then 0
    else
      assert DigitValue(ds[0]) * ws[0] <= 9 * ws[0];
      DigitValue(ds[0]) * ws[0] + WeightedSum(ds[1..], ws[1..])
  }

  /** The weighted sum splits over concatenation: each digit meets the weight at
      its own position, whatever comes before or after it. */
  lemma {:induction false} WeightedSumAppend(a: string, b: string, u: seq<nat>, v: seq<nat>)
    requires |a| == |u| && |b| == |v|
    requires AllDigits(a) && AllDigits(b)
    ensures AllDigits(a + b)
    ensures WeightedSum(a + b, u + v) == WeightedSum(a, u) + WeightedSum(b, v)
  {
    assert AllDigits(a + b) by {
      forall i | 0 <= i < |a + b|
        ensures IsAsciiDigit((a + b)[i])
      {
        if i < |a| {
          assert (a + b)[i] == a[i];
        } else {
          assert (a + b)[i] == b[i - |a|];
        }
      }
    }
    if |a| > 0 {
      assert (a + b)[1..] == a[1..] + b;
      assert (u + v)[1..] == u[1..] + v;
      WeightedSumAppend(a[1..], b, u[1..], v);
    } else {
      assert a + b == b;
      assert u + v == v;
    }
  }

  /** Appending `d` to a sum makes it a multiple of the modulus. */
  ghost predicate Completes(sum: nat, d: nat) {
    (sum + d) % ValidationModulus == 0
  }

  /** The modulo-11 rule stated directly: the check digit is the decimal digit that
      completes the weighted sum to a multiple of 11, and 0 when no decimal digit does. */
  ghost predicate IsCheckDigitFor(sum: nat, d: nat) {
    && d <= 9
    && (Completes(sum, d) || (d == 0 && forall k: nat :: k <= 9 ==> !Completes(sum, k)))
  }

  /** Whether `d` completes `sum` depends only on the remainder of `sum`. */
  lemma CompletesByRemainder(sum: nat, d: nat)
    ensures Completes(sum, d) <==> (sum % ValidationModulus + d) % ValidationModulus == 0
  {
    var q := sum / ValidationModulus;
    assert sum == ValidationModulus * q + sum % ValidationModulus;
    assert sum + d == ValidationModulus * q + (sum % ValidationModulus + d);
  }

  /** At most one decimal digit satisfies the modulo-11 rule for a given sum. */
  lemma CheckDigitUnique(sum: nat, d: nat, e: nat)
    requires IsCheckDigitFor(sum, d)
    requires IsCheckDigitFor(sum, e)
    ensures d == e
  {
    CompletesByRemainder(sum, d);
    CompletesByRemainder(sum, e);
  }

  /** The remainder rule at the end of `calculate_check_digit`: 0 when the sum
      leaves a remainder below 2 modulo 11, and 11 minus the remainder otherwise.
      It always yields a single decimal digit, the one the modulo-11 rule names. */
  function CheckDigitOf(sum: nat): (d: nat)
    ensures d <= 9
    ensures IsCheckDigitFor(sum, d)
  {
    var remainder := sum % ValidationModulus;
    CompletesByRemainder(sum, if remainder < 2 then 0 else ValidationModulus - remainder);
    assert remainder == 1 ==> forall k: nat :: k <= 9 ==> !Completes(sum, k) by {
      forall k: nat | k <= 9 && remainder == 1
        ensures !Completes(sum, k)
      {
        CompletesByRemainder(sum, k);
      }
    }
    if remainder < 2 then 0 else ValidationModulus - remainder
  }

  /** The remainder rule computes exactly the digit the modulo-11 rule names. */
  lemma CheckDigitOfIff(sum: nat, d: nat)
    ensures CheckDigitOf(sum) == d <==> IsCheckDigitFor(sum, d)
  {
    if IsCheckDigitFor(sum, d) {
      CheckDigitUnique(sum, d, CheckDigitOf(sum));
    }
  }

  /** `calculate_check_digit`: the remainder rule applied to the weighted sum of
      the digits. The two requires are the source's `assert_eq!` on the lengths and
      its `expect` on every digit conversion. */
  function CalculateCheckDigit(value: string, weights: seq<nat>): (d: nat)
    requires |value| == |weights|
    requires AllDigits(value)
    ensures d <= 9
    ensures IsCheckDigitFor(WeightedSum(value, weights), d)
  {
    CheckDigitOf(WeightedSum(value, weights))
  }

  /** The computed check digit is exactly the digit the modulo-11 rule names. */
  lemma CalculateCheckDigitIff(value: string, weights: seq<nat>, d: nat)
    requires |value| == |weights|
    requires AllDigits(value)
    ensures CalculateCheckDigit(value, weights) == d <==> IsCheckDigitFor(WeightedSum(value, weights), d)
  {
    CheckDigitOfIff(WeightedSum(value, weights), d);
  }
}
