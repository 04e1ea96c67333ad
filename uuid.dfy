/**
 * The fresh-identifier supplier that the model factory calls when an instance
 * is constructed without an identifier (the `v4()` generator of the `uuid`
 * package). Randomness is abstracted away: the supplier hands out the decimal
 * rendering of a counter, so what matters to the rest of the model, that every
 * draw is a non-empty string never handed out before, can be proved.
 */
module Uuid {

  /** The character of the decimal digit `d`. */
  function DigitChar(d: nat): (c: char)
    requires d < 10
    ensures '0' <= c <= '9'
  {
    ('0' as int + d) as char
  }

  /** The decimal rendering of `n`, most significant digit first. */
  function Digits(n: nat): (s: string)
    ensures 1 <= |s|
    ensures |s| == 1 <==> n < 10
    ensures forall i :: 0 <= i < |s| ==> '0' <= s[i] <= '9'
  {
    if n < 10 then [DigitChar(n)] else Digits(n / 10) + [DigitChar(n % 10)]
  }

  /** No two numbers have the same rendering. */
  lemma {:induction false} DigitsInjective(m: nat, n: nat)
    requires Digits(m) == Digits(n)
    ensures m == n
  {
    if m >= 10 && n >= 10 {
      var a, b := Digits(m), Digits(n);
      assert a[..|a| - 1] == Digits(m / 10);
      assert b[..|b| - 1] == Digits(n / 10);
      DigitsInjective(m / 10, n / 10);
      assert DigitChar(m % 10) == a[|a| - 1] == b[|b| - 1] == DigitChar(n % 10);
    }
  }

  /** The identifier handed out by the `k`-th draw (counting from 0). */
  function Draw(k: nat): (id: string)
    ensures id != ""
  {
    Digits(k)
  }

  /** Distinct draws give distinct identifiers. */
  lemma DrawsDistinct(j: nat, k: nat)
    requires j != k
    ensures Draw(j) != Draw(k)
  {
    if Draw(j) == Draw(k) {
      DigitsInjective(j, k);
    }
  }

  /** The generator: `drawn` counts the identifiers handed out so far. */
  class Supplier {
    var drawn: nat

    constructor ()
      ensures drawn == 0
    {
      drawn := 0;
    }

    /** One call of `v4()`. */
    method V4() returns (id: string)
      modifies this
      ensures id == Draw(old(drawn))
      ensures drawn == old(drawn) + 1
    {
      id := Draw(drawn);
      drawn := drawn + 1;
    }
  }
}
