/** Running commission totals: each addition is followed by `Number(total.toFixed(2))`, so the
    total is rounded to cents after every single lead, not once at the end. */
module Money {

  /** `x.toFixed(2)` in cents, on the exact value of `x`: the nearest whole number of cents,
      a tie going away from zero (`toFixed` rounds the magnitude and keeps the sign). */
  function Round2Cents(x: real): (n: int)
    ensures 0.0 <= x ==> n as real - 0.5 <= x * 100.0 < n as real + 0.5
    ensures x < 0.0 ==> n as real - 0.5 < x * 100.0 <= n as real + 0.5
  {
    if x < 0.0 then -((-x * 100.0 + 0.5).Floor) else (x * 100.0 + 0.5).Floor
  }

  function Round2(x: real): real
  {
    Round2Cents(x) as real / 100.0
  }

  /** A whole number of cents. */
  predicate IsCents(x: real)
  {
    (x * 100.0).Floor as real == x * 100.0
  }

  /** Rounding gives whole cents, at most half a cent away from its argument, and leaves whole
      cents alone. */
  lemma Round2Properties(x: real)
    ensures IsCents(Round2(x))
    ensures -0.005 <= Round2(x) - x <= 0.005
    ensures IsCents(x) ==> Round2(x) == x
  {
    var n := Round2Cents(x);
    assert Round2(x) * 100.0 == n as real;
    if IsCents(x) {
      var k := (x * 100.0).Floor;
      assert n == k;
    }
  }

  /** The plain sum of some amounts, with no rounding. */
  function Sum(cs: seq<real>): real
  {
    if cs == [] then 0.0 else Sum(cs[..|cs| - 1]) + cs[|cs| - 1]
  }

  /** The left fold `acc := Round2(acc + c)` over `cs` in order, from 0. */
  function RoundedSum(cs: seq<real>): real
  {
    if cs == [] then 0.0 else Round2(RoundedSum(cs[..|cs| - 1]) + cs[|cs| - 1])
  }

  /** Adding one more amount to the fold rounds once more. */
  lemma RoundedSumSnoc(cs: seq<real>, c: real)
    ensures RoundedSum(cs + [c]) == Round2(RoundedSum(cs) + c)
  {
    assert (cs + [c])[..|cs|] == cs;
  }

  /** Every running total is a whole number of cents and lies within half a cent per addition
      of the exact sum. */
  lemma {:induction false} RoundedSumBounds(cs: seq<real>)
    ensures IsCents(RoundedSum(cs))
    ensures -0.005 * |cs| as real <= RoundedSum(cs) - Sum(cs) <= 0.005 * |cs| as real
  {
    if cs != [] {
      var init := cs[..|cs| - 1];
      RoundedSumBounds(init);
      Round2Properties(RoundedSum(init) + cs[|cs| - 1]);
    }
  }

  lemma CentsAdd(a: real, b: real)
    requires IsCents(a) && IsCents(b)
    ensures IsCents(a + b)
  {
    var m, n := (a * 100.0).Floor, (b * 100.0).Floor;
    assert (a + b) * 100.0 == (m + n) as real;
  }

  /** When every amount is whole cents, per-step rounding changes nothing: the total is the
      exact sum. */
  lemma {:induction false} RoundedSumOfCents(cs: seq<real>)
    requires forall i :: 0 <= i < |cs| ==> IsCents(cs[i])
    ensures RoundedSum(cs) == Sum(cs)
  {
    if cs != [] {
      var init := cs[..|cs| - 1];
      RoundedSumOfCents(init);
      RoundedSumBounds(init);
      CentsAdd(RoundedSum(init), cs[|cs| - 1]);
      Round2Properties(RoundedSum(init) + cs[|cs| - 1]);
    }
  }

  /** Rounding after every addition is not rounding once at the end: two amounts of 0.006 add
      up to 0.02 step by step (0.01, then 0.016 rounded), while their exact sum 0.012 rounds to
      0.01. No intermediate value is near a tie, so binary doubles give the same two results. */
  lemma RoundingIsIncremental()
    ensures RoundedSum([0.006, 0.006]) == 0.02
    ensures Round2(Sum([0.006, 0.006])) == 0.01
  {
    var cs := [0.006, 0.006];
    assert Round2Cents(0.006) == 1;
    assert Round2Cents(0.016) == 2;
    assert Round2Cents(0.012) == 1;
    calc {
      RoundedSum(cs);
      { RoundedSumSnoc([0.006], 0.006); assert cs == [0.006] + [0.006]; }
      Round2(RoundedSum([0.006]) + 0.006);
      { RoundedSumSnoc([], 0.006); assert [0.006] == [] + [0.006]; }
      Round2(Round2(0.0 + 0.006) + 0.006);
      Round2(0.01 + 0.006);
      0.02;
    }
    assert Sum(cs) == 0.012 by {
      assert cs[..1] == [0.006] && cs[..1][..0] == [];
    }
  }
}
