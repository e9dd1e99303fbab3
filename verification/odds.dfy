/** Decimal odds.

    Every market turns a probability P into the decimal price 1/P rounded to
    two decimal places. The rounding is numpy's: to the nearest hundredth, a
    tie going to the even hundredth. A zero probability is not guarded against;
    numpy's floating-point division then yields an infinite price rather than
    an error, which the `Infinite` odds stand for. */
module DecimalOdds {

  datatype Odds = Price(decimal: real) | Infinite

  /** x rounded to the nearest multiple of 0.01, ties to the even multiple. */
  function Round2(x: real): (r: real)
    ensures (r * 100.0).Floor as real == r * 100.0
    ensures -0.005 <= r - x <= 0.005
    ensures x >= 1.0 ==> r >= 1.0
  {
    var hundredths := x * 100.0;
    var below := hundredths.Floor;
    var fraction := hundredths - below as real;
    var k := if fraction < 0.5 then below
             else if fraction > 0.5 then below + 1
             else if below % 2 == 0 then below
             else below + 1;
    k as real / 100.0
  }

  /** The price of an outcome whose probability is `prob`. */
  function OddsOf(prob: real): (o: Odds)
    ensures o == Infinite <==> prob == 0.0
    ensures prob != 0.0 ==> -0.005 <= o.decimal - 1.0 / prob <= 0.005
    ensures 0.0 < prob <= 1.0 ==> o.decimal >= 1.0
  {
    if prob == 0.0 then Infinite
    else
      assert 0.0 < prob <= 1.0 ==> 1.0 / prob >= 1.0 by {
        if 0.0 < prob <= 1.0 {
          InverseOfProbability(prob);
        }
      }
      Price(Round2(1.0 / prob))
  }

  lemma InverseOfProbability(prob: real)
    requires 0.0 < prob <= 1.0
    ensures 1.0 / prob >= 1.0
  {
    assert prob * (1.0 / prob) == 1.0;
  }

  /** A price already at two decimal places is left as it is. */
  lemma Round2Idempotent(x: real)
    ensures Round2(Round2(x)) == Round2(x)
  {
    var r := Round2(x);
    var k := (r * 100.0).Floor;
    assert r * 100.0 == k as real;
  }
}
