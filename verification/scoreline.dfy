/** The probability of one scoreline under the Dixon-Coles model.

    The home side scores like a Poisson variable with rate lambda (written
    lam) = home attack * away defence * home advantage, the away side like
    one with rate mu = away attack * home defence, and the four low scorelines
    0-0, 0-1, 1-0 and 1-1 are reweighted by the correlation factor tau.
    The exponential function is a parameter: the model assumes only that it
    is positive. */
module Scoreline {

  /** k! */
  function Factorial(k: nat): (r: nat)
    ensures r >= 1
  {
    if k == 0 then 1 else k * Factorial(k - 1)
  }

  /** base to the power k, with 0 to the power 0 equal to 1. */
  function Power(base: real, k: nat): (r: real)
    ensures base >= 0.0 ==> r >= 0.0
  {
    if k == 0 then 1.0 else base * Power(base, k - 1)
  }

  ghost predicate ExpPositive(exp: real -> real)
  {
    forall x :: exp(x) > 0.0
  }

  /** The Poisson probability of k goals at rate m: m^k e^(-m) / k!. */
  function Poisson(k: nat, m: real, exp: real -> real): (r: real)
    ensures k == 0 ==> r == exp(-m)
    ensures k == 1 ==> r == m * exp(-m)
    ensures m >= 0.0 && exp(-m) > 0.0 ==> r >= 0.0
  {
    var f := Factorial(k) as real;
    var numerator := Power(m, k) * exp(-m);
    assert m >= 0.0 && exp(-m) > 0.0 ==> numerator >= 0.0 by {
      if m >= 0.0 && exp(-m) > 0.0 {
        NonNegativeProduct(Power(m, k), exp(-m));
      }
    }
    assert k == 1 ==> numerator == m * exp(-m) && f == 1.0 by {
      if k == 1 {
        assert Power(m, 1) == m * Power(m, 0);
      }
    }
    NonNegativeQuotient(numerator, f);
    numerator / f
  }

  lemma NonNegativeProduct(x: real, y: real)
    requires x >= 0.0 && y >= 0.0
    ensures x * y >= 0.0
  {
  }

  lemma NonNegativeQuotient(x: real, f: real)
    requires f >= 1.0
    ensures x >= 0.0 ==> x / f >= 0.0
    ensures f == 1.0 ==> x / f == x
  {
  }

  /** The Dixon-Coles correlation factor tau for x home and y away goals. */
  function Tau(x: int, y: int, lam: real, mu: real, p: real): (t: real)
    ensures x > 1 || y > 1 || x < 0 || y < 0 ==> t == 1.0
    ensures p == 0.0 ==> t == 1.0
  {
    if x == 0 && y == 0 then 1.0 - lam * mu * p
    else if x == 0 && y == 1 then 1.0 + lam * p
    else if x == 1 && y == 0 then 1.0 + mu * p
    else if x == 1 && y == 1 then 1.0 - p
    else 1.0
  }

  /** The home side's expected goals. */
  function HomeRate(homeAttack: real, awayDefence: real, homeAdvantage: real): real
  {
    homeAttack * awayDefence * homeAdvantage
  }

  /** The away side's expected goals. */
  function AwayRate(awayAttack: real, homeDefence: real): real
  {
    awayAttack * homeDefence
  }

  /** The independent-Poisson probability of the scoreline x-y, before the
      correlation factor. */
  function Independent(x: nat, y: nat, lam: real, mu: real, exp: real -> real): real
  {
    Poisson(x, lam, exp) * Poisson(y, mu, exp)
  }

  /** The probability of x home goals and y away goals. */
  function ScoreProbability(x: nat, y: nat, homeAttack: real, homeDefence: real, awayAttack: real,
                            awayDefence: real, homeAdvantage: real, p: real, exp: real -> real): (r: real)
    ensures var lam, mu := HomeRate(homeAttack, awayDefence, homeAdvantage), AwayRate(awayAttack, homeDefence);
      x > 1 || y > 1 || p == 0.0 ==> r == Independent(x, y, lam, mu, exp)
  {
    var lam := HomeRate(homeAttack, awayDefence, homeAdvantage);
    var mu := AwayRate(awayAttack, homeDefence);
    Tau(x, y, lam, mu, p) * Independent(x, y, lam, mu, exp)
  }

  /** tau is non-negative on every cell when the rates are non-negative,
      0 <= p <= 1 and lam * mu * p <= 1. */
  lemma TauNonNegative(x: int, y: int, lam: real, mu: real, p: real)
    requires lam >= 0.0 && mu >= 0.0 && 0.0 <= p <= 1.0 && lam * mu * p <= 1.0
    ensures Tau(x, y, lam, mu, p) >= 0.0
  {
    NonNegativeProduct(lam, p);
    NonNegativeProduct(mu, p);
  }

  /** The four low-score cells keep, between them, exactly the probability the
      independent model gives them, whatever the correlation p: tau moves mass
      among 0-0, 0-1, 1-0 and 1-1 and neither creates nor destroys any. */
  lemma LowScoreMassPreserved(lam: real, mu: real, p: real, exp: real -> real)
    ensures var a, b := exp(-lam), exp(-mu);
      && Tau(0, 0, lam, mu, p) * Independent(0, 0, lam, mu, exp)
       + Tau(0, 1, lam, mu, p) * Independent(0, 1, lam, mu, exp)
       + Tau(1, 0, lam, mu, p) * Independent(1, 0, lam, mu, exp)
       + Tau(1, 1, lam, mu, p) * Independent(1, 1, lam, mu, exp)
      == Independent(0, 0, lam, mu, exp) + Independent(0, 1, lam, mu, exp)
       + Independent(1, 0, lam, mu, exp) + Independent(1, 1, lam, mu, exp)
      == a * b * (1.0 + lam) * (1.0 + mu)
  {
    var a, b := exp(-lam), exp(-mu);
    var ab := a * b;
    assert Independent(0, 0, lam, mu, exp) == ab;
    assert Independent(0, 1, lam, mu, exp) == a * (mu * b) == ab * mu;
    assert Independent(1, 0, lam, mu, exp) == (lam * a) * b == ab * lam;
    assert Independent(1, 1, lam, mu, exp) == (lam * a) * (mu * b) == ab * (lam * mu);
    calc {
      (1.0 - lam * mu * p) * ab + (1.0 + lam * p) * (ab * mu)
        + (1.0 + mu * p) * (ab * lam) + (1.0 - p) * (ab * (lam * mu));
      ab * ((1.0 - lam * mu * p) + (1.0 + lam * p) * mu + (1.0 + mu * p) * lam + (1.0 - p) * (lam * mu));
      ab * (1.0 + mu + lam + lam * mu);
      ab * (1.0 + lam) * (1.0 + mu);
    }
  }

  /** Without correlation the model is two independent Poisson variables. */
  lemma UncorrelatedIsIndependent(x: nat, y: nat, homeAttack: real, homeDefence: real, awayAttack: real,
                                  awayDefence: real, homeAdvantage: real, exp: real -> real)
    ensures ScoreProbability(x, y, homeAttack, homeDefence, awayAttack, awayDefence, homeAdvantage, 0.0, exp)
         == Poisson(x, homeAttack * awayDefence * homeAdvantage, exp) * Poisson(y, awayAttack * homeDefence, exp)
  {
  }

  /** The independent-Poisson probability of any scoreline is non-negative
      whenever the rates are non-negative; outside the four low scorelines it
      is the scoreline's probability itself (see ScoreProbability). */
  lemma IndependentNonNegative(x: nat, y: nat, lam: real, mu: real, exp: real -> real)
    requires ExpPositive(exp)
    requires lam >= 0.0 && mu >= 0.0
    ensures Independent(x, y, lam, mu, exp) >= 0.0
  {
    assert exp(-lam) > 0.0 && exp(-mu) > 0.0;
  }
}
