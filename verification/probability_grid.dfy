/** The scoreline probability grid for one fixture.

    The fitted model is three tables: attacking scores by team, defending
    scores by team, and the shared parameters `home_advantage` and `p`. For a
    home and an away team the grid holds, at (i, j), the probability of i home
    and j away goals for i, j in 0..8, divided by the sum of all 81 cells. */
module ProbabilityGrid {
  import opened Scoreline
  import opened GridSums

  /** Scores of 0 to 8 goals are modelled for each side. */
  const GoalRange: nat := 9

  datatype FittedModel = FittedModel(attack: map<string, real>, defence: map<string, real>, shared: map<string, real>)

  datatype Table = AttackingScores | DefendingScores | SharedParameters

  datatype GridError =
    | MissingKey(table: Table, key: string)  // a team or parameter with no row in its table
    | ZeroTotal                              // the 81 cells sum to zero, so none can be normalised

  datatype Result<T> = Ok(value: T) | Err(error: GridError)

  /** The six numbers one fixture needs. */
  datatype Params = Params(homeAttack: real, homeDefence: real, awayAttack: real, awayDefence: real,
                           homeAdvantage: real, p: real)

  predicate HasKey(model: FittedModel, table: Table, key: string)
  {
    match table
    case AttackingScores => key in model.attack
    case DefendingScores => key in model.defence
    case SharedParameters => key in model.shared
  }

  /** Reads the fixture's parameters out of the fitted model, failing on the
      first missing row in the order the tables are consulted. */
  function LookupParams(model: FittedModel, home: string, away: string): (r: Result<Params>)
    ensures r.Ok? <==> && home in model.attack && away in model.attack
                       && home in model.defence && away in model.defence
                       && "home_advantage" in model.shared && "p" in model.shared
    ensures r.Ok? ==> r.value == Params(model.attack[home], model.defence[home], model.attack[away],
                                        model.defence[away], model.shared["home_advantage"], model.shared["p"])
    ensures r.Err? ==> r.error.MissingKey? && !HasKey(model, r.error.table, r.error.key)
    ensures home !in model.attack ==> r == Err(MissingKey(AttackingScores, home))
  {
    if home !in model.attack then Err(MissingKey(AttackingScores, home))
    else if away !in model.attack then Err(MissingKey(AttackingScores, away))
    else if home !in model.defence then Err(MissingKey(DefendingScores, home))
    else if away !in model.defence then Err(MissingKey(DefendingScores, away))
    else if "home_advantage" !in model.shared then Err(MissingKey(SharedParameters, "home_advantage"))
    else if "p" !in model.shared then Err(MissingKey(SharedParameters, "p"))
    else Ok(Params(model.attack[home], model.defence[home], model.attack[away],
                   model.defence[away], model.shared["home_advantage"], model.shared["p"]))
  }

  /** The rows the lookup reads, in the order it reads them. */
  function LookupOrder(home: string, away: string): seq<(Table, string)>
  {
    [(AttackingScores, home), (AttackingScores, away), (DefendingScores, home), (DefendingScores, away),
     (SharedParameters, "home_advantage"), (SharedParameters, "p")]
  }

  /** A failed lookup reports the first row, in reading order, that is
      missing: every row read before it is present. */
  lemma LookupReportsFirstMissingKey(model: FittedModel, home: string, away: string)
    ensures var r, keys := LookupParams(model, home, away), LookupOrder(home, away);
      r.Err? <==> exists k :: 0 <= k < |keys| && !HasKey(model, keys[k].0, keys[k].1)
    ensures var r, keys := LookupParams(model, home, away), LookupOrder(home, away);
      r.Err? ==> exists k :: 0 <= k < |keys| && r.error == MissingKey(keys[k].0, keys[k].1)
                              && !HasKey(model, keys[k].0, keys[k].1)
                              && forall k' :: 0 <= k' < k ==> HasKey(model, keys[k'].0, keys[k'].1)
  {
    var r, keys := LookupParams(model, home, away), LookupOrder(home, away);
    if r.Err? {
      var k := if home !in model.attack then 0
        else if away !in model.attack then 1
        else if home !in model.defence then 2
        else if away !in model.defence then 3
        else if "home_advantage" !in model.shared then 4
        else 5;
      assert r.error == MissingKey(keys[k].0, keys[k].1) && !HasKey(model, keys[k].0, keys[k].1);
      assert forall k' :: 0 <= k' < k ==> HasKey(model, keys[k'].0, keys[k'].1);
    } else {
      assert forall k :: 0 <= k < |keys| ==> HasKey(model, keys[k].0, keys[k].1);
    }
  }

  function Lambda(q: Params): real
  {
    HomeRate(q.homeAttack, q.awayDefence, q.homeAdvantage)
  }

  function Mu(q: Params): real
  {
    AwayRate(q.awayAttack, q.homeDefence)
  }

  function Cell(q: Params, i: nat, j: nat, exp: real -> real): real
  {
    ScoreProbability(i, j, q.homeAttack, q.homeDefence, q.awayAttack, q.awayDefence, q.homeAdvantage, q.p, exp)
  }

  /** The scoreline probability of the fixture, as a function of (i, j). */
  function Scores(q: Params, exp: real -> real): (nat, nat) -> real
  {
    (i: nat, j: nat) => Cell(q, i, j, exp)
  }

  /** The 9x9 grid before normalisation. */
  function RawGrid(q: Params, exp: real -> real): (m: seq<seq<real>>)
    ensures |m| == GoalRange && Rectangular(m, GoalRange)
    ensures forall i, j :: 0 <= i < GoalRange && 0 <= j < GoalRange ==> m[i][j] == Cell(q, i, j, exp)
  {
    Tabulate(GoalRange, GoalRange, Scores(q, exp))
  }

  /** Non-negative team scores and home advantage; the correlation p may have any value. */
  predicate NonNegativeParams(q: Params)
  {
    q.homeAttack >= 0.0 && q.homeDefence >= 0.0 && q.awayAttack >= 0.0 && q.awayDefence >= 0.0
    && q.homeAdvantage >= 0.0
  }

  /** Builds the normalised grid for a home and an away team. */
  method GetProbabilityArray(home: string, away: string, model: FittedModel, exp: real -> real)
    returns (r: Result<array2<real>>)
    ensures LookupParams(model, home, away).Err? ==> r == Err(LookupParams(model, home, away).error)
    ensures LookupParams(model, home, away).Ok? ==>
      var raw := RawGrid(LookupParams(model, home, away).value, exp);
      if Total(raw) == 0.0 then r == Err(ZeroTotal)
      else && r.Ok? && fresh(r.value)
           && r.value.Length0 == GoalRange && r.value.Length1 == GoalRange
           && ToMatrix(r.value) == Normalise(raw, Total(raw))
    ensures (LookupParams(model, home, away).Ok? && NonNegativeParams(LookupParams(model, home, away).value)
             && ExpPositive(exp)) ==> r.Ok?
  {
    var lookup := LookupParams(model, home, away);
    if lookup.Err? {
      return Err(lookup.error);
    }
    var q := lookup.value;
    var grid := new real[GoalRange, GoalRange];
    ghost var raw := RawGrid(q, exp);
    var total := FillGrid(grid, Scores(q, exp), raw);
    assert ToMatrix(grid) == raw by {
      forall i | 0 <= i < GoalRange
        ensures ToMatrix(grid)[i] == raw[i]
      {
      }
    }
    if NonNegativeParams(q) && ExpPositive(exp) {
      RawTotalPositive(q, exp);
    }
    if total == 0.0 {
      return Err(ZeroTotal);
    }
    DivideInPlace(grid, total);
    return Ok(grid);
  }

  /** The four cells tau reweights. */
  function InLowBlock(i: int, j: int): bool
  {
    0 <= i <= 1 && 0 <= j <= 1
  }

  function OutsideLowBlock(i: int, j: int): bool
  {
    !InLowBlock(i, j)
  }

  lemma LowBlockSum(m: seq<seq<real>>)
    requires |m| >= 2 && |m[0]| >= 2 && |m[1]| >= 2
    ensures SumIf(m, InLowBlock) == m[0][0] + m[0][1] + m[1][0] + m[1][1]
  {
    SumIfRowsBelow(m, 2, InLowBlock);
    RowColumnsFrom(m[0], 0, 2, |m[0]|, InLowBlock);
    RowColumnsFrom(m[1], 1, 2, |m[1]|, InLowBlock);
    assert PrefixSumIf(m, 1, InLowBlock) == RowSumIf(m[0], 0, |m[0]|, InLowBlock);
    assert PrefixSumIf(m, 2, InLowBlock) == PrefixSumIf(m, 1, InLowBlock) + RowSumIf(m[1], 1, |m[1]|, InLowBlock);
    assert RowSumIf(m[0], 0, 1, InLowBlock) == m[0][0];
    assert RowSumIf(m[0], 0, 2, InLowBlock) == m[0][0] + m[0][1];
    assert RowSumIf(m[1], 1, 1, InLowBlock) == m[1][0];
    assert RowSumIf(m[1], 1, 2, InLowBlock) == m[1][0] + m[1][1];
  }

  /** Outside the four low cells the raw grid does not depend on p. */
  lemma OutsideMassIndependentOfCorrelation(q: Params, exp: real -> real)
    ensures SumIf(RawGrid(q, exp), OutsideLowBlock) == SumIf(RawGrid(q.(p := 0.0), exp), OutsideLowBlock)
  {
    var m1, m0 := RawGrid(q, exp), RawGrid(q.(p := 0.0), exp);
    forall i, j | 0 <= i < |m1| && 0 <= j < |m1[i]| && OutsideLowBlock(i, j)
      ensures m1[i][j] == m0[i][j]
    {
      assert m1[i][j] == Independent(i, j, Lambda(q), Mu(q), exp) == m0[i][j];
    }
    SumIfAgree(m1, m0, OutsideLowBlock);
  }

  /** The correlation p does not change the total mass of the grid: the raw
      grid sums to the same value as the independent-Poisson grid. */
  lemma AdjustmentPreservesTotal(q: Params, exp: real -> real)
    ensures Total(RawGrid(q, exp)) == Total(RawGrid(q.(p := 0.0), exp))
  {
    var q0 := q.(p := 0.0);
    var m1, m0 := RawGrid(q, exp), RawGrid(q0, exp);
    assert Lambda(q0) == Lambda(q) && Mu(q0) == Mu(q);
    LowBlockMass(q, exp);
    LowBlockMass(q0, exp);
    assert SumIf(m1, InLowBlock) == SumIf(m0, InLowBlock);
    OutsideMassIndependentOfCorrelation(q, exp);
    SameTotal(m1, m0);
  }

  lemma SameTotal(m1: seq<seq<real>>, m0: seq<seq<real>>)
    requires SumIf(m1, InLowBlock) == SumIf(m0, InLowBlock)
    requires SumIf(m1, OutsideLowBlock) == SumIf(m0, OutsideLowBlock)
    ensures Total(m1) == Total(m0)
  {
    TotalOfParts(m1);
    TotalOfParts(m0);
  }

  lemma PositiveBlockMass(a: real, b: real, lam: real, mu: real)
    requires a > 0.0 && b > 0.0 && lam >= 0.0 && mu >= 0.0
    ensures a * b * (1.0 + lam) * (1.0 + mu) > 0.0
  {
    assert a * b > 0.0;
    assert a * b * (1.0 + lam) > 0.0;
  }

  /** The four low cells of the raw grid hold e^-lambda e^-mu (1 + lambda)(1 + mu). */
  lemma LowBlockMass(q: Params, exp: real -> real)
    ensures var m := RawGrid(q, exp);
      SumIf(m, InLowBlock) == exp(-Lambda(q)) * exp(-Mu(q)) * (1.0 + Lambda(q)) * (1.0 + Mu(q))
  {
    var m := RawGrid(q, exp);
    LowBlockSum(m);
    LowScoreMassPreserved(Lambda(q), Mu(q), q.p, exp);
  }

  lemma RatesNonNegative(q: Params)
    requires NonNegativeParams(q)
    ensures Lambda(q) >= 0.0 && Mu(q) >= 0.0
  {
    NonNegativeProduct(q.homeAttack, q.awayDefence);
    NonNegativeProduct(q.homeAttack * q.awayDefence, q.homeAdvantage);
    NonNegativeProduct(q.awayAttack, q.homeDefence);
  }

  lemma OutsideMassNonNegative(q: Params, exp: real -> real)
    requires NonNegativeParams(q) && ExpPositive(exp)
    ensures SumIf(RawGrid(q, exp), OutsideLowBlock) >= 0.0
  {
    var m := RawGrid(q, exp);
    var lam, mu := Lambda(q), Mu(q);
    RatesNonNegative(q);
    forall i, j | 0 <= i < |m| && 0 <= j < |m[i]| && OutsideLowBlock(i, j)
      ensures m[i][j] >= 0.0
    {
      IndependentNonNegative(i, j, lam, mu, exp);
      assert m[i][j] == Independent(i, j, lam, mu, exp);
    }
    SumIfNonNegative(m, OutsideLowBlock);
  }

  /** With non-negative team scores and home advantage the grid's total is
      positive, whatever the correlation p, so normalisation never divides by
      zero. */
  lemma RawTotalPositive(q: Params, exp: real -> real)
    requires NonNegativeParams(q) && ExpPositive(exp)
    ensures Total(RawGrid(q, exp)) > 0.0
  {
    LowBlockMassPositive(q, exp);
    OutsideMassNonNegative(q, exp);
    TotalOfParts(RawGrid(q, exp));
  }

  lemma LowBlockMassPositive(q: Params, exp: real -> real)
    requires NonNegativeParams(q) && ExpPositive(exp)
    ensures SumIf(RawGrid(q, exp), InLowBlock) > 0.0
  {
    LowBlockMass(q, exp);
    RatesNonNegative(q);
    PositiveBlockMass(exp(-Lambda(q)), exp(-Mu(q)), Lambda(q), Mu(q));
  }

  /** A grid's total is its low-block mass plus the mass outside it. */
  lemma TotalOfParts(m: seq<seq<real>>)
    ensures Total(m) == SumIf(m, InLowBlock) + SumIf(m, OutsideLowBlock)
  {
    assert Partitions(Everywhere, InLowBlock, OutsideLowBlock);
    SumIfSplit(m, Everywhere, InLowBlock, OutsideLowBlock);
  }

  lemma CellNonNegative(q: Params, exp: real -> real, i: nat, j: nat)
    requires Lambda(q) >= 0.0 && Mu(q) >= 0.0 && ExpPositive(exp)
    requires 0.0 <= q.p <= 1.0 && Lambda(q) * Mu(q) * q.p <= 1.0
    ensures Cell(q, i, j, exp) >= 0.0
  {
    var lam, mu := Lambda(q), Mu(q);
    IndependentNonNegative(i, j, lam, mu, exp);
    TauNonNegative(i, j, lam, mu, q.p);
    NonNegativeProduct(Tau(i, j, lam, mu, q.p), Independent(i, j, lam, mu, exp));
  }

  /** When tau is non-negative on the four low cells every raw cell is non-negative. */
  lemma RawCellsNonNegative(q: Params, exp: real -> real)
    requires NonNegativeParams(q) && ExpPositive(exp)
    requires 0.0 <= q.p <= 1.0 && Lambda(q) * Mu(q) * q.p <= 1.0
    ensures var m := RawGrid(q, exp);
      forall i, j :: 0 <= i < |m| && 0 <= j < |m[i]| ==> m[i][j] >= 0.0
  {
    var m := RawGrid(q, exp);
    RatesNonNegative(q);
    forall i, j | 0 <= i < |m| && 0 <= j < |m[i]|
      ensures m[i][j] >= 0.0
    {
      CellNonNegative(q, exp, i, j);
    }
  }

  /** The grid of a fitted model is a probability distribution over the 81
      scorelines: it sums to 1, and when tau is non-negative on the four low
      cells (0 <= p <= 1 and lambda * mu * p <= 1) every cell is non-negative. */
  lemma FittedGridIsDistribution(q: Params, exp: real -> real)
    requires NonNegativeParams(q) && ExpPositive(exp)
    ensures Total(RawGrid(q, exp)) > 0.0
    ensures Total(Normalise(RawGrid(q, exp), Total(RawGrid(q, exp)))) == 1.0
    ensures 0.0 <= q.p <= 1.0 && Lambda(q) * Mu(q) * q.p <= 1.0 ==>
      var g := Normalise(RawGrid(q, exp), Total(RawGrid(q, exp)));
      forall i, j :: 0 <= i < |g| && 0 <= j < |g[i]| ==> g[i][j] >= 0.0
  {
    var m := RawGrid(q, exp);
    RawTotalPositive(q, exp);
    NormalisedSumsToOne(m);
    if 0.0 <= q.p <= 1.0 && Lambda(q) * Mu(q) * q.p <= 1.0 {
      RawCellsNonNegative(q, exp);
      NormalisedNonNegative(m, Total(m));
    }
  }

  /** A correlation above 1 makes the 1-1 cell negative whenever both rates
      are positive: the grid then still sums to 1 but is not a probability
      distribution. */
  lemma NegativeCellWhenCorrelationAboveOne(q: Params, exp: real -> real)
    requires NonNegativeParams(q) && ExpPositive(exp)
    requires Lambda(q) > 0.0 && Mu(q) > 0.0 && q.p > 1.0
    ensures var m := RawGrid(q, exp);
      Total(m) > 0.0 && Normalise(m, Total(m))[1][1] < 0.0
  {
    var m := RawGrid(q, exp);
    var lam, mu := Lambda(q), Mu(q);
    RawTotalPositive(q, exp);
    var home, away := Poisson(1, lam, exp), Poisson(1, mu, exp);
    PositiveProduct(lam, exp(-lam));
    PositiveProduct(mu, exp(-mu));
    var tau := Tau(1, 1, lam, mu, q.p);
    assert m[1][1] == Cell(q, 1, 1, exp) == tau * (home * away);
    NegativeCorrelatedCell(tau, home, away, m[1][1]);
    NegativeQuotient(m[1][1], Total(m));
  }

  lemma PositiveProduct(x: real, y: real)
    requires x > 0.0 && y > 0.0
    ensures x * y > 0.0
  {
  }

  lemma NegativeCorrelatedCell(tau: real, home: real, away: real, cell: real)
    requires tau < 0.0 && home > 0.0 && away > 0.0 && cell == tau * (home * away)
    ensures cell < 0.0
  {
    PositiveProduct(home, away);
    var product := home * away;
    assert -cell == (-tau) * product;
    PositiveProduct(-tau, product);
  }

  lemma NegativeQuotient(x: real, t: real)
    requires x < 0.0 && t > 0.0
    ensures x / t < 0.0
  {
  }
}
