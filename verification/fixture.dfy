/** The markets priced on the grid of one fixture.

    get_probability_array hands every market a normalised 9 x 9 grid. On such
    a grid every market except a far-fetched over/under line is priced, and
    the probabilities behind the prices of each market add up to 1. */
module Fixture {
  import opened GridSums
  import opened Scoreline
  import opened ProbabilityGrid
  import opened Markets

  /** On a 9 x 9 grid, the 1X2, both-to-score and combined markets are always
      priced, and the over/under market is priced exactly for the lines from
      0 up to, but not including, 16 goals (the 8-8 scoreline). */
  lemma FixtureMarketsArePriced(a: array2<real>, goals: real)
    requires a.Length0 == GoalRange && a.Length1 == GoalRange
    ensures Quote(MatchBuckets(ToMatrix(a))).Priced?
    ensures Quote(BothToScoreBuckets(ToMatrix(a))).Priced?
    ensures Quote(ResultBothToScoreBuckets(ToMatrix(a))).Priced?
    ensures Quote(OverUnderBuckets(ToMatrix(a), goals)).Priced? <==> 0.0 <= goals < 16.0
  {
    var m := ToMatrix(a);
    MatchOddsPricedIff(m, GoalRange);
    BothToScorePricedIff(m, GoalRange);
    ResultBothToScorePricedIff(m, GoalRange);
    OverUnderOddsPricedIff(m, GoalRange, goals);
  }

  /** On a normalised grid the buckets of every market add up to 1: the
      implied probabilities of its outcomes form a distribution. */
  lemma NormalisedMarketsSumToOne(raw: seq<seq<real>>, goals: real)
    requires Total(raw) != 0.0
    ensures var g := Normalise(raw, Total(raw));
      && Value(Bucket(g, HomeWin)) + Value(Bucket(g, Draw)) + Value(Bucket(g, AwayWin)) == 1.0
      && Value(Bucket(g, Over(goals))) + Value(Bucket(g, Under(goals))) == 1.0
      && Value(Bucket(g, BothScore)) + Value(Bucket(g, NotBothScore)) == 1.0
      && Value(Bucket(g, HomeWinBothScore)) + Value(Bucket(g, HomeWinNotBothScore))
         + Value(Bucket(g, DrawBothScore)) + Value(Bucket(g, DrawNotBothScore))
         + Value(Bucket(g, AwayWinBothScore)) + Value(Bucket(g, AwayWinNotBothScore)) == 1.0
  {
    var g := Normalise(raw, Total(raw));
    NormalisedSumsToOne(raw);
    MatchMarketCoversGrid(g);
    OverUnderCoversGrid(g, goals);
    BothToScoreCoversGrid(g);
    ResultBothToScoreCoversGrid(g);
  }

  /** The grid of a fixture with non-negative fitted parameters: every market
      reads a grid whose cells sum to 1, so each market's implied
      probabilities sum to 1. */
  lemma FittedMarketsSumToOne(q: Params, exp: real -> real, goals: real)
    requires NonNegativeParams(q) && ExpPositive(exp)
    ensures Total(RawGrid(q, exp)) != 0.0
    ensures var g := Normalise(RawGrid(q, exp), Total(RawGrid(q, exp)));
      && Value(Bucket(g, HomeWin)) + Value(Bucket(g, Draw)) + Value(Bucket(g, AwayWin)) == 1.0
      && Value(Bucket(g, Over(goals))) + Value(Bucket(g, Under(goals))) == 1.0
      && Value(Bucket(g, BothScore)) + Value(Bucket(g, NotBothScore)) == 1.0
      && Value(Bucket(g, HomeWinBothScore)) + Value(Bucket(g, HomeWinNotBothScore))
         + Value(Bucket(g, DrawBothScore)) + Value(Bucket(g, DrawNotBothScore))
         + Value(Bucket(g, AwayWinBothScore)) + Value(Bucket(g, AwayWinNotBothScore)) == 1.0
  {
    RawTotalPositive(q, exp);
    NormalisedMarketsSumToOne(RawGrid(q, exp), goals);
  }
}
