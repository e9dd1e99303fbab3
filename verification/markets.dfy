/** The betting markets priced from a scoreline grid.

    Every market walks the grid row by row and column by column and adds each
    cell to one of its buckets by a rule on the cell's indices (i home goals,
    j away goals). A bucket starts as the Python integer 0 and becomes a float
    with the first cell added to it; its price is 1 / bucket rounded to two
    decimal places. Dividing by a float zero gives numpy's infinity, but a
    bucket that no cell ever reached is still the integer 0, and dividing by
    it raises ZeroDivisionError: the whole market then fails. */
module Markets {
  import opened GridSums
  import opened DecimalOdds

  /** A bucket accumulator: Python's integer 0, or the float it turns into. */
  datatype Accumulator = IntZero | Float(value: real)

  /** What a market returns: its list of prices, or the ZeroDivisionError
      raised by a bucket that received no cell. */
  datatype MarketResult = Priced(odds: seq<Odds>) | ZeroDivisionError

  /** The number an accumulator holds. */
  function Value(acc: Accumulator): real
  {
    if acc.IntZero? then 0.0 else acc.value
  }

  /** Adding a cell to an accumulator: the sum is a float whatever it was before. */
  function Add(acc: Accumulator, x: real): Accumulator
  {
    Float(Value(acc) + x)
  }

  /** The accumulator after adding, to `acc`, the cells row[0..n] of row i
      that satisfy the rule, left to right. */
  function RowBucket(acc: Accumulator, row: seq<real>, i: int, n: nat, rule: (int, int) -> bool): Accumulator
    requires n <= |row|
  {
    if n == 0 then acc
    else
      var before := RowBucket(acc, row, i, n - 1, rule);
      if rule(i, n - 1) then Add(before, row[n - 1]) else before
  }

  /** The accumulator after the first k rows, starting from the integer 0. */
  function PrefixBucket(m: seq<seq<real>>, k: nat, rule: (int, int) -> bool): Accumulator
    requires k <= |m|
  {
    if k == 0 then IntZero
    else RowBucket(PrefixBucket(m, k - 1, rule), m[k - 1], k - 1, |m[k - 1]|, rule)
  }

  /** The accumulator a market loop leaves for the bucket of `rule`. */
  function Bucket(m: seq<seq<real>>, rule: (int, int) -> bool): Accumulator
  {
    PrefixBucket(m, |m|, rule)
  }

  /** Some cell of the grid satisfies the rule. */
  ghost predicate Reaches(m: seq<seq<real>>, rule: (int, int) -> bool)
  {
    exists i, j :: 0 <= i < |m| && 0 <= j < |m[i]| && rule(i, j)
  }

  /** The prices of a list of buckets, computed left to right as the return
      statement of a market does: the first bucket still at the integer 0
      raises ZeroDivisionError. */
  function Quote(buckets: seq<Accumulator>): (r: MarketResult)
    ensures r.Priced? <==> forall k :: 0 <= k < |buckets| ==> buckets[k].Float?
    ensures r.Priced? ==> |r.odds| == |buckets|
    ensures r.Priced? ==> forall k :: 0 <= k < |buckets| ==> r.odds[k] == OddsOf(buckets[k].value)
  {
    if |buckets| == 0 then Priced([])
    else
      match buckets[0]
      case IntZero => ZeroDivisionError
      case Float(v) =>
        var rest := Quote(buckets[1..]);
        if rest.ZeroDivisionError? then
          assert !buckets[1..][0].Float? || exists k :: 0 <= k < |buckets[1..]| && !buckets[1..][k].Float?;
          ZeroDivisionError
        else
          assert forall k :: 1 <= k < |buckets| ==> buckets[k] == buckets[1..][k - 1];
          Priced([OddsOf(v)] + rest.odds)
  }

  // ---------------------------------------------------------------------------
  // The bucket rules, one per branch of the market loops.

  /** match_odds, first branch: more home goals than away goals. */
  function HomeWin(i: int, j: int): bool { i > j }
  /** match_odds, second branch: more away goals. */
  function AwayWin(i: int, j: int): bool { j > i }
  /** match_odds, last branch: level scores. */
  function Draw(i: int, j: int): bool { i == j }

  /** over_under_odds, first branch: more goals in all than the line. */
  function Over(goals: real): (int, int) -> bool
  {
    (i: int, j: int) => (i + j) as real > goals
  }

  /** over_under_odds, second branch: at most the line. */
  function Under(goals: real): (int, int) -> bool
  {
    (i: int, j: int) => (i + j) as real <= goals
  }

  /** both_to_score, first branch: one side or both fail to score. */
  function NotBothScore(i: int, j: int): bool { i == 0 || j == 0 }
  /** both_to_score, second branch: both sides score. */
  function BothScore(i: int, j: int): bool { i != 0 && j != 0 }

  /** result_both_to_score: a home win, split on whether the away side scored. */
  function HomeWinNotBothScore(i: int, j: int): bool { i > j && j == 0 }
  function HomeWinBothScore(i: int, j: int): bool { i > j && j != 0 }
  /** result_both_to_score: an away win, split on whether the home side scored. */
  function AwayWinNotBothScore(i: int, j: int): bool { j > i && i == 0 }
  function AwayWinBothScore(i: int, j: int): bool { j > i && i != 0 }
  /** result_both_to_score: a draw, split on whether it is 0-0. */
  function DrawNotBothScore(i: int, j: int): bool { i == j && j == 0 }
  function DrawBothScore(i: int, j: int): bool { i == j && j != 0 }

  // ---------------------------------------------------------------------------
  // The buckets of each market, in the order the market returns their prices.

  function MatchBuckets(m: seq<seq<real>>): seq<Accumulator>
  {
    [Bucket(m, HomeWin), Bucket(m, Draw), Bucket(m, AwayWin)]
  }

  function OverUnderBuckets(m: seq<seq<real>>, goals: real): seq<Accumulator>
  {
    [Bucket(m, Over(goals)), Bucket(m, Under(goals))]
  }

  function BothToScoreBuckets(m: seq<seq<real>>): seq<Accumulator>
  {
    [Bucket(m, BothScore), Bucket(m, NotBothScore)]
  }

  function ResultBothToScoreBuckets(m: seq<seq<real>>): seq<Accumulator>
  {
    [Bucket(m, HomeWinBothScore), Bucket(m, HomeWinNotBothScore),
     Bucket(m, DrawBothScore), Bucket(m, DrawNotBothScore),
     Bucket(m, AwayWinBothScore), Bucket(m, AwayWinNotBothScore)]
  }

  // ---------------------------------------------------------------------------
  // The markets.

  /** The 1X2 market: prices of a home win, a draw and an away win. */
  method MatchOdds(a: array2<real>) returns (r: MarketResult)
    ensures r == Quote(MatchBuckets(ToMatrix(a)))
  {
    ghost var m := ToMatrix(a);
    var homeWin, draw, awayWin := IntZero, IntZero, IntZero;
    for i := 0 to a.Length0
      invariant homeWin == PrefixBucket(m, i, HomeWin)
      invariant draw == PrefixBucket(m, i, Draw)
      invariant awayWin == PrefixBucket(m, i, AwayWin)
    {
      ghost var row := m[i];
      ghost var homeWin0, draw0, awayWin0 := homeWin, draw, awayWin;
      for j := 0 to a.Length1
        invariant homeWin == RowBucket(homeWin0, row, i, j, HomeWin)
        invariant draw == RowBucket(draw0, row, i, j, Draw)
        invariant awayWin == RowBucket(awayWin0, row, i, j, AwayWin)
      {
        if i > j {
          homeWin := Add(homeWin, a[i, j]);
        } else if j > i {
          awayWin := Add(awayWin, a[i, j]);
        } else {
          draw := Add(draw, a[i, j]);
        }
      }
    }
    r := Quote([homeWin, draw, awayWin]);
  }

  /** The over/under market for a line of `goals`: prices of over and under. */
  method OverUnderOdds(a: array2<real>, goals: real) returns (r: MarketResult)
    ensures r == Quote(OverUnderBuckets(ToMatrix(a), goals))
  {
    ghost var m := ToMatrix(a);
    var over, under := IntZero, IntZero;
    for i := 0 to a.Length0
      invariant over == PrefixBucket(m, i, Over(goals))
      invariant under == PrefixBucket(m, i, Under(goals))
    {
      ghost var row := m[i];
      ghost var over0, under0 := over, under;
      for j := 0 to a.Length1
        invariant over == RowBucket(over0, row, i, j, Over(goals))
        invariant under == RowBucket(under0, row, i, j, Under(goals))
      {
        if (i + j) as real > goals {
          over := Add(over, a[i, j]);
        } else {
          under := Add(under, a[i, j]);
        }
      }
    }
    r := Quote([over, under]);
  }

  /** The both-teams-to-score market: prices of "both score" and "not both score". */
  method BothToScore(a: array2<real>) returns (r: MarketResult)
    ensures r == Quote(BothToScoreBuckets(ToMatrix(a)))
  {
    ghost var m := ToMatrix(a);
    var bothScore, notBothScore := IntZero, IntZero;
    for i := 0 to a.Length0
      invariant bothScore == PrefixBucket(m, i, BothScore)
      invariant notBothScore == PrefixBucket(m, i, NotBothScore)
    {
      ghost var row := m[i];
      ghost var bothScore0, notBothScore0 := bothScore, notBothScore;
      for j := 0 to a.Length1
        invariant bothScore == RowBucket(bothScore0, row, i, j, BothScore)
        invariant notBothScore == RowBucket(notBothScore0, row, i, j, NotBothScore)
      {
        if i == 0 || j == 0 {
          notBothScore := Add(notBothScore, a[i, j]);
        } else {
          bothScore := Add(bothScore, a[i, j]);
        }
      }
    }
    r := Quote([bothScore, notBothScore]);
  }

  /** The result and both-teams-to-score market: prices of home win and both
      score, home win and not both, draw and both, draw and not both, away win
      and both, away win and not both. */
  method ResultBothToScore(a: array2<real>) returns (r: MarketResult)
    ensures r == Quote(ResultBothToScoreBuckets(ToMatrix(a)))
  {
    ghost var m := ToMatrix(a);
    var homeWinBothScore, homeWinNotBothScore := IntZero, IntZero;
    var drawBothScore, drawNotBothScore := IntZero, IntZero;
    var awayWinBothScore, awayWinNotBothScore := IntZero, IntZero;
    for i := 0 to a.Length0
      invariant homeWinBothScore == PrefixBucket(m, i, HomeWinBothScore)
      invariant homeWinNotBothScore == PrefixBucket(m, i, HomeWinNotBothScore)
      invariant drawBothScore == PrefixBucket(m, i, DrawBothScore)
      invariant drawNotBothScore == PrefixBucket(m, i, DrawNotBothScore)
      invariant awayWinBothScore == PrefixBucket(m, i, AwayWinBothScore)
      invariant awayWinNotBothScore == PrefixBucket(m, i, AwayWinNotBothScore)
    {
      ghost var row := m[i];
      ghost var homeWinBothScore0, homeWinNotBothScore0, drawBothScore0, drawNotBothScore0, awayWinBothScore0, awayWinNotBothScore0 := homeWinBothScore, homeWinNotBothScore, drawBothScore, drawNotBothScore, awayWinBothScore, awayWinNotBothScore;
      for j := 0 to a.Length1
        invariant homeWinBothScore == RowBucket(homeWinBothScore0, row, i, j, HomeWinBothScore)
        invariant homeWinNotBothScore == RowBucket(homeWinNotBothScore0, row, i, j, HomeWinNotBothScore)
        invariant drawBothScore == RowBucket(drawBothScore0, row, i, j, DrawBothScore)
        invariant drawNotBothScore == RowBucket(drawNotBothScore0, row, i, j, DrawNotBothScore)
        invariant awayWinBothScore == RowBucket(awayWinBothScore0, row, i, j, AwayWinBothScore)
        invariant awayWinNotBothScore == RowBucket(awayWinNotBothScore0, row, i, j, AwayWinNotBothScore)
      {
        if i > j {
          if j == 0 {
            homeWinNotBothScore := Add(homeWinNotBothScore, a[i, j]);
          } else {
            homeWinBothScore := Add(homeWinBothScore, a[i, j]);
          }
        } else if j > i {
          if i == 0 {
            awayWinNotBothScore := Add(awayWinNotBothScore, a[i, j]);
          } else {
            awayWinBothScore := Add(awayWinBothScore, a[i, j]);
          }
        } else {
          if j == 0 {
            drawNotBothScore := Add(drawNotBothScore, a[i, j]);
          } else {
            drawBothScore := Add(drawBothScore, a[i, j]);
          }
        }
      }
    }
    r := Quote([homeWinBothScore, homeWinNotBothScore, drawBothScore,
                drawNotBothScore, awayWinBothScore, awayWinNotBothScore]);
  }

  /** The correct-score market: the price of every scoreline of the grid. */
  function ScoreOdds(a: array2<real>): (r: seq<seq<Odds>>)
    reads a
    ensures |r| == a.Length0 && forall i :: 0 <= i < |r| ==> |r[i]| == a.Length1
    ensures forall i, j :: 0 <= i < a.Length0 && 0 <= j < a.Length1 ==> r[i][j] == OddsOf(a[i, j])
  {
    seq(a.Length0, i requires 0 <= i < a.Length0 reads a =>
      seq(a.Length1, j requires 0 <= j < a.Length1 reads a => OddsOf(a[i, j])))
  }

  // ---------------------------------------------------------------------------
  // What an accumulator holds.

  lemma {:induction false} RowBucketValue(acc: Accumulator, row: seq<real>, i: int, n: nat, rule: (int, int) -> bool)
    requires n <= |row|
    ensures Value(RowBucket(acc, row, i, n, rule)) == Value(acc) + RowSumIf(row, i, n, rule)
  {
    if n > 0 {
      RowBucketValue(acc, row, i, n - 1, rule);
    }
  }

  lemma {:induction false} PrefixBucketValue(m: seq<seq<real>>, k: nat, rule: (int, int) -> bool)
    requires k <= |m|
    ensures Value(PrefixBucket(m, k, rule)) == PrefixSumIf(m, k, rule)
  {
    if k > 0 {
      PrefixBucketValue(m, k - 1, rule);
      RowBucketValue(PrefixBucket(m, k - 1, rule), m[k - 1], k - 1, |m[k - 1]|, rule);
    }
  }

  /** A bucket holds the sum of the cells its rule selects. */
  lemma BucketValue(m: seq<seq<real>>, rule: (int, int) -> bool)
    ensures Value(Bucket(m, rule)) == SumIf(m, rule)
  {
    PrefixBucketValue(m, |m|, rule);
  }

  lemma {:induction false} RowBucketReached(acc: Accumulator, row: seq<real>, i: int, n: nat, rule: (int, int) -> bool)
    requires n <= |row|
    ensures RowBucket(acc, row, i, n, rule).Float? <==> acc.Float? || exists j :: 0 <= j < n && rule(i, j)
  {
    if n > 0 {
      RowBucketReached(acc, row, i, n - 1, rule);
      if !rule(i, n - 1) && exists j :: 0 <= j < n && rule(i, j) {
        var j :| 0 <= j < n && rule(i, j);
        assert j < n - 1;
      }
    }
  }

  lemma {:induction false} PrefixBucketReached(m: seq<seq<real>>, k: nat, rule: (int, int) -> bool)
    requires k <= |m|
    ensures PrefixBucket(m, k, rule).Float? <==> exists i, j :: 0 <= i < k && 0 <= j < |m[i]| && rule(i, j)
  {
    if k > 0 {
      PrefixBucketReached(m, k - 1, rule);
      RowBucketReached(PrefixBucket(m, k - 1, rule), m[k - 1], k - 1, |m[k - 1]|, rule);
      if exists i, j :: 0 <= i < k && 0 <= j < |m[i]| && rule(i, j) {
        var i, j :| 0 <= i < k && 0 <= j < |m[i]| && rule(i, j);
        if i == k - 1 {
          assert 0 <= j < |m[k - 1]| && rule(k - 1, j);
        } else {
          assert 0 <= i < k - 1 && 0 <= j < |m[i]| && rule(i, j);
        }
      }
    }
  }

  /** A bucket is still the integer 0 exactly when no cell of the grid
      satisfies its rule; then pricing it raises ZeroDivisionError. */
  lemma BucketReached(m: seq<seq<real>>, rule: (int, int) -> bool)
    ensures Bucket(m, rule).Float? <==> Reaches(m, rule)
  {
    PrefixBucketReached(m, |m|, rule);
  }

  /** A bucket that receives a cell holds, as a float, the sum of its cells. */
  lemma ReachedBucket(m: seq<seq<real>>, rule: (int, int) -> bool, i: int, j: int)
    requires 0 <= i < |m| && 0 <= j < |m[i]| && rule(i, j)
    ensures Bucket(m, rule) == Float(SumIf(m, rule))
  {
    BucketReached(m, rule);
    BucketValue(m, rule);
  }

  // ---------------------------------------------------------------------------
  // The buckets of each market partition the grid.

  /** Home win, draw and away win hold, between them, the whole grid, each cell once. */
  lemma MatchMarketCoversGrid(m: seq<seq<real>>)
    ensures Value(Bucket(m, HomeWin)) + Value(Bucket(m, Draw)) + Value(Bucket(m, AwayWin)) == Total(m)
  {
    SumIfSplit3(m, Everywhere, HomeWin, Draw, AwayWin);
    BucketValue(m, HomeWin);
    BucketValue(m, Draw);
    BucketValue(m, AwayWin);
  }

  /** Over and under hold the whole grid, each cell once, whatever the line. */
  lemma OverUnderCoversGrid(m: seq<seq<real>>, goals: real)
    ensures Value(Bucket(m, Over(goals))) + Value(Bucket(m, Under(goals))) == Total(m)
  {
    SumIfSplit(m, Everywhere, Over(goals), Under(goals));
    BucketValue(m, Over(goals));
    BucketValue(m, Under(goals));
  }

  /** "Both score" and "not both score" hold the whole grid, each cell once. */
  lemma BothToScoreCoversGrid(m: seq<seq<real>>)
    ensures Value(Bucket(m, BothScore)) + Value(Bucket(m, NotBothScore)) == Total(m)
  {
    SumIfSplit(m, Everywhere, BothScore, NotBothScore);
    BucketValue(m, BothScore);
    BucketValue(m, NotBothScore);
  }

  /** Each result bucket of the combined market splits the matching bucket of
      the 1X2 market into its "both score" and "not both score" parts. */
  lemma ResultBothToScoreRefinesMatch(m: seq<seq<real>>)
    ensures Value(Bucket(m, HomeWinBothScore)) + Value(Bucket(m, HomeWinNotBothScore)) == Value(Bucket(m, HomeWin))
    ensures Value(Bucket(m, DrawBothScore)) + Value(Bucket(m, DrawNotBothScore)) == Value(Bucket(m, Draw))
    ensures Value(Bucket(m, AwayWinBothScore)) + Value(Bucket(m, AwayWinNotBothScore)) == Value(Bucket(m, AwayWin))
  {
    SumIfSplit(m, HomeWin, HomeWinBothScore, HomeWinNotBothScore);
    SumIfSplit(m, Draw, DrawBothScore, DrawNotBothScore);
    SumIfSplit(m, AwayWin, AwayWinBothScore, AwayWinNotBothScore);
    BucketValue(m, HomeWin);
    BucketValue(m, HomeWinBothScore);
    BucketValue(m, HomeWinNotBothScore);
    BucketValue(m, Draw);
    BucketValue(m, DrawBothScore);
    BucketValue(m, DrawNotBothScore);
    BucketValue(m, AwayWin);
    BucketValue(m, AwayWinBothScore);
    BucketValue(m, AwayWinNotBothScore);
  }

  /** The three "both score" buckets of the combined market add up to the
      "both score" bucket, and the three "not both score" buckets to the
      "not both score" bucket. */
  lemma ResultBothToScoreRefinesBothToScore(m: seq<seq<real>>)
    ensures Value(Bucket(m, HomeWinBothScore)) + Value(Bucket(m, DrawBothScore)) + Value(Bucket(m, AwayWinBothScore))
         == Value(Bucket(m, BothScore))
    ensures Value(Bucket(m, HomeWinNotBothScore)) + Value(Bucket(m, DrawNotBothScore)) + Value(Bucket(m, AwayWinNotBothScore))
         == Value(Bucket(m, NotBothScore))
  {
    SumIfSplit3(m, BothScore, HomeWinBothScore, DrawBothScore, AwayWinBothScore);
    SumIfSplit3(m, NotBothScore, HomeWinNotBothScore, DrawNotBothScore, AwayWinNotBothScore);
    BucketValue(m, BothScore);
    BucketValue(m, HomeWinBothScore);
    BucketValue(m, DrawBothScore);
    BucketValue(m, AwayWinBothScore);
    BucketValue(m, NotBothScore);
    BucketValue(m, HomeWinNotBothScore);
    BucketValue(m, DrawNotBothScore);
    BucketValue(m, AwayWinNotBothScore);
  }

  /** The six buckets of the combined market hold the whole grid, each cell once. */
  lemma ResultBothToScoreCoversGrid(m: seq<seq<real>>)
    ensures Value(Bucket(m, HomeWinBothScore)) + Value(Bucket(m, HomeWinNotBothScore))
          + Value(Bucket(m, DrawBothScore)) + Value(Bucket(m, DrawNotBothScore))
          + Value(Bucket(m, AwayWinBothScore)) + Value(Bucket(m, AwayWinNotBothScore)) == Total(m)
  {
    ResultBothToScoreRefinesMatch(m);
    MatchMarketCoversGrid(m);
  }

  /** The only draw in which not both sides score is 0-0. */
  lemma DrawNotBothScoreIsNilNil(m: seq<seq<real>>)
    requires |m| >= 1 && |m[0]| >= 1
    ensures Bucket(m, DrawNotBothScore) == Float(m[0][0])
  {
    ReachedBucket(m, DrawNotBothScore, 0, 0);
    SumIfRowsBelow(m, 1, DrawNotBothScore);
    RowColumnsFrom(m[0], 0, 1, |m[0]|, DrawNotBothScore);
    assert PrefixSumIf(m, 1, DrawNotBothScore) == RowSumIf(m[0], 0, |m[0]|, DrawNotBothScore);
    assert RowSumIf(m[0], 0, 1, DrawNotBothScore) == m[0][0];
  }

  /** The correct-score price of 0-0 is the price of "draw and not both score". */
  lemma NilNilPriceIsDrawNotBothScorePrice(a: array2<real>)
    requires a.Length0 >= 1 && a.Length1 >= 1
    ensures ScoreOdds(a)[0][0] == OddsOf(Value(Bucket(ToMatrix(a), DrawNotBothScore)))
  {
    DrawNotBothScoreIsNilNil(ToMatrix(a));
  }

  // ---------------------------------------------------------------------------
  // When a market raises ZeroDivisionError.

  /** The 1X2 market is priced, rather than raising ZeroDivisionError, exactly
      when the grid has at least two rows and two columns. */
  lemma MatchOddsPricedIff(m: seq<seq<real>>, cols: nat)
    requires Rectangular(m, cols)
    ensures Quote(MatchBuckets(m)).Priced? <==> |m| >= 2 && cols >= 2
  {
    BucketReached(m, HomeWin);
    BucketReached(m, Draw);
    BucketReached(m, AwayWin);
    if |m| >= 2 && cols >= 2 {
      assert 0 <= 1 < |m| && 0 <= 0 < |m[1]| && HomeWin(1, 0);
      assert 0 <= 0 < |m| && 0 <= 0 < |m[0]| && Draw(0, 0);
      assert 0 <= 0 < |m| && 0 <= 1 < |m[0]| && AwayWin(0, 1);
    } else if |m| < 2 {
      assert !Reaches(m, HomeWin);
      assert !MatchBuckets(m)[0].Float?;
    } else {
      assert !Reaches(m, AwayWin);
      assert !MatchBuckets(m)[2].Float?;
    }
  }

  /** The over/under market for the line `goals` is priced exactly when some
      scoreline of the grid is over the line and some is not: the grid is not
      empty and 0 <= goals < (rows - 1) + (cols - 1). */
  lemma OverUnderOddsPricedIff(m: seq<seq<real>>, cols: nat, goals: real)
    requires Rectangular(m, cols)
    ensures Quote(OverUnderBuckets(m, goals)).Priced? <==>
              |m| >= 1 && cols >= 1 && 0.0 <= goals < (|m| - 1 + cols - 1) as real
  {
    BucketReached(m, Over(goals));
    BucketReached(m, Under(goals));
    if |m| >= 1 && cols >= 1 && 0.0 <= goals < (|m| - 1 + cols - 1) as real {
      assert 0 <= |m| - 1 < |m| && 0 <= cols - 1 < |m[|m| - 1]| && Over(goals)(|m| - 1, cols - 1);
      assert 0 <= 0 < |m| && 0 <= 0 < |m[0]| && Under(goals)(0, 0);
    } else if |m| == 0 || cols == 0 {
      assert !Reaches(m, Over(goals));
      assert !OverUnderBuckets(m, goals)[0].Float?;
    } else if goals < 0.0 {
      assert !Reaches(m, Under(goals));
      assert !OverUnderBuckets(m, goals)[1].Float?;
    } else {
      assert !Reaches(m, Over(goals));
      assert !OverUnderBuckets(m, goals)[0].Float?;
    }
  }

  /** The both-teams-to-score market is priced exactly when the grid has at
      least two rows and two columns. */
  lemma BothToScorePricedIff(m: seq<seq<real>>, cols: nat)
    requires Rectangular(m, cols)
    ensures Quote(BothToScoreBuckets(m)).Priced? <==> |m| >= 2 && cols >= 2
  {
    BucketReached(m, BothScore);
    BucketReached(m, NotBothScore);
    if |m| >= 2 && cols >= 2 {
      assert 0 <= 1 < |m| && 0 <= 1 < |m[1]| && BothScore(1, 1);
      assert 0 <= 0 < |m| && 0 <= 0 < |m[0]| && NotBothScore(0, 0);
    } else {
      assert !Reaches(m, BothScore);
      assert !BothToScoreBuckets(m)[0].Float?;
    }
  }

  /** The combined market is priced exactly when the grid has at least three
      rows and three columns: a home win in which both sides score needs 2-1,
      an away win in which both score needs 1-2. */
  lemma ResultBothToScorePricedIff(m: seq<seq<real>>, cols: nat)
    requires Rectangular(m, cols)
    ensures Quote(ResultBothToScoreBuckets(m)).Priced? <==> |m| >= 3 && cols >= 3
  {
    BucketReached(m, HomeWinBothScore);
    BucketReached(m, HomeWinNotBothScore);
    BucketReached(m, DrawBothScore);
    BucketReached(m, DrawNotBothScore);
    BucketReached(m, AwayWinBothScore);
    BucketReached(m, AwayWinNotBothScore);
    if |m| >= 3 && cols >= 3 {
      assert 0 <= 2 < |m| && 0 <= 1 < |m[2]| && HomeWinBothScore(2, 1);
      assert 0 <= 1 < |m| && 0 <= 0 < |m[1]| && HomeWinNotBothScore(1, 0);
      assert 0 <= 1 < |m| && 0 <= 1 < |m[1]| && DrawBothScore(1, 1);
      assert 0 <= 0 < |m| && 0 <= 0 < |m[0]| && DrawNotBothScore(0, 0);
      assert 0 <= 1 < |m| && 0 <= 2 < |m[1]| && AwayWinBothScore(1, 2);
      assert 0 <= 0 < |m| && 0 <= 1 < |m[0]| && AwayWinNotBothScore(0, 1);
    } else if |m| < 3 {
      assert !Reaches(m, HomeWinBothScore);
      assert !ResultBothToScoreBuckets(m)[0].Float?;
    } else {
      assert !Reaches(m, AwayWinBothScore);
      assert !ResultBothToScoreBuckets(m)[4].Float?;
    }
  }
}
