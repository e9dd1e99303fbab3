# Betting odds calculator: the Dixon-Coles grid and its markets, in Dafny

This project models the pricing core of `predict_odds.py`. It covers the
Dixon-Coles correlation factor tau (`calculate_t`) and the scoreline
probability (`score_probability`). It covers the 9 x 9 grid of scoreline
probabilities for a home and an away team, which `get_probability_array`
fills and normalises in place. It covers the five markets priced from that
grid: the 1X2 market, correct score, over/under a goal line, both teams to
score, and result with both teams to score.

Modules:

- `Scoreline` (scoreline.dfy) holds the pure functions: factorial, the
  Poisson term, tau, and the scoreline probability with
  lambda = home attack * away defence * home advantage and
  mu = away attack * home defence. The exponential function is a parameter;
  all the model assumes of it is that it is positive.
- `GridSums` (grid_sums.dfy) holds bucket sums over a grid. A bucket is the
  sum of the cells whose indices satisfy a rule, written as the same row-major
  walk the loops make. It also holds the in-place fill and divide of the grid
  array and the lemmas that split, compare and scale bucket sums.
- `ProbabilityGrid` (probability_grid.dfy) holds the fitted model: three
  string-keyed tables, with a missing key giving an error as pandas' KeyError
  does. It holds the method that builds the normalised grid and the facts
  about the grid's total and signs.
- `DecimalOdds` (odds.dfy) holds the price of a probability P: 1/P rounded
  to two decimals, ties to the even hundredth, as numpy rounds. A zero float
  probability gives an infinite price, as numpy's division does.
- `Markets` (markets.dfy) holds the four looping markets as methods over a
  two-dimensional array, plus the correct-score prices. Each accumulator
  starts as Python's integer 0 and becomes a float with the first cell added.
  A bucket that no cell reaches therefore stays the integer 0, and pricing it
  raises ZeroDivisionError. The model tracks exactly that.
- `Fixture` (fixture.dfy) holds what holds for the grid one fixture produces.
  On a 9 x 9 grid every market is priced, except an over/under line outside
  0 <= line < 16. On a normalised grid the probabilities of each market's
  outcomes add up to 1.

A note on signs. The grid is normally read as a probability distribution, but
the code does not guarantee that its cells are non-negative. With
non-negative team scores the total is always positive, whatever the
correlation p, because tau only moves mass among the four low scorelines
(`LowScoreMassPreserved`, `RawTotalPositive`). The cells are non-negative
when 0 <= p <= 1 and lambda * mu * p <= 1 (`FittedGridIsDistribution`).
When p > 1 and both rates are positive, the normalised 1-1 cell is negative
(`NegativeCellWhenCorrelationAboveOne`), and nothing in the code bounds p
from above. The model follows the code.

## Model

| member | source | states |
|---|---|---|
| Scoreline.Factorial | predict_odds.py:23-24 | k! is at least 1, so each Poisson term divides by a positive number |
| Scoreline.Power | predict_odds.py:23-24 | a non-negative rate raised to any number of goals is non-negative (0 to the power 0 is 1, as in Python) |
| Scoreline.Poisson | predict_odds.py:23-24 | 0 goals at rate m has probability e^-m and 1 goal m e^-m; the term is non-negative for a non-negative rate |
| Scoreline.Tau | predict_odds.py:7-17 | tau is exactly 1 at every scoreline other than 0-0, 0-1, 1-0 and 1-1, and exactly 1 everywhere when p = 0 |
| Scoreline.ScoreProbability | predict_odds.py:19-25 | with more than one goal on either side, or with p = 0, the probability is the product of the two independent Poisson terms at lambda = home attack * away defence * home advantage and mu = away attack * home defence |
| Scoreline.TauNonNegative | predict_odds.py:7-17 | tau is non-negative on every scoreline when the rates are non-negative, 0 <= p <= 1 and lambda * mu * p <= 1 |
| Scoreline.LowScoreMassPreserved | predict_odds.py:7-25 | for any p, the four tau-weighted low scorelines sum to the unweighted ones, which equal e^-lambda e^-mu (1 + lambda)(1 + mu) |
| Scoreline.UncorrelatedIsIndependent | predict_odds.py:19-25 | with p = 0 the scoreline probability is Poisson(x; lambda) * Poisson(y; mu) for every x, y |
| Scoreline.IndependentNonNegative | predict_odds.py:23-25 | the product of the two Poisson terms is non-negative for every scoreline when the rates are non-negative |
| ProbabilityGrid.LookupParams | predict_odds.py:30-35 | the lookup succeeds exactly when both teams have rows in both tables and both shared parameters exist, and then it returns the six values read. Otherwise it reports a key that is missing, and a missing home-team attack row is the one reported |
| ProbabilityGrid.LookupReportsFirstMissingKey | predict_odds.py:30-35 | the lookup fails exactly when one of the six rows it reads is missing, and then it reports the first missing row in reading order (home attack, away attack, home defence, away defence, home advantage, p): every row read before it is present |
| ProbabilityGrid.RawGrid | predict_odds.py:38-42 | the unnormalised grid is 9 x 9 and cell (i, j) is the probability of the scoreline i-j |
| ProbabilityGrid.GetProbabilityArray | predict_odds.py:27-45 | a lookup error is passed on. Otherwise the result is a fresh 9 x 9 array whose cells are the raw grid divided by its total. With non-negative team scores and home advantage the result is never an error |
| ProbabilityGrid.LowBlockMass | predict_odds.py:38-42 | the 0-0, 0-1, 1-0 and 1-1 cells of the grid hold e^-lambda e^-mu (1 + lambda)(1 + mu) between them |
| ProbabilityGrid.OutsideMassIndependentOfCorrelation | predict_odds.py:19-25 | outside the four low scorelines the grid does not depend on p |
| ProbabilityGrid.AdjustmentPreservesTotal | predict_odds.py:38-42 | the total the loop accumulates is the same for every p as for p = 0 |
| ProbabilityGrid.RawTotalPositive | predict_odds.py:42-44 | with non-negative team scores and home advantage the total is positive, so the normalising division never divides by zero |
| ProbabilityGrid.CellNonNegative | predict_odds.py:19-25 | a scoreline probability is non-negative when the rates are, 0 <= p <= 1 and lambda * mu * p <= 1 |
| ProbabilityGrid.RawCellsNonNegative | predict_odds.py:38-42 | under the same bounds every cell of the raw grid is non-negative |
| ProbabilityGrid.FittedGridIsDistribution | predict_odds.py:27-45 | the normalised grid sums to 1; under the bounds above all its cells are non-negative |
| ProbabilityGrid.NegativeCellWhenCorrelationAboveOne | predict_odds.py:14-15 | for every fixture with non-negative team scores and home advantage, positive rates lambda and mu and p > 1, the total is positive but the normalised 1-1 cell is negative |
| GridSums.FillGrid | predict_odds.py:38-42 | the nested loop writes every cell (i, j) with the given cell value and returns the sum of all cells |
| GridSums.FillRow | predict_odds.py:39-42 | one pass of the inner loop writes row i, leaves the other rows alone and returns the row's sum |
| GridSums.DivideInPlace | predict_odds.py:44 | the array becomes its old contents divided cell by cell by the total |
| GridSums.NormalisedSumsToOne | predict_odds.py:44 | after dividing by a non-zero total the cells sum to 1 |
| GridSums.NormaliseScalesBuckets | predict_odds.py:44 | every bucket of the normalised grid is the raw bucket divided by the total |
| GridSums.NormalisedNonNegative | predict_odds.py:44 | dividing non-negative cells by a positive total keeps them non-negative |
| GridSums.SumIfSplit | predict_odds.py:52-59 | when two rules split a third, with each cell in exactly one, their bucket sums add up to the third's |
| GridSums.SumIfSplit3 | predict_odds.py:104-120 | the same for a three-way split |
| DecimalOdds.Round2 | predict_odds.py:60 | the result is a whole number of hundredths, within 0.005 of its input, and at least 1 when its input is |
| DecimalOdds.OddsOf | predict_odds.py:60-62 | the price is infinite exactly when the probability is 0; otherwise it is within 0.005 of 1/P, and at least 1.00 when 0 < P <= 1 |
| DecimalOdds.Round2Idempotent | predict_odds.py:60 | rounding a rounded price changes nothing |
| Markets.Quote | predict_odds.py:60-63 | the prices come out exactly when every bucket has become a float; they are then 1/bucket rounded, one per bucket, in the order given; otherwise ZeroDivisionError |
| Markets.MatchOdds | predict_odds.py:47-63 | the loop leaves in each accumulator the bucket of its branch, and the result is the prices of home win, draw and away win in that order |
| Markets.OverUnderOdds | predict_odds.py:68-80 | the same for the cells above the goal line and the cells at or below it |
| Markets.BothToScore | predict_odds.py:82-94 | the same for "both score" and "not both score" |
| Markets.ResultBothToScore | predict_odds.py:96-128 | the same for the six result and both-score buckets, in the returned order |
| Markets.ScoreOdds | predict_odds.py:65-66 | one price per cell of the grid, 1/cell rounded, infinite for a zero cell |
| Markets.BucketValue | predict_odds.py:52-59 | an accumulator ends up holding the sum of the cells its rule selects |
| Markets.BucketReached | predict_odds.py:48-59 | an accumulator is still the integer 0 exactly when no cell of the grid satisfies its rule |
| Markets.ReachedBucket | predict_odds.py:52-59 | an accumulator that receives a cell is a float holding its bucket's sum |
| Markets.MatchMarketCoversGrid | predict_odds.py:52-59 | home win, draw and away win add up to the grid's total |
| Markets.OverUnderCoversGrid | predict_odds.py:72-77 | over and under add up to the grid's total, for every real line |
| Markets.BothToScoreCoversGrid | predict_odds.py:86-91 | both score and not both score add up to the grid's total |
| Markets.ResultBothToScoreRefinesMatch | predict_odds.py:104-120 | each pair of the combined market (home win, draw, away win, each split by both score) adds up to the matching 1X2 bucket |
| Markets.ResultBothToScoreRefinesBothToScore | predict_odds.py:104-120 | the three "both score" buckets add up to the both-score bucket, the three "not both score" buckets to the not-both-score bucket |
| Markets.ResultBothToScoreCoversGrid | predict_odds.py:104-120 | the six buckets add up to the grid's total |
| Markets.DrawNotBothScoreIsNilNil | predict_odds.py:116-118 | "draw and not both score" is a float holding exactly the 0-0 cell |
| Markets.NilNilPriceIsDrawNotBothScorePrice | predict_odds.py:65-66 | the correct-score price of 0-0 is the price of "draw and not both score" |
| Markets.MatchOddsPricedIff | predict_odds.py:47-63 | the 1X2 market is priced, and does not raise ZeroDivisionError, exactly when the grid has at least 2 rows and 2 columns |
| Markets.OverUnderOddsPricedIff | predict_odds.py:68-80 | over/under is priced exactly when the grid is not empty and 0 <= line < (rows - 1) + (cols - 1) |
| Markets.BothToScorePricedIff | predict_odds.py:82-94 | both-to-score is priced exactly when the grid has at least 2 rows and 2 columns |
| Markets.ResultBothToScorePricedIff | predict_odds.py:96-128 | the combined market is priced exactly when the grid has at least 3 rows and 3 columns |
| Fixture.FixtureMarketsArePriced | predict_odds.py:47-128 | on a 9 x 9 grid the 1X2, both-to-score and combined markets are priced, and over/under is priced exactly for lines 0 <= line < 16 |
| Fixture.NormalisedMarketsSumToOne | predict_odds.py:44-128 | on a normalised grid the buckets of each market add up to 1 |
| Fixture.FittedMarketsSumToOne | predict_odds.py:27-128 | for a fixture with non-negative team scores and home advantage, the buckets of each of the 1X2, over/under, both-to-score and result/both-to-score markets computed from the fixture's grid add up to 1 |

## Left out

- `main` (command-line parsing, CSV reading, path building and printing) is I/O and is not modelled.
- The pandas DataFrame that `score_odds` wraps its prices in is display only; `ScoreOdds` returns the grid of prices.
- Floating point is not modelled: probabilities are exact reals. Rounding to two decimals is exact round-half-to-even on reals rather than numpy's multiply, round-to-integer and divide in binary floating point. Sums are exact, so their order does not matter.
- `np.exp` is a parameter of the model; only its positivity is assumed, where a lemma needs it.
- GetProbabilityArray: a zero total gives the error `ZeroTotal`, where numpy would fill the array with nan and infinities. `RawTotalPositive` shows this cannot happen for non-negative team scores and home advantage.
- LookupParams: pandas' `.loc` on a table with a repeated team name returns several rows. That case, and non-numeric cells, are not modelled; each table is a map from key to number.
- GridSums.FillGrid: the cell values come in as a function of (i, j) plus a ghost copy of the grid they describe, and the inner loop is the separate method `FillRow`. The source has one nested loop calling `score_probability` directly.
- The approximate identity between a market's prices and its probabilities after rounding (for example that the reciprocals of the three 1X2 prices sum to about 1) is not stated. Only the exact probabilities are proved to add up.
- Parameter fitting and the likelihood are not part of this model; the fitted tables are inputs.
