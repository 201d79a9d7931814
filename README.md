# gotennis in Dafny

This project models the core of gotennis, a Monte Carlo tennis match simulator with a betting-market layer on top, and proves properties of the model:

- **Sim** (`sim.dfy`, sim/sim.go) holds the simulation itself:
  - the exact tiebreak solver, a memoised recursion over a 31x31 table written in place;
  - the set state machine: games alternate serve, and a tiebreak is played at 6-6;
  - the match state machine: sets are played until one side has `bestof/2 + 1`, and each set is credited back to the right player;
  - the Monte Carlo driver.

  Every random draw of the original is an explicit input:
  - "the server wins game k of set i of match j" is a boolean stream;
  - the uniform draw that decides a tiebreak is a real number.

  The properties therefore hold for every outcome stream.
- **Format** (`format.dfy`, format/format.go) is the market layer. It covers the moneyline, game and set handicaps, and game and set totals, each counted over a list of simulated matches. It also covers the ladders of lines each market is priced at for a best-of. float64 division is modelled over `real`. An empty match list gives NaN, which is represented explicitly.
- **Service** (`service.dfy`, service/calculations.go) holds the older aggregation helpers:
  - a frequency table of score pairs;
  - the handicap and total splits of the table's probability mass;
  - the normalisation of a pair of weights.
- **Server** (`server.dfy`, main.go) holds the sequential parts of the HTTP service:
  - the ordered input validation;
  - the bounded drop-oldest buffer of request statistics, as a class;
  - the summary loop of the statistics endpoint;
  - the composition of the five markets.
- **Wrappers** (`wrappers.dfy`) holds `Option` and `Result`.

The Go code's loops are Dafny methods. Each method's ensures ties its result either to specification functions of its inputs or, where Go's map iteration leaves the order open (`MatchPercentages`), to specification predicates. The properties are then proved about those specifications.

## Model

| member | source | states |
|---|---|---|
| Sim.TiebreakRotation | sim/sim.go:116-127 | The tiebreak server after t points follows the rule of the tie-break game: the first server serves point 0, then each player serves two points in turn. A serves exactly when (t+1)/2 is even (or odd, when B served first). The server changes after every even-numbered point and stays after every odd one. |
| Sim.TiebreakValueIsProbability | sim/sim.go:103-137 | For serve probabilities in [0,1] and any reachable score, the value of the recursion lies in [0,1]. The cases are the terminal values 1, 0 and 0.5 and the convex combination of the two continuations. |
| Sim.TiebreakSymmetry | sim/sim.go:103-137 | With the players exchanged (their serve probabilities, the first server and the score), the value is 1 minus the original value. |
| Sim.SureWinner | sim/sim.go:103-137 | A player who wins every point on serve and on return wins the tiebreak with probability 1. |
| Sim.TiebreakProbRecursive | sim/sim.go:97-141 | The in-place memoised closure keeps every filled cell equal to the recursion at that score. It returns exactly that recursion's value, and every memo index stays within 0..30. |
| Sim.AWinsTiebreak | sim/sim.go:87-144 | After filling a fresh 31x31 table with -1.0, the result is true exactly when the exact tiebreak probability from 0-0 exceeds the draw. |
| Sim.PlayGamesValid | sim/sim.go:160-195 | For every outcome stream a set ends on 6-x with x at most 4, on 7-5 or on 7-6, either way round. So it never ends level and lasts at most 13 games. |
| Sim.PlayGamesTiebreak | sim/sim.go:161-168 | A set with 13 games was decided by the tiebreak: it ends 7-6 exactly when the tiebreak was won by player 1. |
| Sim.SetOutcomeValid | sim/sim.go:149-198 | From 0-0, the set outcome is a valid score and its 13th game is the tiebreak's. |
| Sim.SimulateSet | sim/sim.go:149-198 | The game loop returns the set of the outcome stream. Serve starts with the designated player and flips after every game that does not end the set. At 6-6 a single tiebreak, served first by the player who served the first game, adds the last game. The score is valid. |
| Sim.PlaySetsValid | sim/sim.go:57-84 | From any match in progress, playing sets to setsToWin gives a finished match. Exactly one side has setsToWin, one valid raw set is stored per set played, and the sets credited to A are A's set count. |
| Sim.MatchOutcomeValid | sim/sim.go:52-85 | For every outcome stream and setsToWin at least 1, the match is finished, with len(SetResults) == ASets + BSets <= 2*setsToWin - 1. Set i is the raw result of simulateSet, with A's parameters as player 1 in even sets and B's in odd sets. |
| Sim.SimulateSingleMatch | sim/sim.go:52-85 | The set loop returns the match of the outcome streams. Parity of sets played picks who plays as player 1, and the winner is credited back to the swapped player. The match is valid. It requires setsToWin >= 1: Go panics for setsToWin = 0 (capacity -1 at sim/sim.go:54), and every caller passes bo/2 + 1. |
| Sim.SimulateMatch | sim/sim.go:30-49 | A best-of other than 3 or 5 is rejected with "invalid number of sets". Best-of 3 and 5 always succeed: there are n[0] matches (1000000 when n is absent or not positive), each a valid match played to bo/2 + 1 sets with its own streams. |
| Sim.OrientedSetsAgreeWithCredit | sim/sim.go:63-83 | Once odd-indexed raw sets are turned back to A's side, the sets A won in its own column are exactly the sets credited to A. |
| Sim.SweepRawSetResults | sim/sim.go:83 | For a best-of-3 in which A wins every game, the stored set list is [6-0, 0-6], and turned back to A's side it is [6-0, 6-0]. |
| Format.Split | format/format.go:48-53 | A count n out of len sets ProbA = n/len and ProbB to a finite value with ProbA + ProbB = 1, both in [0,1], when len > 0. Both are NaN when len = 0. |
| Format.GetMoneyline | format/format.go:40-54 | The price is the share of matches with ASets > BSets, in market ML at line "ml". |
| Format.GetMatchGames | format/format.go:83-90 | The result is the sums of the A and B columns over the stored sets, and (0,0) for no sets. |
| Format.MatchGamesBounds | format/format.go:83-90 | For valid sets the game total of a match lies between 6 and 13 games per set. |
| Format.GetGameHandicap | format/format.go:66-81 | The price is the share of matches with aGames + h > bGames, in market AH at line h. |
| Format.GameHandicapMonotone | format/format.go:70 | For a non-empty list, ProbA of the game handicap does not decrease as h grows. |
| Format.GetGameTotal | format/format.go:101-116 | The price is the share of matches whose game total is strictly greater than the line, in market OU. |
| Format.GameTotalAntitone | format/format.go:105 | For a non-empty list, ProbA of the game total does not increase as the line grows. |
| Format.GetSetHandicap | format/format.go:133-147 | The price is the share of matches with ASets + h > BSets, in market AH at line h. |
| Format.SetHandicapMonotone | format/format.go:136 | For a non-empty list, ProbA of the set handicap does not decrease as h grows. |
| Format.SetHandicapZeroIsMoneyline | format/format.go:133-147 | The set handicap at h = 0 gives the same ProbA and ProbB as the moneyline. |
| Format.GetSetTotal | format/format.go:168-182 | The price is the share of matches whose set total is strictly greater than the line, in market OU. |
| Format.SetTotalAntitone | format/format.go:171 | For a non-empty list, ProbA of the set total does not increase as the line grows. |
| Format.MarketsAreProbabilities | format/format.go:48-53 | For a non-empty list every one of the five markets is a pair of probabilities summing to 1. For an empty list both sides are NaN. |
| Format.Ladder | format/format.go:58-63 | The stepped loop `for i := from; i <= to; i++` prices one line for each of from, from + 1, …, up to and including to, in order. It yields floor(to - from) + 1 entries (none when to < from), and entry k is the price at from + k. |
| Format.LadderEntries | format/format.go:56-64 | Every entry of a ladder is in the ladder's market (AH or OU), at line from + k, and sums to 1 for a non-empty list. |
| Format.MapBOToGameSpread | format/format.go:28-37 | The game spread is 8.5 for best-of-3, 12.5 for best-of-5 and 0 for any other best-of. |
| Format.GoHalf | format/format.go:95 | Go's bestof/2 truncates toward zero. |
| Format.GetGameHandicaps | format/format.go:56-64 | The lines run from -spread to spread in steps of 1. That is 18 lines from -8.5 to 8.5 for best-of-3 and 26 lines from -12.5 to 12.5 for best-of-5. Any other best-of gets spread 0 and the single line 0. |
| Format.GetGameTotals | format/format.go:93-99 | The lines run from (bestof/2 + 1)*6 + 0.5 to bestof*12 + 0.5 in steps of 1. That is 25 lines from 12.5 to 36.5 for best-of-3 and 43 lines from 18.5 to 60.5 for best-of-5. A best-of of 0 or less gives no lines. |
| Format.GetSetHandicaps | format/format.go:118-131 | Best-of-3 gets the 4 lines -1.5, -0.5, 0.5, 1.5. Any other best-of gets the 6 lines -2.5 … 2.5. |
| Format.GetSetTotals | format/format.go:149-166 | Best-of-3 gets the single line 2.5. Any other best-of gets 3.5 and 4.5. |
| Format.OrientedTotalsAgree | format/format.go:83-90 | Turning the stored sets back to A's side moves games between the columns but keeps the match's game total. |
| Format.GameTotalIgnoresOrientation | format/format.go:101-116 | The game-total market gives the same prices on stored and on oriented set lists. |
| Format.SweepMatchGamesAsWritten | format/format.go:83-90 | For a best-of-3 that A swept 6-0 6-0, getMatchGames as written gives 6 games to each side, and A -0.5 on the game handicap is priced at 0. |
| Format.OrientedMatchGamesSound | sim/sim.go:83 | The oriented games of a match keep its game total, and a best-of-3 swept by A reads 12-0. |
| Format.SweepOrientedGameHandicap | format/format.go:66-81 | With the games counted on the oriented sets, A -0.5 is priced at 1 for a best-of-3 that A swept. |
| Service.ScaleIntoProbabilities | service/calculations.go:18-24 | For a + b != 0 the outputs are a/(a+b) and b/(a+b). They sum to 1, and they lie in [0,1] for non-negative inputs. |
| Service.ScaleInvariant | service/calculations.go:18-24 | Scaling both weights by the same non-zero factor leaves the shares unchanged. |
| Service.ScaleIdempotent | service/calculations.go:18-24 | Scaling a pair that already sums to 1 gives the same pair. |
| Service.CountScores | service/calculations.go:34-44 | The map's keys are exactly the score pairs of the input, and each count is that pair's number of occurrences. |
| Service.MatchPercentages | service/calculations.go:33-55 | The output is a frequency table of the input, in whatever order the map's keys are visited. It has one entry per distinct (ResultA, ResultB) pair and no other, each with probability count/len(input) in (0,1]. The masses sum to 1 for non-empty input, and the output is empty for empty input. |
| Service.FrequencyTableMass | service/calculations.go:46-52 | Any frequency table of a non-empty input has total mass 1. |
| Service.FrequencyTableEntries | service/calculations.go:46-52 | Every entry of a frequency table has mass in (0,1]. |
| Service.OccurrencesPositive | service/calculations.go:38-44 | A score occurs in a list exactly when it is one of the list's scores. |
| Service.HandicapProbabilities | service/calculations.go:65-93 | ProbA is the mass of the results passing the handicap test and ProbB the mass of the rest, so ProbA + ProbB is the total input mass. The test is B - A < h for h < 0 and B - A > h otherwise. |
| Service.HandicapTestMeaning | service/calculations.go:71-85 | For h < 0, ProbA is the mass where A's score plus h beats B's. For h >= 0 it is the mass where B's score beats A's plus h. |
| Service.MassPartition | service/calculations.go:69-86 | Each result's mass goes to exactly one side of any test, so the two sides sum to the total mass. |
| Service.TotalProbabilities | service/calculations.go:103-123 | The over is the mass of results with ResultA + ResultB > ou and the under the mass of the rest, and together they are the total mass. |
| Service.OverAntitone | service/calculations.go:111 | Over non-negative masses, raising the line never raises the over. |
| Service.SplitsOfTableSumToOne | service/calculations.go:65-123 | Applied to a frequency table of non-empty input, both the handicap split and the total split sum to 1. |
| Server.ValidateInputs | main.go:217-228 | Any parse error gives the parse-error message whatever the values. Otherwise a best-of other than 3 or 5 gives the best-of message, before the range check. With no parse error and a valid best-of, a value that is not NaN and lies outside [0,1] gives the range message; in particular +Inf or -Inf (which strconv.ParseFloat returns for "Inf" with a nil error) does. For values that are not NaN the result is nil exactly when there is no error, the best-of is 3 or 5 and both probabilities are finite and lie in [0,1]. |
| Server.ValidateBoundaries | main.go:224-227 | 0.0 and 1.0 are accepted, and -0.1, 1.1, +Inf and -Inf are rejected with the range message. |
| Server.NaNProbabilityAccepted | main.go:224 | As written, a NaN probability passes validation although it is not a probability. |
| Server.ValidateInputsRejectingNaN | main.go:217-228 | The corrected validation returns nil exactly when there is no parse error, the best-of is 3 or 5 and both values are finite and in [0,1]. |
| Server.RejectingNaNAgrees | main.go:217-228 | On values that are not NaN the corrected validation answers as the original does. |
| Server.PushedShape | main.go:40-47 | One push keeps at most 1000 entries and puts the new stat last. When the buffer was full the oldest entry is dropped and the others keep their order; otherwise nothing is dropped. |
| Server.PushedLatest | main.go:40-47 | Pushing onto the latest 1000 stats of a history gives the latest 1000 stats of the extended history. |
| Server.StatsBuffer.constructor | main.go:35-38 | The buffer starts empty, with an empty history. |
| Server.StatsBuffer.AddRequestStat | main.go:40-47 | After the push the buffer holds the latest maxStats = 1000 stats ever added, oldest first. The history grows by the new stat. |
| Server.CountsPartition | main.go:142-146 | Every stat counts once, as a success when Success == 1 and as an error otherwise. |
| Server.Summarize | main.go:134-153 | The total is len(stats), with successCount + errorCount == total. The averages are the means of the three fields, and 0 when there are no stats. |
| Server.SummaryBounded | main.go:18 | A summary of the buffer counts at most 1000 requests. While at most 1000 were ever added the buffer is the whole history. After that it is exactly the last 1000. |
| Server.DeriveProbabilities | main.go:205-215 | Each of the five fields comes from its own market function: moneyline, set handicaps, game handicaps, set totals and game totals. |
| Server.DerivedPricesAreProbabilities | main.go:205-215 | For a non-empty batch every price in the result sums to 1 and lies in [0,1]. The moneyline has market code "ML" at line "ml", the handicap ladders have code "AH" and the total ladders "OU". |

## Left out

- The HTTP handlers, JSON encoding, `main`, signal handling and the mutex around the statistics buffer are left out. `AddRequestStat` is one sequential operation on one buffer.
- The handler's parsing of query strings is abstracted: `ValidateInputs` takes the parsed values and whether each parse failed. A probability value is `Finite(x)`, `PosInf`, `NegInf` or `NaN`, the four kinds of result strconv.ParseFloat can return. An out-of-range literal such as "1e400" gives ±Inf together with a non-nil error, so it is a parse error.
- `rand.Float64` is not modelled as a distribution. Each draw is an explicit input: a boolean stream of game outcomes and a real tiebreak draw. The statistical win rates are therefore out of scope.
- `simulateGame`'s closed form (math.Pow and clamping) is left out. The server's game-win probability enters only through the game outcome stream.
- float64 rounding is not modelled: probabilities and shares are exact `real`s. The one non-finite value the market code can produce, 0/0 for an empty match list, is modelled as NaN.
- The `"%.1f"` line labels of the markets and of service/calculations.go are left out. A line is its half-integer value.
- Server.Summarize: the int64 sums are unbounded integers, so overflow of the sums is not modelled.
- Sim.SimulateSingleMatch: the panic of make(…, 0, setsToWin*2-1) for setsToWin = 0 is not modelled; the method requires setsToWin >= 1, which every caller meets (bo/2 + 1 after the best-of check).
- Format.GetSetTotals: the counting loop in its best-of-3 branch has no effect on the result and is not modelled.
- Service.ScaleIntoProbabilities: requires a + b != 0; the a + b = 0 case (division by zero, which gives NaN or infinities in Go) is not modelled.
- gotennis.go is a superseded variant that does not compile, and is not part of this model.
- TotalProbabilitiesRange and HandicapsRange call functions that do not exist, and are not part of this model.
- model/model.go only declares types. `Result` and `Probability` are re-declared in `Service`.
- The unused `SimResult` type and the benchmarks are left out.
- The market layer follows the code as written: the game markets count the stored columns of each set. The corrected orientation is a separate definition (see Findings).
- The first server of a set follows the code: it depends on the parity of sets played so far, not of games played.
- The handicap split of service/calculations.go follows the code: for h >= 0 a result counts for A when B - A > h.

## Findings

| source | as written | input that shows it | evidently intended | confidence | as-written member | corrected member |
|---|---|---|---|---|---|---|
| sim/sim.go:83 | The set is appended as played. An odd-indexed set is played with B's parameters as player 1, so its A column holds B's games, and getMatchGames (format/format.go:83-90) adds those columns up as they are. | A best-of-3 in which A wins every game: SetResults is [6-0, 0-6], getMatchGames gives 6-6, and A -0.5 on the game handicap is priced at 0. | Store each set from A's side, as the set credit already does, so A's games are 12-0 and A -0.5 is priced at 1. | high, not executed | Format.SweepMatchGamesAsWritten | Format.SweepOrientedGameHandicap |
| main.go:224 | The range check is written as p < 0 \|\| p > 1. Every comparison with NaN is false, so NaN passes, and strconv.ParseFloat accepts "NaN". | p1 = "NaN", p2 = "0.5", bestof = "3": validateInputs returns nil. | Reject any value that is not in [0,1]. | high, not executed | Server.NaNProbabilityAccepted | Server.ValidateInputsRejectingNaN |
