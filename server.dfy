/**
 * The sequential pieces of main.go: request validation, the bounded buffer
 * of request statistics, the summary computed over it, and the composition
 * of the market functions into one simulation result.
 */
module Server {
  import opened Wrappers
  import opened Sim
  import opened Format

  // ---------------------------------------------------------------------------
  // validateInputs
  // ---------------------------------------------------------------------------

  const ParseErrorMessage: string := "invalid query parameters: parse error"
  const BestofErrorMessage: string := "invalid bestof value: must be 3 or 5"
  const RangeErrorMessage: string := "probabilities must be between 0 and 1"

  /** Go's float64 comparison x < c for a finite c: true for -Inf, false whenever x is NaN. */
  predicate GoLess(x: Float, c: real)
  {
    x.NegInf? || (x.Finite? && x.val < c)
  }

  /** Go's float64 comparison x > c for a finite c: true for +Inf, false whenever x is NaN. */
  predicate GoGreater(x: Float, c: real)
  {
    x.PosInf? || (x.Finite? && x.val > c)
  }

  /** A probability in [0, 1] in the ordinary sense: finite and between the bounds. */
  predicate IsProbability(x: Float)
  {
    x.Finite? && 0.0 <= x.val <= 1.0
  }

  /**
   * validateInputs: the parse errors first, then the best-of, then the range
   * of the two probabilities; None is Go's nil. err1..err3 say whether each
   * parse returned a non-nil error.
   */
  function ValidateInputs(p1: Float, p2: Float, bestof: int, err1: bool, err2: bool, err3: bool): (r: Option<string>)
    ensures err1 || err2 || err3 ==> r == Some(ParseErrorMessage)
    ensures !(err1 || err2 || err3) && bestof != 3 && bestof != 5 ==> r == Some(BestofErrorMessage)
    ensures r.Some? ==> r.value in {ParseErrorMessage, BestofErrorMessage, RangeErrorMessage}
    ensures (!(err1 || err2 || err3) && (bestof == 3 || bestof == 5) && !p1.NaN? && !p2.NaN?
             && !(IsProbability(p1) && IsProbability(p2))) ==> r == Some(RangeErrorMessage)
    ensures (!(err1 || err2 || err3) && (bestof == 3 || bestof == 5)
             && (p1.PosInf? || p1.NegInf? || p2.PosInf? || p2.NegInf?)) ==> r == Some(RangeErrorMessage)
    ensures !p1.NaN? && !p2.NaN? ==>
      (r == None <==> !err1 && !err2 && !err3 && (bestof == 3 || bestof == 5) && IsProbability(p1) && IsProbability(p2))
  {
    if err1 || err2 || err3 then Some(ParseErrorMessage)
    else if bestof != 3 && bestof != 5 then Some(BestofErrorMessage)
    else if GoLess(p1, 0.0) || GoGreater(p1, 1.0) || GoLess(p2, 0.0) || GoGreater(p2, 1.0) then Some(RangeErrorMessage)
    else None
  }

  /** The bounds themselves are accepted: 0 and 1 are probabilities. */
  lemma ValidateBoundaries(bestof: int)
    requires bestof == 3 || bestof == 5
    ensures ValidateInputs(Finite(0.0), Finite(1.0), bestof, false, false, false) == None
    ensures ValidateInputs(Finite(1.0), Finite(0.0), bestof, false, false, false) == None
    ensures ValidateInputs(Finite(-0.1), Finite(0.5), bestof, false, false, false) == Some(RangeErrorMessage)
    ensures ValidateInputs(Finite(0.5), Finite(1.1), bestof, false, false, false) == Some(RangeErrorMessage)
    ensures ValidateInputs(PosInf, Finite(0.5), bestof, false, false, false) == Some(RangeErrorMessage)
    ensures ValidateInputs(Finite(0.5), NegInf, bestof, false, false, false) == Some(RangeErrorMessage)
  {
  }

  /**
   * As written, a probability that parses as NaN (strconv.ParseFloat accepts
   * "NaN") passes validation, because every comparison with NaN is false.
   */
  lemma NaNProbabilityAccepted(p2: Float, bestof: int)
    requires bestof == 3 || bestof == 5
    requires IsProbability(p2)
    ensures ValidateInputs(NaN, p2, bestof, false, false, false) == None
    ensures !IsProbability(NaN)
  {
  }

  /** validateInputs with the range check stated positively, so that NaN is rejected. */
  function ValidateInputsRejectingNaN(p1: Float, p2: Float, bestof: int, err1: bool, err2: bool, err3: bool): (r: Option<string>)
    ensures r == None <==> !err1 && !err2 && !err3 && (bestof == 3 || bestof == 5) && IsProbability(p1) && IsProbability(p2)
    ensures r.Some? ==> r.value in {ParseErrorMessage, BestofErrorMessage, RangeErrorMessage}
  {
    if err1 || err2 || err3 then Some(ParseErrorMessage)
    else if bestof != 3 && bestof != 5 then Some(BestofErrorMessage)
    else if !IsProbability(p1) || !IsProbability(p2) then Some(RangeErrorMessage)
    else None
  }

  /** On inputs that are not NaN the corrected validation gives the same answer as the original. */
  lemma RejectingNaNAgrees(p1: Float, p2: Float, bestof: int, err1: bool, err2: bool, err3: bool)
    requires !p1.NaN? && !p2.NaN?
    ensures ValidateInputsRejectingNaN(p1, p2, bestof, err1, err2, err3) == ValidateInputs(p1, p2, bestof, err1, err2, err3)
  {
  }

  // ---------------------------------------------------------------------------
  // addRequestStat
  // ---------------------------------------------------------------------------

  const MaxStats: nat := 1000

  datatype RequestStat = RequestStat(
    timestamp: int, simulations: int, simulationTime: int, responseTime: int, success: int, error: int)

  /** The buffer after adding x: the oldest entry goes when the buffer is full. */
  function Pushed(s: seq<RequestStat>, x: RequestStat): seq<RequestStat>
  {
    (if |s| >= MaxStats then s[1..] else s) + [x]
  }

  /** The last MaxStats entries of a history, in arrival order (all of it when shorter). */
  function Latest(history: seq<RequestStat>): seq<RequestStat>
  {
    if |history| <= MaxStats then history else history[|history| - MaxStats..]
  }

  /** One push: at most MaxStats entries, the new one last, the others kept in order. */
  lemma PushedShape(s: seq<RequestStat>, x: RequestStat)
    requires |s| <= MaxStats
    ensures var r := Pushed(s, x);
      && |r| <= MaxStats
      && r[|r| - 1] == x
      && (|s| < MaxStats ==> r[..|r| - 1] == s)
      && (|s| == MaxStats ==> r[..|r| - 1] == s[1..])
  {
  }

  /** Pushing onto the latest entries of a history gives the latest entries of the longer history. */
  lemma PushedLatest(history: seq<RequestStat>, x: RequestStat)
    ensures Pushed(Latest(history), x) == Latest(history + [x])
  {
    var h := history + [x];
    if |history| > MaxStats {
      assert Latest(history)[1..] + [x] == h[|h| - MaxStats..];
    } else if |history| == MaxStats {
      assert history[1..] + [x] == h[|h| - MaxStats..];
    }
  }

  /** The statistics buffer: requestStats, with the history of every added stat as a ghost field. */
  class StatsBuffer {
    var stats: seq<RequestStat>
    ghost var history: seq<RequestStat>

    /** The buffer holds the latest MaxStats stats ever added, oldest first. */
    ghost predicate Valid()
      reads this
    {
      stats == Latest(history) && |stats| <= MaxStats
    }

    constructor ()
      ensures Valid() && stats == [] && history == []
    {
      stats := [];
      history := [];
    }

    /** addRequestStat, without the mutex. */
    method AddRequestStat(stat: RequestStat)
      requires Valid()
      modifies this
      ensures Valid()
      ensures history == old(history) + [stat]
      ensures stats == Pushed(old(stats), stat)
    {
      PushedLatest(history, stat);
      if |stats| >= MaxStats {
        stats := stats[1..];
      }
      stats := stats + [stat];
      history := history + [stat];
    }
  }

  // ---------------------------------------------------------------------------
  // The summary loop of statsHandler
  // ---------------------------------------------------------------------------

  datatype StatsSummary = StatsSummary(
    totalRequests: int, successCount: int, errorCount: int,
    avgSimulations: real, avgSimulationTime: real, avgResponseTime: real)

  /** The number of stats whose Success field is 1. */
  function SuccessCount(stats: seq<RequestStat>): nat
  {
    if |stats| == 0 then 0
    else SuccessCount(stats[..|stats| - 1]) + (if stats[|stats| - 1].success == 1 then 1 else 0)
  }

  /** The number of stats whose Success field is anything but 1. */
  function ErrorCount(stats: seq<RequestStat>): nat
  {
    if |stats| == 0 then 0
    else ErrorCount(stats[..|stats| - 1]) + (if stats[|stats| - 1].success != 1 then 1 else 0)
  }

  /** Every stat is counted once, as a success or as an error. */
  lemma {:induction false} CountsPartition(stats: seq<RequestStat>)
    ensures SuccessCount(stats) + ErrorCount(stats) == |stats|
  {
    if |stats| > 0 {
      CountsPartition(stats[..|stats| - 1]);
    }
  }

  /** The sum of one field over the stats. */
  function SumOf(stats: seq<RequestStat>, field: RequestStat -> int): int
  {
    if |stats| == 0 then 0 else SumOf(stats[..|stats| - 1], field) + field(stats[|stats| - 1])
  }

  /** The mean of one field, 0 for no stats. */
  function Mean(stats: seq<RequestStat>, field: RequestStat -> int): real
  {
    if |stats| == 0 then 0.0 else SumOf(stats, field) as real / |stats| as real
  }

  const Simulations: RequestStat -> int := (s: RequestStat) => s.simulations
  const SimulationTime: RequestStat -> int := (s: RequestStat) => s.simulationTime
  const ResponseTime: RequestStat -> int := (s: RequestStat) => s.responseTime

  /** The loop of statsHandler over its copy of the buffer. */
  method Summarize(statsCopy: seq<RequestStat>) returns (summary: StatsSummary)
    ensures summary.totalRequests == |statsCopy|
    ensures summary.successCount == SuccessCount(statsCopy) && summary.errorCount == ErrorCount(statsCopy)
    ensures summary.successCount + summary.errorCount == summary.totalRequests
    ensures summary.avgSimulations == Mean(statsCopy, Simulations)
    ensures summary.avgSimulationTime == Mean(statsCopy, SimulationTime)
    ensures summary.avgResponseTime == Mean(statsCopy, ResponseTime)
    ensures |statsCopy| == 0 ==> summary.avgSimulations == 0.0 && summary.avgSimulationTime == 0.0
                                 && summary.avgResponseTime == 0.0
  {
    var sumSimulations, sumSimTime, sumRespTime := 0, 0, 0;
    var successCount, errorCount := 0, 0;
    var total := |statsCopy|;
    for i := 0 to |statsCopy|
      invariant sumSimulations == SumOf(statsCopy[..i], Simulations)
      invariant sumSimTime == SumOf(statsCopy[..i], SimulationTime)
      invariant sumRespTime == SumOf(statsCopy[..i], ResponseTime)
      invariant successCount == SuccessCount(statsCopy[..i]) && errorCount == ErrorCount(statsCopy[..i])
    {
      assert statsCopy[..i + 1][..i] == statsCopy[..i];
      var stat := statsCopy[i];
      sumSimulations := sumSimulations + stat.simulations;
      sumSimTime := sumSimTime + stat.simulationTime;
      sumRespTime := sumRespTime + stat.responseTime;
      if stat.success == 1 {
        successCount := successCount + 1;
      } else {
        errorCount := errorCount + 1;
      }
    }
    assert statsCopy[..|statsCopy|] == statsCopy;
    CountsPartition(statsCopy);
    var avgSim, avgSimTime, avgRespTime := 0.0, 0.0, 0.0;
    if total > 0 {
      avgSim := sumSimulations as real / total as real;
      avgSimTime := sumSimTime as real / total as real;
      avgRespTime := sumRespTime as real / total as real;
    }
    summary := StatsSummary(total, successCount, errorCount, avgSim, avgSimTime, avgRespTime);
  }

  /** A summary of the buffer counts at most MaxStats requests. */
  lemma SummaryBounded(stats: seq<RequestStat>, history: seq<RequestStat>)
    requires stats == Latest(history)
    ensures SuccessCount(stats) + ErrorCount(stats) <= MaxStats
    ensures |history| <= MaxStats ==> stats == history
    ensures |history| > MaxStats ==> |stats| == MaxStats && stats == history[|history| - MaxStats..]
  {
    CountsPartition(stats);
  }

  // ---------------------------------------------------------------------------
  // deriveProbabilities
  // ---------------------------------------------------------------------------

  datatype SimulationResult = SimulationResult(
    moneyline: Probability,
    setHandicaps: seq<Probability>,
    gameHandicaps: seq<Probability>,
    setOU: seq<Probability>,
    gameOU: seq<Probability>)

  /** Every field from its own market function. */
  function DerivedOf(matches: seq<SimulatedMatch>, bestof: int): SimulationResult
  {
    SimulationResult(MoneylineOf(matches), SetHandicapsOf(matches, bestof), GameHandicapsOf(matches, bestof),
                     SetTotalsOf(matches, bestof), GameTotalsOf(matches, bestof))
  }

  /** deriveProbabilities: the five markets of one batch of simulated matches. */
  method DeriveProbabilities(matches: seq<SimulatedMatch>, bestof: int) returns (result: SimulationResult)
    ensures result == DerivedOf(matches, bestof)
  {
    var moneyline := GetMoneyline(matches);
    var setHandicaps := GetSetHandicaps(matches, bestof);
    var gameHandicaps := GetGameHandicaps(matches, bestof);
    var setOU := GetSetTotals(matches, bestof);
    var gameOU := GetGameTotals(matches, bestof);
    result := SimulationResult(moneyline, setHandicaps, gameHandicaps, setOU, gameOU);
  }

  /** A two-sided price the way the markets promise it: finite sides summing to 1. */
  predicate Priced(p: Probability)
  {
    p.probA.Finite? && p.probB.Finite? && p.probA.val + p.probB.val == 1.0 && 0.0 <= p.probA.val <= 1.0
  }

  /**
   * For a non-empty batch every price of the result is a probability pair; the
   * handicap ladders are in market AH and the total ladders in market OU.
   */
  lemma DerivedPricesAreProbabilities(matches: seq<SimulatedMatch>, bestof: int)
    requires |matches| > 0
    ensures var r := DerivedOf(matches, bestof);
      && Priced(r.moneyline) && MarketCode(r.moneyline.market) == "ML" && r.moneyline.line == Ml
      && (forall p :: p in r.setHandicaps ==> Priced(p) && MarketCode(p.market) == "AH")
      && (forall p :: p in r.gameHandicaps ==> Priced(p) && MarketCode(p.market) == "AH")
      && (forall p :: p in r.setOU ==> Priced(p) && MarketCode(p.market) == "OU")
      && (forall p :: p in r.gameOU ==> Priced(p) && MarketCode(p.market) == "OU")
  {
    var r := DerivedOf(matches, bestof);
    if bestof == 3 {
      LadderEntries(matches, SetHandicapLadder, -1.5, 1.5);
    } else {
      LadderEntries(matches, SetHandicapLadder, -2.5, 2.5);
      LadderEntries(matches, SetTotalLadder, 3.5, 4.5);
    }
    var s := MapBOToGameSpread(bestof);
    LadderEntries(matches, GameHandicapLadder, -s, s);
    LadderEntries(matches, GameTotalLadder, ((GoHalf(bestof) + 1) * 6) as real + 0.5, (bestof * 6 * 2) as real + 0.5);
  }
}
