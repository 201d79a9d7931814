/**
 * The market layer of format/format.go: two-sided probabilities (moneyline,
 * game and set handicaps, game and set totals) counted over a list of
 * simulated matches, and the ladders of lines each market is priced at.
 *
 * Go's float64 division is modelled over `real`; the only non-finite value the
 * market code can produce is 0/0 = NaN (an empty match list), represented
 * explicitly. The infinities are there for the parsed request values.
 * The "%.1f" label of a line is left out: a line is its half-integer value.
 */
module Format {
  import opened Sim

  /** The three market codes: "ML", "AH" and "OU". */
  datatype Market = Moneyline | Handicap | Total

  function MarketCode(m: Market): (code: string)
    ensures |code| == 2
  {
    match m
    case Moneyline => "ML"
    case Handicap => "AH"
    case Total => "OU"
  }

  /** A priced line: the moneyline ("ml") or a numeric handicap or total. */
  datatype Line = Ml | At(value: real)

  /**
   * A float64 value: finite, one of the two infinities, or NaN. The market
   * code only produces finite values and NaN; strconv.ParseFloat can return
   * any of the four.
   */
  datatype Float = Finite(val: real) | PosInf | NegInf | NaN

  datatype Probability = Probability(market: Market, line: Line, probA: Float, probB: Float)

  const Bo3GameSpread: real := 8.5
  const Bo5GameSpread: real := 12.5

  // ---------------------------------------------------------------------------
  // Counting and the shared shape of every market
  // ---------------------------------------------------------------------------

  /** The number of elements of xs satisfying p. */
  function Count<T>(xs: seq<T>, p: T -> bool): (n: nat)
    ensures n <= |xs|
  {
    if |xs| == 0 then 0 else Count(xs[..|xs| - 1], p) + (if p(xs[|xs| - 1]) then 1 else 0)
  }

  /** A counter that only ever sees more elements satisfies at least as many. */
  lemma {:induction false} CountMonotone<T>(xs: seq<T>, p: T -> bool, q: T -> bool)
    requires forall i :: 0 <= i < |xs| ==> p(xs[i]) ==> q(xs[i])
    ensures Count(xs, p) <= Count(xs, q)
  {
    if |xs| > 0 {
      CountMonotone(xs[..|xs| - 1], p, q);
    }
  }

  /** Counters that agree on every element agree on the count. */
  lemma CountSame<T>(xs: seq<T>, p: T -> bool, q: T -> bool)
    requires forall i :: 0 <= i < |xs| ==> p(xs[i]) == q(xs[i])
    ensures Count(xs, p) == Count(xs, q)
  {
    CountMonotone(xs, p, q);
    CountMonotone(xs, q, p);
  }

  /** float64(n) / float64(len): NaN exactly when the list is empty. */
  function Ratio(n: nat, len: nat): (r: Float)
    requires n <= len
    ensures r.NaN? <==> len == 0
    ensures r.Finite? <==> len > 0
    ensures r.Finite? ==> 0.0 <= r.val <= 1.0
  {
    if len == 0 then NaN else Finite(n as real / len as real)
  }

  /** 1 - x in float64; NaN stays NaN and an infinity changes sign. */
  function OneMinus(x: Float): (r: Float)
    ensures r.NaN? <==> x.NaN?
    ensures r.Finite? <==> x.Finite?
    ensures r.PosInf? <==> x.NegInf?
    ensures r.Finite? ==> r.val + x.val == 1.0
  {
    match x
    case NaN => NaN
    case PosInf => NegInf
    case NegInf => PosInf
    case Finite(v) => Finite(1.0 - v)
  }

  /**
   * The probability the code returns for n favourable matches out of len:
   * ProbA = n/len and ProbB = 1 - n/len.
   */
  function Split(market: Market, line: Line, n: nat, len: nat): (p: Probability)
    requires n <= len
    ensures p.market == market && p.line == line
    ensures len > 0 ==> p.probA == Finite(n as real / len as real)
    ensures len > 0 ==> p.probB.Finite? && p.probA.val + p.probB.val == 1.0 && 0.0 <= p.probB.val <= 1.0
    ensures len == 0 ==> p.probA == NaN && p.probB == NaN
  {
    Probability(market, line, Ratio(n, len), OneMinus(Ratio(n, len)))
  }

  /** Fewer favourable matches out of the same non-empty list give a smaller ProbA. */
  lemma SplitMonotone(market: Market, line: Line, market': Market, line': Line, n: nat, n': nat, len: nat)
    requires n <= n' <= len && len > 0
    ensures Split(market, line, n, len).probA.val <= Split(market', line', n', len).probA.val
  {
    var d := len as real;
    assert n as real / d <= n' as real / d by {
      assert n' as real / d - n as real / d == (n' - n) as real / d;
    }
  }

  // ---------------------------------------------------------------------------
  // getMatchGames
  // ---------------------------------------------------------------------------

  /** The sum of the A columns of a list of sets. */
  function GamesA(sets: seq<SimulatedSet>): int
  {
    if |sets| == 0 then 0 else GamesA(sets[..|sets| - 1]) + sets[|sets| - 1].aGames
  }

  /** The sum of the B columns of a list of sets. */
  function GamesB(sets: seq<SimulatedSet>): int
  {
    if |sets| == 0 then 0 else GamesB(sets[..|sets| - 1]) + sets[|sets| - 1].bGames
  }

  /** getMatchGames: the games in the A and B columns of the match's sets, as stored. */
  method GetMatchGames(m: SimulatedMatch) returns (aGames: int, bGames: int)
    ensures aGames == GamesA(m.setResults) && bGames == GamesB(m.setResults)
    ensures |m.setResults| == 0 ==> aGames == 0 && bGames == 0
  {
    var sets := m.setResults;
    aGames, bGames := 0, 0;
    for i := 0 to |sets|
      invariant aGames == GamesA(sets[..i]) && bGames == GamesB(sets[..i])
    {
      assert sets[..i + 1][..i] == sets[..i];
      aGames := aGames + sets[i].aGames;
      bGames := bGames + sets[i].bGames;
    }
    assert sets[..|sets|] == sets;
  }

  /** In valid sets every set holds between 6 and 13 games. */
  lemma {:induction false} MatchGamesBounds(sets: seq<SimulatedSet>)
    requires forall i :: 0 <= i < |sets| ==> ValidSetScore(sets[i])
    ensures 6 * |sets| <= GamesA(sets) + GamesB(sets) <= 13 * |sets|
  {
    if |sets| > 0 {
      MatchGamesBounds(sets[..|sets| - 1]);
    }
  }

  /**
   * The games of the match with every set turned back to A's point of view
   * (see Sim.OrientedSetResults): the total the game markets evidently intend.
   */
  function OrientedMatchGames(m: SimulatedMatch): (int, int)
  {
    var sets := OrientedSetResults(m.setResults);
    (GamesA(sets), GamesB(sets))
  }

  /** Turning the sets round moves games between the columns but keeps their total. */
  lemma {:induction false} OrientedTotalsAgree(sets: seq<SimulatedSet>)
    ensures GamesA(OrientedSetResults(sets)) + GamesB(OrientedSetResults(sets)) == GamesA(sets) + GamesB(sets)
  {
    if |sets| > 0 {
      var init := sets[..|sets| - 1];
      OrientedTotalsAgree(init);
      assert OrientedSetResults(sets)[..|sets| - 1] == OrientedSetResults(init);
    }
  }

  /**
   * The corrected games of a match: the oriented columns are the games of A and
   * B, so the total is that of the stored columns, and for a best-of-3 swept by A
   * they read 12-0 where the stored columns read 6-6.
   */
  lemma OrientedMatchGamesSound(m: SimulatedMatch, pA: real, pB: real, tiebreakDraws: nat -> real)
    ensures OrientedMatchGames(m).0 + OrientedMatchGames(m).1 == GamesA(m.setResults) + GamesB(m.setResults)
    ensures m == MatchOutcome(pA, pB, 2, AWinsEveryGame, tiebreakDraws) ==> OrientedMatchGames(m) == (12, 0)
  {
    OrientedTotalsAgree(m.setResults);
    if m == MatchOutcome(pA, pB, 2, AWinsEveryGame, tiebreakDraws) {
      SweepRawSetResults(pA, pB, tiebreakDraws);
      var oriented := [SimulatedSet(6, 0), SimulatedSet(6, 0)];
      assert oriented[..1] == [SimulatedSet(6, 0)];
      assert GamesA(oriented) == 12 && GamesB(oriented) == 0;
    }
  }

  /**
   * As written, getMatchGames gives a best-of-3 that A swept 6-0 6-0 as 6 games
   * each, so the game handicap A -0.5 is priced at 0 although A won every game.
   */
  lemma SweepMatchGamesAsWritten(pA: real, pB: real, tiebreakDraws: nat -> real)
    ensures var m := MatchOutcome(pA, pB, 2, AWinsEveryGame, tiebreakDraws);
      && GamesA(m.setResults) == 6 && GamesB(m.setResults) == 6
      && GameHandicapOf([m], -0.5).probA == Finite(0.0)
  {
    SweepRawSetResults(pA, pB, tiebreakDraws);
    var raw := [SimulatedSet(6, 0), SimulatedSet(0, 6)];
    assert raw[..1] == [SimulatedSet(6, 0)];
    var m := MatchOutcome(pA, pB, 2, AWinsEveryGame, tiebreakDraws);
    assert GamesA(m.setResults) == 6 && GamesB(m.setResults) == 6;
    assert [m][..0] == [];
  }

  /** The game handicap priced on the oriented games: A's own games plus h exceed B's. */
  function CoversOrientedGameHandicap(h: real): SimulatedMatch -> bool
  {
    (m: SimulatedMatch) => OrientedMatchGames(m).0 as real + h > OrientedMatchGames(m).1 as real
  }

  function OrientedGameHandicapOf(sims: seq<SimulatedMatch>, h: real): Probability
  {
    Split(Handicap, At(h), Count(sims, CoversOrientedGameHandicap(h)), |sims|)
  }

  /** Priced on the oriented games, A -0.5 is certain for a best-of-3 that A swept. */
  lemma SweepOrientedGameHandicap(pA: real, pB: real, tiebreakDraws: nat -> real)
    ensures var m := MatchOutcome(pA, pB, 2, AWinsEveryGame, tiebreakDraws);
      OrientedGameHandicapOf([m], -0.5).probA == Finite(1.0)
  {
    var m := MatchOutcome(pA, pB, 2, AWinsEveryGame, tiebreakDraws);
    OrientedMatchGamesSound(m, pA, pB, tiebreakDraws);
    SingleCoveringMatch(m);
  }

  lemma SingleCoveringMatch(m: SimulatedMatch)
    requires OrientedMatchGames(m) == (12, 0)
    ensures OrientedGameHandicapOf([m], -0.5).probA == Finite(1.0)
  {
    assert [m][..0] == [];
    assert CoversOrientedGameHandicap(-0.5)(m);
  }

  // ---------------------------------------------------------------------------
  // The five markets, one line each
  // ---------------------------------------------------------------------------

  const WinsMatch: SimulatedMatch -> bool := (m: SimulatedMatch) => m.aSets > m.bSets

  function CoversGameHandicap(h: real): SimulatedMatch -> bool
  {
    (m: SimulatedMatch) => GamesA(m.setResults) as real + h > GamesB(m.setResults) as real
  }

  function OverGameTotal(total: real): SimulatedMatch -> bool
  {
    (m: SimulatedMatch) => (GamesA(m.setResults) + GamesB(m.setResults)) as real > total
  }

  function CoversSetHandicap(h: real): SimulatedMatch -> bool
  {
    (m: SimulatedMatch) => m.aSets as real + h > m.bSets as real
  }

  function OverSetTotal(total: real): SimulatedMatch -> bool
  {
    (m: SimulatedMatch) => (m.aSets + m.bSets) as real > total
  }

  function MoneylineOf(sims: seq<SimulatedMatch>): Probability
  {
    Split(Moneyline, Ml, Count(sims, WinsMatch), |sims|)
  }

  function GameHandicapOf(sims: seq<SimulatedMatch>, h: real): Probability
  {
    Split(Handicap, At(h), Count(sims, CoversGameHandicap(h)), |sims|)
  }

  function GameTotalOf(sims: seq<SimulatedMatch>, total: real): Probability
  {
    Split(Total, At(total), Count(sims, OverGameTotal(total)), |sims|)
  }

  function SetHandicapOf(sims: seq<SimulatedMatch>, h: real): Probability
  {
    Split(Handicap, At(h), Count(sims, CoversSetHandicap(h)), |sims|)
  }

  function SetTotalOf(sims: seq<SimulatedMatch>, total: real): Probability
  {
    Split(Total, At(total), Count(sims, OverSetTotal(total)), |sims|)
  }

  /** GetMoneyline: the share of matches A won on sets, and its complement. */
  method GetMoneyline(sims: seq<SimulatedMatch>) returns (p: Probability)
    ensures p == MoneylineOf(sims)
  {
    var n := 0;
    for i := 0 to |sims|
      invariant n == Count(sims[..i], WinsMatch)
    {
      assert sims[..i + 1][..i] == sims[..i];
      if sims[i].aSets > sims[i].bSets {
        n := n + 1;
      }
    }
    assert sims[..|sims|] == sims;
    p := Probability(Moneyline, Ml, Ratio(n, |sims|), OneMinus(Ratio(n, |sims|)));
  }

  /** getGameHandicap: the share of matches where A's games plus h exceed B's. */
  method GetGameHandicap(sims: seq<SimulatedMatch>, h: real) returns (p: Probability)
    ensures p == GameHandicapOf(sims, h)
  {
    var n := 0;
    for i := 0 to |sims|
      invariant n == Count(sims[..i], CoversGameHandicap(h))
    {
      assert sims[..i + 1][..i] == sims[..i];
      var aGames, bGames := GetMatchGames(sims[i]);
      if aGames as real + h > bGames as real {
        n := n + 1;
      }
    }
    assert sims[..|sims|] == sims;
    p := Probability(Handicap, At(h), Ratio(n, |sims|), OneMinus(Ratio(n, |sims|)));
  }

  /** getGameTotal: the share of matches with more games than the line. */
  method GetGameTotal(sims: seq<SimulatedMatch>, total: real) returns (p: Probability)
    ensures p == GameTotalOf(sims, total)
  {
    var n := 0;
    for i := 0 to |sims|
      invariant n == Count(sims[..i], OverGameTotal(total))
    {
      assert sims[..i + 1][..i] == sims[..i];
      var aGames, bGames := GetMatchGames(sims[i]);
      if (aGames + bGames) as real > total {
        n := n + 1;
      }
    }
    assert sims[..|sims|] == sims;
    p := Probability(Total, At(total), Ratio(n, |sims|), OneMinus(Ratio(n, |sims|)));
  }

  /** getSetHandicap: the share of matches where A's sets plus h exceed B's. */
  method GetSetHandicap(sims: seq<SimulatedMatch>, h: real) returns (p: Probability)
    ensures p == SetHandicapOf(sims, h)
  {
    var n := 0;
    for i := 0 to |sims|
      invariant n == Count(sims[..i], CoversSetHandicap(h))
    {
      assert sims[..i + 1][..i] == sims[..i];
      if sims[i].aSets as real + h > sims[i].bSets as real {
        n := n + 1;
      }
    }
    assert sims[..|sims|] == sims;
    p := Probability(Handicap, At(h), Ratio(n, |sims|), OneMinus(Ratio(n, |sims|)));
  }

  /** getSetTotal: the share of matches with more sets than the line. */
  method GetSetTotal(sims: seq<SimulatedMatch>, total: real) returns (p: Probability)
    ensures p == SetTotalOf(sims, total)
  {
    var n := 0;
    for i := 0 to |sims|
      invariant n == Count(sims[..i], OverSetTotal(total))
    {
      assert sims[..i + 1][..i] == sims[..i];
      if (sims[i].aSets + sims[i].bSets) as real > total {
        n := n + 1;
      }
    }
    assert sims[..|sims|] == sims;
    p := Probability(Total, At(total), Ratio(n, |sims|), OneMinus(Ratio(n, |sims|)));
  }

  // ---------------------------------------------------------------------------
  // Properties of the markets
  // ---------------------------------------------------------------------------

  /** On a non-empty list each market is a probability pair summing to 1; on an empty one both sides are NaN. */
  lemma MarketsAreProbabilities(sims: seq<SimulatedMatch>, line: real)
    ensures forall p :: p in [MoneylineOf(sims), GameHandicapOf(sims, line), GameTotalOf(sims, line),
                              SetHandicapOf(sims, line), SetTotalOf(sims, line)] ==>
      && (|sims| > 0 ==> p.probA.Finite? && p.probB.Finite? && p.probA.val + p.probB.val == 1.0
                         && 0.0 <= p.probA.val <= 1.0)
      && (|sims| == 0 ==> p.probA == NaN && p.probB == NaN)
  {
  }

  /** A larger game handicap for A never lowers ProbA. */
  lemma GameHandicapMonotone(sims: seq<SimulatedMatch>, h: real, h': real)
    requires |sims| > 0 && h <= h'
    ensures GameHandicapOf(sims, h).probA.val <= GameHandicapOf(sims, h').probA.val
  {
    CountMonotone(sims, CoversGameHandicap(h), CoversGameHandicap(h'));
    SplitMonotone(Handicap, At(h), Handicap, At(h'),
      Count(sims, CoversGameHandicap(h)), Count(sims, CoversGameHandicap(h')), |sims|);
  }

  /** A higher game total never raises the probability of the over. */
  lemma GameTotalAntitone(sims: seq<SimulatedMatch>, total: real, total': real)
    requires |sims| > 0 && total <= total'
    ensures GameTotalOf(sims, total').probA.val <= GameTotalOf(sims, total).probA.val
  {
    CountMonotone(sims, OverGameTotal(total'), OverGameTotal(total));
    SplitMonotone(Total, At(total'), Total, At(total),
      Count(sims, OverGameTotal(total')), Count(sims, OverGameTotal(total)), |sims|);
  }

  /** A larger set handicap for A never lowers ProbA. */
  lemma SetHandicapMonotone(sims: seq<SimulatedMatch>, h: real, h': real)
    requires |sims| > 0 && h <= h'
    ensures SetHandicapOf(sims, h).probA.val <= SetHandicapOf(sims, h').probA.val
  {
    CountMonotone(sims, CoversSetHandicap(h), CoversSetHandicap(h'));
    SplitMonotone(Handicap, At(h), Handicap, At(h'),
      Count(sims, CoversSetHandicap(h)), Count(sims, CoversSetHandicap(h')), |sims|);
  }

  /** A higher set total never raises the probability of the over. */
  lemma SetTotalAntitone(sims: seq<SimulatedMatch>, total: real, total': real)
    requires |sims| > 0 && total <= total'
    ensures SetTotalOf(sims, total').probA.val <= SetTotalOf(sims, total).probA.val
  {
    CountMonotone(sims, OverSetTotal(total'), OverSetTotal(total));
    SplitMonotone(Total, At(total'), Total, At(total),
      Count(sims, OverSetTotal(total')), Count(sims, OverSetTotal(total)), |sims|);
  }

  /** The set handicap at 0 prices A exactly as the moneyline does. */
  lemma SetHandicapZeroIsMoneyline(sims: seq<SimulatedMatch>)
    ensures SetHandicapOf(sims, 0.0).probA == MoneylineOf(sims).probA
    ensures SetHandicapOf(sims, 0.0).probB == MoneylineOf(sims).probB
  {
    CountSame(sims, CoversSetHandicap(0.0), WinsMatch);
  }

  /** The game totals market does not depend on which column a set's games sit in. */
  lemma GameTotalIgnoresOrientation(sims: seq<SimulatedMatch>, oriented: seq<SimulatedMatch>, total: real)
    requires |oriented| == |sims|
    requires forall i :: 0 <= i < |sims| ==> oriented[i].setResults == OrientedSetResults(sims[i].setResults)
    ensures GameTotalOf(oriented, total) == GameTotalOf(sims, total)
  {
    forall i | 0 <= i < |sims|
      ensures OverGameTotal(total)(oriented[i]) == OverGameTotal(total)(sims[i])
    {
      OrientedTotalsAgree(sims[i].setResults);
    }
    CountSameAcross(sims, oriented, OverGameTotal(total));
  }

  /** Two lists whose elements at the same index agree under p have the same count. */
  lemma {:induction false} CountSameAcross<T>(xs: seq<T>, ys: seq<T>, p: T -> bool)
    requires |xs| == |ys|
    requires forall i :: 0 <= i < |xs| ==> p(xs[i]) == p(ys[i])
    ensures Count(xs, p) == Count(ys, p)
  {
    if |xs| > 0 {
      CountSameAcross(xs[..|xs| - 1], ys[..|ys| - 1], p);
    }
  }

  // ---------------------------------------------------------------------------
  // Line ladders
  // ---------------------------------------------------------------------------

  /** The number of iterations of `for i := from; i <= to; i++`. */
  function LineCount(from: real, to: real): nat
  {
    if to < from then 0 else (to - from).Floor + 1
  }

  /** Which per-line market a ladder prices. */
  datatype LadderMarket = GameHandicapLadder | GameTotalLadder | SetHandicapLadder | SetTotalLadder

  function PriceOf(sims: seq<SimulatedMatch>, kind: LadderMarket, line: real): Probability
  {
    match kind
    case GameHandicapLadder => GameHandicapOf(sims, line)
    case GameTotalLadder => GameTotalOf(sims, line)
    case SetHandicapLadder => SetHandicapOf(sims, line)
    case SetTotalLadder => SetTotalOf(sims, line)
  }

  method Price(sims: seq<SimulatedMatch>, kind: LadderMarket, line: real) returns (p: Probability)
    ensures p == PriceOf(sims, kind, line)
  {
    match kind
    case GameHandicapLadder => p := GetGameHandicap(sims, line);
    case GameTotalLadder => p := GetGameTotal(sims, line);
    case SetHandicapLadder => p := GetSetHandicap(sims, line);
    case SetTotalLadder => p := GetSetTotal(sims, line);
  }

  /**
   * The stepped loop shared by the Get*Handicaps/Get*Totals functions: one
   * priced line for each of from, from + 1, ... up to and including to.
   */
  method Ladder(sims: seq<SimulatedMatch>, kind: LadderMarket, from: real, to: real) returns (out: seq<Probability>)
    ensures out == LadderOf(sims, kind, from, to)
    ensures |out| == LineCount(from, to)
    ensures forall k :: 0 <= k < |out| ==> out[k] == PriceOf(sims, kind, from + k as real)
  {
    out := [];
    var i := from;
    while i <= to
      invariant i == from + |out| as real
      invariant |out| > 0 ==> i - 1.0 <= to
      invariant forall k :: 0 <= k < |out| ==> out[k] == PriceOf(sims, kind, from + k as real)
      decreases (to - i).Floor + 1
    {
      var p := Price(sims, kind, i);
      out := out + [p];
      i := i + 1.0;
    }
    if to >= from {
      assert |out| > 0;
      assert (to - from).Floor == |out| - 1;
    }
    assert |out| == |LadderOf(sims, kind, from, to)|;
  }

  /** The priced lines from, from + 1, ... up to and including to. */
  function LadderOf(sims: seq<SimulatedMatch>, kind: LadderMarket, from: real, to: real): (r: seq<Probability>)
    ensures |r| == LineCount(from, to)
    ensures forall k :: 0 <= k < |r| ==> r[k] == PriceOf(sims, kind, from + k as real)
  {
    seq(LineCount(from, to), k requires 0 <= k < LineCount(from, to) => PriceOf(sims, kind, from + k as real))
  }

  /** Every line of a ladder is priced in the ladder's market, at its own line, as a probability pair. */
  lemma LadderEntries(sims: seq<SimulatedMatch>, kind: LadderMarket, from: real, to: real)
    ensures var r := LadderOf(sims, kind, from, to);
      forall k :: 0 <= k < |r| ==>
        && r[k].market == (if kind == GameHandicapLadder || kind == SetHandicapLadder then Handicap else Total)
        && r[k].line == At(from + k as real)
        && (|sims| > 0 ==> r[k].probA.Finite? && r[k].probB.Finite? && r[k].probA.val + r[k].probB.val == 1.0)
  {
  }

  /** mapBOToGameSpread: the widest game handicap priced for a best-of. */
  function MapBOToGameSpread(bo: int): (spread: real)
    ensures bo == 3 ==> spread == 8.5
    ensures bo == 5 ==> spread == 12.5
    ensures bo != 3 && bo != 5 ==> spread == 0.0
  {
    match bo
    case 3 => Bo3GameSpread
    case 5 => Bo5GameSpread
    case _ => 0.0
  }

  /** Go's `bestof/2`: integer division truncating toward zero. */
  function GoHalf(a: int): (q: int)
    ensures a >= 0 ==> 0 <= a - 2 * q <= 1
    ensures a < 0 ==> -1 <= a - 2 * q <= 0
  {
    if a >= 0 then a / 2 else -((-a) / 2)
  }

  /** The game handicap ladder for a best-of: -spread, -spread + 1, ..., spread. */
  function GameHandicapsOf(sims: seq<SimulatedMatch>, bestof: int): seq<Probability>
  {
    var r := MapBOToGameSpread(bestof);
    LadderOf(sims, GameHandicapLadder, -r, r)
  }

  /** The game total ladder for a best-of: (bestof/2 + 1)*6 + 0.5, ..., bestof*12 + 0.5. */
  function GameTotalsOf(sims: seq<SimulatedMatch>, bestof: int): seq<Probability>
  {
    LadderOf(sims, GameTotalLadder, ((GoHalf(bestof) + 1) * 6) as real + 0.5, (bestof * 6 * 2) as real + 0.5)
  }

  function SetHandicapsOf(sims: seq<SimulatedMatch>, bestof: int): seq<Probability>
  {
    if bestof == 3 then LadderOf(sims, SetHandicapLadder, -1.5, 1.5)
    else LadderOf(sims, SetHandicapLadder, -2.5, 2.5)
  }

  function SetTotalsOf(sims: seq<SimulatedMatch>, bestof: int): seq<Probability>
  {
    if bestof == 3 then [SetTotalOf(sims, 2.5)] else LadderOf(sims, SetTotalLadder, 3.5, 4.5)
  }

  /** GetGameHandicaps: game handicap lines from -spread to spread. */
  method GetGameHandicaps(sims: seq<SimulatedMatch>, bestof: int) returns (out: seq<Probability>)
    ensures out == GameHandicapsOf(sims, bestof)
    ensures bestof == 3 ==> |out| == 18 && out[0].line == At(-8.5) && out[17].line == At(8.5)
    ensures bestof == 5 ==> |out| == 26 && out[0].line == At(-12.5) && out[25].line == At(12.5)
    ensures bestof != 3 && bestof != 5 ==> out == [GameHandicapOf(sims, 0.0)]
  {
    var r := MapBOToGameSpread(bestof);
    out := Ladder(sims, GameHandicapLadder, -r, r);
  }

  /** GetGameTotals: game total lines from (bestof/2 + 1)*6 + 0.5 to bestof*12 + 0.5. */
  method GetGameTotals(sims: seq<SimulatedMatch>, bestof: int) returns (out: seq<Probability>)
    ensures out == GameTotalsOf(sims, bestof)
    ensures bestof == 3 ==> |out| == 25 && out[0].line == At(12.5) && out[24].line == At(36.5)
    ensures bestof == 5 ==> |out| == 43 && out[0].line == At(18.5) && out[42].line == At(60.5)
    ensures bestof <= 0 ==> out == []
  {
    out := Ladder(sims, GameTotalLadder, ((GoHalf(bestof) + 1) * 6) as real + 0.5, (bestof * 6 * 2) as real + 0.5);
  }

  /** GetSetHandicaps: -1.5 to 1.5 for best-of-3, -2.5 to 2.5 for anything else. */
  method GetSetHandicaps(sims: seq<SimulatedMatch>, bestof: int) returns (out: seq<Probability>)
    ensures out == SetHandicapsOf(sims, bestof)
    ensures bestof == 3 ==> out == [SetHandicapOf(sims, -1.5), SetHandicapOf(sims, -0.5),
                                    SetHandicapOf(sims, 0.5), SetHandicapOf(sims, 1.5)]
    ensures bestof != 3 ==> out == [SetHandicapOf(sims, -2.5), SetHandicapOf(sims, -1.5), SetHandicapOf(sims, -0.5),
                                    SetHandicapOf(sims, 0.5), SetHandicapOf(sims, 1.5), SetHandicapOf(sims, 2.5)]
  {
    if bestof == 3 {
      out := Ladder(sims, SetHandicapLadder, -1.5, 1.5);
    } else {
      out := Ladder(sims, SetHandicapLadder, -2.5, 2.5);
    }
  }

  /** GetSetTotals: the single line 2.5 for best-of-3, 3.5 and 4.5 for anything else. */
  method GetSetTotals(sims: seq<SimulatedMatch>, bestof: int) returns (out: seq<Probability>)
    ensures out == SetTotalsOf(sims, bestof)
    ensures bestof == 3 ==> out == [SetTotalOf(sims, 2.5)]
    ensures bestof != 3 ==> out == [SetTotalOf(sims, 3.5), SetTotalOf(sims, 4.5)]
  {
    if bestof == 3 {
      var p := GetSetTotal(sims, 2.5);
      out := [p];
    } else {
      out := Ladder(sims, SetTotalLadder, 3.5, 4.5);
    }
  }
}
