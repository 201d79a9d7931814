/**
 * Model of sim/sim.go: the exact tiebreak solver, the set and match state
 * machines and the Monte Carlo driver.
 *
 * Every random draw of the original is an explicit input here:
 *  - the outcome of game k of a set ("the server wins game k") is serverWins(k),
 *    which stands for the comparison of a uniform draw with the server's game
 *    probability;
 *  - the uniform draw that decides a tiebreak is a real `draw`; the tiebreak is
 *    won by the first player exactly when the solver's value exceeds it.
 * The properties below hold for every such outcome stream.
 */
module Sim {
  import opened Wrappers

  /** Games won by each side in one set, as the simulator reports them. */
  datatype SimulatedSet = SimulatedSet(aGames: int, bGames: int)

  /** Sets won by each side and the list of raw set scores. */
  datatype SimulatedMatch = SimulatedMatch(aSets: int, bSets: int, setResults: seq<SimulatedSet>)

  const MaxTotalTiebreakPoints: nat := 30
  const DefaultSimulations: nat := 1000000
  const InvalidNumberOfSets: string := "invalid number of sets"

  function Abs(x: int): nat
  {
    if x < 0 then -x else x
  }

  // ---------------------------------------------------------------------------
  // Tiebreak solver (aWinsTiebreak)
  // ---------------------------------------------------------------------------

  /** Whether A serves the point played after t points of the tiebreak. */
  function AServesPoint(aServesFirst: bool, t: nat): bool
  {
    if t == 0 then aServesFirst
    else if ((t - 1) / 2) % 2 == 0 then !aServesFirst
    else aServesFirst
  }

  /**
   * The rotation is the tie-break rule of the Rules of Tennis: the first
   * server serves one point, then the players serve two points each in turn.
   * So the first server serves exactly the points t with (t+1)/2 even, the
   * server changes after every even-numbered point and stays after every odd one.
   */
  lemma TiebreakRotation(aServesFirst: bool, t: nat)
    ensures AServesPoint(aServesFirst, t) == (aServesFirst == (((t + 1) / 2) % 2 == 0))
    ensures t % 2 == 0 ==> AServesPoint(aServesFirst, t + 1) != AServesPoint(aServesFirst, t)
    ensures t % 2 == 1 ==> AServesPoint(aServesFirst, t + 1) == AServesPoint(aServesFirst, t)
  {
  }

  /** A's chance of winning the current point: own serve, or 1 - B's serve. */
  function PointWinProbability(probAonServe: real, probBonServe: real, aServes: bool): real
  {
    if aServes then probAonServe else 1.0 - probBonServe
  }

  /** A's chance of winning from a point won with chance q, given the two follow-up values. */
  function Mix(q: real, won: real, lost: real): real
  {
    q * won + (1.0 - q) * lost
  }

  /**
   * The value the memoised recursion computes for the score p1-p2: the chance
   * that A wins the tiebreak from there, with the depth cap at 30 points.
   */
  function TiebreakValue(probAonServe: real, probBonServe: real, aServesFirst: bool, p1: nat, p2: nat): real
    requires p1 + p2 <= MaxTotalTiebreakPoints
    // Only the points left to play make the recursion terminate. probAonServe is listed
    // so that the verifier does not try to evaluate the whole recursion from a literal
    // score such as 0-0; it never decides termination.
    decreases MaxTotalTiebreakPoints - (p1 + p2), probAonServe
  {
    if p1 >= 7 && p1 >= p2 + 2 then 1.0
    else if p2 >= 7 && p2 >= p1 + 2 then 0.0
    else if p1 + p2 >= MaxTotalTiebreakPoints then 0.5
    else
      Mix(PointWinProbability(probAonServe, probBonServe, AServesPoint(aServesFirst, p1 + p2)),
          TiebreakValue(probAonServe, probBonServe, aServesFirst, p1 + 1, p2),
          TiebreakValue(probAonServe, probBonServe, aServesFirst, p1, p2 + 1))
  }

  /** A convex combination of two probabilities is a probability. */
  lemma MixIsProbability(q: real, won: real, lost: real)
    requires 0.0 <= q <= 1.0 && 0.0 <= won <= 1.0 && 0.0 <= lost <= 1.0
    ensures 0.0 <= Mix(q, won, lost) <= 1.0
  {
    assert 0.0 <= q * won <= q;
    assert 0.0 <= (1.0 - q) * lost <= 1.0 - q;
  }

  /** Exchanging the roles of the two players complements a mix. */
  lemma MixSwap(q: real, won: real, lost: real, q': real, won': real, lost': real)
    requires q' == 1.0 - q && won' == 1.0 - lost && lost' == 1.0 - won
    ensures Mix(q', won', lost') == 1.0 - Mix(q, won, lost)
  {
  }

  /** B's chance on the point is the complement of A's, with the server seen from the other side. */
  lemma PointWinSwap(probAonServe: real, probBonServe: real, aServes: bool)
    ensures PointWinProbability(probBonServe, probAonServe, !aServes) == 1.0 - PointWinProbability(probAonServe, probBonServe, aServes)
  {
  }

  lemma RotationSwap(aServesFirst: bool, t: nat)
    ensures AServesPoint(!aServesFirst, t) == !AServesPoint(aServesFirst, t)
  {
  }

  /** The recurrence is a convex combination, so the value is a probability. */
  lemma {:induction false} TiebreakValueIsProbability(probAonServe: real, probBonServe: real, aServesFirst: bool, p1: nat, p2: nat)
    requires 0.0 <= probAonServe <= 1.0 && 0.0 <= probBonServe <= 1.0
    requires p1 + p2 <= MaxTotalTiebreakPoints
    ensures 0.0 <= TiebreakValue(probAonServe, probBonServe, aServesFirst, p1, p2) <= 1.0
    decreases MaxTotalTiebreakPoints - (p1 + p2)
  {
    if !(p1 >= 7 && p1 >= p2 + 2) && !(p2 >= 7 && p2 >= p1 + 2) && p1 + p2 < MaxTotalTiebreakPoints {
      TiebreakValueIsProbability(probAonServe, probBonServe, aServesFirst, p1 + 1, p2);
      TiebreakValueIsProbability(probAonServe, probBonServe, aServesFirst, p1, p2 + 1);
      MixIsProbability(PointWinProbability(probAonServe, probBonServe, AServesPoint(aServesFirst, p1 + p2)),
                       TiebreakValue(probAonServe, probBonServe, aServesFirst, p1 + 1, p2),
                       TiebreakValue(probAonServe, probBonServe, aServesFirst, p1, p2 + 1));
    }
  }

  /**
   * The solver is fair: exchanging the players (their serve probabilities, the
   * first server and the score) gives the complementary probability.
   */
  lemma {:induction false} TiebreakSymmetry(probAonServe: real, probBonServe: real, aServesFirst: bool, p1: nat, p2: nat)
    requires p1 + p2 <= MaxTotalTiebreakPoints
    ensures TiebreakValue(probBonServe, probAonServe, !aServesFirst, p2, p1)
         == 1.0 - TiebreakValue(probAonServe, probBonServe, aServesFirst, p1, p2)
    decreases MaxTotalTiebreakPoints - (p1 + p2)
  {
    if !(p1 >= 7 && p1 >= p2 + 2) && !(p2 >= 7 && p2 >= p1 + 2) && p1 + p2 < MaxTotalTiebreakPoints {
      var s := AServesPoint(aServesFirst, p1 + p2);
      RotationSwap(aServesFirst, p1 + p2);
      PointWinSwap(probAonServe, probBonServe, s);
      TiebreakStep(probAonServe, probBonServe, aServesFirst, p1, p2);
      TiebreakStep(probBonServe, probAonServe, !aServesFirst, p2, p1);
      TiebreakSymmetry(probAonServe, probBonServe, aServesFirst, p1 + 1, p2);
      TiebreakSymmetry(probAonServe, probBonServe, aServesFirst, p1, p2 + 1);
      MixSwap(PointWinProbability(probAonServe, probBonServe, s),
              TiebreakValue(probAonServe, probBonServe, aServesFirst, p1 + 1, p2),
              TiebreakValue(probAonServe, probBonServe, aServesFirst, p1, p2 + 1),
              PointWinProbability(probBonServe, probAonServe, !s),
              TiebreakValue(probBonServe, probAonServe, !aServesFirst, p2 + 1, p1),
              TiebreakValue(probBonServe, probAonServe, !aServesFirst, p2, p1 + 1));
    }
  }

  lemma {:induction false} SureWinnerFrom(aServesFirst: bool, p1: nat)
    requires p1 <= 7
    ensures TiebreakValue(1.0, 0.0, aServesFirst, p1, 0) == 1.0
    decreases 7 - p1
  {
    if p1 < 7 {
      SureWinnerFrom(aServesFirst, p1 + 1);
    }
  }

  /** A player who wins every point on serve and on return wins the tiebreak surely. */
  lemma SureWinner(aServesFirst: bool)
    ensures TiebreakValue(1.0, 0.0, aServesFirst, 0, 0) == 1.0
  {
    SureWinnerFrom(aServesFirst, 0);
  }

  /** One step of the recurrence, for a score that is neither decided nor at the cap. */
  lemma TiebreakStep(probAonServe: real, probBonServe: real, aServesFirst: bool, p1: nat, p2: nat)
    requires !(p1 >= 7 && p1 >= p2 + 2) && !(p2 >= 7 && p2 >= p1 + 2) && p1 + p2 < MaxTotalTiebreakPoints
    ensures TiebreakValue(probAonServe, probBonServe, aServesFirst, p1, p2)
         == Mix(PointWinProbability(probAonServe, probBonServe, AServesPoint(aServesFirst, p1 + p2)),
                TiebreakValue(probAonServe, probBonServe, aServesFirst, p1 + 1, p2),
                TiebreakValue(probAonServe, probBonServe, aServesFirst, p1, p2 + 1))
  {
  }

  /** Every filled memo cell holds the value of the recursion at that score. */
  ghost predicate MemoSound(memo: array2<real>, probAonServe: real, probBonServe: real, aServesFirst: bool)
    reads memo
  {
    && memo.Length0 == MaxTotalTiebreakPoints + 1
    && memo.Length1 == MaxTotalTiebreakPoints + 1
    && forall i, j :: 0 <= i < memo.Length0 && 0 <= j < memo.Length1 && memo[i, j] != -1.0 ==>
         i + j <= MaxTotalTiebreakPoints && memo[i, j] == TiebreakValue(probAonServe, probBonServe, aServesFirst, i, j)
  }

  /** Records the value of the score p1-p2 in the memo table. */
  method StoreTiebreakValue(memo: array2<real>, probAonServe: real, probBonServe: real, aServesFirst: bool, p1: nat, p2: nat, v: real)
    requires MemoSound(memo, probAonServe, probBonServe, aServesFirst)
    requires p1 + p2 <= MaxTotalTiebreakPoints
    requires v == TiebreakValue(probAonServe, probBonServe, aServesFirst, p1, p2)
    modifies memo
    ensures MemoSound(memo, probAonServe, probBonServe, aServesFirst)
    ensures memo[p1, p2] == v
  {
    memo[p1, p2] := v;
  }

  /** The recursive closure of aWinsTiebreak, writing the shared memo table in place. */
  method TiebreakProbRecursive(memo: array2<real>, probAonServe: real, probBonServe: real, aServesFirst: bool, p1: nat, p2: nat)
    returns (v: real)
    requires MemoSound(memo, probAonServe, probBonServe, aServesFirst)
    requires p1 + p2 <= MaxTotalTiebreakPoints
    modifies memo
    ensures MemoSound(memo, probAonServe, probBonServe, aServesFirst)
    ensures v == TiebreakValue(probAonServe, probBonServe, aServesFirst, p1, p2)
    decreases MaxTotalTiebreakPoints - (p1 + p2)
  {
    if memo[p1, p2] != -1.0 {
      return memo[p1, p2];
    }
    if p1 >= 7 && p1 >= p2 + 2 {
      return 1.0;
    }
    if p2 >= 7 && p2 >= p1 + 2 {
      return 0.0;
    }
    var totalPointsPlayed := p1 + p2;
    if totalPointsPlayed >= MaxTotalTiebreakPoints {
      StoreTiebreakValue(memo, probAonServe, probBonServe, aServesFirst, p1, p2, 0.5);
      return 0.5;
    }
    var isPlayerAServingThisPoint: bool;
    if totalPointsPlayed == 0 {
      isPlayerAServingThisPoint := aServesFirst;
    } else {
      var pointPairIndex := (totalPointsPlayed - 1) / 2;
      if pointPairIndex % 2 == 0 {
        isPlayerAServingThisPoint := !aServesFirst;
      } else {
        isPlayerAServingThisPoint := aServesFirst;
      }
    }
    var probAWinCurrentPoint: real;
    if isPlayerAServingThisPoint {
      probAWinCurrentPoint := probAonServe;
    } else {
      probAWinCurrentPoint := 1.0 - probBonServe;
    }
    var won := TiebreakProbRecursive(memo, probAonServe, probBonServe, aServesFirst, p1 + 1, p2);
    var lost := TiebreakProbRecursive(memo, probAonServe, probBonServe, aServesFirst, p1, p2 + 1);
    var res := Mix(probAWinCurrentPoint, won, lost);
    assert isPlayerAServingThisPoint == AServesPoint(aServesFirst, p1 + p2);
    TiebreakStep(probAonServe, probBonServe, aServesFirst, p1, p2);
    StoreTiebreakValue(memo, probAonServe, probBonServe, aServesFirst, p1, p2, res);
    return res;
  }

  /**
   * aWinsTiebreak: fills a fresh 31x31 memo table with -1.0, evaluates the
   * recursion from 0-0 and compares the exact probability with the draw.
   */
  method AWinsTiebreak(probAonServe: real, probBonServe: real, aServesFirstPointInTiebreak: bool, draw: real)
    returns (aWins: bool)
    ensures aWins <==> TiebreakValue(probAonServe, probBonServe, aServesFirstPointInTiebreak, 0, 0) > draw
  {
    var size := MaxTotalTiebreakPoints + 1;
    var memo := new real[size, size];
    for i := 0 to size
      invariant forall i', j :: 0 <= i' < i && 0 <= j < size ==> memo[i', j] == -1.0
    {
      for j := 0 to size
        invariant forall i', j' :: 0 <= i' < i && 0 <= j' < size ==> memo[i', j'] == -1.0
        invariant forall j' :: 0 <= j' < j ==> memo[i, j'] == -1.0
      {
        memo[i, j] := -1.0;
      }
    }
    var v := TiebreakProbRecursive(memo, probAonServe, probBonServe, aServesFirstPointInTiebreak, 0, 0);
    aWins := v > draw;
  }

  // ---------------------------------------------------------------------------
  // Set state machine (simulateSet)
  // ---------------------------------------------------------------------------

  /** The loop's exit test: one side has 6 games or more and leads by 2. */
  predicate SetOver(s: SimulatedSet)
  {
    (s.aGames >= 6 || s.bGames >= 6) && Abs(s.aGames - s.bGames) >= 2
  }

  /** A score from which another game (or the tiebreak) is still played. */
  predicate InPlay(s: SimulatedSet)
  {
    0 <= s.aGames <= 6 && 0 <= s.bGames <= 6 && !SetOver(s)
  }

  /** The finished set scores: 6-x with x <= 4, 7-5 or 7-6, either way round. */
  predicate ValidSetScore(s: SimulatedSet)
  {
    || (s.aGames == 6 && 0 <= s.bGames <= 4)
    || (s.bGames == 6 && 0 <= s.aGames <= 4)
    || (s.aGames == 7 && (s.bGames == 5 || s.bGames == 6))
    || (s.bGames == 7 && (s.aGames == 5 || s.aGames == 6))
  }

  /** The score after one more game, won by player 1 or by player 2. */
  function AfterGame(s: SimulatedSet, player1Won: bool): SimulatedSet
  {
    if player1Won then SimulatedSet(s.aGames + 1, s.bGames) else SimulatedSet(s.aGames, s.bGames + 1)
  }

  /** From a score in play other than 6-6, one game either ends the set on a valid score or keeps it in play. */
  lemma GameStep(s: SimulatedSet, player1Won: bool)
    requires InPlay(s) && !(s.aGames == 6 && s.bGames == 6)
    ensures var t := AfterGame(s, player1Won);
      && (SetOver(t) ==> ValidSetScore(t) && t.aGames + t.bGames <= 12)
      && (!SetOver(t) ==> InPlay(t))
  {
  }

  /**
   * The rest of a set from score s, player 1 serving the next game when
   * player1Serves. Game k (k games played so far) is won by its server exactly
   * when serverWins(k); the serve passes to the other player after every game;
   * at 6-6 the tiebreak decides.
   */
  function PlayGames(s: SimulatedSet, player1Serves: bool, serverWins: nat -> bool, tiebreakWon: bool): SimulatedSet
    requires InPlay(s)
    decreases 12 - s.aGames - s.bGames
  {
    if s.aGames == 6 && s.bGames == 6 then
      if tiebreakWon then SimulatedSet(7, 6) else SimulatedSet(6, 7)
    else
      var t := AfterGame(s, player1Serves == serverWins(s.aGames + s.bGames));
      if SetOver(t) then t else PlayGames(t, !player1Serves, serverWins, tiebreakWon)
  }

  /** The set simulateSet produces for the given outcome stream. */
  function SetOutcome(player1ServesFirstGame: bool, serverWins: nat -> bool, tiebreakWon: bool): SimulatedSet
  {
    PlayGames(SimulatedSet(0, 0), player1ServesFirstGame, serverWins, tiebreakWon)
  }

  /** One game of the recurrence, from a score in play other than 6-6. */
  lemma PlayGamesStep(s: SimulatedSet, player1Serves: bool, serverWins: nat -> bool, tiebreakWon: bool)
    requires InPlay(s) && !(s.aGames == 6 && s.bGames == 6)
    ensures var t := AfterGame(s, player1Serves == serverWins(s.aGames + s.bGames));
      && (SetOver(t) ==> PlayGames(s, player1Serves, serverWins, tiebreakWon) == t
                         && ValidSetScore(t) && t.aGames + t.bGames <= 12)
      && (!SetOver(t) ==> InPlay(t) && PlayGames(s, player1Serves, serverWins, tiebreakWon)
                                       == PlayGames(t, !player1Serves, serverWins, tiebreakWon))
  {
    GameStep(s, player1Serves == serverWins(s.aGames + s.bGames));
  }

  /** Whatever the outcome stream, a set ends on a valid score (so never level and after at most 13 games). */
  lemma {:induction false} PlayGamesValid(s: SimulatedSet, player1Serves: bool, serverWins: nat -> bool, tiebreakWon: bool)
    requires InPlay(s)
    ensures ValidSetScore(PlayGames(s, player1Serves, serverWins, tiebreakWon))
    decreases 12 - s.aGames - s.bGames
  {
    if !(s.aGames == 6 && s.bGames == 6) {
      PlayGamesStep(s, player1Serves, serverWins, tiebreakWon);
      var t := AfterGame(s, player1Serves == serverWins(s.aGames + s.bGames));
      if !SetOver(t) {
        PlayGamesValid(t, !player1Serves, serverWins, tiebreakWon);
      }
    }
  }

  /** A set ends 7-6 or 6-7 only through the tiebreak, whose winner takes the thirteenth game. */
  lemma {:induction false} PlayGamesTiebreak(s: SimulatedSet, player1Serves: bool, serverWins: nat -> bool, tiebreakWon: bool)
    requires InPlay(s)
    ensures var r := PlayGames(s, player1Serves, serverWins, tiebreakWon);
      r.aGames + r.bGames == 13 ==> (r.aGames == 7 <==> tiebreakWon)
    decreases 12 - s.aGames - s.bGames
  {
    if !(s.aGames == 6 && s.bGames == 6) {
      PlayGamesStep(s, player1Serves, serverWins, tiebreakWon);
      var t := AfterGame(s, player1Serves == serverWins(s.aGames + s.bGames));
      if !SetOver(t) {
        PlayGamesTiebreak(t, !player1Serves, serverWins, tiebreakWon);
      }
    }
  }

  lemma SetOutcomeValid(player1ServesFirstGame: bool, serverWins: nat -> bool, tiebreakWon: bool)
    ensures var r := SetOutcome(player1ServesFirstGame, serverWins, tiebreakWon);
      && ValidSetScore(r)
      && (r.aGames + r.bGames == 13 ==> (r.aGames == 7 <==> tiebreakWon))
  {
    PlayGamesValid(SimulatedSet(0, 0), player1ServesFirstGame, serverWins, tiebreakWon);
    PlayGamesTiebreak(SimulatedSet(0, 0), player1ServesFirstGame, serverWins, tiebreakWon);
  }

  /**
   * simulateSet: the game loop. The server flips after every game that does not
   * end the set, whoever won it; at 6-6 one tiebreak, first served by the player
   * who served the set's first game, adds the set's last game.
   */
  method SimulateSet(a: real, b: real, player1ServesFirstGame: bool, serverWins: nat -> bool, tiebreakDraw: real)
    returns (res: SimulatedSet)
    ensures res == SetOutcome(player1ServesFirstGame, serverWins, TiebreakValue(a, b, player1ServesFirstGame, 0, 0) > tiebreakDraw)
    ensures ValidSetScore(res)
  {
    ghost var tiebreakWon := TiebreakValue(a, b, player1ServesFirstGame, 0, 0) > tiebreakDraw;
    ghost var target := SetOutcome(player1ServesFirstGame, serverWins, tiebreakWon);
    res := SimulatedSet(0, 0);
    var serverGame := 1;
    if !player1ServesFirstGame {
      serverGame := 2;
    }
    var player1ServesFirstPointInTiebreak := player1ServesFirstGame;
    ghost var player1Serves := player1ServesFirstGame;
    while true
      invariant InPlay(res)
      invariant serverGame == 1 || serverGame == 2
      invariant (serverGame == 1) == player1Serves
      invariant PlayGames(res, player1Serves, serverWins, tiebreakWon) == target
      decreases 12 - res.aGames - res.bGames
    {
      if res.aGames == 6 && res.bGames == 6 {
        var aWins := AWinsTiebreak(a, b, player1ServesFirstPointInTiebreak, tiebreakDraw);
        if aWins {
          res := res.(aGames := res.aGames + 1);
        } else {
          res := res.(bGames := res.bGames + 1);
        }
        break;
      }
      PlayGamesStep(res, player1Serves, serverWins, tiebreakWon);
      ghost var before := res;
      if serverWins(res.aGames + res.bGames) {
        if serverGame == 1 {
          res := res.(aGames := res.aGames + 1);
        } else {
          res := res.(bGames := res.bGames + 1);
        }
      } else {
        if serverGame == 1 {
          res := res.(bGames := res.bGames + 1);
        } else {
          res := res.(aGames := res.aGames + 1);
        }
      }
      assert res == AfterGame(before, player1Serves == serverWins(before.aGames + before.bGames));
      if (res.aGames >= 6 || res.bGames >= 6) && Abs(res.aGames - res.bGames) >= 2 {
        break;
      }
      serverGame := 3 - serverGame;
      player1Serves := !player1Serves;
    }
    SetOutcomeValid(player1ServesFirstGame, serverWins, tiebreakWon);
  }

  // ---------------------------------------------------------------------------
  // Match state machine (simulateSingleMatch)
  // ---------------------------------------------------------------------------

  /** The set simulateSet(p1, p2, true) returns: player 1 serves first. */
  function SetOf(p1: real, p2: real, serverWins: nat -> bool, tiebreakDraw: real): SimulatedSet
  {
    SetOutcome(true, serverWins, TiebreakValue(p1, p2, true, 0, 0) > tiebreakDraw)
  }

  /**
   * Raw set i of a match: set i uses the stream serverWins(i) and the draw
   * tiebreakDraws(i); A's parameters take the player-1 role when i is even and
   * B's when it is odd.
   */
  function SetsPlayed(pA: real, pB: real, serverWins: nat -> nat -> bool, tiebreakDraws: nat -> real): nat -> SimulatedSet
  {
    (i: nat) => if i % 2 == 0 then SetOf(pA, pB, serverWins(i), tiebreakDraws(i))
                else SetOf(pB, pA, serverWins(i), tiebreakDraws(i))
  }

  lemma SetsPlayedValid(pA: real, pB: real, serverWins: nat -> nat -> bool, tiebreakDraws: nat -> real, i: nat)
    ensures ValidSetScore(SetsPlayed(pA, pB, serverWins, tiebreakDraws)(i))
  {
    if i % 2 == 0 {
      SetOutcomeValid(true, serverWins(i), TiebreakValue(pA, pB, true, 0, 0) > tiebreakDraws(i));
    } else {
      SetOutcomeValid(true, serverWins(i), TiebreakValue(pB, pA, true, 0, 0) > tiebreakDraws(i));
    }
  }

  /** Whether the raw set with this index counts for A (odd sets are played with swapped parameters). */
  predicate CreditedToA(s: SimulatedSet, index: nat)
  {
    (s.aGames > s.bGames) == (index % 2 == 0)
  }

  /** The number of raw sets that count for A. */
  function CountCreditedToA(sets: seq<SimulatedSet>): nat
  {
    if |sets| == 0 then 0
    else CountCreditedToA(sets[..|sets| - 1]) + (if CreditedToA(sets[|sets| - 1], |sets| - 1) then 1 else 0)
  }

  /** One more set: raw set setAt(played) is credited to its winner and appended. */
  function NextSet(m: SimulatedMatch, setAt: nat -> SimulatedSet): SimulatedMatch
    requires m.aSets >= 0 && m.bSets >= 0
  {
    var played := m.aSets + m.bSets;
    var playedSet := setAt(played);
    if CreditedToA(playedSet, played) then m.(aSets := m.aSets + 1, setResults := m.setResults + [playedSet])
    else m.(bSets := m.bSets + 1, setResults := m.setResults + [playedSet])
  }

  /** NextSet in terms of the set just played. */
  lemma NextSetWith(m: SimulatedMatch, setAt: nat -> SimulatedSet, playedSet: SimulatedSet)
    requires m.aSets >= 0 && m.bSets >= 0 && setAt(m.aSets + m.bSets) == playedSet
    ensures var aWon := (playedSet.aGames > playedSet.bGames) == ((m.aSets + m.bSets) % 2 == 0);
      NextSet(m, setAt) == SimulatedMatch(if aWon then m.aSets + 1 else m.aSets,
                                          if aWon then m.bSets else m.bSets + 1,
                                          m.setResults + [playedSet])
  {
  }

  /** One loop step of simulateSingleMatch: crediting the set just played keeps the rest of the match. */
  lemma PlaySetsStep(m: SimulatedMatch, setsToWin: int, setAt: nat -> SimulatedSet, playedSet: SimulatedSet, next: SimulatedMatch)
    requires 0 <= m.aSets <= setsToWin && 0 <= m.bSets <= setsToWin
    requires !(m.aSets == setsToWin || m.bSets == setsToWin)
    requires setAt(m.aSets + m.bSets) == playedSet
    requires var aWon := (playedSet.aGames > playedSet.bGames) == ((m.aSets + m.bSets) % 2 == 0);
      next == SimulatedMatch(if aWon then m.aSets + 1 else m.aSets,
                             if aWon then m.bSets else m.bSets + 1,
                             m.setResults + [playedSet])
    ensures 0 <= next.aSets <= setsToWin && 0 <= next.bSets <= setsToWin
    ensures next.aSets + next.bSets == m.aSets + m.bSets + 1
    ensures PlaySets(next, setsToWin, setAt) == PlaySets(m, setsToWin, setAt)
  {
    NextSetWith(m, setAt, playedSet);
  }

  /**
   * The rest of a match from m, raw set i being setAt(i): sets are played until
   * one side has setsToWin of them.
   */
  function PlaySets(m: SimulatedMatch, setsToWin: int, setAt: nat -> SimulatedSet): SimulatedMatch
    requires 0 <= m.aSets <= setsToWin && 0 <= m.bSets <= setsToWin
    decreases 2 * setsToWin - m.aSets - m.bSets
  {
    if m.aSets == setsToWin || m.bSets == setsToWin then m
    else PlaySets(NextSet(m, setAt), setsToWin, setAt)
  }

  /** The match simulateSingleMatch produces for the given outcome streams. */
  function MatchOutcome(pA: real, pB: real, setsToWin: int, serverWins: nat -> nat -> bool, tiebreakDraws: nat -> real): SimulatedMatch
    requires setsToWin >= 0
  {
    PlaySets(SimulatedMatch(0, 0, []), setsToWin, SetsPlayed(pA, pB, serverWins, tiebreakDraws))
  }

  /** A finished match: exactly one side reached setsToWin and the sets add up. */
  predicate ValidMatch(m: SimulatedMatch, setsToWin: int)
  {
    && 0 <= m.aSets <= setsToWin && 0 <= m.bSets <= setsToWin
    && (m.aSets == setsToWin) != (m.bSets == setsToWin)
    && |m.setResults| == m.aSets + m.bSets <= 2 * setsToWin - 1
    && (forall i :: 0 <= i < |m.setResults| ==> ValidSetScore(m.setResults[i]))
    && m.aSets == CountCreditedToA(m.setResults)
  }

  lemma CountCreditedAppend(sets: seq<SimulatedSet>, s: SimulatedSet)
    ensures CountCreditedToA(sets + [s]) == CountCreditedToA(sets) + (if CreditedToA(s, |sets|) then 1 else 0)
  {
    assert (sets + [s])[..|sets|] == sets;
  }

  /** A match in progress (or just finished) whose sets so far are setAt(0), setAt(1), ... */
  predicate Progress(m: SimulatedMatch, setsToWin: int, setAt: nat -> SimulatedSet)
  {
    && 0 <= m.aSets <= setsToWin && 0 <= m.bSets <= setsToWin
    && !(m.aSets == setsToWin && m.bSets == setsToWin)
    && |m.setResults| == m.aSets + m.bSets
    && (forall i :: 0 <= i < |m.setResults| ==> m.setResults[i] == setAt(i))
    && (forall i :: 0 <= i < |m.setResults| ==> ValidSetScore(m.setResults[i]))
    && m.aSets == CountCreditedToA(m.setResults)
  }

  lemma NextSetProgress(m: SimulatedMatch, setsToWin: int, setAt: nat -> SimulatedSet)
    requires Progress(m, setsToWin, setAt) && !(m.aSets == setsToWin || m.bSets == setsToWin)
    requires forall i: nat :: ValidSetScore(setAt(i))
    ensures Progress(NextSet(m, setAt), setsToWin, setAt)
  {
    CountCreditedAppend(m.setResults, setAt(m.aSets + m.bSets));
  }

  lemma {:induction false} PlaySetsValid(m: SimulatedMatch, setsToWin: int, setAt: nat -> SimulatedSet)
    requires forall i: nat :: ValidSetScore(setAt(i))
    requires Progress(m, setsToWin, setAt)
    ensures var r := PlaySets(m, setsToWin, setAt);
      && ValidMatch(r, setsToWin)
      && forall i :: 0 <= i < |r.setResults| ==> r.setResults[i] == setAt(i)
    decreases 2 * setsToWin - m.aSets - m.bSets
  {
    if !(m.aSets == setsToWin || m.bSets == setsToWin) {
      NextSetProgress(m, setsToWin, setAt);
      PlaySetsValid(NextSet(m, setAt), setsToWin, setAt);
    }
  }

  /**
   * Whatever the outcome streams: the match stops when exactly one side has
   * setsToWin sets, it holds one valid raw set per set played (at most
   * 2 * setsToWin - 1), A is credited with the even-indexed sets won by player 1
   * and the odd-indexed sets won by player 2, and set i is the raw, unswapped
   * result of simulateSet with the parameters it was played with.
   */
  lemma MatchOutcomeValid(pA: real, pB: real, setsToWin: int, serverWins: nat -> nat -> bool, tiebreakDraws: nat -> real)
    requires setsToWin >= 1
    ensures var m := MatchOutcome(pA, pB, setsToWin, serverWins, tiebreakDraws);
      && ValidMatch(m, setsToWin)
      && forall i :: 0 <= i < |m.setResults| ==> m.setResults[i] == SetsPlayed(pA, pB, serverWins, tiebreakDraws)(i)
  {
    var setAt := SetsPlayed(pA, pB, serverWins, tiebreakDraws);
    forall i: nat
      ensures ValidSetScore(setAt(i))
    {
      SetsPlayedValid(pA, pB, serverWins, tiebreakDraws, i);
    }
    PlaySetsValid(SimulatedMatch(0, 0, []), setsToWin, setAt);
  }

  /** simulateSingleMatch: plays sets until one side has won setsToWin of them. */
  method SimulateSingleMatch(pA: real, pB: real, setsToWin: int, serverWins: nat -> nat -> bool, tiebreakDraws: nat -> real)
    returns (matchResult: SimulatedMatch)
    requires setsToWin >= 1
    ensures matchResult == MatchOutcome(pA, pB, setsToWin, serverWins, tiebreakDraws)
    ensures ValidMatch(matchResult, setsToWin)
  {
    ghost var setAt := SetsPlayed(pA, pB, serverWins, tiebreakDraws);
    ghost var target := MatchOutcome(pA, pB, setsToWin, serverWins, tiebreakDraws);
    matchResult := SimulatedMatch(0, 0, []);
    var playedSet: SimulatedSet;
    while !(matchResult.aSets == setsToWin || matchResult.bSets == setsToWin)
      invariant 0 <= matchResult.aSets <= setsToWin && 0 <= matchResult.bSets <= setsToWin
      invariant PlaySets(matchResult, setsToWin, setAt) == target
      decreases 2 * setsToWin - matchResult.aSets - matchResult.bSets
    {
      var played := matchResult.aSets + matchResult.bSets;
      var aServesFirstGameOfSet := played % 2 == 0;
      if aServesFirstGameOfSet {
        playedSet := SimulateSet(pA, pB, true, serverWins(played), tiebreakDraws(played));
      } else {
        playedSet := SimulateSet(pB, pA, true, serverWins(played), tiebreakDraws(played));
      }
      assert playedSet == setAt(played);
      ghost var before := matchResult;
      if playedSet.aGames > playedSet.bGames {
        if aServesFirstGameOfSet {
          matchResult := matchResult.(aSets := matchResult.aSets + 1);
        } else {
          matchResult := matchResult.(bSets := matchResult.bSets + 1);
        }
      } else {
        if aServesFirstGameOfSet {
          matchResult := matchResult.(bSets := matchResult.bSets + 1);
        } else {
          matchResult := matchResult.(aSets := matchResult.aSets + 1);
        }
      }
      matchResult := matchResult.(setResults := matchResult.setResults + [playedSet]);
      PlaySetsStep(before, setsToWin, setAt, playedSet, matchResult);
    }
    MatchOutcomeValid(pA, pB, setsToWin, serverWins, tiebreakDraws);
  }

  // ---------------------------------------------------------------------------
  // Monte Carlo driver (SimulateMatch)
  // ---------------------------------------------------------------------------

  /**
   * SimulateMatch: rejects a best-of other than 3 or 5 before simulating
   * anything; otherwise plays n[0] matches (1000000 when n is absent or not
   * positive) to bo/2 + 1 sets, match j with the streams serverWins(j) and
   * tiebreakDraws(j).
   */
  method SimulateMatch(playerA: real, playerB: real, bo: int, n: seq<int>,
                       serverWins: nat -> nat -> nat -> bool, tiebreakDraws: nat -> nat -> real)
    returns (res: Result<seq<SimulatedMatch>>)
    ensures (bo != 3 && bo != 5) <==> res == Err(InvalidNumberOfSets)
    ensures (bo == 3 || bo == 5) ==> res.Ok?
    ensures res.Ok? ==> |res.value| == if |n| > 0 && n[0] > 0 then n[0] else DefaultSimulations
    ensures res.Ok? ==> forall j :: 0 <= j < |res.value| ==>
      && res.value[j] == MatchOutcome(playerA, playerB, bo / 2 + 1, serverWins(j), tiebreakDraws(j))
      && ValidMatch(res.value[j], if bo == 3 then 2 else 3)
  {
    if bo != 3 && bo != 5 {
      return Err(InvalidNumberOfSets);
    }
    var setsToWinForMatch := (bo / 2) + 1;
    var numSimulations: int;
    if |n| > 0 && n[0] > 0 {
      numSimulations := n[0];
    } else {
      numSimulations := DefaultSimulations;
    }
    var matches: seq<SimulatedMatch> := [];
    for j := 0 to numSimulations
      invariant |matches| == j
      invariant forall j' :: 0 <= j' < j ==>
        && matches[j'] == MatchOutcome(playerA, playerB, setsToWinForMatch, serverWins(j'), tiebreakDraws(j'))
        && ValidMatch(matches[j'], setsToWinForMatch)
    {
      var m := SimulateSingleMatch(playerA, playerB, setsToWinForMatch, serverWins(j), tiebreakDraws(j));
      matches := matches + [m];
    }
    return Ok(matches);
  }

  // ---------------------------------------------------------------------------
  // Orientation of the raw set list
  // ---------------------------------------------------------------------------

  /** A raw set seen from player A: odd-indexed sets were played with the parameters swapped. */
  function OrientedSet(s: SimulatedSet, index: nat): SimulatedSet
  {
    if index % 2 == 0 then s else SimulatedSet(s.bGames, s.aGames)
  }

  function OrientedSetResults(sets: seq<SimulatedSet>): (r: seq<SimulatedSet>)
    ensures |r| == |sets|
    ensures forall i :: 0 <= i < |sets| ==> r[i] == OrientedSet(sets[i], i)
  {
    seq(|sets|, i requires 0 <= i < |sets| => OrientedSet(sets[i], i))
  }

  /** The number of sets in which A's column holds more games than B's. */
  function CountWonByA(sets: seq<SimulatedSet>): nat
  {
    if |sets| == 0 then 0
    else CountWonByA(sets[..|sets| - 1]) + (if sets[|sets| - 1].aGames > sets[|sets| - 1].bGames then 1 else 0)
  }

  /** Once the raw sets are turned round, the sets A won in its own column are the sets credited to A. */
  lemma {:induction false} OrientedSetsAgreeWithCredit(sets: seq<SimulatedSet>)
    requires forall i :: 0 <= i < |sets| ==> ValidSetScore(sets[i])
    ensures CountWonByA(OrientedSetResults(sets)) == CountCreditedToA(sets)
  {
    if |sets| > 0 {
      var init := sets[..|sets| - 1];
      OrientedSetsAgreeWithCredit(init);
      assert OrientedSetResults(sets)[..|sets| - 1] == OrientedSetResults(init);
    }
  }

  /** A sweep stream: in every set, A (player 1 in even sets, player 2 in odd sets) wins every game. */
  function AWinsEveryGame(setIndex: nat): nat -> bool
  {
    k => (k % 2 == 0) == (setIndex % 2 == 0)
  }

  /** After 2i games of a sweep (player 1 serving first) the sweeping player takes the rest of the set to love. */
  lemma {:induction false} SweepFrom(i: nat, player1Sweeps: bool, serverWins: nat -> bool, tiebreakWon: bool)
    requires i <= 2
    requires forall j: nat :: serverWins(2 * j) == player1Sweeps && serverWins(2 * j + 1) == !player1Sweeps
    ensures PlayGames(if player1Sweeps then SimulatedSet(2 * i, 0) else SimulatedSet(0, 2 * i), true, serverWins, tiebreakWon)
         == if player1Sweeps then SimulatedSet(6, 0) else SimulatedSet(0, 6)
    decreases 2 - i
  {
    assert serverWins(2 * i) == player1Sweeps && serverWins(2 * i + 1) == !player1Sweeps;
    if i < 2 {
      SweepFrom(i + 1, player1Sweeps, serverWins, tiebreakWon);
    }
  }

  /** Player 1 wins every game of set 0 of a sweep: 6-0. */
  lemma SweepFirstSet(tiebreakWon: bool)
    ensures SetOutcome(true, AWinsEveryGame(0), tiebreakWon) == SimulatedSet(6, 0)
  {
    SweepFrom(0, true, AWinsEveryGame(0), tiebreakWon);
  }

  /** In set 1 of a sweep A is player 2 and wins every game: 0-6 in the raw columns. */
  lemma SweepSecondSet(tiebreakWon: bool)
    ensures SetOutcome(true, AWinsEveryGame(1), tiebreakWon) == SimulatedSet(0, 6)
  {
    SweepFrom(0, false, AWinsEveryGame(1), tiebreakWon);
  }

  /** The first two raw sets of the sweep stream: 6-0, then 0-6. */
  lemma SweepSetsPlayed(pA: real, pB: real, tiebreakDraws: nat -> real)
    ensures SetsPlayed(pA, pB, AWinsEveryGame, tiebreakDraws)(0) == SimulatedSet(6, 0)
    ensures SetsPlayed(pA, pB, AWinsEveryGame, tiebreakDraws)(1) == SimulatedSet(0, 6)
  {
    SweepFirstSet(TiebreakValue(pA, pB, true, 0, 0) > tiebreakDraws(0));
    SweepSecondSet(TiebreakValue(pB, pA, true, 0, 0) > tiebreakDraws(1));
  }

  /** A best-of-3 whose first raw sets are 6-0 and 0-6 is won 2-0 by A in two sets. */
  lemma TwoSetMatch(setAt: nat -> SimulatedSet)
    requires setAt(0) == SimulatedSet(6, 0) && setAt(1) == SimulatedSet(0, 6)
    ensures PlaySets(SimulatedMatch(0, 0, []), 2, setAt) == SimulatedMatch(2, 0, [SimulatedSet(6, 0), SimulatedSet(0, 6)])
  {
    var m1 := SimulatedMatch(1, 0, [SimulatedSet(6, 0)]);
    assert NextSet(SimulatedMatch(0, 0, []), setAt) == m1;
    assert NextSet(m1, setAt).setResults == [SimulatedSet(6, 0), SimulatedSet(0, 6)];
  }

  /**
   * As written, the raw set list of a best-of-3 sweep by A reads [6-0, 0-6]:
   * A won all twelve games, but the second set's A column holds B's games.
   */
  lemma SweepRawSetResults(pA: real, pB: real, tiebreakDraws: nat -> real)
    ensures MatchOutcome(pA, pB, 2, AWinsEveryGame, tiebreakDraws)
         == SimulatedMatch(2, 0, [SimulatedSet(6, 0), SimulatedSet(0, 6)])
    ensures OrientedSetResults([SimulatedSet(6, 0), SimulatedSet(0, 6)]) == [SimulatedSet(6, 0), SimulatedSet(6, 0)]
  {
    SweepSetsPlayed(pA, pB, tiebreakDraws);
    TwoSetMatch(SetsPlayed(pA, pB, AWinsEveryGame, tiebreakDraws));
  }
}
