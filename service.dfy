/**
 * The aggregation helpers of service/calculations.go: a frequency table of
 * score pairs, two ways of splitting a table's probability mass, and the
 * normalisation of a pair of weights. float64 arithmetic is modelled over `real`.
 */
module Service {

  /** model.Result: a score pair and the probability mass attached to it. */
  datatype Result = Result(resultA: int, resultB: int, probability: real)

  /** model.Probability without its "%.1f" text: the line and the two sides' mass. */
  datatype Probability = Probability(line: real, probA: real, probB: real)

  /** The map key MatchPercentages counts under: a result with its probability dropped. */
  type Score = (int, int)

  function Key(r: Result): Score
  {
    (r.resultA, r.resultB)
  }

  // ---------------------------------------------------------------------------
  // ScaleIntoProbabilities
  // ---------------------------------------------------------------------------

  /** ScaleIntoProbabilities: a and b as shares of a + b. */
  function ScaleIntoProbabilities(a: real, b: real): (r: (real, real))
    requires a + b != 0.0
    ensures r.0 * (a + b) == a && r.1 * (a + b) == b
    ensures r.0 + r.1 == 1.0
    ensures 0.0 <= a && 0.0 <= b ==> 0.0 <= r.0 <= 1.0 && 0.0 <= r.1 <= 1.0
  {
    (a / (a + b), b / (a + b))
  }

  /** Scaling both weights by the same non-zero factor gives the same shares. */
  lemma ScaleInvariant(a: real, b: real, c: real)
    requires a + b != 0.0 && c != 0.0
    ensures c * a + c * b != 0.0
    ensures ScaleIntoProbabilities(c * a, c * b) == ScaleIntoProbabilities(a, b)
  {
    var d := a + b;
    var ca, cb := c * a, c * b;
    assert ca + cb == c * d;
    DivCancel(a, d, c);
    DivCancel(b, d, c);
    assert ScaleIntoProbabilities(ca, cb).0 == ca / (c * d);
  }

  /** Shares that already sum to 1 are left as they are. */
  lemma ScaleIdempotent(a: real, b: real)
    requires a + b != 0.0
    ensures var r := ScaleIntoProbabilities(a, b);
      ScaleIntoProbabilities(r.0, r.1) == r
  {
    var r := ScaleIntoProbabilities(a, b);
    assert r.0 + r.1 == 1.0;
    assert r.0 / (r.0 + r.1) == r.0 && r.1 / (r.0 + r.1) == r.1;
  }

  lemma DivCancel(x: real, d: real, c: real)
    requires d != 0.0 && c != 0.0
    ensures (c * x) / (c * d) == x / d
  {
  }

  lemma DivAdd(a: real, b: real, d: real)
    requires d != 0.0
    ensures a / d + b / d == (a + b) / d
  {
  }

  // ---------------------------------------------------------------------------
  // Occurrences and masses
  // ---------------------------------------------------------------------------

  /** How many results carry the score k. */
  function Occurrences(rs: seq<Result>, k: Score): (n: nat)
    ensures n <= |rs|
  {
    if |rs| == 0 then 0
    else Occurrences(rs[..|rs| - 1], k) + (if Key(rs[|rs| - 1]) == k then 1 else 0)
  }

  /** The scores present in a list of results. */
  function ScoresOf(rs: seq<Result>): set<Score>
  {
    set j | 0 <= j < |rs| :: Key(rs[j])
  }

  /** A score occurs in a list exactly when it is one of the list's scores. */
  lemma {:induction false} OccurrencesPositive(rs: seq<Result>, k: Score)
    ensures Occurrences(rs, k) > 0 <==> k in ScoresOf(rs)
  {
    if |rs| > 0 {
      var init := rs[..|rs| - 1];
      OccurrencesPositive(init, k);
      assert ScoresOf(rs) == ScoresOf(init) + {Key(rs[|rs| - 1])} by {
        forall s | s in ScoresOf(rs) ensures s in ScoresOf(init) + {Key(rs[|rs| - 1])} {
          var j :| 0 <= j < |rs| && Key(rs[j]) == s;
          if j < |rs| - 1 {
            assert Key(init[j]) == s;
          }
        }
        forall s | s in ScoresOf(init) ensures s in ScoresOf(rs) {
          var j :| 0 <= j < |init| && Key(init[j]) == s;
          assert Key(rs[j]) == s;
        }
      }
    }
  }

  /** The probability mass of the results satisfying p. */
  function MassWhere(rs: seq<Result>, p: Result -> bool): real
  {
    if |rs| == 0 then 0.0
    else MassWhere(rs[..|rs| - 1], p) + (if p(rs[|rs| - 1]) then rs[|rs| - 1].probability else 0.0)
  }

  /** The probability mass of all results. */
  function TotalMass(rs: seq<Result>): real
  {
    if |rs| == 0 then 0.0 else TotalMass(rs[..|rs| - 1]) + rs[|rs| - 1].probability
  }

  /** Each result's mass goes to p or to its negation, never both. */
  lemma {:induction false} MassPartition(rs: seq<Result>, p: Result -> bool)
    ensures MassWhere(rs, p) + MassWhere(rs, (r: Result) => !p(r)) == TotalMass(rs)
  {
    if |rs| > 0 {
      MassPartition(rs[..|rs| - 1], p);
    }
  }

  /** Over non-negative masses, a weaker test collects at least as much. */
  lemma {:induction false} MassMonotone(rs: seq<Result>, p: Result -> bool, q: Result -> bool)
    requires forall i :: 0 <= i < |rs| ==> rs[i].probability >= 0.0
    requires forall i :: 0 <= i < |rs| ==> p(rs[i]) ==> q(rs[i])
    ensures MassWhere(rs, p) <= MassWhere(rs, q)
  {
    if |rs| > 0 {
      MassMonotone(rs[..|rs| - 1], p, q);
    }
  }

  /** Tests that agree on every result collect the same mass. */
  lemma {:induction false} MassSame(rs: seq<Result>, p: Result -> bool, q: Result -> bool)
    requires forall i :: 0 <= i < |rs| ==> p(rs[i]) == q(rs[i])
    ensures MassWhere(rs, p) == MassWhere(rs, q)
  {
    if |rs| > 0 {
      MassSame(rs[..|rs| - 1], p, q);
    }
  }

  // ---------------------------------------------------------------------------
  // MatchPercentages
  // ---------------------------------------------------------------------------

  /**
   * out is a frequency table of input: one entry per distinct score of input,
   * each carrying the share of input with that score.
   */
  ghost predicate FrequencyTable(input: seq<Result>, out: seq<Result>)
  {
    ScoresOf(out) == ScoresOf(input) && DistinctScores(out) && CarriesShares(input, out)
  }

  /** No score is listed twice. */
  predicate DistinctScores(out: seq<Result>)
  {
    forall i, j :: 0 <= i < j < |out| ==> Key(out[i]) != Key(out[j])
  }

  /** Every entry carries the share of input with its score. */
  predicate CarriesShares(input: seq<Result>, out: seq<Result>)
  {
    forall i :: 0 <= i < |out| ==> |input| > 0 && out[i].probability == Share(input, Key(out[i]))
  }

  lemma DistinctScoresSnoc(out: seq<Result>, r: Result)
    requires DistinctScores(out) && Key(r) !in ScoresOf(out)
    ensures DistinctScores(out + [r])
  {
    forall i | 0 <= i < |out| ensures Key(out[i]) != Key(r) {
      assert Key(out[i]) in ScoresOf(out);
    }
  }

  lemma CarriesSharesSnoc(input: seq<Result>, out: seq<Result>, r: Result)
    requires CarriesShares(input, out) && |input| > 0 && r.probability == Share(input, Key(r))
    ensures CarriesShares(input, out + [r])
  {
  }

  /** The share of input with score k. */
  function Share(input: seq<Result>, k: Score): real
    requires |input| > 0
  {
    Occurrences(input, k) as real / |input| as real
  }

  /** The keys of out, in order. */
  function Keys(out: seq<Result>): (ks: seq<Score>)
    ensures |ks| == |out| && forall i :: 0 <= i < |out| ==> ks[i] == Key(out[i])
  {
    seq(|out|, i requires 0 <= i < |out| => Key(out[i]))
  }

  /** The occurrences in input of each score of ks, added up. */
  function SumOccurrences(input: seq<Result>, ks: seq<Score>): nat
  {
    if |ks| == 0 then 0 else SumOccurrences(input, ks[..|ks| - 1]) + Occurrences(input, ks[|ks| - 1])
  }

  /** How often k appears in ks. */
  function Hits(ks: seq<Score>, k: Score): nat
  {
    if |ks| == 0 then 0 else Hits(ks[..|ks| - 1], k) + (if ks[|ks| - 1] == k then 1 else 0)
  }

  lemma {:induction false} HitsDistinct(ks: seq<Score>, k: Score)
    requires forall i, j :: 0 <= i < j < |ks| ==> ks[i] != ks[j]
    ensures Hits(ks, k) == if k in ks then 1 else 0
  {
    if |ks| > 0 {
      var init := ks[..|ks| - 1];
      HitsDistinct(init, k);
      assert k in ks <==> k in init || ks[|ks| - 1] == k;
    }
  }

  /** One more result raises the summed occurrences by the number of times its score is listed. */
  lemma {:induction false} SumOccurrencesSnoc(input: seq<Result>, r: Result, ks: seq<Score>)
    ensures SumOccurrences(input + [r], ks) == SumOccurrences(input, ks) + Hits(ks, Key(r))
  {
    assert (input + [r])[..|input|] == input;
    if |ks| > 0 {
      SumOccurrencesSnoc(input, r, ks[..|ks| - 1]);
    }
  }

  /** Summed over a duplicate-free list naming every score of input, the occurrences add up to |input|. */
  lemma {:induction false} SumOccurrencesAll(input: seq<Result>, ks: seq<Score>)
    requires forall i, j :: 0 <= i < j < |ks| ==> ks[i] != ks[j]
    requires forall j :: 0 <= j < |input| ==> Key(input[j]) in ks
    ensures SumOccurrences(input, ks) == |input|
  {
    if |input| == 0 {
      ZeroOccurrences(ks);
    } else {
      var init := input[..|input| - 1];
      var last := input[|input| - 1];
      assert input == init + [last];
      SumOccurrencesAll(init, ks);
      SumOccurrencesSnoc(init, last, ks);
      HitsDistinct(ks, Key(last));
    }
  }

  lemma {:induction false} ZeroOccurrences(ks: seq<Score>)
    ensures SumOccurrences([], ks) == 0
  {
    if |ks| > 0 {
      ZeroOccurrences(ks[..|ks| - 1]);
    }
  }

  /** The mass of a frequency table is its summed occurrences over |input|. */
  lemma {:induction false} TableMass(input: seq<Result>, out: seq<Result>)
    requires |input| > 0
    requires CarriesShares(input, out)
    ensures TotalMass(out) == SumOccurrences(input, Keys(out)) as real / |input| as real
  {
    if |out| > 0 {
      var init := out[..|out| - 1];
      TableMass(input, init);
      assert Keys(out)[..|out| - 1] == Keys(init);
      var d := |input| as real;
      var a := SumOccurrences(input, Keys(init)) as real;
      var b := Occurrences(input, Key(out[|out| - 1])) as real;
      DivAdd(a, b, d);
    }
  }

  /** A frequency table of a non-empty input has total mass 1. */
  lemma FrequencyTableMass(input: seq<Result>, out: seq<Result>)
    requires FrequencyTable(input, out) && |input| > 0
    ensures TotalMass(out) == 1.0
  {
    var ks := Keys(out);
    KeysCover(input, out);
    KeysDistinct(out);
    SumOccurrencesAll(input, ks);
    TableMass(input, out);
    WholeShare(TotalMass(out), SumOccurrences(input, ks), |input|);
  }

  lemma WholeShare(t: real, s: nat, n: nat)
    requires n > 0 && s == n && t == s as real / n as real
    ensures t == 1.0
  {
  }

  lemma KeysCover(input: seq<Result>, out: seq<Result>)
    requires ScoresOf(input) == ScoresOf(out)
    ensures forall j :: 0 <= j < |input| ==> Key(input[j]) in Keys(out)
  {
    forall j | 0 <= j < |input| ensures Key(input[j]) in Keys(out) {
      KeyListed(input, out, j);
    }
  }

  lemma KeysDistinct(out: seq<Result>)
    requires DistinctScores(out)
    ensures var ks := Keys(out); forall i, j :: 0 <= i < j < |ks| ==> ks[i] != ks[j]
  {
  }

  lemma KeyListed(input: seq<Result>, out: seq<Result>, j: nat)
    requires ScoresOf(input) == ScoresOf(out) && j < |input|
    ensures Key(input[j]) in Keys(out)
  {
    assert Key(input[j]) in ScoresOf(out);
    var i :| 0 <= i < |out| && Key(out[i]) == Key(input[j]);
    assert Keys(out)[i] == Key(input[j]);
  }

  /** Every entry of a frequency table carries a mass in (0, 1]. */
  lemma FrequencyTableEntries(input: seq<Result>, out: seq<Result>)
    requires FrequencyTable(input, out)
    ensures forall i :: 0 <= i < |out| ==> 0.0 < out[i].probability <= 1.0
  {
    forall i | 0 <= i < |out| ensures 0.0 < out[i].probability <= 1.0 {
      assert Key(out[i]) in ScoresOf(out);
      OccurrencesPositive(input, Key(out[i]));
      assert out[i].probability == Share(input, Key(out[i]));
      DivBounds(Occurrences(input, Key(out[i])), |input|);
    }
  }

  lemma DivBounds(n: nat, d: nat)
    requires 0 < n <= d
    ensures 0.0 < n as real / d as real <= 1.0
  {
  }

  /** The first loop of MatchPercentages: the number of results per score, in a map. */
  method CountScores(simulatedSets: seq<Result>) returns (resultCounts: map<Score, nat>)
    ensures resultCounts.Keys == ScoresOf(simulatedSets)
    ensures forall k :: k in resultCounts ==> resultCounts[k] == Occurrences(simulatedSets, k)
  {
    resultCounts := map[];
    for i := 0 to |simulatedSets|
      invariant resultCounts.Keys == ScoresOf(simulatedSets[..i])
      invariant forall k :: k in resultCounts ==> resultCounts[k] == Occurrences(simulatedSets[..i], k)
    {
      var prefix := simulatedSets[..i];
      assert simulatedSets[..i + 1] == prefix + [simulatedSets[i]];
      assert simulatedSets[..i + 1][..i] == prefix;
      var result := Key(simulatedSets[i]);
      if result in resultCounts {
        resultCounts := resultCounts[result := resultCounts[result] + 1];
      } else {
        OccurrencesPositive(prefix, result);
        resultCounts := resultCounts[result := 1];
      }
      ScoresSnoc(prefix, simulatedSets[i]);
    }
    assert simulatedSets[..|simulatedSets|] == simulatedSets;
  }

  /**
   * MatchPercentages: counts the results per score in a map, then emits one
   * entry per key of the map, in the map's (unspecified) iteration order.
   */
  method MatchPercentages(simulatedSets: seq<Result>) returns (resultPercentage: seq<Result>)
    ensures FrequencyTable(simulatedSets, resultPercentage)
    ensures forall i :: 0 <= i < |resultPercentage| ==> 0.0 < resultPercentage[i].probability <= 1.0
    ensures |simulatedSets| > 0 ==> TotalMass(resultPercentage) == 1.0
    ensures |simulatedSets| == 0 ==> resultPercentage == []
  {
    var resultCounts := CountScores(simulatedSets);
    var totalSets := |simulatedSets|;
    resultPercentage := [];
    var remaining := resultCounts.Keys;
    while remaining != {}
      invariant Emitting(simulatedSets, resultCounts, resultPercentage, remaining)
      decreases |remaining|
    {
      var result :| result in remaining;
      EmitStep(simulatedSets, resultCounts, resultPercentage, remaining, result);
      var count := resultCounts[result];
      var percentage := count as real / totalSets as real;
      resultPercentage := resultPercentage + [Result(result.0, result.1, percentage)];
      remaining := remaining - {result};
    }
    EmitDone(simulatedSets, resultCounts, resultPercentage);
  }

  /** The second loop's invariant: the emitted entries and the keys still to visit make up the map. */
  ghost predicate Emitting(input: seq<Result>, counts: map<Score, nat>, out: seq<Result>, remaining: set<Score>)
  {
    && counts.Keys == ScoresOf(input)
    && (forall k :: k in counts ==> counts[k] == Occurrences(input, k))
    && remaining <= counts.Keys
    && ScoresOf(out) + remaining == counts.Keys
    && ScoresOf(out) !! remaining
    && DistinctScores(out)
    && CarriesShares(input, out)
  }

  /** Emitting the entry for one more key keeps the invariant. */
  lemma EmitStep(input: seq<Result>, counts: map<Score, nat>, out: seq<Result>, remaining: set<Score>, k: Score)
    requires Emitting(input, counts, out, remaining) && k in remaining
    ensures |input| > 0
    ensures Emitting(input, counts, out + [Result(k.0, k.1, counts[k] as real / |input| as real)], remaining - {k})
  {
    OccurrencesPositive(input, k);
    var entry := Result(k.0, k.1, counts[k] as real / |input| as real);
    assert Key(entry) == k;
    DistinctScoresSnoc(out, entry);
    CarriesSharesSnoc(input, out, entry);
    ScoresSnoc(out, entry);
  }

  /** Once every key is visited the entries form a frequency table. */
  lemma EmitDone(input: seq<Result>, counts: map<Score, nat>, out: seq<Result>)
    requires Emitting(input, counts, out, {})
    ensures FrequencyTable(input, out)
    ensures forall i :: 0 <= i < |out| ==> 0.0 < out[i].probability <= 1.0
    ensures |input| > 0 ==> TotalMass(out) == 1.0
    ensures |input| == 0 ==> out == []
  {
    FrequencyTableEntries(input, out);
    if |out| > 0 {
      assert Key(out[0]) in ScoresOf(out);
    }
    if |input| > 0 {
      FrequencyTableMass(input, out);
    }
  }

  lemma ScoresSnoc(rs: seq<Result>, r: Result)
    ensures ScoresOf(rs + [r]) == ScoresOf(rs) + {Key(r)}
  {
    var rs' := rs + [r];
    forall s | s in ScoresOf(rs') ensures s in ScoresOf(rs) + {Key(r)} {
      var j :| 0 <= j < |rs'| && Key(rs'[j]) == s;
      if j < |rs| {
        assert Key(rs[j]) == s;
      }
    }
    forall s | s in ScoresOf(rs) ensures s in ScoresOf(rs') {
      var j :| 0 <= j < |rs| && Key(rs[j]) == s;
      assert Key(rs'[j]) == s;
    }
    assert Key(rs'[|rs|]) == Key(r);
  }

  // ---------------------------------------------------------------------------
  // HandicapProbabilities and TotalProbabilities
  // ---------------------------------------------------------------------------

  /**
   * The test HandicapProbabilities credits to A: for a negative handicap
   * B - A < h, otherwise B - A > h.
   */
  function HandicapTest(handicap: real): Result -> bool
  {
    (r: Result) => if handicap < 0.0 then ((r.resultB - r.resultA) as real) < handicap
                   else ((r.resultB - r.resultA) as real) > handicap
  }

  /** The test TotalProbabilities credits to the over: the total exceeds the line. */
  function OverTest(ou: real): Result -> bool
  {
    (r: Result) => ((r.resultA + r.resultB) as real) > ou
  }

  /** A reference reading of a handicap line: A's score plus h beats B's. */
  function ACovers(h: real): Result -> bool
  {
    (r: Result) => r.resultA as real + h > r.resultB as real
  }

  /** The opposite side of the line: B's score beats A's score plus h. */
  function BClears(h: real): Result -> bool
  {
    (r: Result) => r.resultA as real + h < r.resultB as real
  }

  /** HandicapProbabilities: splits the mass of the results by the handicap test. */
  method HandicapProbabilities(results: seq<Result>, handicap: real) returns (p: Probability)
    ensures p.line == handicap
    ensures p.probA == MassWhere(results, HandicapTest(handicap))
    ensures p.probB == MassWhere(results, (r: Result) => !HandicapTest(handicap)(r))
    ensures p.probA + p.probB == TotalMass(results)
  {
    var probA, probB := 0.0, 0.0;
    for i := 0 to |results|
      invariant probA == MassWhere(results[..i], HandicapTest(handicap))
      invariant probB == MassWhere(results[..i], (r: Result) => !HandicapTest(handicap)(r))
    {
      assert results[..i + 1][..i] == results[..i];
      var result := results[i];
      if handicap < 0.0 {
        var diff := (result.resultB - result.resultA) as real;
        if diff < handicap {
          probA := probA + result.probability;
        } else {
          probB := probB + result.probability;
        }
      } else {
        var diff := (result.resultB - result.resultA) as real;
        if diff > handicap {
          probA := probA + result.probability;
        } else {
          probB := probB + result.probability;
        }
      }
    }
    assert results[..|results|] == results;
    MassPartition(results, HandicapTest(handicap));
    p := Probability(handicap, probA, probB);
  }

  /**
   * Read as a handicap on A's games: a negative line goes to A when A still
   * wins after giving up -h, a non-negative line when B wins by more than h.
   */
  lemma HandicapTestMeaning(results: seq<Result>, handicap: real)
    ensures handicap < 0.0 ==>
      MassWhere(results, HandicapTest(handicap)) == MassWhere(results, ACovers(handicap))
    ensures handicap >= 0.0 ==>
      MassWhere(results, HandicapTest(handicap)) == MassWhere(results, BClears(handicap))
  {
    if handicap < 0.0 {
      MassSame(results, HandicapTest(handicap), ACovers(handicap));
    } else {
      MassSame(results, HandicapTest(handicap), BClears(handicap));
    }
  }

  /** TotalProbabilities: splits the mass into results over the line and the rest. */
  method TotalProbabilities(results: seq<Result>, ou: real) returns (p: Probability)
    ensures p.line == ou
    ensures p.probA == MassWhere(results, OverTest(ou))
    ensures p.probB == MassWhere(results, (r: Result) => !OverTest(ou)(r))
    ensures p.probA + p.probB == TotalMass(results)
  {
    var probOver, probUnder := 0.0, 0.0;
    for i := 0 to |results|
      invariant probOver == MassWhere(results[..i], OverTest(ou))
      invariant probUnder == MassWhere(results[..i], (r: Result) => !OverTest(ou)(r))
    {
      assert results[..i + 1][..i] == results[..i];
      var result := results[i];
      var total := (result.resultA + result.resultB) as real;
      if total > ou {
        probOver := probOver + result.probability;
      } else {
        probUnder := probUnder + result.probability;
      }
    }
    assert results[..|results|] == results;
    MassPartition(results, OverTest(ou));
    p := Probability(ou, probOver, probUnder);
  }

  /** Over non-negative masses, raising the line never raises the over. */
  lemma OverAntitone(results: seq<Result>, ou: real, ou': real)
    requires forall i :: 0 <= i < |results| ==> results[i].probability >= 0.0
    requires ou <= ou'
    ensures MassWhere(results, OverTest(ou')) <= MassWhere(results, OverTest(ou))
  {
    MassMonotone(results, OverTest(ou'), OverTest(ou));
  }

  /** Applied to a frequency table of non-empty input, both splits are probability pairs summing to 1. */
  lemma SplitsOfTableSumToOne(input: seq<Result>, table: seq<Result>, line: real)
    requires FrequencyTable(input, table) && |input| > 0
    ensures MassWhere(table, HandicapTest(line)) + MassWhere(table, (r: Result) => !HandicapTest(line)(r)) == 1.0
    ensures MassWhere(table, OverTest(line)) + MassWhere(table, (r: Result) => !OverTest(line)(r)) == 1.0
  {
    FrequencyTableMass(input, table);
    MassPartition(table, HandicapTest(line));
    MassPartition(table, OverTest(line));
  }
}
