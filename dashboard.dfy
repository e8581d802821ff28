/**
 * The statistics the dashboard derives from the stored session list: the
 * rounded average overall score, the per-category breakdown, the recent
 * score history, the session count and the skill label.
 */
module Dashboard {
  import opened Types
  import Arith

  /** A JavaScript number that is either an integer or NaN (the mean of no values). */
  datatype Mean = NaN | Value(v: int)

  datatype Category = Politeness | Clarity | Speed | Empathy | ProblemSolving {
    /** The key of the evaluation field. */
    function Key(): string {
      match this
      case Politeness => "politeness"
      case Clarity => "clarity"
      case Speed => "speed"
      case Empathy => "empathy"
      case ProblemSolving => "problemSolving"
    }
  }

  /** The categories in the order the breakdown lists them. */
  const Categories: seq<Category> := [Politeness, Clarity, Speed, Empathy, ProblemSolving]

  datatype Bar = Bar(name: string, score: int)
  datatype Point = Point(day: string, score: int)
  datatype Stats = Stats(avg: Mean, breakdown: seq<Bar>, history: seq<Point>, total: nat)

  // ---------------------------------------------------------------------
  // Arithmetic

  /** `Math.round(sum / count)`: the integer nearest the mean, a half rounded up. */
  function RoundedMean(sum: int, count: nat): (r: int)
    requires count > 0
    ensures 2 * r * count - count <= 2 * sum < 2 * r * count + count
  {
    var q := (2 * sum + count) / (2 * count);
    assert 2 * sum + count == q * (2 * count) + (2 * sum + count) % (2 * count);
    q
  }

  /** A rounded mean of values between `lo` and `hi` lies between them too. */
  lemma RoundedMeanWithin(sum: int, count: nat, lo: int, hi: int)
    requires count > 0
    requires lo * count <= sum <= hi * count
    ensures lo <= RoundedMean(sum, count) <= hi
  {
    var r := RoundedMean(sum, count);
    if r > hi {
      assert r * count >= (hi + 1) * count by { Arith.MultiplyMonotone(hi + 1, r, count); }
      assert false;
    }
    if r < lo {
      assert (r + 1) * count <= lo * count by { Arith.MultiplyMonotone(r + 1, lo, count); }
      assert false;
    }
  }

  /** `reduce((a, b) => a + b, 0)`: the sum, added from the left. */
  function Sum(xs: seq<int>): int {
    if xs == [] then 0 else Sum(xs[..|xs| - 1]) + xs[|xs| - 1]
  }

  lemma {:induction false} SumWithin(xs: seq<int>, lo: int, hi: int)
    requires forall i :: 0 <= i < |xs| ==> lo <= xs[i] <= hi
    ensures lo * |xs| <= Sum(xs) <= hi * |xs|
  {
    if xs != [] {
      SumWithin(xs[..|xs| - 1], lo, hi);
    }
  }

  // ---------------------------------------------------------------------
  // The statistics

  /** The overall scores of the evaluated sessions, in list order. */
  function EvaluatedScores(sessions: seq<TrainingSession>): (scores: seq<int>)
    ensures |scores| <= |sessions|
    ensures |scores| == 0 <==> forall i :: 0 <= i < |sessions| ==> sessions[i].evaluation.None?
  {
    if sessions == [] then []
    else
      var s := sessions[0];
      var rest := EvaluatedScores(sessions[1..]);
      assert forall i :: 1 <= i < |sessions| ==> sessions[i] == sessions[1..][i - 1];
      if s.evaluation.Some? then [s.evaluation.value.overallScore] + rest else rest
  }

  /** Every score in `EvaluatedScores` is the overall score of an evaluated session. */
  lemma {:induction false} EvaluatedScoresFrom(sessions: seq<TrainingSession>, k: nat)
    requires k < |EvaluatedScores(sessions)|
    ensures exists i :: 0 <= i < |sessions| && sessions[i].evaluation.Some?
                        && sessions[i].evaluation.value.overallScore == EvaluatedScores(sessions)[k]
  {
    var s := sessions[0];
    if s.evaluation.Some? && k == 0 {
      assert sessions[0].evaluation.value.overallScore == EvaluatedScores(sessions)[0];
    } else {
      var k' := if s.evaluation.Some? then k - 1 else k;
      EvaluatedScoresFrom(sessions[1..], k');
      var i :| 0 <= i < |sessions[1..]| && sessions[1..][i].evaluation.Some?
               && sessions[1..][i].evaluation.value.overallScore == EvaluatedScores(sessions[1..])[k'];
      assert sessions[i + 1] == sessions[1..][i];
    }
  }

  /** `avg`: the rounded mean over evaluated sessions only; NaN (0 / 0) when none is evaluated. */
  function Average(sessions: seq<TrainingSession>): (m: Mean)
    ensures m.NaN? <==> EvaluatedScores(sessions) == []
    ensures m.Value? ==>
              var scores := EvaluatedScores(sessions);
              2 * m.v * |scores| - |scores| <= 2 * Sum(scores) < 2 * m.v * |scores| + |scores|
  {
    var scores := EvaluatedScores(sessions);
    if |scores| == 0 then NaN else Value(RoundedMean(Sum(scores), |scores|))
  }

  /** The value of a category in a session, 0 when the session has no evaluation. */
  function CategoryScore(s: TrainingSession, c: Category): int {
    match s.evaluation
    case None => 0
    case Some(e) =>
      match c
      case Politeness => e.politeness
      case Clarity => e.clarity
      case Speed => e.speed
      case Empathy => e.empathy
      case ProblemSolving => e.problemSolving
  }

  function CategoryScores(sessions: seq<TrainingSession>, c: Category): (xs: seq<int>)
    ensures |xs| == |sessions|
    ensures forall i :: 0 <= i < |sessions| ==> xs[i] == CategoryScore(sessions[i], c)
  {
    seq(|sessions|, i requires 0 <= i < |sessions| => CategoryScore(sessions[i], c))
  }

  /** ASCII upper case of a letter; other characters unchanged. */
  function UpperCase(ch: char): char {
    if 'a' <= ch <= 'z' then (ch as int - 32) as char else ch
  }

  /** The category key with its first letter upper-cased. */
  function CategoryName(c: Category): (name: string)
    ensures |name| == |c.Key()|
    ensures name[1..] == c.Key()[1..]
  {
    [UpperCase(c.Key()[0])] + c.Key()[1..]
  }

  /** `breakdown`: per category, the rounded mean over all sessions, an absent evaluation counting 0. */
  function Breakdown(sessions: seq<TrainingSession>): (bars: seq<Bar>)
    requires |sessions| > 0
    ensures |bars| == |Categories|
    ensures forall k :: 0 <= k < |bars| ==>
              var n, total := |sessions|, Sum(CategoryScores(sessions, Categories[k]));
              && bars[k].name == CategoryName(Categories[k])
              && 2 * bars[k].score * n - n <= 2 * total < 2 * bars[k].score * n + n
  {
    seq(|Categories|, k requires 0 <= k < |Categories| =>
      Bar(CategoryName(Categories[k]),
          RoundedMean(Sum(CategoryScores(sessions, Categories[k])), |sessions|)))
  }

  /** Decimal digits of a natural number. */
  function Decimal(n: nat): (s: string)
    ensures |s| >= 1
    ensures n < 10 ==> s == [('0' as int + n) as char]
  {
    if n < 10 then [('0' as int + n) as char]
    else Decimal(n / 10) + [('0' as int + n % 10) as char]
  }

  /** `sessions.slice(-7)`: the last seven sessions, or all of them when there are fewer. */
  function LastSeven(sessions: seq<TrainingSession>): (recent: seq<TrainingSession>)
    ensures |recent| == if |sessions| < 7 then |sessions| else 7
    ensures recent == sessions[|sessions| - |recent|..]
  {
    if |sessions| <= 7 then sessions else sessions[|sessions| - 7..]
  }

  /**
   * `history`: the last min(7, n) sessions, in list order, labelled
   * "Session 1", "Session 2", ... with the overall score or 0.
   */
  function History(sessions: seq<TrainingSession>): (points: seq<Point>)
    ensures |points| == (if |sessions| < 7 then |sessions| else 7)
    ensures forall i :: 0 <= i < |points| ==>
              var s := sessions[|sessions| - |points| + i];
              && points[i].day == "Session " + [('1' as int + i) as char]
              && points[i].score == (if s.evaluation.Some? then s.evaluation.value.overallScore else 0)
  {
    var recent := LastSeven(sessions);
    seq(|recent|, i requires 0 <= i < |recent| =>
      Point("Session " + Decimal(i + 1),
            if recent[i].evaluation.Some? then recent[i].evaluation.value.overallScore else 0))
  }

  /** The dashboard statistics; `None` (nothing to show) for an empty list. */
  function ComputeStats(sessions: seq<TrainingSession>): (stats: Option<Stats>)
    ensures stats.None? <==> sessions == []
    ensures stats.Some? ==> stats.value.total == |sessions|
  {
    if |sessions| == 0 then None
    else Some(Stats(Average(sessions), Breakdown(sessions), History(sessions), |sessions|))
  }

  /** The skill label shown beside the average. */
  function SkillLevel(avg: Mean): (level: string)
    ensures level == "Expert" <==> avg.Value? && avg.v > 90
    ensures level == "Professional" <==> avg.Value? && 75 < avg.v <= 90
    ensures level == "Training" <==> avg.NaN? || avg.v <= 75
  {
    match avg
    case NaN => "Training"
    case Value(v) => if v > 90 then "Expert" else if v > 75 then "Professional" else "Training"
  }

  /** The "Recent Sessions" list: a reversed copy, newest first. */
  function RecentFirst(sessions: seq<TrainingSession>): (recent: seq<TrainingSession>)
    ensures |recent| == |sessions|
    ensures forall i :: 0 <= i < |sessions| ==> recent[i] == sessions[|sessions| - 1 - i]
  {
    seq(|sessions|, i requires 0 <= i < |sessions| => sessions[|sessions| - 1 - i])
  }

  // ---------------------------------------------------------------------
  // Properties of the statistics

  predicate ScoresInRange(e: Evaluation) {
    && 0 <= e.politeness <= 100 && 0 <= e.clarity <= 100 && 0 <= e.speed <= 100
    && 0 <= e.empathy <= 100 && 0 <= e.problemSolving <= 100 && 0 <= e.overallScore <= 100
  }

  predicate AllInRange(sessions: seq<TrainingSession>) {
    forall i :: 0 <= i < |sessions| && sessions[i].evaluation.Some? ==> ScoresInRange(sessions[i].evaluation.value)
  }

  /** The average is NaN exactly when no session has an evaluation, and otherwise a 0..100 score when all scores are. */
  lemma AverageProperties(sessions: seq<TrainingSession>)
    ensures Average(sessions).NaN? <==> forall i :: 0 <= i < |sessions| ==> sessions[i].evaluation.None?
    ensures AllInRange(sessions) && Average(sessions).Value? ==> 0 <= Average(sessions).v <= 100
  {
    var scores := EvaluatedScores(sessions);
    if AllInRange(sessions) && |scores| > 0 {
      forall k | 0 <= k < |scores| ensures 0 <= scores[k] <= 100 {
        EvaluatedScoresFrom(sessions, k);
      }
      SumWithin(scores, 0, 100);
      RoundedMeanWithin(Sum(scores), |scores|, 0, 100);
    }
  }

  lemma CategoryNames()
    ensures CategoryName(Politeness) == "Politeness" && CategoryName(Clarity) == "Clarity"
    ensures CategoryName(Speed) == "Speed" && CategoryName(Empathy) == "Empathy"
    ensures CategoryName(ProblemSolving) == "ProblemSolving"
  {
    assert UpperCase('p') == 'P' && UpperCase('c') == 'C' && UpperCase('s') == 'S' && UpperCase('e') == 'E';
  }

  /** The breakdown names the five categories in order, each key with a capital first letter. */
  lemma BreakdownNames(sessions: seq<TrainingSession>)
    requires |sessions| > 0
    ensures var bars := Breakdown(sessions);
            && |bars| == 5
            && bars[0].name == "Politeness" && bars[1].name == "Clarity" && bars[2].name == "Speed"
            && bars[3].name == "Empathy" && bars[4].name == "ProblemSolving"
  {
    var bars := Breakdown(sessions);
    CategoryNames();
    assert bars[0].name == CategoryName(Politeness) && bars[1].name == CategoryName(Clarity);
    assert bars[2].name == CategoryName(Speed) && bars[3].name == CategoryName(Empathy);
    assert bars[4].name == CategoryName(ProblemSolving);
  }

  /** Each breakdown score is a 0..100 score when every evaluation's scores are. */
  lemma BreakdownWithin(sessions: seq<TrainingSession>)
    requires |sessions| > 0
    requires AllInRange(sessions)
    ensures forall k :: 0 <= k < |Breakdown(sessions)| ==> 0 <= Breakdown(sessions)[k].score <= 100
  {
    var bars := Breakdown(sessions);
    forall k | 0 <= k < |bars| ensures 0 <= bars[k].score <= 100 {
      var xs := CategoryScores(sessions, Categories[k]);
      forall i | 0 <= i < |xs| ensures 0 <= xs[i] <= 100 {
        assert xs[i] == CategoryScore(sessions[i], Categories[k]);
      }
      SumWithin(xs, 0, 100);
      RoundedMeanWithin(Sum(xs), |sessions|, 0, 100);
    }
  }
}
