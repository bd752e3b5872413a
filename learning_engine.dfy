/**
 * The learning engine: every assessed task result is kept as a quality score,
 * and per (executor type, executor role, task area) a success pattern counts
 * the tasks seen, the successful ones (score at least 7) and the running mean
 * quality. The patterns rank executor options and summarise an executor.
 * Scores are exact reals; the LLM's parsed verdict and the clock arrive as
 * parameters, and the JSON file behind the engine is not modelled.
 */
module Learning {
  import opened Wrappers
  import opened OrderedDict

  datatype QualityScore = QualityScore(
    taskId: string,
    taskTitle: string,
    executorType: string,
    executorRole: Option<string>,
    qualityScore: real,
    qualityReason: string,
    timestamp: string,
    taskArea: string,
    taskPriority: int)

  datatype SuccessPattern = SuccessPattern(
    executorType: string,
    executorRole: Option<string>,
    taskArea: string,
    successRate: real,
    avgQualityScore: real,
    totalTasks: nat,
    successfulTasks: nat)

  /** The score without an LLM client. */
  const DefaultScore: real := 7.0

  /** A result counts as a success from a score of 7 on. */
  predicate IsSuccess(score: real) {
    score >= 7.0
  }

  /** `executor_role or 'none'`: an absent and an empty role both read as "none". */
  function RoleLabel(role: Option<string>): string {
    if role.None? || role.value == "" then "none" else role.value
  }

  /** The pattern key `type:role-or-none:area`. */
  function PatternKey(executorType: string, role: Option<string>, area: string): string {
    executorType + ":" + RoleLabel(role) + ":" + area
  }

  function KeyOf(s: QualityScore): string {
    PatternKey(s.executorType, s.executorRole, s.taskArea)
  }

  /** A task with no role and one whose role is literally "none" share a pattern. */
  lemma NoRoleSharesKey(executorType: string, area: string)
    ensures PatternKey(executorType, None, area) == PatternKey(executorType, Some("none"), area)
    ensures PatternKey(executorType, None, area) == PatternKey(executorType, Some(""), area)
  {
  }

  // ---------------------------------------------------------------------
  // Counting scores per pattern
  // ---------------------------------------------------------------------

  /** How many scores fall under pattern key `k`. */
  function CountKey(scores: seq<QualityScore>, k: string): nat {
    if |scores| == 0 then 0
    else CountKey(scores[..|scores| - 1], k) + (if KeyOf(scores[|scores| - 1]) == k then 1 else 0)
  }

  /** How many of those are successes. */
  function CountSuccess(scores: seq<QualityScore>, k: string): (c: nat)
    ensures c <= CountKey(scores, k)
  {
    if |scores| == 0 then 0
    else
      var last := scores[|scores| - 1];
      CountSuccess(scores[..|scores| - 1], k) + (if KeyOf(last) == k && IsSuccess(last.qualityScore) then 1 else 0)
  }

  /** The quality scores of the results with exactly this type, role and area, in order. */
  function PatternScores(scores: seq<QualityScore>, executorType: string, role: Option<string>, area: string)
    : (r: seq<real>)
    ensures |r| <= |scores|
  {
    if |scores| == 0 then []
    else
      var last := scores[|scores| - 1];
      var rest := PatternScores(scores[..|scores| - 1], executorType, role, area);
      if last.executorType == executorType && last.executorRole == role && last.taskArea == area
      then rest + [last.qualityScore] else rest
  }

  function Sum(xs: seq<real>): real {
    if |xs| == 0 then 0.0 else Sum(xs[..|xs| - 1]) + xs[|xs| - 1]
  }

  /** `sum(xs) / len(xs)`, or 0 for no values. */
  function Mean(xs: seq<real>): real {
    if |xs| == 0 then 0.0 else Sum(xs) / |xs| as real
  }

  /** The mean the update stores covers every kept score of that exact executor and area, the new one last. */
  lemma PatternScoresSnoc(scores: seq<QualityScore>, s: QualityScore)
    ensures PatternScores(scores + [s], s.executorType, s.executorRole, s.taskArea) ==
            PatternScores(scores, s.executorType, s.executorRole, s.taskArea) + [s.qualityScore]
  {
    assert (scores + [s])[..|scores|] == scores;
  }

  /**
   * The patterns agree with the scores: a key has a pattern exactly when some
   * score falls under it, and that pattern's counts and success rate are the
   * counts of those scores.
   */
  ghost predicate Tracks(patterns: Dict<string, SuccessPattern>, scores: seq<QualityScore>) {
    forall k :: (Get(patterns, k).Some? <==> CountKey(scores, k) > 0) &&
                (Get(patterns, k).Some? ==>
                   var p := Get(patterns, k).value;
                   p.totalTasks == CountKey(scores, k) &&
                   p.successfulTasks == CountSuccess(scores, k) &&
                   p.successRate == p.successfulTasks as real / p.totalTasks as real)
  }

  /** The pattern a first result under a key starts from. */
  function Fresh(s: QualityScore): SuccessPattern {
    SuccessPattern(s.executorType, s.executorRole, s.taskArea, 0.0, 0.0, 0, 0)
  }

  /** The pattern after one more result `s`, whose mean covers the matching entries of `scores`. */
  function Bumped(existing: Option<SuccessPattern>, s: QualityScore, scores: seq<QualityScore>): (p: SuccessPattern)
    ensures p.totalTasks == existing.GetOr(Fresh(s)).totalTasks + 1
    ensures p.successfulTasks == existing.GetOr(Fresh(s)).successfulTasks + (if IsSuccess(s.qualityScore) then 1 else 0)
    ensures p.successRate == p.successfulTasks as real / p.totalTasks as real
    ensures p.avgQualityScore == Mean(PatternScores(scores, s.executorType, s.executorRole, s.taskArea))
    ensures existing.Some? ==> (p.executorType, p.executorRole, p.taskArea) ==
                               (existing.value.executorType, existing.value.executorRole, existing.value.taskArea)
    ensures existing.None? ==> (p.executorType, p.executorRole, p.taskArea) == (s.executorType, s.executorRole, s.taskArea)
  {
    var p := existing.GetOr(Fresh(s));
    var total := p.totalTasks + 1;
    var successful := p.successfulTasks + (if IsSuccess(s.qualityScore) then 1 else 0);
    SuccessPattern(p.executorType, p.executorRole, p.taskArea, successful as real / total as real,
                   Mean(PatternScores(scores, s.executorType, s.executorRole, s.taskArea)), total, successful)
  }

  /** Appending a score and bumping its pattern keeps the patterns in step with the scores. */
  lemma {:induction false} TracksAfterUpdate(patterns: Dict<string, SuccessPattern>, scores: seq<QualityScore>, s: QualityScore)
    requires Tracks(patterns, scores)
    ensures Tracks(Put(patterns, KeyOf(s), Bumped(Get(patterns, KeyOf(s)), s, scores + [s])), scores + [s])
  {
    var key := KeyOf(s);
    var next := scores + [s];
    var q := Bumped(Get(patterns, key), s, next);
    var ps := Put(patterns, key, q);
    assert next[..|next| - 1] == scores;
    forall k
      ensures (Get(ps, k).Some? <==> CountKey(next, k) > 0) &&
              (Get(ps, k).Some? ==>
                 Get(ps, k).value.totalTasks == CountKey(next, k) &&
                 Get(ps, k).value.successfulTasks == CountSuccess(next, k) &&
                 Get(ps, k).value.successRate == Get(ps, k).value.successfulTasks as real / Get(ps, k).value.totalTasks as real)
    {
      PutGet(patterns, key, q, k);
      assert CountKey(next, k) == CountKey(scores, k) + (if key == k then 1 else 0);
      assert CountSuccess(next, k) == CountSuccess(scores, k) + (if key == k && IsSuccess(s.qualityScore) then 1 else 0);
    }
  }

  /** Every pattern has seen at least one task and at most as many successes as tasks. */
  lemma PatternCounts(patterns: Dict<string, SuccessPattern>, scores: seq<QualityScore>, k: string)
    requires Tracks(patterns, scores) && Get(patterns, k).Some?
    ensures 0 <= Get(patterns, k).value.successfulTasks <= Get(patterns, k).value.totalTasks
    ensures Get(patterns, k).value.totalTasks > 0
  {
  }

  /** The success rate of a tracked pattern lies in [0, 1]. */
  lemma SuccessRateUnit(patterns: Dict<string, SuccessPattern>, scores: seq<QualityScore>, k: string)
    requires Tracks(patterns, scores) && Get(patterns, k).Some?
    ensures 0.0 <= Get(patterns, k).value.successRate <= 1.0
  {
    var p := Get(patterns, k).value;
    RatioUnit(p.successfulTasks as real, p.totalTasks as real);
  }

  lemma RatioUnit(a: real, b: real)
    requires 0.0 <= a <= b && b > 0.0
    ensures 0.0 <= a / b <= 1.0
  {
    assert a / b * b == a;
  }

  // ---------------------------------------------------------------------
  // Routing
  // ---------------------------------------------------------------------

  /** `success_rate * (avg_quality_score / 10)` for a known pattern, 0.5 for an unknown one. */
  function OptionScore(patterns: Dict<string, SuccessPattern>, area: string, option: (string, Option<string>)): (r: real)
    ensures Get(patterns, PatternKey(option.0, option.1, area)).None? ==> r == 0.5
  {
    match Get(patterns, PatternKey(option.0, option.1, area))
    case Some(p) => Weight(p.successRate, p.avgQualityScore)
    case None => 0.5
  }

  function Weight(successRate: real, avgQualityScore: real): real {
    successRate * (avgQualityScore / 10.0)
  }

  /** The scores of the options, in order. */
  function OptionScores(patterns: Dict<string, SuccessPattern>, area: string, options: seq<(string, Option<string>)>)
    : (sc: seq<real>)
    ensures |sc| == |options| && forall i :: 0 <= i < |options| ==> sc[i] == OptionScore(patterns, area, options[i])
  {
    seq(|options|, i requires 0 <= i < |options| => OptionScore(patterns, area, options[i]))
  }

  predicate NonePositive(sc: seq<real>) {
    forall j :: 0 <= j < |sc| ==> sc[j] <= 0.0
  }

  /** Position `i` holds a positive score no other reaches, and none before it ties. */
  predicate FirstBest(sc: seq<real>, i: int) {
    0 <= i < |sc| && sc[i] > 0.0 &&
    (forall j :: 0 <= j < |sc| ==> sc[j] <= sc[i]) &&
    (forall j :: 0 <= j < i ==> sc[j] < sc[i])
  }

  /**
   * The state of the scan for the best option after the first `k` scores:
   * no candidate (index -1, score 0) while none was positive, else the
   * first best so far and its score.
   */
  predicate Scanned(sc: seq<real>, k: nat, bestIndex: int, bestScore: real)
    requires k <= |sc|
  {
    -1 <= bestIndex < k &&
    (bestIndex == -1 ==> bestScore == 0.0 && NonePositive(sc[..k])) &&
    (bestIndex >= 0 ==> bestScore == sc[bestIndex] && FirstBest(sc[..k], bestIndex))
  }

  /** One more score: a strictly higher one becomes the candidate, any other leaves it. */
  lemma ScanStep(sc: seq<real>, k: nat, bestIndex: int, bestScore: real)
    requires k < |sc| && Scanned(sc, k, bestIndex, bestScore)
    ensures if sc[k] > bestScore then Scanned(sc, k + 1, k, sc[k]) else Scanned(sc, k + 1, bestIndex, bestScore)
  {
    var pre, next := sc[..k], sc[..k + 1];
    assert forall j :: 0 <= j < k ==> next[j] == pre[j];
    assert next[k] == sc[k];
  }

  /** Options that all lack history score 0.5 each, so the first of them is chosen. */
  lemma UnknownOptionsFirstWins(patterns: Dict<string, SuccessPattern>, area: string, options: seq<(string, Option<string>)>)
    requires |options| > 0
    requires forall i :: 0 <= i < |options| ==> Get(patterns, PatternKey(options[i].0, options[i].1, area)).None?
    ensures FirstBest(OptionScores(patterns, area, options), 0)
    ensures forall i :: FirstBest(OptionScores(patterns, area, options), i) ==> i == 0
  {
  }

  /** What `get_performance` reports; `byArea` is absent when the executor has no pattern. */
  datatype AreaStats = AreaStats(successRate: real, avgQualityScore: real, totalTasks: nat)

  datatype Performance = Performance(
    successRate: real,
    avgQualityScore: real,
    totalTasks: nat,
    successfulTasks: nat,
    byArea: Option<Dict<string, AreaStats>>)

  /** The patterns of exactly this executor, in key order. */
  function Relevant(patterns: Dict<string, SuccessPattern>, executorType: string, role: Option<string>)
    : (r: seq<SuccessPattern>)
    ensures forall p :: p in r <==> (exists i :: 0 <= i < |patterns| && patterns[i].1 == p) &&
                                    p.executorType == executorType && p.executorRole == role
  {
    if |patterns| == 0 then []
    else
      var rest := Relevant(patterns[..|patterns| - 1], executorType, role);
      var p := patterns[|patterns| - 1].1;
      assert forall i :: 0 <= i < |patterns| - 1 ==> patterns[..|patterns| - 1][i] == patterns[i];
      if p.executorType == executorType && p.executorRole == role then rest + [p] else rest
  }

  function SumTotals(ps: seq<SuccessPattern>): nat {
    if |ps| == 0 then 0 else SumTotals(ps[..|ps| - 1]) + ps[|ps| - 1].totalTasks
  }

  function SumSuccesses(ps: seq<SuccessPattern>): nat {
    if |ps| == 0 then 0 else SumSuccesses(ps[..|ps| - 1]) + ps[|ps| - 1].successfulTasks
  }

  function WeightedQuality(ps: seq<SuccessPattern>): real {
    if |ps| == 0 then 0.0
    else WeightedQuality(ps[..|ps| - 1]) + ps[|ps| - 1].avgQualityScore * ps[|ps| - 1].totalTasks as real
  }

  /** The `by_area` dict: one entry per area, a later pattern of the same area replacing an earlier one. */
  function ByArea(ps: seq<SuccessPattern>): (d: Dict<string, AreaStats>)
    ensures DistinctKeys(d)
    ensures forall i :: 0 <= i < |ps| ==> ps[i].taskArea in Keys(d)
  {
    if |ps| == 0 then []
    else
      var rest := ByArea(ps[..|ps| - 1]);
      var p := ps[|ps| - 1];
      PutDistinct(rest, p.taskArea, AreaStats(p.successRate, p.avgQualityScore, p.totalTasks));
      PutKeys(rest, p.taskArea, AreaStats(p.successRate, p.avgQualityScore, p.totalTasks));
      assert forall i :: 0 <= i < |ps| - 1 ==> ps[..|ps| - 1][i] == ps[i];
      Put(rest, p.taskArea, AreaStats(p.successRate, p.avgQualityScore, p.totalTasks))
  }

  /** A pattern set whose every pattern has no more successes than tasks. */
  predicate CountsSound(ps: seq<SuccessPattern>) {
    forall i :: 0 <= i < |ps| ==> ps[i].successfulTasks <= ps[i].totalTasks
  }

  lemma {:induction false} SumSuccessesBound(ps: seq<SuccessPattern>)
    requires CountsSound(ps)
    ensures SumSuccesses(ps) <= SumTotals(ps)
  {
    if |ps| > 0 {
      assert CountsSound(ps[..|ps| - 1]) by {
        assert forall i :: 0 <= i < |ps| - 1 ==> ps[..|ps| - 1][i] == ps[i];
      }
      SumSuccessesBound(ps[..|ps| - 1]);
    }
  }

  /** Every pattern's mean in [lo, hi] puts the task-weighted sum between lo and hi times the tasks. */
  lemma {:induction false} WeightedQualityBounds(ps: seq<SuccessPattern>, lo: real, hi: real)
    requires forall i :: 0 <= i < |ps| ==> lo <= ps[i].avgQualityScore <= hi
    ensures lo * SumTotals(ps) as real <= WeightedQuality(ps) <= hi * SumTotals(ps) as real
  {
    if |ps| > 0 {
      var init := ps[..|ps| - 1];
      var p := ps[|ps| - 1];
      assert forall i :: 0 <= i < |init| ==> init[i] == ps[i];
      WeightedQualityBounds(init, lo, hi);
      WeightedStep(lo, hi, p.avgQualityScore, p.totalTasks as real, WeightedQuality(init), SumTotals(init) as real);
    }
  }

  lemma WeightedStep(lo: real, hi: real, avg: real, n: real, w: real, t: real)
    requires lo <= avg <= hi && n >= 0.0
    requires lo * t <= w <= hi * t
    ensures lo * (t + n) <= w + avg * n <= hi * (t + n)
  {
    assert lo * n <= avg * n <= hi * n;
  }

  /** With a positive total, a mean in [lo, hi] per pattern gives an overall mean in [lo, hi]. */
  lemma WeightedMeanBounds(w: real, t: real, lo: real, hi: real)
    requires t > 0.0 && lo * t <= w <= hi * t
    ensures lo <= w / t <= hi
  {
    assert w / t * t == w;
  }

  // ---------------------------------------------------------------------
  // The engine
  // ---------------------------------------------------------------------

  class LearningEngine {
    var scores: seq<QualityScore>
    var patterns: Dict<string, SuccessPattern>

    /** The patterns are keyed uniquely and agree with the stored scores. */
    ghost predicate Valid()
      reads this
    {
      DistinctKeys(patterns) && Tracks(patterns, scores)
    }

    /** A fresh engine without stored learning data. */
    constructor()
      ensures scores == [] && patterns == []
      ensures Valid()
    {
      scores := [];
      patterns := [];
    }

    /**
     * `_update_success_patterns`: the pattern under the score's key is created
     * if needed, counts one more task (and one more success for a score of at
     * least 7), and takes as mean the scores kept for that exact executor and area.
     */
    method UpdateSuccessPatterns(s: QualityScore)
      modifies this
      ensures scores == old(scores)
      ensures patterns == Put(old(patterns), KeyOf(s), Bumped(Get(old(patterns), KeyOf(s)), s, scores))
      ensures Get(patterns, KeyOf(s)).Some?
      ensures forall k :: k != KeyOf(s) ==> Get(patterns, k) == Get(old(patterns), k)
    {
      var key := PatternKey(s.executorType, s.executorRole, s.taskArea);
      var pattern := Get(patterns, key);
      ghost var existing := pattern;
      if pattern.None? {
        pattern := Some(Fresh(s));
      }
      var p := pattern.value;
      var total := p.totalTasks + 1;
      var successful := p.successfulTasks + (if IsSuccess(s.qualityScore) then 1 else 0);
      var rate := if total > 0 then successful as real / total as real else 0.0;
      var matching := PatternScores(scores, s.executorType, s.executorRole, s.taskArea);
      var avg := if |matching| > 0 then Sum(matching) / |matching| as real else 0.0;
      var updated := SuccessPattern(p.executorType, p.executorRole, p.taskArea, rate, avg, total, successful);
      assert updated == Bumped(existing, s, scores);
      PutGetAll(patterns, key, updated);
      patterns := Put(patterns, key, updated);
    }

    /**
     * `assess_task_quality`: without an LLM client (`verdict` is None) the score
     * is 7 with a fixed reason; otherwise the LLM's parsed score and reason are
     * used. Exactly one score is stored, and exactly its pattern changes.
     */
    method AssessTaskQuality(taskId: string, taskTitle: string, executorType: string, executorRole: Option<string>,
                             taskArea: string, taskPriority: int, timestamp: string, verdict: Option<(real, string)>)
        returns (s: QualityScore)
      requires Valid()
      modifies this
      ensures Valid()
      ensures verdict.None? ==> s.qualityScore == DefaultScore &&
                                s.qualityReason == "No LLM client available for quality assessment"
      ensures verdict.Some? ==> (s.qualityScore, s.qualityReason) == verdict.value
      ensures s == QualityScore(taskId, taskTitle, executorType, executorRole, s.qualityScore, s.qualityReason,
                                timestamp, taskArea, taskPriority)
      ensures scores == old(scores) + [s]
      ensures patterns == Put(old(patterns), KeyOf(s), Bumped(Get(old(patterns), KeyOf(s)), s, scores))
      ensures forall k :: k != KeyOf(s) ==> Get(patterns, k) == Get(old(patterns), k)
    {
      var score, reason;
      if verdict.None? {
        score, reason := DefaultScore, "No LLM client available for quality assessment";
      } else {
        score, reason := verdict.value.0, verdict.value.1;
      }
      s := QualityScore(taskId, taskTitle, executorType, executorRole, score, reason, timestamp, taskArea, taskPriority);
      TracksAfterUpdate(patterns, scores, s);
      PutDistinct(patterns, KeyOf(s), Bumped(Get(patterns, KeyOf(s)), s, scores + [s]));
      scores := scores + [s];
      UpdateSuccessPatterns(s);
    }

    /**
     * `get_best_executor_for_task`: the first option with the highest score,
     * where only a score above 0 can be chosen; an unknown pattern scores 0.5.
     */
    method BestExecutorForTask(area: string, options: seq<(string, Option<string>)>)
        returns (best: Option<(string, Option<string>)>)
      ensures |options| == 0 ==> best.None?
      ensures best.None? <==> NonePositive(OptionScores(patterns, area, options))
      ensures best.Some? ==> exists i :: FirstBest(OptionScores(patterns, area, options), i) && options[i] == best.value
    {
      if |options| == 0 {
        return None;
      }
      ghost var sc := OptionScores(patterns, area, options);
      var bestIndex := -1;
      var bestScore := 0.0;
      var k := 0;
      while k < |options|
        invariant 0 <= k <= |options|
        invariant Scanned(sc, k, bestIndex, bestScore)
      {
        var score := OptionScore(patterns, area, options[k]);
        assert score == sc[k];
        ScanStep(sc, k, bestIndex, bestScore);
        if score > bestScore {
          bestScore := score;
          bestIndex := k;
        }
        k := k + 1;
      }
      assert sc[..k] == sc;
      if bestIndex == -1 {
        best := None;
      } else {
        best := Some(options[bestIndex]);
        assert FirstBest(sc, bestIndex) && options[bestIndex] == best.value;
      }
    }

    /** `get_executor_performance`: totals summed over the executor's patterns, rates as ratios of the sums. */
    function ExecutorPerformance(executorType: string, role: Option<string>): (r: Performance)
      reads this
      ensures Relevant(patterns, executorType, role) == [] ==> r == Performance(0.0, 0.0, 0, 0, None)
      ensures Relevant(patterns, executorType, role) != [] ==>
                var ps := Relevant(patterns, executorType, role);
                r.totalTasks == SumTotals(ps) && r.successfulTasks == SumSuccesses(ps) &&
                r.successRate == (if r.totalTasks > 0 then r.successfulTasks as real / r.totalTasks as real else 0.0) &&
                r.avgQualityScore == (if r.totalTasks > 0 then WeightedQuality(ps) / r.totalTasks as real else 0.0) &&
                r.byArea == Some(ByArea(ps))
    {
      var ps := Relevant(patterns, executorType, role);
      if |ps| == 0 then Performance(0.0, 0.0, 0, 0, None)
      else
        var total := SumTotals(ps);
        var successful := SumSuccesses(ps);
        Performance(if total > 0 then successful as real / total as real else 0.0,
                    if total > 0 then WeightedQuality(ps) / total as real else 0.0,
                    total, successful, Some(ByArea(ps)))
    }

    /** `get_all_patterns`: the patterns in key order. */
    function AllPatterns(): (r: seq<SuccessPattern>)
      reads this
      ensures |r| == |patterns| && forall i :: 0 <= i < |r| ==> r[i] == patterns[i].1
    {
      seq(|patterns|, i requires 0 <= i < |patterns| reads this => patterns[i].1)
    }

    /**
     * `get_recent_quality_scores(limit)`: the slice `scores[-limit:]`, so the last
     * `limit` scores for a positive limit, all of them for 0, and all but the
     * first `-limit` for a negative one.
     */
    function RecentQualityScores(limit: int): (r: seq<QualityScore>)
      reads this
      ensures |r| == (if limit > 0 then (if limit < |scores| then limit else |scores|)
                      else if limit == 0 then |scores|
                      else (if -limit < |scores| then |scores| + limit else 0))
      ensures r == scores[|scores| - |r|..]
    {
      var start := -limit;
      if start < 0 then
        (if start + |scores| < 0 then scores else scores[start + |scores|..])
      else if start < |scores| then scores[start..]
      else []
    }
  }

  /** A tracked engine reports a success rate in [0, 1] for any executor. */
  lemma PerformanceRateUnit(e: LearningEngine, executorType: string, role: Option<string>)
    requires e.Valid()
    ensures 0.0 <= e.ExecutorPerformance(executorType, role).successRate <= 1.0
  {
    var ps := Relevant(e.patterns, executorType, role);
    assert CountsSound(ps) by {
      forall i | 0 <= i < |ps| ensures ps[i].successfulTasks <= ps[i].totalTasks {
        assert ps[i] in ps;
        var j :| 0 <= j < |e.patterns| && e.patterns[j].1 == ps[i];
        GetDistinct(e.patterns, j);
      }
    }
    SumSuccessesBound(ps);
    if SumTotals(ps) > 0 {
      RatioUnit(SumSuccesses(ps) as real, SumTotals(ps) as real);
    }
  }

  lemma RelevantQualityWithin(patterns: Dict<string, SuccessPattern>, executorType: string, role: Option<string>,
                              lo: real, hi: real)
    requires forall i :: 0 <= i < |patterns| ==> lo <= patterns[i].1.avgQualityScore <= hi
    ensures forall i :: 0 <= i < |Relevant(patterns, executorType, role)| ==>
              lo <= Relevant(patterns, executorType, role)[i].avgQualityScore <= hi
  {
    var ps := Relevant(patterns, executorType, role);
    forall i | 0 <= i < |ps| ensures lo <= ps[i].avgQualityScore <= hi {
      assert ps[i] in ps;
    }
  }

  /** The overall mean quality of an executor lies within the range of its patterns' means. */
  lemma PerformanceQualityBounds(e: LearningEngine, executorType: string, role: Option<string>, lo: real, hi: real)
    requires lo <= 0.0 <= hi
    requires forall i :: 0 <= i < |e.patterns| ==> lo <= e.patterns[i].1.avgQualityScore <= hi
    ensures lo <= e.ExecutorPerformance(executorType, role).avgQualityScore <= hi
  {
    var ps := Relevant(e.patterns, executorType, role);
    RelevantQualityWithin(e.patterns, executorType, role, lo, hi);
    MeanQualityBounds(ps, lo, hi);
  }

  lemma MeanQualityBounds(ps: seq<SuccessPattern>, lo: real, hi: real)
    requires forall i :: 0 <= i < |ps| ==> lo <= ps[i].avgQualityScore <= hi
    ensures SumTotals(ps) > 0 ==> lo <= WeightedQuality(ps) / SumTotals(ps) as real <= hi
  {
    WeightedQualityBounds(ps, lo, hi);
    if SumTotals(ps) > 0 {
      WeightedMeanBounds(WeightedQuality(ps), SumTotals(ps) as real, lo, hi);
    }
  }
}
