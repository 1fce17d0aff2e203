/** internal/analysis: one run of the metric checks, and the count of consecutive failures. */
module Analysis {
  import opened Api

  /** What the metric backend answers to one query. */
  datatype Reply = Value(value: real) | QueryError(error: Error)

  predicate Within(value: real, check: MetricCheck) {
    && (check.min.Some? ==> check.min.value <= value)
    && (check.max.Some? ==> value <= check.max.value)
  }

  function Entry(check: MetricCheck, value: real): AnalysisEntry {
    AnalysisEntry(check.name, value, Within(value, check))
  }

  /** A result the engine may give for `c`: one entry per configured check, passing exactly
      when every value lies within its thresholds, and the count moved accordingly. */
  ghost predicate ResultFor(c: Canary, r: AnalysisResult) {
    var checks := c.spec.analysis.metrics;
    && |r.report| == |checks|
    && (forall i | 0 <= i < |checks| :: r.report[i] == Entry(checks[i], r.report[i].value))
    && (r.passed <==> forall i | 0 <= i < |checks| :: Within(r.report[i].value, checks[i]))
    && r.failedChecks == if r.passed then 0 else c.status.failedChecks + 1
  }

  /** The first error among the replies from the `i`th on to the `n`th. */
  function FirstError(replies: nat -> Reply, i: nat, n: nat): (e: Option<Error>)
    ensures e.None? <==> forall j: nat | i <= j < n :: replies(j).Value?
    decreases n - i
  {
    if i >= n then None
    else match replies(i)
      case QueryError(error) => Some(error)
      case Value(_) => FirstError(replies, i + 1, n)
  }

  /** A run of the checks; the first query that fails ends it without any result. */
  ghost function Evaluated(c: Canary, replies: nat -> Reply): (r: Result<AnalysisResult>)
    ensures r.Ok? ==> ResultFor(c, r.value)
  {
    var checks := c.spec.analysis.metrics;
    match FirstError(replies, 0, |checks|)
    case Some(e) => Err(e)
    case None =>
      var report := seq(|checks|, i requires 0 <= i < |checks| => Entry(checks[i], replies(i).value));
      var passed := forall i: nat | i < |checks| :: Within(replies(i).value, checks[i]);
      Ok(AnalysisResult(passed, if passed then 0 else c.status.failedChecks + 1, report))
  }

  /** The error of a run is that of the first query that fails, whatever the later ones would say. */
  lemma FirstFailureEndsRun(c: Canary, replies: nat -> Reply, n: nat)
    requires n < |c.spec.analysis.metrics| && replies(n).QueryError? && forall i: nat | i < n :: replies(i).Value?
    ensures Evaluated(c, replies) == Err(replies(n).error)
  {
    SkipAnswered(replies, 0, n, |c.spec.analysis.metrics|);
  }

  lemma {:induction false} SkipAnswered(replies: nat -> Reply, i: nat, m: nat, n: nat)
    requires i <= m <= n && forall j: nat | i <= j < m :: replies(j).Value?
    ensures FirstError(replies, i, n) == FirstError(replies, m, n)
    decreases m - i
  {
    if i == m {
    } else {
      SkipAnswered(replies, i + 1, m, n);
    }
  }

  lemma {:induction false} FailingQuery(replies: nat -> Reply, i: nat, n: nat) returns (j: nat)
    requires FirstError(replies, i, n).Some?
    ensures i <= j < n && replies(j) == QueryError(FirstError(replies, i, n).value)
    decreases n - i
  {
    if replies(i).QueryError? {
      j := i;
    } else {
      j := FailingQuery(replies, i + 1, n);
    }
  }

  /** A run passes if and only if no value lies below its minimum or above its maximum; the report
      says so of each value, under the name of its metric, in the order of the checks. */
  lemma PassesWithinBounds(c: Canary, replies: nat -> Reply)
    requires forall i: nat | i < |c.spec.analysis.metrics| :: replies(i).Value?
    ensures Evaluated(c, replies).Ok?
    ensures var r, checks := Evaluated(c, replies).value, c.spec.analysis.metrics;
      && (r.passed <==> forall i: nat | i < |checks| ::
            && (checks[i].min.Some? ==> checks[i].min.value <= replies(i).value)
            && (checks[i].max.Some? ==> replies(i).value <= checks[i].max.value))
      && |r.report| == |checks|
      && (forall i: nat | i < |checks| ::
            && r.report[i].metric == checks[i].name && r.report[i].value == replies(i).value
            && (r.report[i].passed <==>
                  && (checks[i].min.Some? ==> checks[i].min.value <= replies(i).value)
                  && (checks[i].max.Some? ==> replies(i).value <= checks[i].max.value)))
  {
    var checks := c.spec.analysis.metrics;
    forall i: nat | i < |checks|
      ensures Within(replies(i).value, checks[i]) <==>
        && (checks[i].min.Some? ==> checks[i].min.value <= replies(i).value)
        && (checks[i].max.Some? ==> replies(i).value <= checks[i].max.value)
    {
    }
  }

  method WithinThreshold(value: real, check: MetricCheck) returns (ok: bool)
    ensures ok <==> (check.min.Some? ==> check.min.value <= value) && (check.max.Some? ==> value <= check.max.value)
    ensures ok == Within(value, check)
  {
    if check.min.Some? && value < check.min.value {
      return false;
    }
    if check.max.Some? && value > check.max.value {
      return false;
    }
    return true;
  }

  method Evaluate(c: Canary, replies: nat -> Reply) returns (r: Result<AnalysisResult>)
    ensures r == Evaluated(c, replies)
  {
    var checks := c.spec.analysis.metrics;
    var results: seq<AnalysisEntry> := [];
    var failedThisRun := 0;
    var i: nat := 0;
    while i < |checks|
      invariant i <= |checks| && |results| == i
      invariant forall j: nat | j < i :: replies(j).Value?
      invariant FirstError(replies, 0, |checks|) == FirstError(replies, i, |checks|)
      invariant forall j: nat | j < i :: results[j] == Entry(checks[j], replies(j).value)
      invariant failedThisRun >= 0
      invariant failedThisRun == 0 <==> forall j: nat | j < i :: Within(replies(j).value, checks[j])
    {
      var reply := replies(i);
      if reply.QueryError? {
        return Err(reply.error);
      }
      var passed := WithinThreshold(reply.value, checks[i]);
      if !passed {
        failedThisRun := failedThisRun + 1;
      }
      results := results + [AnalysisEntry(checks[i].name, reply.value, passed)];
      i := i + 1;
    }
    var allPassed := failedThisRun == 0;
    var failedChecks := c.status.failedChecks;
    if allPassed {
      failedChecks := 0;
    } else {
      failedChecks := failedChecks + 1;
    }
    assert results == seq(|checks|, j requires 0 <= j < |checks| => Entry(checks[j], replies(j).value));
    r := Ok(AnalysisResult(allPassed, failedChecks, results));
  }

  function MaxFailedChecks(c: Canary): (max: int)
    ensures max > 0
  {
    if c.spec.strategy.maxFailedChecks <= 0 then 2 else c.spec.strategy.maxFailedChecks
  }

  /** The configured limit is in force if it is positive, and otherwise 2; a count up to it is no
      reason to roll back. */
  lemma LimitInForce(c: Canary)
    ensures c.spec.strategy.maxFailedChecks > 0 ==> MaxFailedChecks(c) == c.spec.strategy.maxFailedChecks
    ensures c.spec.strategy.maxFailedChecks <= 0 ==> MaxFailedChecks(c) == 2
    ensures ShouldRollback(c) <==> c.status.failedChecks > MaxFailedChecks(c)
  {
  }

  /** Looks at the stored count only: a failure of the current run is not in it yet. */
  predicate ShouldRollback(c: Canary) {
    c.status.failedChecks > MaxFailedChecks(c)
  }
}
