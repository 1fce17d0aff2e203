/** What the persisted passes of a run add up to. `hist` is the history of any state of a run:
    `Runs.CoreAt` shows that it is a `Chain` and that the stored status is `StatusAfter(hist)`. */
module Ledger {
  import opened Api
  import opened Rollout
  import opened Runs
  import Analysis
  import Webhook

  lemma ChainPrefix(engine: bool, k: Key, hist: seq<Pass>)
    requires Chain(engine, k, hist) && hist != []
    ensures Chain(engine, k, hist[..|hist| - 1])
    ensures WellRead(engine, k, hist[|hist| - 1])
    ensures hist[|hist| - 1].c.status == StatusAfter(hist[..|hist| - 1])
  {
    var front := hist[..|hist| - 1];
    forall j | 0 <= j < |front|
      ensures WellRead(engine, k, front[j]) && front[j].c.status == StatusAfter(front[..j])
    {
      assert front[..j] == hist[..j];
    }
  }

  lemma LastOfChain(engine: bool, k: Key, hist: seq<Pass>, p: Pass)
    requires Chain(engine, k, hist + [p])
    ensures Chain(engine, k, hist) && WellRead(engine, k, p) && p.c.status == StatusAfter(hist)
  {
    assert (hist + [p])[..|hist|] == hist;
    ChainPrefix(engine, k, hist + [p]);
  }

  // ---- The failure counter ----

  function OutcomeOf(p: Pass): seq<bool> {
    if p.analysis.Some? then [p.analysis.value.passed] else []
  }

  /** The outcomes of the persisted analyses, oldest first, across rollouts. */
  function Outcomes(hist: seq<Pass>): seq<bool> {
    if hist == [] then [] else Outcomes(hist[..|hist| - 1]) + OutcomeOf(hist[|hist| - 1])
  }

  /** The last `n` outcomes are failures, and the one before them, if any, is not. */
  ghost predicate FailedInARow(outcomes: seq<bool>, n: int) {
    && 0 <= n <= |outcomes|
    && (forall i | |outcomes| - n <= i < |outcomes| :: !outcomes[i])
    && (n < |outcomes| ==> outcomes[|outcomes| - n - 1])
  }

  lemma RunAfter(outcomes: seq<bool>, n: int, outcome: bool)
    requires FailedInARow(outcomes, n)
    ensures FailedInARow(outcomes + [outcome], if outcome then 0 else n + 1)
  {
  }

  /** There is only one such number. */
  lemma RunIsUnique(outcomes: seq<bool>, n: int, need: nat)
    requires FailedInARow(outcomes, n)
    ensures need <= n <==> need <= |outcomes| && forall i | |outcomes| - need <= i < |outcomes| :: !outcomes[i]
  {
    if n < need <= |outcomes| {
      assert outcomes[|outcomes| - n - 1];
    }
  }

  lemma CounterStep(engine: bool, k: Key, before: seq<bool>, p: Pass)
    requires WellRead(engine, k, p) && FailedInARow(before, p.c.status.failedChecks)
    ensures FailedInARow(before + OutcomeOf(p), NextStatus(p).failedChecks)
  {
    if p.analysis.Some? {
      RunAfter(before, p.c.status.failedChecks, p.analysis.value.passed);
    } else {
      assert before + OutcomeOf(p) == before;
    }
  }

  /** The stored counter is a function of the history: the current run of failed analyses. */
  lemma {:induction false} CounterIsFailedRun(engine: bool, k: Key, hist: seq<Pass>)
    requires Chain(engine, k, hist)
    ensures FailedInARow(Outcomes(hist), StatusAfter(hist).failedChecks)
  {
    if hist == [] {
    } else {
      var front, last := hist[..|hist| - 1], hist[|hist| - 1];
      ChainPrefix(engine, k, hist);
      CounterIsFailedRun(engine, k, front);
      CounterStep(engine, k, Outcomes(front), last);
      assert Outcomes(hist) == Outcomes(front) + OutcomeOf(last);
    }
  }

  /** The pass rolls back because of its analysis. */
  predicate AnalysisRollback(p: Pass) {
    Decide(p).verb.Rollback? && Decide(p).phase.RolledBack? && !AbortRequested(p.c)
  }

  /** A pass that ran an analysis on a live rollout rolls back for it exactly when the last max+1
      persisted analyses before it all failed; the analysis it has just run plays no part. */
  lemma RollbackNeedsFailedRun(engine: bool, k: Key, hist: seq<Pass>, p: Pass)
    requires Chain(engine, k, hist + [p])
    requires p.analysis.Some? && !AbortRequested(p.c) && !PromoteRequested(p.c)
    requires p.c.status.stable != "" && p.c.status.stable != Revision(p.t) && 0 <= p.c.status.index < |Steps(p.c)|
    ensures AnalysisRollback(p) <==>
      var before, need := Outcomes(hist), Analysis.MaxFailedChecks(p.c) + 1;
      need <= |before| && forall i | |before| - need <= i < |before| :: !before[i]
  {
    LastOfChain(engine, k, hist, p);
    CounterIsFailedRun(engine, k, hist);
    AnalysisRollbackIsByCount(p);
    RunIsUnique(Outcomes(hist), p.c.status.failedChecks, Analysis.MaxFailedChecks(p.c) + 1);
  }

  lemma AnalysisRollbackIsByCount(p: Pass)
    requires p.c.spec.strategy.mode.Progressive? && p.c.status.phase.Analyzing? && p.analysis.Some?
    requires !AbortRequested(p.c) && !PromoteRequested(p.c)
    requires p.c.status.stable != "" && p.c.status.stable != Revision(p.t) && 0 <= p.c.status.index < |Steps(p.c)|
    ensures AnalysisRollback(p) <==> p.c.status.failedChecks >= Analysis.MaxFailedChecks(p.c) + 1
  {
  }

  /** The pass found a rollout to work on: steps, and a target that is not at the stable revision. */
  predicate Live(p: Pass) {
    Steps(p.c) != [] && p.c.status.stable != "" && p.c.status.stable != Revision(p.t)
  }

  /** The three causes of a rollback. An abort needs no rollout, and wins over a promote command;
      a promote command wins over the analysis. */
  lemma RollbackHasACause(engine: bool, k: Key, p: Pass)
    requires WellRead(engine, k, p)
    ensures
      var st, outOfRange := p.c.status, !(0 <= p.c.status.index < |Steps(p.c)|);
      var tooManyFailures := p.analysis.Some? && !PromoteRequested(p.c) && st.failedChecks > Analysis.MaxFailedChecks(p.c);
      && (Decide(p).verb.Rollback? <==> AbortRequested(p.c) || (Live(p) && (outOfRange || tooManyFailures)))
      && (NextStatus(p).phase.Failed? <==> !AbortRequested(p.c) && Live(p) && outOfRange)
    ensures EndsRollout(p) ==>
      NextStatus(p).stable == Revision(p.t) && NextStatus(p).canary == "" && NextStatus(p).index == 0
  {
  }

  // ---- Every move is paid for ----

  predicate Moves(p: Pass) {
    Decide(p).verb.Advance? || Decide(p).verb.Promote?
  }

  predicate PaidByCommand(p: Pass) {
    PromoteRequested(p.c)
  }

  predicate PaidByAnalysis(p: Pass) {
    p.analysis.Some? && p.analysis.value.passed && !Analysis.ShouldRollback(p.c)
  }

  /** The passes since the last rollback or promotion before `hist` ends. */
  function CurrentRollout(hist: seq<Pass>): (passes: seq<Pass>)
    ensures |passes| <= |hist|
  {
    if hist == [] || EndsRollout(hist[|hist| - 1]) then []
    else CurrentRollout(hist[..|hist| - 1]) + [hist[|hist| - 1]]
  }

  function CountMoves(passes: seq<Pass>): nat {
    if passes == [] then 0
    else CountMoves(passes[..|passes| - 1]) + if Moves(passes[|passes| - 1]) then 1 else 0
  }

  lemma MovesArePaid(engine: bool, k: Key, p: Pass)
    requires WellRead(engine, k, p) && Moves(p)
    ensures PaidByCommand(p) || PaidByAnalysis(p)
    ensures !p.c.spec.strategy.mode.Progressive? ==> PaidByCommand(p)
    ensures PaidByCommand(p) ==>
      ClearCommands in Plan(p) && forall stored :: PROMOTE !in Cleared(p.c.annotations, stored)
    ensures !AbortRequested(p.c) && 0 <= p.c.status.index < |Steps(p.c)|
    ensures Decide(p).verb.Promote? <==> p.c.status.index == |Steps(p.c)| - 1
  {
    if PaidByCommand(p) {
      assert Plan(p)[|Body(p)|] == ClearCommands;
    }
  }

  /** A promote command makes a move exactly if it finds a rollout, at a valid step, in a mode the
      controller knows, and no abort beside it. In every other pass it is spent on nothing. */
  lemma CommandMovesLiveRollouts(p: Pass)
    requires PromoteRequested(p.c)
    ensures Moves(p) <==>
      && !AbortRequested(p.c) && Live(p)
      && 0 <= p.c.status.index < |Steps(p.c)| && !p.c.spec.strategy.mode.OtherMode?
  {
  }

  /** The step index counts the moves of the current rollout. */
  lemma {:induction false} IndexCountsMoves(engine: bool, k: Key, hist: seq<Pass>)
    requires Chain(engine, k, hist)
    ensures StatusAfter(hist).index == CountMoves(CurrentRollout(hist))
  {
    if hist == [] || EndsRollout(hist[|hist| - 1]) {
    } else {
      ChainPrefix(engine, k, hist);
      IndexCountsMoves(engine, k, hist[..|hist| - 1]);
      var front := CurrentRollout(hist[..|hist| - 1]);
      assert CurrentRollout(hist)[..|front|] == front;
    }
  }

  lemma OneMoreCounted(passes: seq<Pass>, p: Pass)
    ensures CountMoves(passes + [p]) == CountMoves(passes) + if Moves(p) then 1 else 0
  {
    hide Moves;
    assert (passes + [p])[..|passes|] == passes;
  }

  lemma PromotionIsLastMove(engine: bool, k: Key, hist: seq<Pass>, p: Pass)
    requires Chain(engine, k, hist + [p]) && Decide(p).verb.Promote?
    ensures CountMoves(CurrentRollout(hist) + [p]) == |Steps(p.c)|
  {
    hide Decide, Chain, CountMoves, CurrentRollout;
    LastOfChain(engine, k, hist, p);
    IndexCountsMoves(engine, k, hist);
    OneMoreCounted(CurrentRollout(hist), p);
    MovesArePaid(engine, k, p);
  }

  lemma MoveOfRolloutIsPaid(engine: bool, k: Key, hist: seq<Pass>, p: Pass, q: Pass)
    requires Chain(engine, k, hist + [p]) && q in CurrentRollout(hist) + [p] && Moves(q)
    ensures PaidByCommand(q) || PaidByAnalysis(q)
    ensures !q.c.spec.strategy.mode.Progressive? ==> PaidByCommand(q)
  {
    hide Moves, PaidByCommand, PaidByAnalysis, CurrentRollout, WellRead;
    RolloutIsInHistory(hist);
    assert q in hist + [p];
    MovesArePaid(engine, k, q);
  }

  /** A rollout reaches Succeeded on its `len(steps)`th move, each of them paid for. */
  lemma PromotionTakesAllSteps(engine: bool, k: Key, hist: seq<Pass>, p: Pass)
    requires Chain(engine, k, hist + [p])
    ensures Decide(p).verb.Promote? ==> CountMoves(CurrentRollout(hist) + [p]) == |Steps(p.c)|
    ensures forall q | q in CurrentRollout(hist) + [p] && Moves(q) :: PaidByCommand(q) || PaidByAnalysis(q)
    ensures forall q | q in CurrentRollout(hist) + [p] && Moves(q) && !q.c.spec.strategy.mode.Progressive? :: PaidByCommand(q)
  {
    hide Chain, Decide, Moves, PaidByCommand, PaidByAnalysis, CurrentRollout, CountMoves;
    if Decide(p).verb.Promote? {
      PromotionIsLastMove(engine, k, hist, p);
    }
    forall q | q in CurrentRollout(hist) + [p] && Moves(q)
      ensures (PaidByCommand(q) || PaidByAnalysis(q)) && (!q.c.spec.strategy.mode.Progressive? ==> PaidByCommand(q))
    {
      MoveOfRolloutIsPaid(engine, k, hist, p, q);
    }
  }

  lemma {:induction false} RolloutIsInHistory(hist: seq<Pass>)
    ensures forall q | q in CurrentRollout(hist) :: q in hist
  {
    if hist == [] || EndsRollout(hist[|hist| - 1]) {
    } else {
      RolloutIsInHistory(hist[..|hist| - 1]);
    }
  }

  // ---- The counter from one rollout to the next ----

  lemma CounterAfterEndingPass(engine: bool, k: Key, p: Pass)
    requires WellRead(engine, k, p) && EndsRollout(p) && p.c.status.failedChecks >= 0
    ensures NextStatus(p).failedChecks == 0
       <==> if p.analysis.Some? then p.analysis.value.passed else p.c.status.failedChecks == 0
    ensures AnalysisRollback(p) ==> p.analysis.Some?
    ensures AnalysisRollback(p) && !p.analysis.value.passed ==>
      NextStatus(p).failedChecks >= Analysis.MaxFailedChecks(p.c) + 2
    ensures Decide(p).verb.Promote? && !PromoteRequested(p.c) ==> p.analysis.Some? && p.analysis.value.passed
  {
  }

  /** What the counter is worth after a rollback or promotion. It is not reset there: it is zero
      exactly if the analysis of that very pass, or else the last one before it, did not fail. A
      rollback for failing metrics leaves more than the limit that caused it. */
  lemma CounterAtEnd(engine: bool, k: Key, hist: seq<Pass>, p: Pass)
    requires Chain(engine, k, hist + [p]) && EndsRollout(p)
    ensures NextStatus(p).failedChecks == 0
       <==> if p.analysis.Some? then p.analysis.value.passed else StatusAfter(hist).failedChecks == 0
    ensures AnalysisRollback(p) ==> p.analysis.Some?
    ensures AnalysisRollback(p) && !p.analysis.value.passed ==>
      NextStatus(p).failedChecks >= Analysis.MaxFailedChecks(p.c) + 2
    ensures Decide(p).verb.Promote? && !PromoteRequested(p.c) ==> NextStatus(p).failedChecks == 0
  {
    hide Decide, NextStatus;
    LastOfChain(engine, k, hist, p);
    CounterIsFailedRun(engine, k, hist);
    CounterAfterEndingPass(engine, k, p);
  }

  /** The passes before the current rollout. */
  function EarlierRollouts(hist: seq<Pass>): seq<Pass> {
    hist[..|hist| - |CurrentRollout(hist)|]
  }

  predicate NoneAnalysed(passes: seq<Pass>) {
    forall q | q in passes :: q.analysis.None?
  }

  lemma {:induction false} CounterIsInherited(engine: bool, k: Key, hist: seq<Pass>)
    requires Chain(engine, k, hist) && NoneAnalysed(CurrentRollout(hist))
    ensures StatusAfter(hist).failedChecks == StatusAfter(EarlierRollouts(hist)).failedChecks
  {
    if hist == [] || EndsRollout(hist[|hist| - 1]) {
      assert EarlierRollouts(hist) == hist;
    } else {
      var front, last := hist[..|hist| - 1], hist[|hist| - 1];
      ChainPrefix(engine, k, hist);
      assert last in CurrentRollout(hist);
      assert forall q | q in CurrentRollout(front) :: q in CurrentRollout(hist);
      CounterIsInherited(engine, k, front);
      assert EarlierRollouts(hist) == EarlierRollouts(front);
    }
  }

  /** The first analysis of a rollout ends it if and only if the rollouts before it left a count
      above the limit; what the metrics say makes no difference. */
  lemma FirstAnalysisIsPrejudged(engine: bool, k: Key, hist: seq<Pass>, p: Pass)
    requires Chain(engine, k, hist + [p]) && NoneAnalysed(CurrentRollout(hist))
    requires p.analysis.Some? && !AbortRequested(p.c) && !PromoteRequested(p.c)
    requires Live(p) && 0 <= p.c.status.index < |Steps(p.c)|
    ensures Decide(p) == Decision(Rollback, RolledBack, 0)
       <==> StatusAfter(EarlierRollouts(hist)).failedChecks > Analysis.MaxFailedChecks(p.c)
  {
    LastOfChain(engine, k, hist, p);
    CounterIsInherited(engine, k, hist);
    AnalysisRollbackIsByCount(p);
  }

  /** The pass at work in a state of a run continues the history of that state. */
  lemma PassContinuesHistory(engine: bool, k: Key, tr: seq<Sys>, i: nat)
    requires IsRun(engine, k, tr) && i < |tr| && tr[i].run.Some?
    ensures Chain(engine, k, tr[i].hist + [tr[i].run.value.p])
  {
    CoreAt(engine, k, tr, i);
    ChainGrows(engine, k, tr[i].hist, tr[i].run.value.p);
  }

  /** The same in any run: whatever faults and changes there were, a rollout that starts with more
      failures than its limit does not survive its first analysis. */
  lemma FirstAnalysisInRun(engine: bool, k: Key, tr: seq<Sys>, i: nat)
    requires IsRun(engine, k, tr) && i < |tr| && tr[i].run.Some? && NoneAnalysed(CurrentRollout(tr[i].hist))
    requires var p := tr[i].run.value.p;
      && p.analysis.Some? && !AbortRequested(p.c) && !PromoteRequested(p.c)
      && Live(p) && 0 <= p.c.status.index < |Steps(p.c)|
    ensures var p := tr[i].run.value.p;
      Decide(p) == Decision(Rollback, RolledBack, 0)
      <==> StatusAfter(EarlierRollouts(tr[i].hist)).failedChecks > Analysis.MaxFailedChecks(p.c)
  {
    PassContinuesHistory(engine, k, tr, i);
    FirstAnalysisIsPrejudged(engine, k, tr[i].hist, tr[i].run.value.p);
  }

  // ---- The progressive gate ----

  /** The pass analysed step `i`: every metric lay within its thresholds, and the stored
      failure count was within the limit. */
  ghost predicate PassedAnalysisAt(p: Pass, i: int) {
    && p.c.status.index == i && p.analysis.Some?
    && |p.analysis.value.report| == |p.c.spec.analysis.metrics|
    && (forall m | 0 <= m < |p.c.spec.analysis.metrics| ::
          var check, value := p.c.spec.analysis.metrics[m], p.analysis.value.report[m].value;
          && p.analysis.value.report[m].metric == check.name
          && (check.min.Some? ==> check.min.value <= value) && (check.max.Some? ==> value <= check.max.value))
    && p.c.status.failedChecks <= Analysis.MaxFailedChecks(p.c)
  }

  lemma UncommandedMovePassedAnalysis(engine: bool, k: Key, p: Pass)
    requires WellRead(engine, k, p) && Moves(p) && !PromoteRequested(p.c)
    ensures PassedAnalysisAt(p, p.c.status.index)
  {
    var checks, report := p.c.spec.analysis.metrics, p.analysis.value.report;
    forall m | 0 <= m < |checks|
      ensures report[m].metric == checks[m].name
      ensures checks[m].min.Some? ==> checks[m].min.value <= report[m].value
      ensures checks[m].max.Some? ==> report[m].value <= checks[m].max.value
    {
      assert report[m] == Analysis.Entry(checks[m], report[m].value) && Analysis.Within(report[m].value, checks[m]);
    }
  }

  lemma {:induction false} StepsBehindWereAnalysed(engine: bool, k: Key, hist: seq<Pass>, i: nat)
    requires Chain(engine, k, hist) && i < StatusAfter(hist).index
    requires forall q | q in CurrentRollout(hist) :: !PromoteRequested(q.c)
    ensures exists q :: q in CurrentRollout(hist) && PassedAnalysisAt(q, i)
  {
    if hist == [] || EndsRollout(hist[|hist| - 1]) {
    } else {
      var front, last := hist[..|hist| - 1], hist[|hist| - 1];
      ChainPrefix(engine, k, hist);
      assert forall q | q in CurrentRollout(front) :: q in CurrentRollout(hist);
      assert last in CurrentRollout(hist);
      if i < StatusAfter(front).index {
        StepsBehindWereAnalysed(engine, k, front, i);
      } else {
        UncommandedMovePassedAnalysis(engine, k, last);
        assert PassedAnalysisAt(last, i);
      }
    }
  }

  /** A rollout promoted without any promote command was analysed, and passed, at every step. */
  lemma ProgressiveGate(engine: bool, k: Key, hist: seq<Pass>, p: Pass, i: nat)
    requires Chain(engine, k, hist + [p]) && Decide(p).verb.Promote?
    requires forall q | q in CurrentRollout(hist) + [p] :: !PromoteRequested(q.c)
    requires i < |Steps(p.c)|
    ensures exists q :: q in CurrentRollout(hist) + [p] && PassedAnalysisAt(q, i)
  {
    LastOfChain(engine, k, hist, p);
    MovesArePaid(engine, k, p);
    if i < p.c.status.index {
      assert forall q | q in CurrentRollout(hist) :: q in CurrentRollout(hist) + [p];
      StepsBehindWereAnalysed(engine, k, hist, i);
      var q :| q in CurrentRollout(hist) && PassedAnalysisAt(q, i);
      assert q in CurrentRollout(hist) + [p];
    } else {
      assert p in CurrentRollout(hist) + [p];
      UncommandedMovePassedAnalysis(engine, k, p);
    }
  }

  // ---- The revision ledger ----

  ghost predicate Seen(hist: seq<Pass>, rev: string) {
    exists q :: q in hist && Revision(q.t) == rev
  }

  lemma RevisionsAfter(p: Pass)
    requires p.c.status.stable == "" ==> p.c.status.canary == ""
    requires p.c.status.canary == "" || p.c.status.canary != p.c.status.stable
    ensures NextStatus(p).stable != "" && (NextStatus(p).canary == "" || NextStatus(p).canary != NextStatus(p).stable)
    ensures NextStatus(p).stable == p.c.status.stable || NextStatus(p).stable == Revision(p.t)
    ensures NextStatus(p).canary == "" || NextStatus(p).canary == p.c.status.canary || NextStatus(p).canary == Revision(p.t)
    ensures NextStatus(p).stable != p.c.status.stable ==> EndsRollout(p) || p.c.status.stable == ""
  {
  }

  /** The stable revision is known from the first pass on, differs from the canary's, and both
      were read from the target in some persisted pass. */
  lemma {:induction false} RevisionsAreAccountedFor(engine: bool, k: Key, hist: seq<Pass>)
    requires Chain(engine, k, hist)
    ensures StatusAfter(hist).stable == "" <==> hist == []
    ensures StatusAfter(hist).canary == "" || StatusAfter(hist).canary != StatusAfter(hist).stable
    ensures StatusAfter(hist).stable != "" ==> Seen(hist, StatusAfter(hist).stable)
    ensures StatusAfter(hist).canary != "" ==> Seen(hist, StatusAfter(hist).canary)
  {
    if hist == [] {
    } else {
      var front, last := hist[..|hist| - 1], hist[|hist| - 1];
      ChainPrefix(engine, k, hist);
      RevisionsAreAccountedFor(engine, k, front);
      RevisionsAfter(last);
      SeenBefore(hist, last.c.status.stable);
      SeenBefore(hist, last.c.status.canary);
    }
  }

  lemma SeenBefore(hist: seq<Pass>, rev: string)
    requires hist != []
    ensures Seen(hist[..|hist| - 1], rev) || Revision(hist[|hist| - 1].t) == rev ==> Seen(hist, rev)
    ensures Seen(hist, Revision(hist[|hist| - 1].t))
  {
    assert hist[|hist| - 1] in hist;
    if Seen(hist[..|hist| - 1], rev) {
      var q :| q in hist[..|hist| - 1] && Revision(q.t) == rev;
      assert q in hist;
    }
  }

  /** The stable revision changes only when a rollout ends, or on the very first pass. */
  lemma StableChangesOnlyAtEnds(engine: bool, k: Key, hist: seq<Pass>, p: Pass)
    requires Chain(engine, k, hist + [p]) && NextStatus(p).stable != p.c.status.stable
    ensures NextStatus(p).stable == Revision(p.t)
    ensures hist == [] || EndsRollout(p)
  {
    LastOfChain(engine, k, hist, p);
    RevisionsAreAccountedFor(engine, k, hist);
    RevisionsAfter(p);
  }

  // ---- What was out when a rollout is promoted ----

  /** The `n`th of the passes is the last of them that has set a step up. */
  ghost predicate IsLastSetUp(passes: seq<Pass>, n: nat) {
    n < |passes| && SetsUp(passes[n]) && forall m | n < m < |passes| :: !SetsUp(passes[m])
  }

  /** What a pass that does not end the rollout does to the canary revision. */
  lemma CanaryAfter(p: Pass)
    requires !EndsRollout(p)
    ensures NextStatus(p).canary == if SetsUp(p) then Revision(p.t) else p.c.status.canary
  {
  }

  lemma EndForgetsCanary(p: Pass)
    requires EndsRollout(p)
    ensures NextStatus(p).canary == ""
  {
  }

  lemma LastSetUpGrows(passes: seq<Pass>, p: Pass, n: nat)
    requires IsLastSetUp(passes, n) && !SetsUp(p)
    ensures IsLastSetUp(passes + [p], n)
  {
  }

  /** The stored canary revision is that of the last set-up of the current rollout, or empty. */
  lemma {:induction false} CanaryIsLastSetUp(engine: bool, k: Key, hist: seq<Pass>) returns (n: nat)
    requires Chain(engine, k, hist)
    ensures var passes, canary := CurrentRollout(hist), StatusAfter(hist).canary;
      if canary == "" then forall q | q in passes :: !SetsUp(q)
      else IsLastSetUp(passes, n) && Revision(passes[n].t) == canary
  {
    hide Decide, NextStatus, EndsRollout, SetsUp, Chain, WellRead;
    n := 0;
    if hist == [] {
    } else if EndsRollout(hist[|hist| - 1]) {
      EndForgetsCanary(hist[|hist| - 1]);
    } else {
      var front, last := hist[..|hist| - 1], hist[|hist| - 1];
      ChainPrefix(engine, k, hist);
      n := CanaryIsLastSetUp(engine, k, front);
      CanaryAfter(last);
      var passes := CurrentRollout(front);
      assert CurrentRollout(hist) == passes + [last];
      if SetsUp(last) {
        n := |passes|;
      } else if last.c.status.canary != "" {
        LastSetUpGrows(passes, last, n);
      }
    }
  }

  lemma LastSetUpIsUnique(passes: seq<Pass>, m: nat, n: nat)
    requires IsLastSetUp(passes, m) && IsLastSetUp(passes, n)
    ensures m == n
  {
  }

  /** The last set-up of the passes was of revision `rev`. */
  ghost predicate WasOut(passes: seq<Pass>, rev: string) {
    exists n: nat :: IsLastSetUp(passes, n) && Revision(passes[n].t) == rev
  }

  /** The revision a promotion makes stable is the one last set up in its rollout if and only if the
      status the pass has read names it as the canary's. */
  lemma PromotedWasOut(engine: bool, k: Key, hist: seq<Pass>, p: Pass)
    requires Chain(engine, k, hist + [p]) && Decide(p).verb.Promote?
    ensures WasOut(CurrentRollout(hist), NextStatus(p).stable) <==> p.c.status.canary == Revision(p.t)
    ensures p.c.status.index >= 1 ==> exists q :: q in CurrentRollout(hist) && SetsUp(q)
  {
    hide Chain, WellRead;
    LastOfChain(engine, k, hist, p);
    PromotesWhatItReads(p);
    WasOutIfNamed(engine, k, hist, Revision(p.t));
    if p.c.status.index >= 1 {
      SetUpBehindIndex(engine, k, hist);
    }
  }

  lemma PromotesWhatItReads(p: Pass)
    requires EndsRollout(p)
    ensures NextStatus(p).stable == Revision(p.t)
  {
  }

  lemma WasOutIfNamed(engine: bool, k: Key, hist: seq<Pass>, rev: string)
    requires Chain(engine, k, hist) && rev != ""
    ensures WasOut(CurrentRollout(hist), rev) <==> StatusAfter(hist).canary == rev
  {
    hide Chain, CurrentRollout, StatusAfter, SetsUp;
    var passes := CurrentRollout(hist);
    var n := CanaryIsLastSetUp(engine, k, hist);
    if m: nat :| IsLastSetUp(passes, m) && Revision(passes[m].t) == rev {
      assert passes[m] in passes;
      LastSetUpIsUnique(passes, m, n);
    }
  }

  /** Every step but the first has been set up when it is reached. */
  lemma {:induction false} SetUpBehindIndex(engine: bool, k: Key, hist: seq<Pass>)
    requires Chain(engine, k, hist) && StatusAfter(hist).index >= 1
    ensures exists q :: q in CurrentRollout(hist) && SetsUp(q)
  {
    hide Chain, WellRead;
    if hist == [] || EndsRollout(hist[|hist| - 1]) {
    } else {
      var front, last := hist[..|hist| - 1], hist[|hist| - 1];
      ChainPrefix(engine, k, hist);
      assert last in CurrentRollout(hist);
      assert forall q | q in CurrentRollout(front) :: q in CurrentRollout(hist);
      if !SetsUp(last) {
        SetUpBehindIndex(engine, k, front);
      }
    }
  }

  /** The same in any run, with any faults, commands and changes. */
  lemma PromotedWasOutInRun(engine: bool, k: Key, tr: seq<Sys>, i: nat)
    requires IsRun(engine, k, tr) && i < |tr| && tr[i].run.Some? && Decide(tr[i].run.value.p).verb.Promote?
    ensures var p, rollout := tr[i].run.value.p, CurrentRollout(tr[i].hist);
      && (WasOut(rollout, NextStatus(p).stable) <==> p.c.status.canary == Revision(p.t))
      && (p.c.status.index >= 1 ==> exists q :: q in rollout && SetsUp(q))
  {
    PassContinuesHistory(engine, k, tr, i);
    PromotedWasOut(engine, k, tr[i].hist, tr[i].run.value.p);
  }

  // ---- Weights ----

  predicate Active(phase: Phase) {
    phase.AwaitingPromotion? || phase.Progressing? || phase.Analyzing?
  }

  lemma ActiveAfter(p: Pass)
    ensures Active(NextStatus(p).phase) ==>
      0 <= NextStatus(p).index < |Steps(p.c)| && NextStatus(p).weight == Steps(p.c)[NextStatus(p).index]
    ensures Decide(p).verb.Advance? ==> Active(NextStatus(p).phase) && NextStatus(p).index == p.c.status.index + 1
  {
  }

  /** With an accepted schedule the weight of an active rollout is that of its step; it rises at
      every Advance, and is 100 at the last step only. */
  lemma WeightRisesAtEveryAdvance(engine: bool, k: Key, hist: seq<Pass>, p: Pass, steps: seq<int>)
    requires Chain(engine, k, hist + [p]) && (forall q | q in hist + [p] :: Steps(q.c) == steps)
    requires Webhook.Accepted(steps)
    ensures var st := NextStatus(p);
      Active(st.phase) ==> 0 <= st.index < |steps| && st.weight == steps[st.index] && (st.weight == 100 <==> st.index == |steps| - 1)
    ensures Decide(p).verb.Advance? && Active(p.c.status.phase) ==> p.c.status.weight < NextStatus(p).weight
  {
    LastOfChain(engine, k, hist, p);
    assert p in hist + [p];
    ActiveAfter(p);
    if hist != [] {
      assert hist[|hist| - 1] in hist + [p];
      ActiveAfter(hist[|hist| - 1]);
    }
    Webhook.AcceptedBoundsExposure(steps);
  }
}
