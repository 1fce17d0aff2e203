/** Runs of the controller for one Canary. Each step is a single write of the pass at work, or a
    change by the environment, so every intermediate state is a state of the run. */
module Runs {
  import opened Api
  import opened Rollout
  import opened Passes
  import Analysis
  import Traffic

  /** A pass and the number of its writes already made. */
  datatype Running = Running(p: Pass, done: nat)

  /** `seen` is the Canary as a pass has read it that has not read its target yet. `hist` lists the
      passes whose status was persisted and `issued` counts the commands given so far; neither
      influences the steps. */
  datatype Sys = Sys(w: World, seen: Option<Canary>, run: Option<Running>, hist: seq<Pass>, issued: Issued)

  datatype Issued = Issued(promotes: nat, aborts: nat) {
    function Of(cmd: Command): nat {
      if cmd.PromoteCommand? then promotes else aborts
    }
  }

  function Count(b: bool): nat {
    if b then 1 else 0
  }

  // ---- Steps ----

  /** The environment may change anything but the Canary's status, the names it derives its
      objects from, and those objects: commands, mode, steps, analysis, target, other objects. */
  ghost predicate EnvironmentChange(k: Key, w: World, w': World) {
    && k in w.canaries && k in w'.canaries
    && w'.canaries[k].status == w.canaries[k].status
    && SameRefs(w.canaries[k], w'.canaries[k])
    && SameDerived(w, w', k, w.canaries[k])
  }

  ghost predicate Reads(k: Key, s: Sys, s': Sys) {
    && s.seen.None? && s.run.None?
    && k in s.w.canaries && s' == s.(seen := Some(s.w.canaries[k]))
  }

  ghost predicate Starts(engine: bool, k: Key, s: Sys, s': Sys) {
    && s.seen.Some? && s.run.None? && s'.run.Some? && s' == s.(seen := None, run := s'.run)
    && s'.run.value.done == 0 && s'.run.value.p.key == k
    && MayBegin(engine, s.seen.value, s.w, s'.run.value.p)
  }

  ghost predicate Writes(s: Sys, s': Sys) {
    && s.run.Some? && s.run.value.done < |Plan(s.run.value.p)|
    && var p, done := s.run.value.p, s.run.value.done;
    && Apply(Plan(p)[done], p, s.w) == Ok(s'.w)
    && s'.seen == s.seen && s'.issued == s.issued
    && (if done + 1 < |Plan(p)| then s'.run == Some(Running(p, done + 1)) && s'.hist == s.hist
        else s'.run == None && s'.hist == s.hist + [p])
  }

  /** The step completes pass `p`: its status patch is stored. */
  ghost predicate Completes(s: Sys, s': Sys, p: Pass) {
    Writes(s, s') && s.run == Some(Running(p, |Plan(p)| - 1))
  }

  /** The pass gives up, or the process dies. */
  ghost predicate Fails(s: Sys, s': Sys) {
    (s.seen.Some? || s.run.Some?) && s' == s.(seen := None, run := None)
  }

  ghost predicate Disturbs(k: Key, s: Sys, s': Sys) {
    && EnvironmentChange(k, s.w, s'.w)
    && s'.seen == s.seen && s'.run == s.run && s'.hist == s.hist
    && var c, c' := s.w.canaries[k], s'.w.canaries[k];
    s'.issued == Issued(
      s.issued.promotes + Count(PromoteRequested(c') && !PromoteRequested(c)),
      s.issued.aborts + Count(AbortRequested(c') && !AbortRequested(c)))
  }

  ghost predicate Next(engine: bool, k: Key, s: Sys, s': Sys) {
    Reads(k, s, s') || Starts(engine, k, s, s') || Writes(s, s') || Fails(s, s') || Disturbs(k, s, s')
  }

  ghost predicate Init(k: Key, s: Sys) {
    && k in s.w.canaries && s.w.canaries[k].status == ZERO_STATUS
    && Clean(s.w, k, s.w.canaries[k])
    && s.seen == None && s.run == None && s.hist == []
    && s.issued == Issued(Count(PromoteRequested(s.w.canaries[k])), Count(AbortRequested(s.w.canaries[k])))
  }

  ghost predicate IsRun(engine: bool, k: Key, tr: seq<Sys>) {
    && |tr| > 0 && Init(k, tr[0])
    && forall i: nat | i + 1 < |tr| :: Next(engine, k, tr[i], tr[i + 1])
  }

  function Own(k: Key, s: Sys): Canary
    requires k in s.w.canaries
  {
    s.w.canaries[k]
  }

  // ---- The core invariant ----

  ghost predicate WellRead(engine: bool, k: Key, p: Pass) {
    && p.key == k
    && (p.analysis.Some? <==> Analyses(engine, p.c))
    && (p.analysis.Some? ==> Analysis.ResultFor(p.c, p.analysis.value))
  }

  function StatusAfter(hist: seq<Pass>): Status {
    if hist == [] then ZERO_STATUS else NextStatus(hist[|hist| - 1])
  }

  /** Each persisted pass started from the status the one before it left. */
  ghost predicate Chain(engine: bool, k: Key, hist: seq<Pass>) {
    forall j | 0 <= j < |hist| :: WellRead(engine, k, hist[j]) && hist[j].c.status == StatusAfter(hist[..j])
  }

  ghost predicate Core(engine: bool, k: Key, s: Sys) {
    && k in s.w.canaries
    && Own(k, s).status == StatusAfter(s.hist)
    && Chain(engine, k, s.hist)
    && (s.seen.Some? ==>
          s.run.None? && s.seen.value.status == Own(k, s).status && SameRefs(s.seen.value, Own(k, s)))
    && (s.run.Some? ==>
          && WellRead(engine, k, s.run.value.p)
          && s.run.value.p.c.status == Own(k, s).status
          && SameRefs(s.run.value.p.c, Own(k, s))
          && s.run.value.done < |Plan(s.run.value.p)|
          && Established(s.run.value.p, s.run.value.done, s.w))
  }

  lemma ChainGrows(engine: bool, k: Key, hist: seq<Pass>, p: Pass)
    requires Chain(engine, k, hist) && WellRead(engine, k, p) && p.c.status == StatusAfter(hist)
    ensures Chain(engine, k, hist + [p]) && StatusAfter(hist + [p]) == NextStatus(p)
  {
    var longer := hist + [p];
    forall j | 0 <= j < |longer|
      ensures WellRead(engine, k, longer[j]) && longer[j].c.status == StatusAfter(longer[..j])
    {
      assert longer[..j] == hist[..j];
      assert hist[..|hist|] == hist;
    }
  }

  lemma WriteKeepsCore(engine: bool, k: Key, s: Sys, s': Sys)
    requires Core(engine, k, s) && Writes(s, s')
    ensures Core(engine, k, s')
  {
    var p, done := s.run.value.p, s.run.value.done;
    PlanShape(p, done);
    WritesToCanaries(Plan(p)[done], p, s.w, s'.w);
    WriteEstablishes(p, done, s.w, s'.w);
    ChainGrows(engine, k, s.hist, p);
  }

  lemma NextKeepsCore(engine: bool, k: Key, s: Sys, s': Sys)
    requires Core(engine, k, s) && Next(engine, k, s, s')
    ensures Core(engine, k, s')
  {
    if Writes(s, s') {
      WriteKeepsCore(engine, k, s, s');
    } else if Disturbs(k, s, s') {
      if s.run.Some? {
        EstablishedIsKept(s.run.value.p, s.run.value.done, s.w, s'.w, Own(k, s));
      }
    }
  }

  lemma {:induction false} CoreAt(engine: bool, k: Key, tr: seq<Sys>, i: nat)
    requires IsRun(engine, k, tr) && i < |tr|
    ensures Core(engine, k, tr[i])
  {
    if i == 0 {
    } else {
      CoreAt(engine, k, tr, i - 1);
      NextKeepsCore(engine, k, tr[i - 1], tr[i]);
    }
  }

  // ---- Traffic is never more than one step ahead of the status ----

  ghost predicate FixedSteps(k: Key, tr: seq<Sys>, steps: seq<int>) {
    forall i | 0 <= i < |tr| :: k in tr[i].w.canaries && Steps(Own(k, tr[i])) == steps
  }

  /** `live` is 0, the weight of step `i` or that of the step after it. */
  ghost predicate Lead(c: Canary, steps: seq<int>, i: int, live: int) {
    && (0 <= i < |steps| || (i == 0 && steps == []))
    && (|| live == 0
        || (i < |steps| && live == Traffic.Observed(c, steps[i]))
        || (i + 1 < |steps| && live == Traffic.Observed(c, steps[i + 1])))
  }

  ghost predicate BoundedLead(k: Key, s: Sys)
    requires k in s.w.canaries
  {
    Lead(Own(k, s), Steps(Own(k, s)), Own(k, s).status.index, Traffic.Live(s.w, k, Own(k, s)))
  }

  ghost predicate LeadInvariant(engine: bool, k: Key, steps: seq<int>, s: Sys) {
    && Core(engine, k, s) && Steps(Own(k, s)) == steps
    && (s.seen.Some? ==> Steps(s.seen.value) == steps)
    && (s.run.Some? ==> Steps(s.run.value.p.c) == steps)
    && BoundedLead(k, s)
  }

  lemma NoTrafficIsNotLive(w: World, k: Key, c: Canary)
    requires Traffic.NoTraffic(w, k, c)
    ensures Traffic.Live(w, k, c) == 0
  {
  }

  lemma SameRefsShowTheSame(w: World, k: Key, c: Canary, c': Canary)
    requires SameRefs(c, c')
    ensures Traffic.Live(w, k, c) == Traffic.Live(w, k, c')
  {
  }

  lemma SameRefsLeadTheSame(c: Canary, c': Canary, steps: seq<int>, i: int, live: int)
    requires SameRefs(c, c') && Lead(c, steps, i, live)
    ensures Lead(c', steps, i, live)
  {
  }

  lemma WriteKeepsItsLead(p: Pass, n: nat, w: World, w': World)
    requires n < |Plan(p)| && Apply(Plan(p)[n], p, w) == Ok(w')
    requires Lead(p.c, Steps(p.c), p.c.status.index, Traffic.Live(w, p.key, p.c))
    ensures Lead(p.c, Steps(p.c), p.c.status.index, Traffic.Live(w', p.key, p.c))
  {
    hide Apply, Traffic.Live;
    PlanShape(p, n);
    DecisionIsOneKind(p);
    LiveAfterWrite(Plan(p)[n], p, w, w');
  }

  lemma CompletionKeepsLead(p: Pass, w: World)
    requires Established(p, |Plan(p)| - 1, w)
    requires Lead(p.c, Steps(p.c), p.c.status.index, Traffic.Live(w, p.key, p.c))
    ensures Lead(p.c, Steps(p.c), NextStatus(p).index, Traffic.Live(w, p.key, p.c))
  {
    PlanShape(p, |Plan(p)| - 1);
    DecisionIsOneKind(p);
    if EndsRollout(p) {
      NoTrafficIsNotLive(w, p.key, p.c);
    } else if SetsUp(p) {
      Traffic.RoutedShows(w, p.key, p.c, Decide(p).weight);
    }
  }

  /** The index moves with the last write only. */
  function IndexAfter(p: Pass, n: nat): int {
    if n == |Plan(p)| then NextStatus(p).index else p.c.status.index
  }

  lemma PassKeepsLead(p: Pass, n: nat, w: World, w': World)
    requires n < |Plan(p)| && Apply(Plan(p)[n], p, w) == Ok(w') && Established(p, n, w)
    requires Lead(p.c, Steps(p.c), p.c.status.index, Traffic.Live(w, p.key, p.c))
    ensures Lead(p.c, Steps(p.c), IndexAfter(p, n + 1), Traffic.Live(w', p.key, p.c))
  {
    WriteKeepsItsLead(p, n, w, w');
    if n + 1 == |Plan(p)| {
      WriteEstablishes(p, n, w, w');
      EstablishedEarlier(p, w');
      CompletionKeepsLead(p, w');
    }
  }

  lemma WriteMovesIndex(engine: bool, k: Key, s: Sys, s': Sys)
    requires Core(engine, k, s) && Writes(s, s')
    ensures k in s'.w.canaries && Own(k, s').spec == Own(k, s).spec
    ensures Own(k, s').status.index == IndexAfter(s.run.value.p, s.run.value.done + 1)
  {
    var p, done := s.run.value.p, s.run.value.done;
    PlanShape(p, done);
    WritesToCanaries(Plan(p)[done], p, s.w, s'.w);
  }

  lemma WriteKeepsLead(engine: bool, k: Key, steps: seq<int>, s: Sys, s': Sys)
    requires LeadInvariant(engine, k, steps, s) && Writes(s, s')
    ensures k in s'.w.canaries && Steps(Own(k, s')) == steps && BoundedLead(k, s')
  {
    var p, done := s.run.value.p, s.run.value.done;
    WriteMovesIndex(engine, k, s, s');
    var c, c' := Own(k, s), Own(k, s');
    SameRefsShowTheSame(s.w, k, c, p.c);
    SameRefsLeadTheSame(c, p.c, steps, c.status.index, Traffic.Live(s.w, k, c));
    PassKeepsLead(p, done, s.w, s'.w);
    SameRefsShowTheSame(s'.w, k, c', p.c);
    SameRefsLeadTheSame(p.c, c', steps, c'.status.index, Traffic.Live(s'.w, k, c'));
  }

  lemma EstablishedEarlier(p: Pass, w: World)
    requires Established(p, |Plan(p)|, w)
    ensures Established(p, |Plan(p)| - 1, w)
  {
  }

  lemma NextKeepsLead(engine: bool, k: Key, steps: seq<int>, s: Sys, s': Sys)
    requires LeadInvariant(engine, k, steps, s) && Next(engine, k, s, s')
    requires k in s'.w.canaries && Steps(Own(k, s')) == steps
    ensures LeadInvariant(engine, k, steps, s')
  {
    NextKeepsCore(engine, k, s, s');
    if Writes(s, s') {
      WriteKeepsLead(engine, k, steps, s, s');
    } else if Disturbs(k, s, s') {
      DisturbanceKeepsLead(k, steps, s, s');
    }
  }

  lemma DisturbanceKeepsLead(k: Key, steps: seq<int>, s: Sys, s': Sys)
    requires Disturbs(k, s, s') && BoundedLead(k, s) && Steps(Own(k, s)) == Steps(Own(k, s')) == steps
    ensures BoundedLead(k, s')
  {
    var c, c' := Own(k, s), Own(k, s');
    CleanIsKept(s.w, s'.w, k, c, c');
    SameRefsLeadTheSame(c, c', steps, c.status.index, Traffic.Live(s.w, k, c));
  }

  lemma LeadStep(engine: bool, k: Key, steps: seq<int>, tr: seq<Sys>, i: nat)
    requires IsRun(engine, k, tr) && FixedSteps(k, tr, steps) && i + 1 < |tr|
    requires LeadInvariant(engine, k, steps, tr[i])
    ensures LeadInvariant(engine, k, steps, tr[i + 1])
  {
    NextKeepsLead(engine, k, steps, tr[i], tr[i + 1]);
  }

  /** Bounded lead under faults: in every state of every run with fixed steps, whatever the
      commands, mode switches, target revisions and failures in between. */
  lemma {:induction false} TrafficNeverRunsAhead(engine: bool, k: Key, steps: seq<int>, tr: seq<Sys>, i: nat)
    requires IsRun(engine, k, tr) && FixedSteps(k, tr, steps) && i < |tr|
    ensures LeadInvariant(engine, k, steps, tr[i])
  {
    if i == 0 {
      InitHasNoLead(engine, k, steps, tr[0]);
    } else {
      TrafficNeverRunsAhead(engine, k, steps, tr, i - 1);
      LeadStep(engine, k, steps, tr, i - 1);
    }
  }

  lemma InitHasNoLead(engine: bool, k: Key, steps: seq<int>, s: Sys)
    requires Init(k, s) && Steps(Own(k, s)) == steps
    ensures LeadInvariant(engine, k, steps, s)
  {
    NoTrafficIsNotLive(s.w, k, Own(k, s));
  }

  // ---- Status, router and workload agree after a completed pass ----

  /** Status, router, workload and revision agree on what pass `p` has brought about. */
  ghost predicate Agreement(w: World, p: Pass) {
    && p.key in w.canaries
    && var st := w.canaries[p.key].status;
    && st == NextStatus(p)
    && 0 <= st.index < |Steps(p.c)| && st.weight == Steps(p.c)[st.index]
    && st.canary == Revision(p.t) && st.canary != st.stable
    && Traffic.Routed(w, p.key, p.c, st.weight)
    && Traffic.ObservedStatus(w, p.key, p.c)
         == Ok(TrafficStatus(100 - Traffic.Observed(p.c, st.weight), Traffic.Observed(p.c, st.weight)))
    && DeploymentMatches(w, p)
    && (p.c.spec.service.port != 0 ==> ServiceMatches(w, p))
  }

  lemma StatusOfSetUp(p: Pass)
    requires SetsUp(p)
    ensures 0 <= NextStatus(p).index < |Steps(p.c)| && NextStatus(p).weight == Steps(p.c)[NextStatus(p).index]
    ensures NextStatus(p).weight == Decide(p).weight
    ensures NextStatus(p).canary == Revision(p.t) && NextStatus(p).canary != NextStatus(p).stable
  {
    DecisionIsOneKind(p);
  }

  lemma CompletionAgrees(p: Pass, w: World, w': World)
    requires Established(p, |Plan(p)| - 1, w) && Apply(Plan(p)[|Plan(p)| - 1], p, w) == Ok(w')
    requires SetsUp(p)
    ensures Agreement(w', p)
  {
    hide Decide, NextStatus, Body, SetsUp, EndsRollout, Traffic.Routed, DeploymentMatches, ServiceMatches, Traffic.ObservedStatus;
    StatusOfSetUp(p);
    PlanShape(p, |Plan(p)| - 1);
    WritesToCanaries(PersistStatus, p, w, w');
    WriteEstablishes(p, |Plan(p)| - 1, w, w');
    Traffic.RoutedShows(w', p.key, p.c, NextStatus(p).weight);
  }

  /** In either mode: a pass that ends in AwaitingPromotion or Progressing leaves status, traffic,
      workload and revision in agreement. */
  lemma CompletedPassAgrees(engine: bool, k: Key, tr: seq<Sys>, i: nat, p: Pass)
    requires IsRun(engine, k, tr) && i + 1 < |tr| && Completes(tr[i], tr[i + 1], p)
    requires SetsUp(p)
    ensures p.key == k && Agreement(tr[i + 1].w, p)
    ensures NextStatus(p).phase.AwaitingPromotion? || NextStatus(p).phase.Progressing?
  {
    var s, s' := tr[i], tr[i + 1];
    CoreAt(engine, k, tr, i);
    assert s.run == Some(Running(p, |Plan(p)| - 1));
    CompletionAgrees(p, s.w, s'.w);
  }

  // ---- Cleanup follows Reset ----

  lemma DeletionComesAfterReset(p: Pass, n: nat, w: World)
    requires n < |Plan(p)| && Established(p, n, w) && (Plan(p)[n] == DeleteDeployment || Plan(p)[n] == DeleteService)
    ensures Traffic.NoTraffic(w, p.key, p.c)
  {
    PlanShape(p, n);
  }

  /** Wherever a run is about to delete canary objects, the canary gets no traffic any more. */
  lemma CleanupFollowsReset(engine: bool, k: Key, tr: seq<Sys>, i: nat)
    requires IsRun(engine, k, tr) && i < |tr| && tr[i].run.Some?
    requires var r := tr[i].run.value; r.done < |Plan(r.p)| && (Plan(r.p)[r.done] == DeleteDeployment || Plan(r.p)[r.done] == DeleteService)
    ensures k in tr[i].w.canaries && Traffic.NoTraffic(tr[i].w, k, Own(k, tr[i]))
  {
    CoreAt(engine, k, tr, i);
    DeletionComesAfterReset(tr[i].run.value.p, tr[i].run.value.done, tr[i].w);
  }
}
