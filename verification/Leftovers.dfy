/** What a finished rollout leaves behind. */
module Leftovers {
  import opened Api
  import opened Rollout
  import opened Passes
  import opened Runs
  import Traffic

  function Target(k: Key, s: Sys): Deployment
    requires k in s.w.canaries && TargetKey(k, Own(k, s)) in s.w.deployments
  {
    s.w.deployments[TargetKey(k, Own(k, s))]
  }

  ghost predicate HasTarget(k: Key, s: Sys) {
    k in s.w.canaries && TargetKey(k, Own(k, s)) in s.w.deployments
  }

  // ---- No leftovers ----

  ghost function Rank(k: Key, rank: string -> int, s: Sys): int
    requires HasTarget(k, s)
  {
    rank(Revision(Target(k, s)))
  }

  /** `rank` numbers the revisions so that those of the target, whenever it exists, only ever grow. */
  ghost predicate RevisionsGrow(k: Key, tr: seq<Sys>, rank: string -> int) {
    && (forall a, b :: rank(a) == rank(b) ==> a == b)
    && forall i, j | 0 <= i <= j < |tr| && HasTarget(k, tr[i]) && HasTarget(k, tr[j]) ::
         Rank(k, rank, tr[i]) <= Rank(k, rank, tr[j])
  }

  /** The rank of the last revision the target has shown up to state `i`. */
  ghost function Latest(k: Key, tr: seq<Sys>, rank: string -> int, i: nat): Option<int>
    requires i < |tr|
  {
    if HasTarget(k, tr[i]) then Some(Rank(k, rank, tr[i]))
    else if i == 0 then None
    else Latest(k, tr, rank, i - 1)
  }

  /** `now'` is what `now` may have become. */
  predicate Onward(now: Option<int>, now': Option<int>) {
    now.Some? ==> now'.Some? && now.value <= now'.value
  }

  lemma {:induction false} LatestWasSeen(k: Key, tr: seq<Sys>, rank: string -> int, i: nat)
    requires i < |tr| && Latest(k, tr, rank, i).Some?
    ensures exists j :: 0 <= j <= i && HasTarget(k, tr[j]) && Latest(k, tr, rank, i) == Some(Rank(k, rank, tr[j]))
  {
    if HasTarget(k, tr[i]) {
      assert Latest(k, tr, rank, i) == Some(Rank(k, rank, tr[i]));
    } else {
      LatestWasSeen(k, tr, rank, i - 1);
    }
  }

  lemma LatestGrows(k: Key, tr: seq<Sys>, rank: string -> int, i: nat)
    requires RevisionsGrow(k, tr, rank) && i + 1 < |tr|
    ensures Onward(Latest(k, tr, rank, i), Latest(k, tr, rank, i + 1))
    ensures HasTarget(k, tr[i]) ==> Latest(k, tr, rank, i) == Some(Rank(k, rank, tr[i]))
  {
    if Latest(k, tr, rank, i).Some? {
      LatestWasSeen(k, tr, rank, i);
    }
  }

  /** The schedule may be edited, but not emptied nor filled. */
  ghost predicate SchedulesStay(k: Key, tr: seq<Sys>, scheduled: bool) {
    forall i | 0 <= i < |tr| :: k in tr[i].w.canaries && (Steps(Own(k, tr[i])) != [] <==> scheduled)
  }

  /** The mode is one the CRD admits. */
  ghost predicate KnownModes(k: Key, tr: seq<Sys>) {
    forall i | 0 <= i < |tr| :: k in tr[i].w.canaries && !Own(k, tr[i]).spec.strategy.mode.OtherMode?
  }

  /** A pass that finds no rollout to work on: it touches no derived object. */
  predicate Rests(p: Pass) {
    !EndsRollout(p) && (Decide(p).phase.Idle? || Decide(p).phase.Succeeded? || Decide(p).phase.RolledBack?)
  }

  /** The revision last made stable never comes back while something derived from the Canary exists.
      `now` is the rank of the target's last revision. */
  ghost predicate Tidy(k: Key, scheduled: bool, rank: string -> int, now: Option<int>, s: Sys)
    requires k in s.w.canaries
  {
    var st := Own(k, s).status;
    && (st.stable != "" ==> now.Some? && rank(st.stable) <= now.value)
    && (!Clean(s.w, k, Own(k, s)) ==> scheduled && st.stable != "" && rank(st.stable) < now.value)
    && (s.seen.Some? ==> (Steps(s.seen.value) != [] <==> scheduled) && !s.seen.value.spec.strategy.mode.OtherMode?)
    && (s.run.Some? ==>
          var p := s.run.value.p;
          && (Steps(p.c) != [] <==> scheduled) && !p.c.spec.strategy.mode.OtherMode?
          && now.Some? && rank(Revision(p.t)) <= now.value
          && (st.stable != "" ==> rank(st.stable) <= rank(Revision(p.t)))
          && (Rests(p) ==> Clean(s.w, k, p.c)))
  }

  lemma RestMeansNothingNew(p: Pass)
    requires Rests(p) && !p.c.spec.strategy.mode.OtherMode?
    ensures Steps(p.c) == [] || p.c.status.stable == "" || p.c.status.stable == Revision(p.t)
    ensures Body(p) == []
  {
  }

  lemma SetUpMeansNewRevision(p: Pass)
    requires SetsUp(p)
    ensures Steps(p.c) != [] && p.c.status.stable != "" && p.c.status.stable != Revision(p.t)
  {
  }

  lemma StableAfter(p: Pass)
    ensures NextStatus(p).stable == p.c.status.stable || NextStatus(p).stable == Revision(p.t)
    ensures NextStatus(p).stable != p.c.status.stable ==> EndsRollout(p) || Rests(p) || p.c.status.stable == ""
    ensures p.c.status.stable == "" && !EndsRollout(p) ==> Rests(p)
  {
  }

  /** After the writes of a rollback or promotion, or in a pass that rests, nothing is left. */
  lemma EndIsClean(p: Pass, w: World)
    requires EndsRollout(p) && Established(p, |Body(p)|, w)
    ensures Clean(w, p.key, p.c)
  {
    PlanShape(p, 0);
  }

  /** A write dirties the cluster only in the set-up of a new revision. */
  lemma WriteKeepsCleanUnlessNew(p: Pass, n: nat, w: World, w': World)
    requires n < |Plan(p)| && Apply(Plan(p)[n], p, w) == Ok(w') && Clean(w, p.key, p.c)
    ensures Clean(w', p.key, p.c)
         || (Steps(p.c) != [] && p.c.status.stable != "" && p.c.status.stable != Revision(p.t) && !Rests(p))
  {
    PlanShape(p, n);
    if SetsUp(p) {
      SetUpMeansNewRevision(p);
      DecisionIsOneKind(p);
    } else {
      CleaningOnly(Plan(p)[n], p, w, w');
    }
  }

  /** A write other than the last leaves the status as it is. */
  lemma MidWriteKeepsTidy(engine: bool, k: Key, scheduled: bool, rank: string -> int, now: Option<int>, now': Option<int>, s: Sys, s': Sys)
    requires Core(engine, k, s) && Writes(s, s') && s'.run.Some?
    requires forall a, b :: rank(a) == rank(b) ==> a == b
    requires Tidy(k, scheduled, rank, now, s)
    requires Onward(now, now')
    ensures k in s'.w.canaries && Tidy(k, scheduled, rank, now', s')
  {
    hide Apply, Established, NextStatus, Chain, StatusAfter;
    var p, done := s.run.value.p, s.run.value.done;
    PlanShape(p, done);
    WritesToCanaries(Plan(p)[done], p, s.w, s'.w);
    CleanIsKept(s.w, s.w, k, Own(k, s), p.c);
    CleanIsKept(s'.w, s'.w, k, Own(k, s'), p.c);
    if Clean(s.w, k, p.c) {
      WriteKeepsCleanUnlessNew(p, done, s.w, s'.w);
    }
  }

  lemma LastWriteKeepsTidy(engine: bool, k: Key, scheduled: bool, rank: string -> int, now: Option<int>, now': Option<int>, s: Sys, s': Sys)
    requires Core(engine, k, s) && Writes(s, s') && s'.run.None?
    requires forall a, b :: rank(a) == rank(b) ==> a == b
    requires Tidy(k, scheduled, rank, now, s)
    requires Onward(now, now')
    ensures k in s'.w.canaries && Tidy(k, scheduled, rank, now', s')
  {
    var p, done := s.run.value.p, s.run.value.done;
    PlanShape(p, done);
    StableAfter(p);
    WritesToCanaries(PersistStatus, p, s.w, s'.w);
    WriteTouchesOneKind(PersistStatus, p, s.w, s'.w);
    CleanIsKept(s.w, s.w, k, Own(k, s), p.c);
    CleanIsKept(s.w, s'.w, k, p.c, Own(k, s'));
    if EndsRollout(p) {
      EndIsClean(p, s.w);
    }
  }

  /** A write that is not part of a set-up leaves nothing that was not there. */
  lemma CleaningOnly(e: Effect, p: Pass, w: World, w': World)
    requires Apply(e, p, w) == Ok(w')
    ensures e == RouteTraffic || e == EnsureDeployment || e == EnsureCanaryService
         || (Clean(w, p.key, p.c) ==> Clean(w', p.key, p.c))
  {
    if e != RouteTraffic && e != EnsureDeployment && e != EnsureCanaryService && Clean(w, p.key, p.c) {
      OnlySetUpLeavesObjects(e, p, w, w');
    }
  }

  lemma StartKeepsTidy(engine: bool, k: Key, scheduled: bool, rank: string -> int, now: Option<int>, s: Sys, s': Sys)
    requires Core(engine, k, s) && Starts(engine, k, s, s')
    requires forall a, b :: rank(a) == rank(b) ==> a == b
    requires Tidy(k, scheduled, rank, now, s) && (HasTarget(k, s) ==> now == Some(Rank(k, rank, s)))
    ensures Tidy(k, scheduled, rank, now, s')
  {
    var p := s'.run.value.p;
    CleanIsKept(s.w, s.w, k, Own(k, s), p.c);
    if Rests(p) {
      RestMeansNothingNew(p);
    }
  }

  lemma DisturbanceKeepsTidy(k: Key, scheduled: bool, rank: string -> int, now: Option<int>, now': Option<int>, s: Sys, s': Sys)
    requires Disturbs(k, s, s')
    requires s.run.Some? ==> s.run.value.p.key == k && SameRefs(s.run.value.p.c, Own(k, s))
    requires Tidy(k, scheduled, rank, now, s)
    requires Onward(now, now')
    ensures k in s'.w.canaries && Tidy(k, scheduled, rank, now', s')
  {
    CleanIsKept(s.w, s'.w, k, Own(k, s), Own(k, s'));
    if s.run.Some? {
      CleanIsKept(s.w, s'.w, k, Own(k, s), s.run.value.p.c);
      CleanIsKept(s.w, s.w, k, Own(k, s), s.run.value.p.c);
    }
  }

  lemma TidyLasts(k: Key, scheduled: bool, rank: string -> int, now: Option<int>, now': Option<int>, s: Sys)
    requires k in s.w.canaries && Tidy(k, scheduled, rank, now, s) && Onward(now, now')
    ensures Tidy(k, scheduled, rank, now', s)
  {
  }

  lemma NextKeepsTidy(engine: bool, k: Key, scheduled: bool, rank: string -> int, now: Option<int>, now': Option<int>, s: Sys, s': Sys)
    requires Core(engine, k, s) && Next(engine, k, s, s')
    requires forall a, b :: rank(a) == rank(b) ==> a == b
    requires Tidy(k, scheduled, rank, now, s) && (Steps(Own(k, s)) != [] <==> scheduled) && !Own(k, s).spec.strategy.mode.OtherMode?
    requires Onward(now, now') && (HasTarget(k, s) ==> now == Some(Rank(k, rank, s)))
    ensures k in s'.w.canaries && Tidy(k, scheduled, rank, now', s')
  {
    if Starts(engine, k, s, s') {
      StartKeepsTidy(engine, k, scheduled, rank, now, s, s');
      TidyLasts(k, scheduled, rank, now, now', s');
    } else if Writes(s, s') {
      if s'.run.Some? {
        MidWriteKeepsTidy(engine, k, scheduled, rank, now, now', s, s');
      } else {
        LastWriteKeepsTidy(engine, k, scheduled, rank, now, now', s, s');
      }
    } else if Disturbs(k, s, s') {
      DisturbanceKeepsTidy(k, scheduled, rank, now, now', s, s');
    } else {
      assert s'.w == s.w;
      TidyLasts(k, scheduled, rank, now, now', s');
    }
  }

  /** One transition of a run keeps the invariant. */
  lemma TidyStep(engine: bool, k: Key, scheduled: bool, rank: string -> int, tr: seq<Sys>, i: nat)
    requires IsRun(engine, k, tr) && SchedulesStay(k, tr, scheduled) && RevisionsGrow(k, tr, rank) && KnownModes(k, tr)
    requires i + 1 < |tr| && Tidy(k, scheduled, rank, Latest(k, tr, rank, i), tr[i])
    ensures Tidy(k, scheduled, rank, Latest(k, tr, rank, i + 1), tr[i + 1])
  {
    CoreAt(engine, k, tr, i);
    LatestGrows(k, tr, rank, i);
    NextKeepsTidy(engine, k, scheduled, rank, Latest(k, tr, rank, i), Latest(k, tr, rank, i + 1), tr[i], tr[i + 1]);
  }

  lemma {:induction false} TidyAt(engine: bool, k: Key, scheduled: bool, rank: string -> int, tr: seq<Sys>, i: nat)
    requires IsRun(engine, k, tr) && SchedulesStay(k, tr, scheduled) && RevisionsGrow(k, tr, rank) && KnownModes(k, tr)
    requires i < |tr|
    ensures Tidy(k, scheduled, rank, Latest(k, tr, rank, i), tr[i])
  {
    if i == 0 {
      InitIsTidy(k, scheduled, rank, Latest(k, tr, rank, 0), tr[0]);
    } else {
      TidyAt(engine, k, scheduled, rank, tr, i - 1);
      TidyStep(engine, k, scheduled, rank, tr, i - 1);
    }
  }

  lemma InitIsTidy(k: Key, scheduled: bool, rank: string -> int, now: Option<int>, s: Sys)
    requires Init(k, s)
    ensures Tidy(k, scheduled, rank, now, s)
  {
  }

  lemma CompletionIsClean(engine: bool, k: Key, s: Sys, s': Sys, p: Pass)
    requires Core(engine, k, s) && Completes(s, s', p)
    requires EndsRollout(p) || Clean(s.w, k, p.c)
    ensures k in s'.w.canaries && Own(k, s').status == NextStatus(p)
    ensures EndsRollout(p) || Rests(p) ==> Clean(s'.w, k, Own(k, s')) && Traffic.Live(s'.w, k, Own(k, s')) == 0
  {
    PlanShape(p, |Plan(p)| - 1);
    WritesToCanaries(PersistStatus, p, s.w, s'.w);
    WriteTouchesOneKind(PersistStatus, p, s.w, s'.w);
    if EndsRollout(p) {
      EndIsClean(p, s.w);
    }
    CleanIsKept(s.w, s'.w, k, p.c, Own(k, s'));
    if Clean(s'.w, k, Own(k, s')) {
      NoTrafficIsNotLive(s'.w, k, Own(k, s'));
    }
  }

  /** The pass stores one of the phases without a canary. */
  predicate StoresEndPhase(p: Pass) {
    var phase := NextStatus(p).phase;
    phase.Idle? || phase.Succeeded? || phase.RolledBack? || phase.Failed?
  }

  lemma EndingPhases(p: Pass)
    ensures StoresEndPhase(p) <==> EndsRollout(p) || Rests(p)
  {
  }

  /** The status of `p` is stored, and nothing derived from the Canary exists or gets traffic. */
  ghost predicate NothingLeft(k: Key, p: Pass, s: Sys) {
    && k in s.w.canaries && Own(k, s).status == NextStatus(p)
    && Clean(s.w, k, Own(k, s))
    && Traffic.Live(s.w, k, Own(k, s)) == 0
  }

  /** No leftovers: over every run with growing revisions, failed passes and edited schedules
      included, a completed pass that ends in Idle, Succeeded, RolledBack or Failed leaves no sibling
      Ingress or alternate backend, no canary Deployment and no canary Service. */
  lemma NoLeftovers(engine: bool, k: Key, scheduled: bool, rank: string -> int, tr: seq<Sys>, i: nat, p: Pass)
    requires IsRun(engine, k, tr) && SchedulesStay(k, tr, scheduled) && RevisionsGrow(k, tr, rank) && KnownModes(k, tr)
    requires i + 1 < |tr| && Completes(tr[i], tr[i + 1], p) && StoresEndPhase(p)
    ensures NothingLeft(k, p, tr[i + 1])
  {
    TidyAt(engine, k, scheduled, rank, tr, i);
    CoreAt(engine, k, tr, i);
    EndingPhases(p);
    var s, s' := tr[i], tr[i + 1];
    assert s.run == Some(Running(p, |Plan(p)| - 1));
    CompletionIsClean(engine, k, s, s', p);
  }

  // ---- What a pass that rests leaves, in a run whose passes are carried out ----

  /** No pass that has set something up or torn something down gives up halfway. */
  ghost predicate BodiesAreCarriedOut(tr: seq<Sys>) {
    forall i: nat | i + 1 < |tr| && Fails(tr[i], tr[i + 1]) && tr[i].run.Some? ::
      tr[i].run.value.done == 0 || Body(tr[i].run.value.p) == []
  }

  /** Between such passes, the status names a canary revision exactly while there is something out. */
  ghost predicate CanaryIsNamed(k: Key, s: Sys)
    requires k in s.w.canaries
  {
    s.run.None? || s.run.value.done == 0 || Body(s.run.value.p) == [] ==>
      (Clean(s.w, k, Own(k, s)) <==> Own(k, s).status.canary == "")
  }

  lemma BodiesByKind(p: Pass)
    ensures Body(p) == [] <==> !EndsRollout(p) && !SetsUp(p)
    ensures NextStatus(p).canary == if EndsRollout(p) then "" else if SetsUp(p) then Revision(p.t) else p.c.status.canary
    ensures Rests(p) ==> Body(p) == []
  {
  }

  lemma PatchKeepsClean(p: Pass, n: nat, w: World, w': World)
    requires |Body(p)| <= n < |Plan(p)| && Apply(Plan(p)[n], p, w) == Ok(w')
    ensures Clean(w', p.key, p.c) <==> Clean(w, p.key, p.c)
  {
    hide Decide, NextStatus, Body;
    PlanShape(p, n);
    WriteTouchesOneKind(Plan(p)[n], p, w, w');
  }

  lemma SetUpIsNotClean(p: Pass, w: World)
    requires SetsUp(p) && Established(p, |Body(p)|, w)
    ensures !Clean(w, p.key, p.c)
  {
    PlanShape(p, 0);
  }

  lemma EstablishedByBody(p: Pass, w: World)
    requires Established(p, |Plan(p)| - 1, w)
    ensures Established(p, |Body(p)|, w)
  {
    PlanShape(p, 0);
  }

  /** The pass, once carried out, has named the canary it leaves. */
  lemma PassNamesCanary(p: Pass, w: World, w': World)
    requires Established(p, |Plan(p)| - 1, w) && Apply(PersistStatus, p, w) == Ok(w')
    requires Body(p) == [] ==> (Clean(w, p.key, p.c) <==> p.c.status.canary == "")
    ensures Clean(w', p.key, p.c) <==> NextStatus(p).canary == ""
  {
    hide Apply, Clean, Established, Decide, NextStatus, EndsRollout, SetsUp;
    BodiesByKind(p);
    PlanShape(p, |Plan(p)| - 1);
    PatchKeepsClean(p, |Plan(p)| - 1, w, w');
    EstablishedByBody(p, w);
    if EndsRollout(p) {
      EndIsClean(p, w);
    } else if SetsUp(p) {
      SetUpIsNotClean(p, w);
    }
  }

  lemma LastWriteNamesCanary(engine: bool, k: Key, s: Sys, s': Sys)
    requires Core(engine, k, s) && Writes(s, s') && s'.run.None? && CanaryIsNamed(k, s)
    ensures k in s'.w.canaries && CanaryIsNamed(k, s')
  {
    hide Apply, Clean, Established, Decide, NextStatus, Body, Chain, StatusAfter;
    var p, done := s.run.value.p, s.run.value.done;
    PlanShape(p, done);
    WritesToCanaries(PersistStatus, p, s.w, s'.w);
    CleanIsKept(s.w, s.w, k, Own(k, s), p.c);
    CleanIsKept(s'.w, s'.w, k, p.c, Own(k, s'));
    PassNamesCanary(p, s.w, s'.w);
  }

  lemma MidWriteNamesCanary(engine: bool, k: Key, s: Sys, s': Sys)
    requires Core(engine, k, s) && Writes(s, s') && s'.run.Some? && CanaryIsNamed(k, s)
    ensures k in s'.w.canaries && CanaryIsNamed(k, s')
  {
    hide Apply, Clean, Established, Decide, NextStatus, Body, Chain, StatusAfter;
    var p, done := s.run.value.p, s.run.value.done;
    PlanShape(p, done);
    WritesToCanaries(Plan(p)[done], p, s.w, s'.w);
    if Body(p) == [] {
      CleanIsKept(s.w, s.w, k, Own(k, s), p.c);
      CleanIsKept(s'.w, s'.w, k, p.c, Own(k, s'));
      PatchKeepsClean(p, done, s.w, s'.w);
    }
  }

  lemma NextNamesCanary(engine: bool, k: Key, s: Sys, s': Sys)
    requires Core(engine, k, s) && Next(engine, k, s, s') && CanaryIsNamed(k, s)
    requires Fails(s, s') && s.run.Some? ==> s.run.value.done == 0 || Body(s.run.value.p) == []
    ensures k in s'.w.canaries && CanaryIsNamed(k, s')
  {
    hide Apply, Clean, Established, Body, Chain, StatusAfter;
    if Writes(s, s') {
      if s'.run.None? {
        LastWriteNamesCanary(engine, k, s, s');
      } else {
        MidWriteNamesCanary(engine, k, s, s');
      }
    } else if Disturbs(k, s, s') {
      CleanIsKept(s.w, s'.w, k, Own(k, s), Own(k, s'));
    }
  }

  lemma CanaryIsNamedStep(engine: bool, k: Key, tr: seq<Sys>, i: nat)
    requires IsRun(engine, k, tr) && BodiesAreCarriedOut(tr) && i + 1 < |tr|
    requires k in tr[i].w.canaries && CanaryIsNamed(k, tr[i])
    ensures k in tr[i + 1].w.canaries && CanaryIsNamed(k, tr[i + 1])
  {
    hide CanaryIsNamed, Writes, Starts, Disturbs, Init;
    CoreAt(engine, k, tr, i);
    NextNamesCanary(engine, k, tr[i], tr[i + 1]);
  }

  lemma {:induction false} CanaryIsNamedAt(engine: bool, k: Key, tr: seq<Sys>, i: nat)
    requires IsRun(engine, k, tr) && BodiesAreCarriedOut(tr) && i < |tr|
    ensures k in tr[i].w.canaries && CanaryIsNamed(k, tr[i])
  {
    hide BodiesAreCarriedOut, Clean;
    if i == 0 {
      assert Init(k, tr[0]);
    } else {
      CanaryIsNamedAt(engine, k, tr, i - 1);
      CanaryIsNamedStep(engine, k, tr, i - 1);
    }
  }

  /** Idle means no canary, exactly if the status the pass has read names none: in every run whose
      passes are carried out, with any commands, modes, schedules and revisions, a completed pass
      that rests leaves nothing derived from the Canary if and only if there was no canary revision. */
  lemma RestIsCleanUnlessCanaryNamed(engine: bool, k: Key, tr: seq<Sys>, i: nat, p: Pass)
    requires IsRun(engine, k, tr) && BodiesAreCarriedOut(tr)
    requires i + 1 < |tr| && Completes(tr[i], tr[i + 1], p) && Rests(p)
    ensures k in tr[i + 1].w.canaries && Own(k, tr[i + 1]).status == NextStatus(p)
    ensures Clean(tr[i + 1].w, k, Own(k, tr[i + 1])) <==> p.c.status.canary == ""
    ensures p.c.status.canary == "" ==> Traffic.Live(tr[i + 1].w, k, Own(k, tr[i + 1])) == 0
  {
    CanaryIsNamedAt(engine, k, tr, i + 1);
    CoreAt(engine, k, tr, i);
    RestNamesTheSame(engine, k, tr[i], tr[i + 1], p);
    if p.c.status.canary == "" {
      NoTrafficIsNotLive(tr[i + 1].w, k, Own(k, tr[i + 1]));
    }
  }

  lemma RestNamesTheSame(engine: bool, k: Key, s: Sys, s': Sys, p: Pass)
    requires Core(engine, k, s) && Completes(s, s', p) && Rests(p)
    ensures k in s'.w.canaries && s'.run.None?
    ensures Own(k, s').status == NextStatus(p) && NextStatus(p).canary == p.c.status.canary
  {
    hide Apply, Clean, Established, Chain, StatusAfter;
    BodiesByKind(p);
    PlanShape(p, |Plan(p)| - 1);
    WritesToCanaries(PersistStatus, p, s.w, s'.w);
  }
}
