/** Defaulting a Canary does not change what the controller does with it. */
module Defaulting {
  import opened Api
  import opened Rollout
  import opened Passes
  import opened Runs
  import NginxRouter
  import RouteRouter
  import Traffic
  import Webhook
  import Workload

  function DefaultedCanary(c: Canary): Canary {
    c.(spec := Webhook.Defaulted(c.spec))
  }

  function DefaultedPass(p: Pass): Pass {
    p.(c := DefaultedCanary(p.c))
  }

  function DefaultedWorld(w: World, k: Key): World {
    if k in w.canaries then w.(canaries := w.canaries[k := DefaultedCanary(w.canaries[k])]) else w
  }

  function DefaultedSys(k: Key, s: Sys): Sys {
    Sys(
      DefaultedWorld(s.w, k),
      match s.seen
      case None => None
      case Some(c) => Some(DefaultedCanary(c)),
      match s.run
      case None => None
      case Some(r) => Some(Running(DefaultedPass(r.p), r.done)),
      DefaultedHistory(s.hist),
      s.issued)
  }

  function DefaultedHistory(hist: seq<Pass>): seq<Pass> {
    seq(|hist|, i requires 0 <= i < |hist| => DefaultedPass(hist[i]))
  }

  lemma RollbackIsUnchanged(c: Canary)
    ensures Analysis.ShouldRollback(DefaultedCanary(c)) <==> Analysis.ShouldRollback(c)
  {
  }

  lemma DecideIsUnchanged(p: Pass)
    ensures Decide(DefaultedPass(p)) == Decide(p)
  {
    hide Analysis.ShouldRollback;
    RollbackIsUnchanged(p.c);
    assert Steps(DefaultedPass(p).c) == Steps(p.c) && DefaultedPass(p).c.status == p.c.status;
  }

  lemma StatusIsUnchanged(p: Pass)
    ensures NextStatus(DefaultedPass(p)) == NextStatus(p)
  {
    hide Decide;
    DecideIsUnchanged(p);
  }

  lemma DecisionIsUnchanged(p: Pass)
    ensures Decide(DefaultedPass(p)) == Decide(p)
    ensures NextStatus(DefaultedPass(p)) == NextStatus(p) && Plan(DefaultedPass(p)) == Plan(p)
  {
    hide Decide, NextStatus;
    DecideIsUnchanged(p);
    StatusIsUnchanged(p);
  }

  function DefaultedResult(r: Result<World>, k: Key): Result<World> {
    match r
    case Ok(w) => Ok(DefaultedWorld(w, k))
    case Err(e) => Err(e)
  }

  lemma NginxIsUnchanged(ings: NginxRouter.Ingresses, k: Key, c: Canary, weight: int)
    ensures NginxRouter.Reconciled(ings, k, DefaultedCanary(c), weight) == NginxRouter.Reconciled(ings, k, c, weight)
    ensures NginxRouter.WasReset(ings, k, DefaultedCanary(c)) == NginxRouter.WasReset(ings, k, c)
  {
  }

  lemma RouteIsUnchanged(routes: RouteRouter.Routes, k: Key, c: Canary)
    ensures RouteRouter.WasReset(routes, k, DefaultedCanary(c)) == RouteRouter.WasReset(routes, k, c)
  {
  }

  lemma TrafficIsUnchanged(w: World, k: Key, c: Canary, weight: int)
    ensures Traffic.Reconciled(DefaultedWorld(w, k), k, DefaultedCanary(c), weight)
         == DefaultedResult(Traffic.Reconciled(w, k, c, weight), k)
  {
    NginxIsUnchanged(w.ingresses, k, c, weight);
  }

  lemma ResetIsUnchanged(w: World, k: Key, c: Canary)
    ensures Traffic.WasReset(DefaultedWorld(w, k), k, DefaultedCanary(c)) == DefaultedWorld(Traffic.WasReset(w, k, c), k)
  {
    NginxIsUnchanged(w.ingresses, k, c, 0);
    RouteIsUnchanged(w.routes, k, c);
  }

  lemma DeploymentIsUnchanged(w: World, k: Key, c: Canary, t: Deployment)
    ensures Workload.EnsuredDeployment(DefaultedWorld(w, k), k, DefaultedCanary(c), t)
         == DefaultedResult(Workload.EnsuredDeployment(w, k, c, t), k)
  {
  }

  lemma CanaryServiceIsUnchanged(w: World, k: Key, c: Canary, t: Deployment)
    ensures Workload.EnsuredCanaryService(DefaultedWorld(w, k), k, DefaultedCanary(c), t)
         == DefaultedResult(Workload.EnsuredCanaryService(w, k, c, t), k)
  {
    assert Workload.Ports(DefaultedCanary(c)) == Workload.Ports(c);
  }

  lemma StableServiceIsUnchanged(w: World, k: Key, c: Canary, t: Deployment)
    ensures Workload.EnsuredStableService(DefaultedWorld(w, k), k, DefaultedCanary(c), t)
         == DefaultedWorld(Workload.EnsuredStableService(w, k, c, t), k)
  {
    assert Workload.Ports(DefaultedCanary(c)) == Workload.Ports(c);
  }

  lemma PatchIsUnchanged(e: Effect, p: Pass, w: World)
    requires e == ClearCommands || e == PersistStatus
    ensures Apply(e, DefaultedPass(p), DefaultedWorld(w, p.key)) == DefaultedResult(Apply(e, p, w), p.key)
  {
    DecisionIsUnchanged(p);
    if p.key in w.canaries {
      var v, w' := Apply(e, DefaultedPass(p), DefaultedWorld(w, p.key)).value, Apply(e, p, w).value;
      assert v.canaries[p.key] == DefaultedCanary(w'.canaries[p.key]);
      assert v.canaries == DefaultedWorld(w', p.key).canaries;
    }
  }

  /** Writing on the defaulted cluster ends in the defaulted result, or in the same error. */
  lemma WriteIsUnchanged(e: Effect, p: Pass, w: World)
    ensures Apply(e, DefaultedPass(p), DefaultedWorld(w, p.key)) == DefaultedResult(Apply(e, p, w), p.key)
  {
    match e
    case RouteTraffic =>
      DecisionIsUnchanged(p);
      TrafficIsUnchanged(w, p.key, p.c, Decide(p).weight);
    case ResetTraffic => ResetIsUnchanged(w, p.key, p.c);
    case EnsureDeployment => DeploymentIsUnchanged(w, p.key, p.c, p.t);
    case EnsureStableService => StableServiceIsUnchanged(w, p.key, p.c, p.t);
    case EnsureCanaryService => CanaryServiceIsUnchanged(w, p.key, p.c, p.t);
    case DeleteDeployment | DeleteService =>
    case ClearCommands | PersistStatus => PatchIsUnchanged(e, p, w);
  }

  lemma StartIsUnchanged(engine: bool, w: World, p: Pass)
    requires MayBegin(engine, p.c, w, p)
    ensures MayBegin(engine, DefaultedCanary(p.c), DefaultedWorld(w, p.key), DefaultedPass(p))
  {
  }

  lemma EnvironmentIsUnchanged(k: Key, w: World, w': World)
    requires EnvironmentChange(k, w, w')
    ensures EnvironmentChange(k, DefaultedWorld(w, k), DefaultedWorld(w', k))
  {
  }

  lemma HistoryIsUnchanged(hist: seq<Pass>, p: Pass)
    ensures DefaultedHistory(hist + [p]) == DefaultedHistory(hist) + [DefaultedPass(p)]
  {
    hide DefaultedPass;
  }

  /** `Writes`, spelt out for a pass at work. */
  lemma WritesByParts(s: Sys, s': Sys, p: Pass, done: nat)
    requires s.run == Some(Running(p, done)) && done < |Plan(p)| && Apply(Plan(p)[done], p, s.w) == Ok(s'.w)
    requires s'.seen == s.seen && s'.issued == s.issued
    requires if done + 1 < |Plan(p)| then s'.run == Some(Running(p, done + 1)) && s'.hist == s.hist
             else s'.run == None && s'.hist == s.hist + [p]
    ensures Writes(s, s')
  {
    hide Apply, Plan;
  }

  lemma WriteStepIsUnchanged(engine: bool, k: Key, s: Sys, s': Sys)
    requires Core(engine, k, s) && Writes(s, s')
    ensures Writes(DefaultedSys(k, s), DefaultedSys(k, s'))
  {
    hide Core, Apply, Plan, DefaultedWorld, DefaultedPass, DefaultedHistory;
    var p, done := s.run.value.p, s.run.value.done;
    PassIsDefaulted(engine, k, s, p);
    WriteIsUnchanged(Plan(p)[done], p, s.w);
    HistoryIsUnchanged(s.hist, p);
    WritesByParts(DefaultedSys(k, s), DefaultedSys(k, s'), DefaultedPass(p), done);
  }

  lemma PassIsDefaulted(engine: bool, k: Key, s: Sys, p: Pass)
    requires Core(engine, k, s) && s.run.Some? && s.run.value.p == p
    ensures p.key == k && DefaultedPass(p).key == k && Plan(DefaultedPass(p)) == Plan(p)
  {
    hide Plan;
    DecisionIsUnchanged(p);
  }

  lemma StepIsUnchanged(engine: bool, k: Key, s: Sys, s': Sys)
    requires Core(engine, k, s) && Next(engine, k, s, s')
    ensures Next(engine, k, DefaultedSys(k, s), DefaultedSys(k, s'))
  {
    if Reads(k, s, s') {
      assert Reads(k, DefaultedSys(k, s), DefaultedSys(k, s'));
    } else if Starts(engine, k, s, s') {
      StartIsUnchanged(engine, s.w, s'.run.value.p);
      assert Starts(engine, k, DefaultedSys(k, s), DefaultedSys(k, s'));
    } else if Writes(s, s') {
      WriteStepIsUnchanged(engine, k, s, s');
    } else if Fails(s, s') {
      assert Fails(DefaultedSys(k, s), DefaultedSys(k, s'));
    } else {
      EnvironmentIsUnchanged(k, s.w, s'.w);
      assert Disturbs(k, DefaultedSys(k, s), DefaultedSys(k, s'));
    }
  }

  /** Every run on the raw spec is, with the spec defaulted in every state, a run too: the same
      decisions, statuses, traffic and workload, step by step. */
  lemma DefaultingPreservesRuns(engine: bool, k: Key, tr: seq<Sys>, defaulted: seq<Sys>)
    requires IsRun(engine, k, tr)
    requires |defaulted| == |tr| && forall i | 0 <= i < |tr| :: defaulted[i] == DefaultedSys(k, tr[i])
    ensures IsRun(engine, k, defaulted)
    ensures forall i | 0 <= i < |tr| ::
      && k in tr[i].w.canaries && k in defaulted[i].w.canaries
      && Own(k, defaulted[i]).spec == Webhook.Defaulted(Own(k, tr[i]).spec)
      && Own(k, defaulted[i]).status == Own(k, tr[i]).status
      && SameDerived(tr[i].w, defaulted[i].w, k, Own(k, tr[i]))
      && (tr[i].run.Some? ==> defaulted[i].run.Some? && Decide(defaulted[i].run.value.p) == Decide(tr[i].run.value.p))
  {
    forall i | 0 <= i < |tr|
      ensures k in tr[i].w.canaries
      ensures tr[i].run.Some? ==> Decide(DefaultedPass(tr[i].run.value.p)) == Decide(tr[i].run.value.p)
    {
      CoreAt(engine, k, tr, i);
      if tr[i].run.Some? {
        DecisionIsUnchanged(tr[i].run.value.p);
      }
    }
    forall i: nat | i + 1 < |tr|
      ensures Next(engine, k, defaulted[i], defaulted[i + 1])
    {
      CoreAt(engine, k, tr, i);
      StepIsUnchanged(engine, k, tr[i], tr[i + 1]);
    }
  }
}
