/** Once a rollout has ended at a revision, that revision is never rolled out again. */
module Quiescence {
  import opened Api
  import opened Rollout
  import opened Passes
  import opened Runs
  import opened Leftovers
  import Traffic

  /** From state `from` on, the target (whenever it exists) stays at revision `rev`. */
  ghost predicate TargetStays(k: Key, tr: seq<Sys>, from: nat, rev: string) {
    forall i | from <= i < |tr| && HasTarget(k, tr[i]) :: Revision(Target(k, tr[i])) == rev
  }

  ghost predicate Quiet(k: Key, rev: string, s: Sys) {
    && k in s.w.canaries && Own(k, s).status.stable == rev
    && Clean(s.w, k, Own(k, s))
    && (s.run.Some? ==> Revision(s.run.value.p.t) == rev)
  }

  lemma NoSetUpAtStableRevision(p: Pass)
    requires p.c.status.stable == Revision(p.t)
    ensures !SetsUp(p) && NextStatus(p).stable == Revision(p.t)
    ensures NextStatus(p).phase.Idle? || NextStatus(p).phase.Succeeded? || NextStatus(p).phase.RolledBack?
  {
  }

  /** Without a set-up, no write leaves anything behind. */
  lemma WriteKeepsClean(p: Pass, n: nat, w: World, w': World)
    requires !SetsUp(p) && n < |Plan(p)| && Apply(Plan(p)[n], p, w) == Ok(w') && Clean(w, p.key, p.c)
    ensures Clean(w', p.key, p.c)
  {
    hide Apply, Clean;
    PlanShape(p, n);
    CleaningOnly(Plan(p)[n], p, w, w');
  }

  lemma WriteKeepsQuiet(engine: bool, k: Key, rev: string, s: Sys, s': Sys)
    requires Core(engine, k, s) && Quiet(k, rev, s) && Writes(s, s')
    ensures Quiet(k, rev, s')
  {
    hide Apply, Clean, Established, Decide, NextStatus, Chain, StatusAfter;
    var p, done := s.run.value.p, s.run.value.done;
    NoSetUpAtStableRevision(p);
    WritesToCanaries(Plan(p)[done], p, s.w, s'.w);
    CleanIsKept(s.w, s.w, k, Own(k, s), p.c);
    WriteKeepsClean(p, done, s.w, s'.w);
    CleanIsKept(s'.w, s'.w, k, p.c, Own(k, s'));
  }

  lemma NextKeepsQuiet(engine: bool, k: Key, rev: string, s: Sys, s': Sys)
    requires Core(engine, k, s) && Quiet(k, rev, s) && Next(engine, k, s, s')
    requires HasTarget(k, s) ==> Revision(Target(k, s)) == rev
    ensures Quiet(k, rev, s')
  {
    if Writes(s, s') {
      WriteKeepsQuiet(engine, k, rev, s, s');
    } else if Disturbs(k, s, s') {
      CleanIsKept(s.w, s'.w, k, Own(k, s), Own(k, s'));
    }
  }

  lemma EndIsQuiet(engine: bool, k: Key, s: Sys, s': Sys, p: Pass)
    requires Core(engine, k, s) && Completes(s, s', p) && EndsRollout(p)
    ensures Quiet(k, Revision(p.t), s')
  {
    PlanShape(p, |Plan(p)| - 1);
    WritesToCanaries(PersistStatus, p, s.w, s'.w);
    EndIsClean(p, s.w);
    CleanIsKept(s.w, s'.w, k, p.c, Own(k, s'));
  }

  lemma {:induction false} QuietFrom(engine: bool, k: Key, tr: seq<Sys>, from: nat, rev: string, j: nat)
    requires IsRun(engine, k, tr) && TargetStays(k, tr, from, rev)
    requires from <= j < |tr| && Quiet(k, rev, tr[from])
    ensures Quiet(k, rev, tr[j])
    decreases j
  {
    if from == j {
    } else {
      QuietFrom(engine, k, tr, from, rev, j - 1);
      CoreAt(engine, k, tr, j - 1);
      var s, s' := tr[j - 1], tr[j];
      assert Next(engine, k, s, s');
      NextKeepsQuiet(engine, k, rev, s, s');
    }
  }

  /** Terminal quiescence: after a persisted rollback or promotion at a revision, as long as the
      target stays there, no command and no edit of the spec brings traffic or workload back. */
  lemma EndedRolloutStaysEnded(engine: bool, k: Key, tr: seq<Sys>, i: nat, p: Pass, j: nat)
    requires IsRun(engine, k, tr) && i + 1 < |tr|
    requires Completes(tr[i], tr[i + 1], p) && EndsRollout(p)
    requires TargetStays(k, tr, i + 1, Revision(p.t)) && i < j < |tr|
    ensures k in tr[j].w.canaries && Clean(tr[j].w, k, Own(k, tr[j]))
    ensures Traffic.Live(tr[j].w, k, Own(k, tr[j])) == 0
    ensures tr[j].run.Some? ==>
      var next := NextStatus(tr[j].run.value.p).phase;
      !SetsUp(tr[j].run.value.p) && (next.Idle? || next.Succeeded? || next.RolledBack?)
  {
    CoreAt(engine, k, tr, i);
    EndIsQuiet(engine, k, tr[i], tr[i + 1], p);
    QuietFrom(engine, k, tr, i + 1, Revision(p.t), j);
    NoTrafficIsNotLive(tr[j].w, k, Own(k, tr[j]));
    CoreAt(engine, k, tr, j);
    if tr[j].run.Some? {
      NoSetUpAtStableRevision(tr[j].run.value.p);
    }
  }
}
