/** Several Canaries in one cluster, their passes interleaved write by write. */
module Fleet {
  import opened Api
  import opened Rollout
  import opened Passes
  import opened Runs
  import opened Frames
  import Traffic

  /** What `Sys` records for one Canary, beside the cluster they all share. */
  datatype Member = Member(seen: Option<Canary>, run: Option<Running>, hist: seq<Pass>, issued: Issued)

  datatype State = State(w: World, members: map<Key, Member>)

  /** The system as one member sees it. */
  function View(k: Key, f: State): Sys
    requires k in f.members
  {
    var m := f.members[k];
    Sys(f.w, m.seen, m.run, m.hist, m.issued)
  }

  /** The controller works for `k`: it reads, starts a pass, makes one write, or gives up. */
  ghost predicate Acts(engine: bool, k: Key, f: State, f': State) {
    && k in f.members && f'.members.Keys == f.members.Keys
    && (forall l | l in f.members && l != k :: f'.members[l] == f.members[l])
    && var s, s' := View(k, f), View(k, f');
    Reads(k, s, s') || Starts(engine, k, s, s') || Writes(s, s') || Fails(s, s')
  }

  /** The environment changes what it may change of every member. */
  ghost predicate AllDisturbed(f: State, f': State) {
    f'.members.Keys == f.members.Keys && forall k | k in f.members :: Disturbs(k, View(k, f), View(k, f'))
  }

  ghost predicate NextState(engine: bool, f: State, f': State) {
    (exists k :: Acts(engine, k, f, f')) || AllDisturbed(f, f')
  }

  ghost predicate PairwiseApart(f: State) {
    && (forall k | k in f.members :: k in f.w.canaries)
    && forall k, l | k in f.members && l in f.members && k != l :: Apart(k, f.w.canaries[k], l, f.w.canaries[l])
  }

  ghost predicate IsFleetRun(engine: bool, tr: seq<State>) {
    && |tr| > 0 && PairwiseApart(tr[0])
    && (forall k | k in tr[0].members :: Init(k, View(k, tr[0])))
    && forall i: nat | i + 1 < |tr| :: NextState(engine, tr[i], tr[i + 1])
  }

  // ---- Each member sees a run of its own ----

  lemma ApartByRefs(k: Key, c: Canary, d: Canary, l: Key, c': Canary, d': Canary)
    requires Apart(k, c, l, c') && SameRefs(c, d) && SameRefs(c', d')
    ensures Apart(k, d, l, d')
  {
  }

  /** Nothing happens. */
  lemma StutterIsDisturbance(k: Key, s: Sys)
    requires k in s.w.canaries
    ensures Disturbs(k, s, s)
  {
  }

  lemma OthersWriteIsDisturbance(engine: bool, k: Key, l: Key, f: State, f': State)
    requires k in f.members && l in f.members && k != l && PairwiseApart(f)
    requires Core(engine, l, View(l, f)) && Acts(engine, l, f, f')
    ensures Disturbs(k, View(k, f), View(k, f'))
    ensures f'.w.canaries.Keys >= {k} && f'.w.canaries[k] == f.w.canaries[k]
  {
    var s, s' := View(l, f), View(l, f');
    if Writes(s, s') {
      var p, done := s.run.value.p, s.run.value.done;
      ApartByRefs(k, f.w.canaries[k], f.w.canaries[k], l, f.w.canaries[l], p.c);
      OthersAreEnvironment(k, Plan(p)[done], p, f.w, f'.w);
    } else {
      assert f'.w == f.w;
      StutterIsDisturbance(k, View(k, f));
    }
  }

  /** What one step of the whole system is to member `k`. */
  lemma StepIsAStep(engine: bool, k: Key, f: State, f': State)
    requires k in f.members && PairwiseApart(f) && NextState(engine, f, f')
    requires forall l | l in f.members :: Core(engine, l, View(l, f))
    ensures k in f'.members && Next(engine, k, View(k, f), View(k, f'))
    ensures k in f'.w.canaries && SameRefs(f.w.canaries[k], f'.w.canaries[k])
  {
    if l :| Acts(engine, l, f, f') {
      if l == k {
        assert Next(engine, k, View(k, f), View(k, f'));
        OwnStepKeepsRefs(engine, k, View(k, f), View(k, f'));
      } else {
        OthersWriteIsDisturbance(engine, k, l, f, f');
      }
    }
  }

  lemma OwnStepKeepsRefs(engine: bool, k: Key, s: Sys, s': Sys)
    requires Core(engine, k, s) && Next(engine, k, s, s')
    ensures k in s'.w.canaries && SameRefs(Own(k, s), Own(k, s'))
  {
    if Writes(s, s') {
      WritesToCanaries(Plan(s.run.value.p)[s.run.value.done], s.run.value.p, s.w, s'.w);
    }
  }

  ghost predicate FleetCore(engine: bool, members: set<Key>, f: State) {
    && f.members.Keys == members && PairwiseApart(f)
    && forall k | k in members :: Core(engine, k, View(k, f))
  }

  lemma StepKeepsFleetCore(engine: bool, members: set<Key>, f: State, f': State)
    requires FleetCore(engine, members, f) && NextState(engine, f, f')
    ensures FleetCore(engine, members, f')
  {
    forall k | k in members
      ensures k in f'.members && Core(engine, k, View(k, f'))
      ensures k in f'.w.canaries && SameRefs(f.w.canaries[k], f'.w.canaries[k])
    {
      StepIsAStep(engine, k, f, f');
      NextKeepsCore(engine, k, View(k, f), View(k, f'));
    }
    forall k, l | k in members && l in members && k != l
      ensures Apart(k, f'.w.canaries[k], l, f'.w.canaries[l])
    {
      ApartByRefs(k, f.w.canaries[k], f'.w.canaries[k], l, f.w.canaries[l], f'.w.canaries[l]);
    }
  }

  lemma {:induction false} FleetCoreAt(engine: bool, tr: seq<State>, i: nat)
    requires IsFleetRun(engine, tr) && i < |tr|
    ensures FleetCore(engine, tr[0].members.Keys, tr[i])
  {
    if i == 0 {
      forall k | k in tr[0].members
        ensures Core(engine, k, View(k, tr[0]))
      {
        InitIsCore(engine, k, View(k, tr[0]));
      }
    } else {
      FleetCoreAt(engine, tr, i - 1);
      StepKeepsFleetCore(engine, tr[0].members.Keys, tr[i - 1], tr[i]);
    }
  }

  lemma InitIsCore(engine: bool, k: Key, s: Sys)
    requires Init(k, s)
    ensures Core(engine, k, s)
  {
  }

  /** Non-interference: in any interleaving of the passes of Canaries that are apart, with faults and
      changes anywhere, each of them sees a run of its own. What is proved of all runs of one Canary
      therefore holds of every member of a fleet. */
  lemma EveryMemberSeesARun(engine: bool, tr: seq<State>, k: Key, own: seq<Sys>)
    requires IsFleetRun(engine, tr) && k in tr[0].members
    requires |own| == |tr| && forall i | 0 <= i < |tr| && k in tr[i].members :: own[i] == View(k, tr[i])
    ensures IsRun(engine, k, own) && forall i | 0 <= i < |tr| :: k in tr[i].members && own[i] == View(k, tr[i])
  {
    forall i | 0 <= i < |tr|
      ensures k in tr[i].members
    {
      FleetCoreAt(engine, tr, i);
    }
    forall i: nat | i + 1 < |own|
      ensures Next(engine, k, own[i], own[i + 1])
    {
      FleetCoreAt(engine, tr, i);
      StepIsAStep(engine, k, tr[i], tr[i + 1]);
    }
  }

  // ---- Agreement survives the passes of others ----

  /** What a completed pass left in agreement stays so under the writes of another Canary. */
  lemma WriteKeepsOthersAgreement(e: Effect, q: Pass, p: Pass, w: World, w': World)
    requires Agreement(w, p) && Apart(p.key, p.c, q.key, q.c) && Apply(e, q, w) == Ok(w')
    ensures Agreement(w', p)
  {
    WriteIsFramed(e, q, w, w');
    KeysApart(p.key, p.c, q.key, q.c);
    DerivedIsUntouched(w, w', p, q);
    AgreementIsKept(w, w', p);
  }

  lemma DerivedIsUntouched(w: World, w': World, p: Pass, q: Pass)
    requires OnlyDerivedObjectsChange(w, w', q.key, q.c) && Apart(p.key, p.c, q.key, q.c)
    ensures SameDerived(w, w', p.key, p.c)
  {
    KeysApart(p.key, p.c, q.key, q.c);
  }

  lemma AgreementIsKept(w: World, w': World, p: Pass)
    requires Agreement(w, p) && SameDerived(w, w', p.key, p.c)
    requires p.key in w'.canaries && w'.canaries[p.key].status == w.canaries[p.key].status
    ensures Agreement(w', p)
  {
    Traffic.RoutedShows(w', p.key, p.c, NextStatus(p).weight);
  }

  /** The controller works for another Canary than `k`, or the environment changes something. */
  ghost predicate StandsBy(engine: bool, k: Key, f: State, f': State) {
    (exists l :: l != k && Acts(engine, l, f, f')) || AllDisturbed(f, f')
  }

  /** From state `i` to state `j` member `k` stands by. */
  ghost predicate StoodBy(engine: bool, k: Key, tr: seq<State>, i: nat, j: nat) {
    forall n: nat | i <= n < j && n + 1 < |tr| :: StandsBy(engine, k, tr[n], tr[n + 1])
  }

  /** Pass `p` of member `k` left everything in agreement, and it still is. */
  ghost predicate Agreed(k: Key, f: State, p: Pass) {
    p.key == k && Agreement(f.w, p) && SameRefs(p.c, f.w.canaries[k])
  }

  lemma ActKeepsAgreement(engine: bool, k: Key, l: Key, f: State, f': State, p: Pass)
    requires k in f.members && l in f.members && k != l && PairwiseApart(f)
    requires Core(engine, l, View(l, f)) && Acts(engine, l, f, f') && Agreed(k, f, p)
    ensures Agreed(k, f', p)
  {
    var s, s' := View(l, f), View(l, f');
    OthersWriteIsDisturbance(engine, k, l, f, f');
    if Writes(s, s') {
      var q, done := s.run.value.p, s.run.value.done;
      ApartByRefs(k, f.w.canaries[k], p.c, l, f.w.canaries[l], q.c);
      WriteKeepsOthersAgreement(Plan(q)[done], q, p, f.w, f'.w);
    } else {
      assert f'.w == f.w;
    }
  }

  lemma ChangeKeepsAgreement(k: Key, f: State, f': State, p: Pass)
    requires k in f.members && AllDisturbed(f, f') && Agreed(k, f, p)
    ensures Agreed(k, f', p)
  {
    assert Disturbs(k, View(k, f), View(k, f'));
    DerivedByRefs(f.w.canaries[k], p.c, f.w, f'.w, k);
    AgreementIsKept(f.w, f'.w, p);
  }

  lemma DerivedByRefs(c: Canary, d: Canary, w: World, w': World, k: Key)
    requires SameRefs(d, c) && SameDerived(w, w', k, c)
    ensures SameDerived(w, w', k, d)
  {
  }

  lemma BystanderKeepsAgreement(engine: bool, members: set<Key>, k: Key, f: State, f': State, p: Pass)
    requires FleetCore(engine, members, f) && k in members && StandsBy(engine, k, f, f') && Agreed(k, f, p)
    ensures Agreed(k, f', p)
  {
    if l :| l != k && Acts(engine, l, f, f') {
      ActKeepsAgreement(engine, k, l, f, f', p);
    } else {
      ChangeKeepsAgreement(k, f, f', p);
    }
  }

  lemma StoodByBefore(engine: bool, k: Key, tr: seq<State>, i: nat, j: nat)
    requires i < j < |tr| && StoodBy(engine, k, tr, i, j)
    ensures StoodBy(engine, k, tr, i, j - 1) && StandsBy(engine, k, tr[j - 1], tr[j])
  {
    assert tr[j - 1 + 1] == tr[j];
  }

  lemma AgreementStep(engine: bool, k: Key, tr: seq<State>, i: nat, p: Pass)
    requires IsFleetRun(engine, tr) && k in tr[0].members && i + 1 < |tr|
    requires StandsBy(engine, k, tr[i], tr[i + 1]) && Agreed(k, tr[i], p)
    ensures Agreed(k, tr[i + 1], p)
  {
    FleetCoreAt(engine, tr, i);
    BystanderKeepsAgreement(engine, tr[0].members.Keys, k, tr[i], tr[i + 1], p);
  }

  /** The agreement that a completed pass of one Canary has brought about survives every pass of the
      others, whole or broken off, and every change by the environment, edits of its own spec included. */
  lemma {:induction false} AgreementOutlivesOthers(engine: bool, k: Key, tr: seq<State>, i: nat, j: nat, p: Pass)
    requires IsFleetRun(engine, tr) && k in tr[0].members && i <= j < |tr|
    requires Agreed(k, tr[i], p) && StoodBy(engine, k, tr, i, j)
    ensures Agreed(k, tr[j], p)
    decreases j
  {
    hide *;
    if i == j {
    } else {
      StoodByBefore(engine, k, tr, i, j);
      AgreementOutlivesOthers(engine, k, tr, i, j - 1, p);
      AgreementStep(engine, k, tr, j - 1, p);
    }
  }

  lemma CompletionAgreesForMember(engine: bool, k: Key, f: State, f': State, p: Pass)
    requires k in f.members && Core(engine, k, View(k, f)) && k in f'.members
    requires Completes(View(k, f), View(k, f'), p) && SetsUp(p)
    ensures Agreed(k, f', p)
  {
    assert f.members[k].run == Some(Running(p, |Plan(p)| - 1));
    CompletionAgrees(p, f.w, f'.w);
    PlanShape(p, |Plan(p)| - 1);
    WritesToCanaries(PersistStatus, p, f.w, f'.w);
  }

  /** A pass of one Canary that sets a step up leaves status, traffic, workload and revision in
      agreement, however it was interleaved with passes of others, and they stay in agreement until
      the controller next works for that Canary. */
  lemma SetUpAgreesAmongOthers(engine: bool, k: Key, tr: seq<State>, i: nat, j: nat, p: Pass)
    requires IsFleetRun(engine, tr) && k in tr[0].members && i + 1 <= j < |tr|
    requires k in tr[i].members && k in tr[i + 1].members
    requires Completes(View(k, tr[i]), View(k, tr[i + 1]), p) && SetsUp(p)
    requires StoodBy(engine, k, tr, i + 1, j)
    ensures Agreement(tr[j].w, p)
  {
    hide StoodBy, IsFleetRun, Completes, SetsUp, Agreement;
    FleetCoreAt(engine, tr, i);
    CompletionAgreesForMember(engine, k, tr[i], tr[i + 1], p);
    AgreementOutlivesOthers(engine, k, tr, i + 1, j, p);
  }
}
