/** Commands are consumed before the status is stored: at most once, not exactly once. */
module Commands {
  import opened Api
  import opened Rollout
  import opened Passes
  import opened Runs
  import opened Ledger

  /** The pass did what the command asks for, because of the command: a promote command makes a
      move, an abort always rolls back. */
  predicate Obeys(cmd: Command, p: Pass) {
    match cmd
    case PromoteCommand => Moves(p) && PaidByCommand(p)
    case AbortCommand => Decide(p).verb.Rollback? && AbortRequested(p.c)
  }

  /** How often, in the persisted passes, the command was obeyed. */
  function TimesObeyed(cmd: Command, hist: seq<Pass>): nat {
    if hist == [] then 0
    else TimesObeyed(cmd, hist[..|hist| - 1]) + Count(Obeys(cmd, hist[|hist| - 1]))
  }

  function Pending(cmd: Command, k: Key, s: Sys): nat
    requires k in s.w.canaries
  {
    Count(Requested(cmd, Own(k, s)))
  }

  /** Commands not yet spent: the one on the Canary, or read off it by a pass about to start, and
      the one the pass at work is acting on once it has taken it off the Canary. */
  function Tokens(cmd: Command, k: Key, s: Sys): nat
    requires k in s.w.canaries
  {
    if s.run.Some? && Obeys(cmd, s.run.value.p) then
      if s.run.value.done > |Body(s.run.value.p)| then 1 + Pending(cmd, k, s) else 1
    else if s.seen.Some? && Requested(cmd, s.seen.value) then 1
    else Pending(cmd, k, s)
  }

  /** The clearing patch takes both commands off the Canary, and only it does. */
  lemma WriteSpendsCommands(cmd: Command, k: Key, p: Pass, n: nat, w: World, w': World)
    requires p.key == k && k in w.canaries && n < |Plan(p)| && Apply(Plan(p)[n], p, w) == Ok(w')
    ensures k in w'.canaries
    ensures n != |Body(p)| ==> Requested(cmd, w'.canaries[k]) == Requested(cmd, w.canaries[k])
    ensures Requested(cmd, w'.canaries[k]) ==> Requested(cmd, w.canaries[k])
    ensures Requested(cmd, p.c) && n == |Body(p)| ==> !Requested(cmd, w'.canaries[k])
    ensures Requested(cmd, p.c) ==> |Plan(p)| == |Body(p)| + 2
  {
    PlanShape(p, n);
    WritesToCanaries(Plan(p)[n], p, w, w');
    if Plan(p)[n] == PersistStatus && n == |Body(p)| {
      assert !Requested(cmd, p.c);
    }
  }

  lemma ObeysOnRequest(cmd: Command, p: Pass)
    ensures Obeys(cmd, p) ==> Requested(cmd, p.c)
  {
  }

  lemma WriteKeepsTokens(cmd: Command, engine: bool, k: Key, s: Sys, s': Sys)
    requires Core(engine, k, s) && Writes(s, s')
    requires TimesObeyed(cmd, s.hist) + Tokens(cmd, k, s) <= s.issued.Of(cmd)
    ensures k in s'.w.canaries && TimesObeyed(cmd, s'.hist) + Tokens(cmd, k, s') <= s'.issued.Of(cmd)
  {
    hide Apply, Obeys, Requested, Established, Chain, StatusAfter, Decide, NextStatus, Body;
    var p, done := s.run.value.p, s.run.value.done;
    WriteSpendsCommands(cmd, k, p, done, s.w, s'.w);
    ObeysOnRequest(cmd, p);
    if done + 1 == |Plan(p)| {
      assert s'.hist[..|s'.hist| - 1] == s.hist;
    }
  }

  lemma DisturbanceKeepsTokens(cmd: Command, k: Key, s: Sys, s': Sys)
    requires Disturbs(k, s, s')
    requires TimesObeyed(cmd, s.hist) + Tokens(cmd, k, s) <= s.issued.Of(cmd)
    ensures k in s'.w.canaries && TimesObeyed(cmd, s'.hist) + Tokens(cmd, k, s') <= s'.issued.Of(cmd)
  {
    hide Obeys, Body, TimesObeyed, SameDerived, PromoteRequested, AbortRequested;
  }

  lemma OtherStepKeepsTokens(cmd: Command, engine: bool, k: Key, s: Sys, s': Sys)
    requires Core(engine, k, s) && (Reads(k, s, s') || Starts(engine, k, s, s') || Fails(s, s'))
    requires TimesObeyed(cmd, s.hist) + Tokens(cmd, k, s) <= s.issued.Of(cmd)
    ensures k in s'.w.canaries && TimesObeyed(cmd, s'.hist) + Tokens(cmd, k, s') <= s'.issued.Of(cmd)
  {
    hide Obeys, Requested, TimesObeyed, Established, Chain, StatusAfter, Body;
    if s'.run.Some? {
      ObeysOnRequest(cmd, s'.run.value.p);
    }
  }

  lemma NextKeepsTokens(cmd: Command, engine: bool, k: Key, s: Sys, s': Sys)
    requires Core(engine, k, s) && Next(engine, k, s, s')
    requires TimesObeyed(cmd, s.hist) + Tokens(cmd, k, s) <= s.issued.Of(cmd)
    ensures k in s'.w.canaries && TimesObeyed(cmd, s'.hist) + Tokens(cmd, k, s') <= s'.issued.Of(cmd)
  {
    hide TimesObeyed, Tokens, Reads, Starts, Writes, Fails, Disturbs, Chain, StatusAfter, Established;
    if Writes(s, s') {
      WriteKeepsTokens(cmd, engine, k, s, s');
    } else if Disturbs(k, s, s') {
      DisturbanceKeepsTokens(cmd, k, s, s');
    } else {
      OtherStepKeepsTokens(cmd, engine, k, s, s');
    }
  }

  /** In every state of every run with faults: the moves made by promote command never outnumber the
      promote commands given, nor the rollbacks by abort the aborts given. */
  lemma {:induction false} CommandsActAtMostOnce(cmd: Command, engine: bool, k: Key, tr: seq<Sys>, i: nat)
    requires IsRun(engine, k, tr) && i < |tr|
    ensures k in tr[i].w.canaries && TimesObeyed(cmd, tr[i].hist) + Tokens(cmd, k, tr[i]) <= tr[i].issued.Of(cmd)
  {
    hide TimesObeyed, Tokens, Starts, Writes, Disturbs;
    if i == 0 {
      StartOwesNothing(cmd, k, tr[0]);
    } else {
      CommandsActAtMostOnce(cmd, engine, k, tr, i - 1);
      CoreAt(engine, k, tr, i - 1);
      NextKeepsTokens(cmd, engine, k, tr[i - 1], tr[i]);
    }
  }

  lemma StartOwesNothing(cmd: Command, k: Key, s: Sys)
    requires Init(k, s)
    ensures TimesObeyed(cmd, s.hist) + Tokens(cmd, k, s) <= s.issued.Of(cmd)
  {
  }

  /** A pass that dies between its two patches has used the command up without effect: the
      status and the history are as before, and the command is gone. */
  lemma CommandIsLostBetweenPatches(cmd: Command, engine: bool, k: Key, s: Sys, cleared: Sys, s': Sys)
    requires Core(engine, k, s) && s.run.Some?
    requires Requested(cmd, s.run.value.p.c) && s.run.value.done == |Body(s.run.value.p)|
    requires Writes(s, cleared) && Fails(cleared, s')
    ensures k in s'.w.canaries && !Requested(cmd, Own(k, s'))
    ensures Own(k, s').status == Own(k, s).status && s'.hist == s.hist
    ensures Next(engine, k, s, cleared) && Next(engine, k, cleared, s')
  {
    var p, done := s.run.value.p, s.run.value.done;
    WriteSpendsCommands(cmd, k, p, done, s.w, cleared.w);
    PlanShape(p, done);
    WritesToCanaries(Plan(p)[done], p, s.w, cleared.w);
  }
}
