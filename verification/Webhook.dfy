/** api/v1alpha1/canary_webhook.go: defaulting and validation of a Canary. */
module Webhook {
  import opened Api
  import Cluster

  const TWO_MINUTES: int := 120_000_000_000

  // ---- Defaulting ----

  function Defaulted(s: CanarySpec): CanarySpec {
    s.(strategy := s.strategy.(
         mode := if s.strategy.mode.NoMode? then Manual else s.strategy.mode,
         maxFailedChecks := if s.strategy.maxFailedChecks == 0 then 2 else s.strategy.maxFailedChecks,
         stepInterval := if s.strategy.stepInterval == 0 then TWO_MINUTES else s.strategy.stepInterval),
       target := s.target.(
         kind := if s.target.kind == "" then "Deployment" else s.target.kind,
         apiVersion := if s.target.apiVersion == "" then "apps/v1" else s.target.apiVersion))
  }

  method Default(c: CanaryObject)
    modifies c`spec
    ensures c.spec == Defaulted(old(c.spec))
  {
    if c.spec.strategy.mode.NoMode? {
      c.spec := c.spec.(strategy := c.spec.strategy.(mode := Manual));
    }
    if c.spec.strategy.maxFailedChecks == 0 {
      c.spec := c.spec.(strategy := c.spec.strategy.(maxFailedChecks := 2));
    }
    if c.spec.strategy.stepInterval == 0 {
      c.spec := c.spec.(strategy := c.spec.strategy.(stepInterval := TWO_MINUTES));
    }
    if c.spec.target.kind == "" {
      c.spec := c.spec.(target := c.spec.target.(kind := "Deployment"));
    }
    if c.spec.target.apiVersion == "" {
      c.spec := c.spec.(target := c.spec.target.(apiVersion := "apps/v1"));
    }
  }

  // ---- Validation of the schedule ----

  datatype StepError = OutOfRange(at: nat) | NotIncreasing(at: nat) | LastNotFull

  ghost predicate HasStepError(steps: seq<int>, e: StepError) {
    match e
    case OutOfRange(i) => i < |steps| && !(1 <= steps[i] <= 100)
    case NotIncreasing(i) => 0 < i < |steps| && steps[i] <= steps[i - 1]
    case LastNotFull => steps != [] && steps[|steps| - 1] != 100
  }

  /** A schedule the webhook lets through. */
  ghost predicate Accepted(steps: seq<int>) {
    steps != [] ==>
      && (forall i | 0 <= i < |steps| :: 1 <= steps[i] <= 100)
      && (forall i, j | 0 <= i < j < |steps| :: steps[i] < steps[j])
      && steps[|steps| - 1] == 100
  }

  lemma {:induction false} NeighboursIncrease(steps: seq<int>, i: nat, j: nat)
    requires forall n | 0 < n < |steps| :: steps[n - 1] < steps[n]
    requires i < j < |steps|
    ensures steps[i] + (j - i) <= steps[j]
    decreases j
  {
    if i + 1 == j {
    } else {
      NeighboursIncrease(steps, i, j - 1);
    }
  }

  /** Reports exactly the errors there are, and none exactly for an acceptable schedule. */
  method ValidateSteps(steps: seq<int>) returns (errs: seq<StepError>)
    ensures forall e :: e in errs <==> HasStepError(steps, e)
    ensures errs == [] <==> Accepted(steps)
  {
    errs := [];
    var i: nat := 0;
    while i < |steps|
      invariant i <= |steps|
      invariant forall e :: e in errs <==> HasStepError(steps, e) && !e.LastNotFull? && e.at < i
    {
      ghost var before := errs;
      if steps[i] < 1 || steps[i] > 100 {
        errs := errs + [OutOfRange(i)];
      }
      if i > 0 && steps[i] <= steps[i - 1] {
        errs := errs + [NotIncreasing(i)];
      }
      i := i + 1;
    }
    if |steps| > 0 && steps[|steps| - 1] != 100 {
      errs := errs + [LastNotFull];
    }
    if errs == [] {
      forall n | 0 <= n < |steps|
        ensures 1 <= steps[n] <= 100 && (n > 0 ==> steps[n - 1] < steps[n])
      {
        assert !HasStepError(steps, OutOfRange(n)) && !HasStepError(steps, NotIncreasing(n));
      }
      assert !HasStepError(steps, LastNotFull);
      forall m, n | 0 <= m < n < |steps|
        ensures steps[m] < steps[n]
      {
        NeighboursIncrease(steps, m, n);
      }
    } else {
      assert errs[0] in errs;
    }
  }

  /** An accepted schedule has at most 100 steps, and its weights are squeezed between two lines. */
  lemma AcceptedBoundsExposure(steps: seq<int>)
    requires Accepted(steps)
    ensures |steps| <= 100
    ensures forall i | 0 <= i < |steps| :: i + 1 <= steps[i] <= 100 - (|steps| - 1 - i)
    ensures forall i | 0 <= i < |steps| :: steps[i] == 100 <==> i == |steps| - 1
  {
    forall i | 0 <= i < |steps|
      ensures i + 1 <= steps[i] <= 100 - (|steps| - 1 - i)
    {
      if i > 0 {
        NeighboursIncrease(steps, 0, i);
      }
      if i < |steps| - 1 {
        NeighboursIncrease(steps, i, |steps| - 1);
      }
    }
    if steps != [] {
      assert |steps| <= steps[|steps| - 1];
    }
  }

  // ---- Validation of the rest ----

  datatype SpecError = BadStep(e: StepError) | ProviderTypeRequired | MetricsRequired | TargetNotFound

  method ValidateAnalysis(s: CanarySpec) returns (errs: seq<SpecError>)
    ensures ProviderTypeRequired in errs <==> s.analysis.enabled && s.analysis.providerType == ""
    ensures MetricsRequired in errs <==> s.analysis.enabled && s.analysis.metrics == []
    ensures forall e | e in errs :: e == ProviderTypeRequired || e == MetricsRequired
  {
    errs := [];
    if !s.analysis.enabled {
      return;
    }
    if s.analysis.providerType == "" {
      errs := errs + [ProviderTypeRequired];
    }
    if |s.analysis.metrics| == 0 {
      errs := errs + [MetricsRequired];
    }
  }

  /** Only a definite "not found" rejects a target; a failed lookup lets the Canary in. */
  method ValidateTargetRef(reliable: bool, deployments: Option<map<Key, Deployment>>, ns: string, s: CanarySpec)
    returns (err: Option<SpecError>)
    ensures err.Some? ==> err == Some(TargetNotFound) && deployments.Some? && Key(ns, s.target.name) !in deployments.value
    ensures reliable && err.None? ==> deployments.None? || Key(ns, s.target.name) in deployments.value
  {
    if deployments.None? {
      return None;
    }
    var got := Cluster.Fetch(reliable, deployments.value, Key(ns, s.target.name));
    if got == Err(NotFound) {
      return Some(TargetNotFound);
    }
    return None;
  }

  ghost predicate AcceptedSpec(s: CanarySpec) {
    && Accepted(s.strategy.steps)
    && (s.analysis.enabled ==> s.analysis.providerType != "" && s.analysis.metrics != [])
  }

  /** `deployments` is None for a webhook without an API reader. */
  method Validate(reliable: bool, deployments: Option<map<Key, Deployment>>, ns: string, s: CanarySpec)
    returns (errs: seq<SpecError>)
    ensures errs == [] ==>
      AcceptedSpec(s) && (reliable ==> deployments.None? || Key(ns, s.target.name) in deployments.value)
    ensures AcceptedSpec(s) && (deployments.None? || Key(ns, s.target.name) in deployments.value) ==> errs == []
  {
    var stepErrs := ValidateSteps(s.strategy.steps);
    errs := seq(|stepErrs|, i requires 0 <= i < |stepErrs| => BadStep(stepErrs[i]));
    var analysisErrs := ValidateAnalysis(s);
    errs := errs + analysisErrs;
    var err := ValidateTargetRef(reliable, deployments, ns, s);
    if err.Some? {
      errs := errs + [err.value];
    }
    if analysisErrs != [] {
      assert analysisErrs[0] in analysisErrs;
    }
  }

  lemma DefaultingIsIdempotent(s: CanarySpec)
    ensures Defaulted(Defaulted(s)) == Defaulted(s)
    ensures AcceptedSpec(Defaulted(s)) <==> AcceptedSpec(s)
  {
  }

  /** What defaulting fills in, and that it fills in nothing else. */
  lemma DefaultsAre(s: CanarySpec)
    ensures var d := Defaulted(s);
      && d.strategy.mode == (if s.strategy.mode == NoMode then Manual else s.strategy.mode)
      && d.strategy.maxFailedChecks == (if s.strategy.maxFailedChecks == 0 then 2 else s.strategy.maxFailedChecks)
      && d.strategy.stepInterval == (if s.strategy.stepInterval == 0 then 2 * 60 * 1_000_000_000 else s.strategy.stepInterval)
      && d.target.kind == (if s.target.kind == "" then "Deployment" else s.target.kind)
      && d.target.apiVersion == (if s.target.apiVersion == "" then "apps/v1" else s.target.apiVersion)
      && d.strategy.steps == s.strategy.steps && d.target.name == s.target.name
      && d.service == s.service && d.traffic == s.traffic && d.analysis == s.analysis
  {
  }

  /** A defaulted spec leaves no field for the controller to guess at. */
  lemma DefaultedIsComplete(s: CanarySpec)
    ensures var d := Defaulted(s);
      && d.strategy.mode != NoMode && d.strategy.maxFailedChecks != 0 && d.strategy.stepInterval != 0
      && d.target.kind != "" && d.target.apiVersion != ""
  {
  }
}
