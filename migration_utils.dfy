/** Migration readiness checks and the rollout plan for moving from the
    line-based S-expression generator to the tree-based handler. The process
    environment is a map; the service configuration, the outcome of each
    compatibility test case and the status of the test-suite run are
    parameters, because they come from code outside this model. */
module MigrationUtils {
  import opened Common
  import opened Env

  datatype Status = Pass | Warning | Fail

  // ---------------------------------------------------------------------
  // Environment check

  /** The variables a safe migration needs, in the order they are checked. */
  const RequiredVars: seq<(string, string)> := [
    ("KICAD_MCP_ENABLE_SEXPR_HANDLER", "true"),
    ("KICAD_MCP_ENABLE_SEXPR_FALLBACK", "true"),
    ("KICAD_MCP_VALIDATE_SEXPR_OUTPUT", "true")]

  datatype EnvCheck = EnvCheck(status: Status, message: string, missing: seq<string>, incorrect: seq<string>)

  /** A required variable that is set, but to another value than expected
      (compared case-insensitively). */
  predicate Mismatched(env: Environment, name: string, expected: string) {
    name in env && Lower(env[name]) != Lower(expected)
  }

  function MissingVars(env: Environment, req: seq<(string, string)>): (r: seq<string>)
    ensures |r| <= |req|
  {
    if req == [] then []
    else
      var name := req[|req| - 1].0;
      MissingVars(env, req[..|req| - 1]) + (if name !in env then [name] else [])
  }

  /** `f"{var}={actual_value} (expected {expected_value})"`. */
  function IncorrectEntry(name: string, actual: string, expected: string): string {
    name + "=" + actual + " (expected " + expected + ")"
  }

  function IncorrectVars(env: Environment, req: seq<(string, string)>): (r: seq<string>)
    ensures |r| <= |req|
  {
    if req == [] then []
    else
      var (name, expected) := req[|req| - 1];
      IncorrectVars(env, req[..|req| - 1])
      + (if Mismatched(env, name, expected) then [IncorrectEntry(name, env[name], expected)] else [])
  }

  /** A variable is listed as missing exactly when it is required and unset. */
  lemma {:induction false} MissingIffUnset(env: Environment, req: seq<(string, string)>, v: string)
    ensures v in MissingVars(env, req) <==> v !in env && exists i :: 0 <= i < |req| && req[i].0 == v
  {
    if req != [] {
      var p := req[..|req| - 1];
      MissingIffUnset(env, p, v);
      if exists i :: 0 <= i < |p| && p[i].0 == v {
        var i :| 0 <= i < |p| && p[i].0 == v;
        assert req[i].0 == v;
      }
      if exists i :: 0 <= i < |req| && req[i].0 == v {
        var i :| 0 <= i < |req| && req[i].0 == v;
        if i < |p| {
          assert p[i] == req[i];
        }
      }
    }
  }

  /** There are incorrect entries exactly when some required variable is set
      to a different value. */
  lemma {:induction false} IncorrectIffMismatch(env: Environment, req: seq<(string, string)>)
    ensures IncorrectVars(env, req) != [] <==>
      exists i :: 0 <= i < |req| && Mismatched(env, req[i].0, req[i].1)
  {
    if req != [] {
      var p := req[..|req| - 1];
      IncorrectIffMismatch(env, p);
      if exists i :: 0 <= i < |p| && Mismatched(env, p[i].0, p[i].1) {
        var i :| 0 <= i < |p| && Mismatched(env, p[i].0, p[i].1);
        assert req[i] == p[i];
      }
      if exists i :: 0 <= i < |req| && Mismatched(env, req[i].0, req[i].1) {
        var i :| 0 <= i < |req| && Mismatched(env, req[i].0, req[i].1);
        if i < |p| {
          assert p[i] == req[i];
        }
      }
    }
  }

  /** The check `CheckEnvironment` computes. */
  function EnvCheckOf(env: Environment, req: seq<(string, string)>): EnvCheck {
    var missing := MissingVars(env, req);
    var incorrect := IncorrectVars(env, req);
    if missing != [] || incorrect != [] then
      EnvCheck(Fail, EnvFailureMessage(|missing|, |incorrect|), missing, incorrect)
    else
      EnvCheck(Pass, "Environment configuration is correct", missing, incorrect)
  }

  /** `_check_environment_configuration`, over the required variables `req`
      (`RequiredVars` in the source). */
  method CheckEnvironment(env: Environment, req: seq<(string, string)>) returns (c: EnvCheck)
    ensures c == EnvCheckOf(env, req)
    ensures c.status == Fail <==> c.missing != [] || c.incorrect != []
    ensures c.status == Pass <==> c.status != Fail
  {
    var missing: seq<string> := [];
    var incorrect: seq<string> := [];
    var i := 0;
    while i < |req|
      invariant 0 <= i <= |req|
      invariant missing == MissingVars(env, req[..i])
      invariant incorrect == IncorrectVars(env, req[..i])
    {
      var (name, expected) := req[i];
      assert req[..i + 1][..i] == req[..i];
      if name !in env {
        missing := missing + [name];
      } else if Lower(env[name]) != Lower(expected) {
        incorrect := incorrect + [IncorrectEntry(name, env[name], expected)];
      }
      i := i + 1;
    }
    assert req[..i] == req;
    if missing != [] || incorrect != [] {
      c := EnvCheck(Fail, EnvFailureMessage(|missing|, |incorrect|), missing, incorrect);
    } else {
      c := EnvCheck(Pass, "Environment configuration is correct", missing, incorrect);
    }
  }

  function EnvFailureMessage(missing: nat, incorrect: nat): string {
    "Environment configuration issues: " + NatToString(missing) + " missing, "
    + NatToString(incorrect) + " incorrect"
  }

  /** The environment check fails exactly when a required variable is unset
      or set to another value. */
  lemma EnvironmentCheckFails(env: Environment)
    ensures MissingVars(env, RequiredVars) != [] || IncorrectVars(env, RequiredVars) != [] <==>
      exists i :: 0 <= i < |RequiredVars| &&
        (RequiredVars[i].0 !in env || Mismatched(env, RequiredVars[i].0, RequiredVars[i].1))
  {
    IncorrectIffMismatch(env, RequiredVars);
    var missing := MissingVars(env, RequiredVars);
    if missing != [] {
      MissingIffUnset(env, RequiredVars, missing[0]);
    }
    if exists i :: 0 <= i < |RequiredVars| && RequiredVars[i].0 !in env {
      var i :| 0 <= i < |RequiredVars| && RequiredVars[i].0 !in env;
      MissingIffUnset(env, RequiredVars, RequiredVars[i].0);
    }
  }

  // ---------------------------------------------------------------------
  // Feature flags

  /** The service's `get_config_info()` fields the check reads. */
  datatype FlagConfig = FlagConfig(handlerEnabled: bool, fallbackEnabled: bool, rolloutPercentage: int, validateOutput: bool)

  datatype FlagCheck = FlagCheck(status: Status, message: string, issues: seq<string>)

  function FlagIssues(c: FlagConfig): (issues: seq<string>)
  {
    (if !c.handlerEnabled then ["Handler is not enabled"] else [])
    + (if !c.fallbackEnabled then ["Fallback mechanism is not enabled"] else [])
    + (if c.rolloutPercentage > 10 && !c.validateOutput
       then ["High rollout percentage without output validation is risky"] else [])
  }

  /** `_check_feature_flags`. */
  function CheckFeatureFlags(c: FlagConfig): (r: FlagCheck)
    ensures r.issues == FlagIssues(c)
  {
    var issues := FlagIssues(c);
    if issues != [] then FlagCheck(Warning, "Feature flag concerns: " + Join(issues, ", "), issues)
    else FlagCheck(Pass, "Feature flags are properly configured", [])
  }

  /** The flag check warns exactly when the handler or the fallback is off,
      or a rollout above 10% runs without output validation; it never fails. */
  lemma FeatureFlagsNeverFail(c: FlagConfig)
    ensures CheckFeatureFlags(c).status != Fail
    ensures CheckFeatureFlags(c).status == Warning <==>
      !c.handlerEnabled || !c.fallbackEnabled || (c.rolloutPercentage > 10 && !c.validateOutput)
  {
  }

  // ---------------------------------------------------------------------
  // Implementation compatibility

  datatype CompatCheck = CompatCheck(status: Status, message: string, percentage: real)

  function CountTrue(s: seq<bool>): (n: nat)
    ensures n <= |s|
  {
    if s == [] then 0 else (if s[0] then 1 else 0) + CountTrue(s[1..])
  }

  /** `compatible / total * 100`, or 0 with no test cases. */
  function CompatibilityPercentage(results: seq<bool>): (p: real)
    ensures 0.0 <= p <= 100.0
    ensures |results| > 0 ==> p * |results| as real == CountTrue(results) as real * 100.0
    ensures |results| == 0 ==> p == 0.0
  {
    if |results| > 0 then CountTrue(results) as real / |results| as real * 100.0 else 0.0
  }

  function CompatStatus(p: real): Status {
    if p < 90.0 then Fail else if p < 95.0 then Warning else Pass
  }

  /** `_check_implementation_compatibility`, given for each test case whether
      both implementations produced structurally equal output (a case that
      raised counts as incompatible). */
  function CheckCompatibility(results: seq<bool>): (r: CompatCheck)
    ensures r.percentage == CompatibilityPercentage(results)
    ensures r.status == CompatStatus(r.percentage)
  {
    var p := CompatibilityPercentage(results);
    var text := Tenths(p) + "%";
    CompatCheck(CompatStatus(p),
                if p < 90.0 then "Implementation compatibility too low: " + text
                else if p < 95.0 then "Implementation compatibility acceptable but not ideal: " + text
                else "Implementation compatibility excellent: " + text,
                p)
  }

  /** Fail below 90%, warning from 90% up to 95%, pass from 95% on; with no
      test cases the percentage is 0, so the check fails. */
  lemma CompatibilityBands(results: seq<bool>)
    ensures var c := CheckCompatibility(results);
      && (c.status == Fail <==> c.percentage < 90.0)
      && (c.status == Warning <==> 90.0 <= c.percentage < 95.0)
      && (c.status == Pass <==> c.percentage >= 95.0)
      && (results == [] ==> c.status == Fail)
  {
  }

  /** When every test case is compatible the percentage is 100. */
  lemma AllCompatibleIsFull(results: seq<bool>)
    requires results != [] && CountTrue(results) == |results|
    ensures CompatibilityPercentage(results) == 100.0
    ensures CheckCompatibility(results).status == Pass
  {
    WholeIsHundredPercent(|results| as real);
  }

  lemma WholeIsHundredPercent(x: real)
    requires x > 0.0
    ensures x / x * 100.0 == 100.0
  {
  }

  // ---------------------------------------------------------------------
  // Readiness and recommendations

  /** The four checks of `validate_migration_readiness`; the status of the
      test-coverage check (a subprocess run) is passed in. */
  datatype Checks = Checks(environment: EnvCheck, featureFlags: FlagCheck, compatibility: CompatCheck, testCoverage: Status)

  function AllChecks(env: Environment, flags: FlagConfig, results: seq<bool>, testStatus: Status): Checks
  {
    Checks(EnvCheckOf(env, RequiredVars), CheckFeatureFlags(flags), CheckCompatibility(results), testStatus)
  }

  /** `ready_for_migration`: every check passed. */
  predicate Ready(c: Checks) {
    c.environment.status == Pass && c.featureFlags.status == Pass
    && c.compatibility.status == Pass && c.testCoverage == Pass
  }

  datatype Recommendation =
    | ConfigureEnvironment
    | SetVariables(names: seq<string>)
    | ReviewFeatureFlags
    | FixCompatibility
    | ConsiderCompatibility
    | EnsureTestsPass
    | ReadyForMigration

  function RecommendationText(r: Recommendation): string {
    match r
    case ConfigureEnvironment => "Configure required environment variables before migration"
    case SetVariables(names) => "Set these environment variables: " + Join(names, ", ")
    case ReviewFeatureFlags => "Review and adjust feature flag configuration"
    case FixCompatibility => "Fix implementation compatibility issues before migration"
    case ConsiderCompatibility => "Consider fixing compatibility issues for smoother migration"
    case EnsureTestsPass => "Ensure all tests are passing before migration"
    case ReadyForMigration => "System is ready for migration"
  }

  /** The recommendations the checks trigger, in `_generate_recommendations`
      order. */
  function Triggered(c: Checks): (r: seq<Recommendation>)
    ensures ReadyForMigration !in r
  {
    (if c.environment.status == Fail then
       [ConfigureEnvironment]
       + (if c.environment.missing != [] then [SetVariables(c.environment.missing)] else [])
     else [])
    + (if c.featureFlags.status in {Fail, Warning} then [ReviewFeatureFlags] else [])
    + (if c.compatibility.status == Fail then [FixCompatibility]
       else if c.compatibility.status == Warning then [ConsiderCompatibility]
       else [])
    + (if c.testCoverage != Pass then [EnsureTestsPass] else [])
  }

  /** `_generate_recommendations`. */
  function Recommendations(c: Checks): (r: seq<Recommendation>)
    ensures r != []
  {
    var recs := Triggered(c);
    if recs == [] then [ReadyForMigration] else recs
  }

  /** The system is ready exactly when the only recommendation is the
      "ready" one; otherwise that one is not among them. A check that
      warns or fails always triggers a recommendation. */
  lemma ReadyIffOnlyReadyMessage(c: Checks)
    requires c.environment.status != Warning
    ensures Ready(c) <==> Recommendations(c) == [ReadyForMigration]
    ensures !Ready(c) ==> ReadyForMigration !in Recommendations(c)
    ensures c.environment.status == Fail ==> ConfigureEnvironment in Recommendations(c)
    ensures c.environment.status == Fail && c.environment.missing != [] ==>
      SetVariables(c.environment.missing) in Recommendations(c)
    ensures c.testCoverage != Pass ==> EnsureTestsPass in Recommendations(c)
  {
  }

  datatype Readiness = Readiness(ready: bool, checks: Checks, recommendations: seq<Recommendation>)

  /** `validate_migration_readiness` without its timestamp. */
  function ValidateMigrationReadiness(env: Environment, flags: FlagConfig, results: seq<bool>, testStatus: Status): (r: Readiness)
    ensures r.checks == AllChecks(env, flags, results, testStatus)
    ensures r.recommendations == Recommendations(r.checks)
  {
    var checks := AllChecks(env, flags, results, testStatus);
    Readiness(Ready(checks), checks, Recommendations(checks))
  }

  /** Ready means: every required variable set as expected, handler and
      fallback on (and validation on above 10% rollout), at least 95% of the
      test cases compatible, and passing tests. */
  lemma ReadinessConditions(env: Environment, flags: FlagConfig, results: seq<bool>, testStatus: Status)
    ensures ValidateMigrationReadiness(env, flags, results, testStatus).ready <==>
      && (forall i :: 0 <= i < |RequiredVars| ==>
            RequiredVars[i].0 in env && !Mismatched(env, RequiredVars[i].0, RequiredVars[i].1))
      && flags.handlerEnabled && flags.fallbackEnabled
      && (flags.rolloutPercentage > 10 ==> flags.validateOutput)
      && CompatibilityPercentage(results) >= 95.0
      && testStatus == Pass
  {
    EnvironmentCheckFails(env);
    FeatureFlagsNeverFail(flags);
  }

  // ---------------------------------------------------------------------
  // Migration plan

  datatype Stage = Preparation | Canary | Gradual | FullDeployment

  /** A plan phase: its number, its stage and its rollout percentage; the
      rest of the phase record follows from these (`PhaseName` and the
      functions after it). */
  datatype Phase = Phase(number: int, stage: Stage, rollout: int)

  const RolloutSteps: seq<int> := [10, 25, 50, 75]
  const RolloutVar := "KICAD_MCP_SEXPR_ROLLOUT_PERCENTAGE"

  const PreparationPhase := Phase(1, Preparation, 0)
  const CanaryPhase := Phase(2, Canary, 5)

  /** The gradual-rollout phase for step `i` of `RolloutSteps`. */
  function GradualPhase(i: nat): (p: Phase)
    requires i < |RolloutSteps|
  {
    Phase(3 + i, Gradual, RolloutSteps[i])
  }

  function FullDeploymentPhase(number: int): (p: Phase) {
    Phase(number, FullDeployment, 100)
  }

  function PhaseName(p: Phase): string {
    match p.stage
    case Preparation => "Preparation and Validation"
    case Canary => "Canary Deployment"
    case Gradual => "Gradual Rollout - " + IntToString(p.rollout) + "%"
    case FullDeployment => "Full Deployment"
  }

  function PhaseDuration(p: Phase): string {
    match p.stage
    case Preparation => "3 days"
    case Canary => "4 days"
    case Gradual => "1-2 days"
    case FullDeployment => "2 days"
  }

  function PhaseEnvVars(p: Phase): Dict<string, string> {
    match p.stage
    case Preparation =>
      [("KICAD_MCP_ENABLE_SEXPR_HANDLER", "true"),
       ("KICAD_MCP_ENABLE_SEXPR_FALLBACK", "true"),
       ("KICAD_MCP_VALIDATE_SEXPR_OUTPUT", "true"),
       (RolloutVar, "0")]
    case Canary =>
      [(RolloutVar, "5"),
       ("KICAD_MCP_ENABLE_SEXPR_COMPARISON", "true"),
       ("KICAD_MCP_ENABLE_PERFORMANCE_LOGGING", "true")]
    case Gradual => [(RolloutVar, IntToString(p.rollout))]
    case FullDeployment =>
      [("KICAD_MCP_SEXPR_IMPLEMENTATION", "handler"),
       (RolloutVar, "100"),
       ("KICAD_MCP_ENABLE_SEXPR_COMPARISON", "false")]
  }

  function PhaseTasks(p: Phase): seq<string> {
    match p.stage
    case Preparation =>
      ["Run migration validation", "Set up monitoring and logging",
       "Prepare rollback procedures", "Train team on new system"]
    case Canary =>
      ["Deploy to 5% of requests", "Monitor error rates and performance",
       "Collect compatibility metrics", "Review A/B comparison results"]
    case Gradual =>
      ["Increase rollout to " + IntToString(p.rollout) + "%", "Monitor system health",
       "Collect user feedback", "Adjust configuration if needed"]
    case FullDeployment =>
      ["Switch to 100% new implementation", "Disable A/B testing",
       "Update documentation", "Plan deprecation of old implementation"]
  }

  function PhaseCriteria(p: Phase): seq<string> {
    match p.stage
    case Preparation =>
      ["All validation checks pass", "Monitoring dashboard operational", "Rollback procedures tested"]
    case Canary =>
      ["Error rate < 0.1%", "Performance within 20% of baseline", "> 95% compatibility rate"]
    case Gradual =>
      ["Error rate remains stable", "No performance degradation", "Positive user feedback"]
    case FullDeployment =>
      ["System stable at 100% rollout", "All metrics within acceptable ranges",
       "Migration considered successful"]
  }

  /** How many rollout steps do not exceed the target; the steps increase,
      so these are the first ones. */
  function StepsWithin(target: int): (n: nat)
    ensures n <= |RolloutSteps|
    ensures forall i :: 0 <= i < |RolloutSteps| ==> (RolloutSteps[i] <= target <==> i < n)
  {
    if target < 10 then 0 else if target < 25 then 1 else if target < 50 then 2
    else if target < 75 then 3 else 4
  }

  function GradualPhases(n: nat): (ps: seq<Phase>)
    requires n <= |RolloutSteps|
    ensures |ps| == n
    ensures forall i :: 0 <= i < n ==> ps[i] == GradualPhase(i)
  {
    if n == 0 then [] else GradualPhases(n - 1) + [GradualPhase(n - 1)]
  }

  /** The phases of `create_migration_plan`. */
  function PlanPhases(target: int): seq<Phase> {
    var before := [PreparationPhase, CanaryPhase] + GradualPhases(StepsWithin(target));
    before + (if target == 100 then [FullDeploymentPhase(|before| + 1)] else [])
  }

  datatype Plan = Plan(target: int, estimatedDuration: string, phases: seq<Phase>)

  /** `create_migration_plan` without its timestamp. */
  method CreateMigrationPlan(target: int) returns (plan: Plan)
    ensures plan.target == target && plan.estimatedDuration == "2-4 weeks"
    ensures plan.phases == PlanPhases(target)
  {
    var phases := [PreparationPhase, CanaryPhase];
    var i := 0;
    while i < |RolloutSteps|
      invariant 0 <= i <= |RolloutSteps|
      invariant phases == [PreparationPhase, CanaryPhase] + GradualPhases(if i < StepsWithin(target) then i else StepsWithin(target))
    {
      if RolloutSteps[i] <= target {
        phases := phases + [GradualPhase(i)];
      }
      i := i + 1;
    }
    if target == 100 {
      phases := phases + [FullDeploymentPhase(|phases| + 1)];
    }
    plan := Plan(target, "2-4 weeks", phases);
  }

  /** The phase at each position of the plan. */
  lemma PlanPhaseAt(target: int)
    ensures var ps := PlanPhases(target);
      var n := StepsWithin(target);
      && |ps| == 2 + n + (if target == 100 then 1 else 0)
      && ps[0] == PreparationPhase && ps[1] == CanaryPhase
      && (forall i :: 2 <= i < 2 + n ==> ps[i] == GradualPhase(i - 2))
      && (target == 100 ==> ps[2 + n] == FullDeploymentPhase(3 + n))
  {
    var n := StepsWithin(target);
    var g := GradualPhases(n);
    var before := [PreparationPhase, CanaryPhase] + g;
    assert forall i :: 2 <= i < 2 + n ==> before[i] == g[i - 2];
  }

  /** Phases are numbered 1, 2, ... in plan order, and their rollout
      percentages never decrease. */
  lemma PlanNumberedAndMonotone(target: int)
    ensures var ps := PlanPhases(target);
      && |ps| >= 2 && ps[0].rollout == 0 && ps[1].rollout == 5
      && (forall i :: 0 <= i < |ps| ==> ps[i].number == i + 1)
      && (forall i :: 0 < i < |ps| ==> ps[i - 1].rollout <= ps[i].rollout)
  {
    PlanPhaseAt(target);
    var n := StepsWithin(target);
    var ps := PlanPhases(target);
    forall i | 0 < i < |ps|
      ensures ps[i - 1].rollout <= ps[i].rollout
    {
      if 3 <= i < 2 + n {
        assert RolloutSteps[i - 3] <= RolloutSteps[i - 2];
      }
    }
  }

  /** A gradual step is present iff it does not exceed the target, and the
      full deployment at 100 iff the target is 100. */
  lemma PlanStepsWithinTarget(target: int)
    ensures var ps := PlanPhases(target);
      && (forall k :: 0 <= k < |RolloutSteps| ==>
            ((exists i :: 0 <= i < |ps| && ps[i].rollout == RolloutSteps[k]) <==> RolloutSteps[k] <= target))
      && ((exists i :: 0 <= i < |ps| && ps[i].rollout == 100) <==> target == 100)
  {
    PlanPhaseAt(target);
    var n := StepsWithin(target);
    var ps := PlanPhases(target);
    forall k | 0 <= k < |RolloutSteps|
      ensures (exists i :: 0 <= i < |ps| && ps[i].rollout == RolloutSteps[k]) <==> RolloutSteps[k] <= target
    {
      if RolloutSteps[k] <= target {
        assert ps[k + 2].rollout == RolloutSteps[k];
      } else {
        forall i | 0 <= i < |ps|
          ensures ps[i].rollout != RolloutSteps[k]
        {
          if 2 <= i < 2 + n {
            assert i - 2 < k;
          }
        }
      }
    }
    if target == 100 {
      assert ps[2 + n].rollout == 100;
    }
    forall i | 0 <= i < 2 + n
      ensures ps[i].rollout < 100
    {
    }
  }

  // ---------------------------------------------------------------------
  // Executing a phase

  datatype StepStatus = Completed | Failed

  datatype EnvChange = EnvChange(variable: string, oldValue: Option<string>, newValue: string)

  datatype StepResult = StepResult(phase: int, status: StepStatus, changes: seq<EnvChange>, errors: seq<string>)

  function Get(env: Environment, k: string): Option<string> {
    if k in env then Some(env[k]) else None
  }

  /** The ValueError text of a rejected `os.environ[k] = v`. */
  function EnvironError(k: string, v: string): string {
    if 0 as char in k || 0 as char in v then "embedded null byte" else "illegal environment variable name"
  }

  /** The changes the loop records and the environment it leaves, setting the
      variables in order until one is rejected. */
  function ApplyVars(env: Environment, vars: Dict<string, string>): (r: (seq<EnvChange>, Environment, Option<string>))
    ensures |r.0| <= |vars|
    ensures r.2.None? ==> |r.0| == |vars|
    decreases |vars|
  {
    if vars == [] then ([], env, None)
    else
      var (k, v) := vars[0];
      if !AcceptedByEnviron(k, v) then ([], env, Some(EnvironError(k, v)))
      else
        var rest := ApplyVars(env[k := v], vars[1..]);
        ([EnvChange(k, Get(env, k), v)] + rest.0, rest.1, rest.2)
  }

  /** `execute_migration_step` on a phase with number `phaseNumber` and
      `envVars` as its environment variables, without its timestamps. */
  method ExecuteMigrationStep(phaseNumber: int, envVars: Dict<string, string>, env: Environment)
    returns (result: StepResult, newEnv: Environment)
    ensures var (changes, after, error) := ApplyVars(env, envVars);
      && result.phase == phaseNumber
      && result.changes == changes
      && newEnv == after
      && (error.None? ==> result.status == Completed && result.errors == [])
      && (error.Some? ==> result.status == Failed && result.errors == [error.value])
  {
    var changes: seq<EnvChange> := [];
    newEnv := env;
    var i := 0;
    while i < |envVars|
      invariant 0 <= i <= |envVars|
      invariant var (c, a, e) := ApplyVars(newEnv, envVars[i..]);
        var (c0, a0, e0) := ApplyVars(env, envVars);
        changes + c == c0 && a == a0 && e == e0
    {
      var (k, v) := envVars[i];
      assert envVars[i..][1..] == envVars[i + 1..];
      if !AcceptedByEnviron(k, v) {
        result := StepResult(phaseNumber, Failed, changes, [EnvironError(k, v)]);
        return;
      }
      changes := changes + [EnvChange(k, Get(newEnv, k), v)];
      newEnv := newEnv[k := v];
      i := i + 1;
    }
    assert envVars[i..] == [];
    result := StepResult(phaseNumber, Completed, changes, []);
  }

  /** With distinct variables that are all accepted, every variable is set to
      its new value and each change records the value it had before. */
  lemma {:induction false} ApplyVarsSetsAll(env: Environment, vars: Dict<string, string>)
    requires Distinct(Keys(vars))
    requires forall i :: 0 <= i < |vars| ==> AcceptedByEnviron(vars[i].0, vars[i].1)
    ensures var (changes, after, error) := ApplyVars(env, vars);
      && error.None?
      && |changes| == |vars|
      && (forall i :: 0 <= i < |vars| ==>
            changes[i] == EnvChange(vars[i].0, Get(env, vars[i].0), vars[i].1)
            && vars[i].0 in after && after[vars[i].0] == vars[i].1)
    decreases |vars|
  {
    if vars != [] {
      var (k, v) := vars[0];
      assert Keys(vars[1..]) == Keys(vars)[1..];
      ApplyVarsSetsAll(env[k := v], vars[1..]);
      var rest := ApplyVars(env[k := v], vars[1..]);
      forall i | 1 <= i < |vars|
        ensures vars[i].0 != k
      {
        assert Keys(vars)[i] == vars[i].0 && Keys(vars)[0] == k;
      }
      forall i | 0 <= i < |vars|
        ensures vars[i].0 in rest.1 && rest.1[vars[i].0] == vars[i].1
      {
        if i == 0 {
          ApplyVarsKeepsOthers(env[k := v], vars[1..], k);
        } else {
          assert vars[1..][i - 1] == vars[i];
        }
      }
    }
  }

  /** A variable the remaining assignments do not name keeps its value. */
  lemma {:induction false} ApplyVarsKeepsOthers(env: Environment, vars: Dict<string, string>, k: string)
    requires forall i :: 0 <= i < |vars| ==> vars[i].0 != k
    ensures var after := ApplyVars(env, vars).1;
      (k in env <==> k in after) && (k in env ==> after[k] == env[k])
    decreases |vars|
  {
    if vars != [] {
      var (k', v) := vars[0];
      if AcceptedByEnviron(k', v) {
        ApplyVarsKeepsOthers(env[k' := v], vars[1..], k);
      }
    }
  }
}
