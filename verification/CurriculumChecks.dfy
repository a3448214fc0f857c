/**
 The numeric and evidential checks of the G1 curriculum: the flat gate, the rough budget,
 the provenance chain, and the transition record between the two phases.
 */
module CurriculumChecks {
  import opened Wrappers
  import opened StepQuantum
  import S = CheckpointSelection

  const FLAT_ENVIRONMENT := "G1ForwardFlatTerrain"
  const ROUGH_ENVIRONMENT := "G1ForwardRoughTerrain"
  const HORIZON := 1000
  const REQUIRED_HORIZONS := 9

  // ----- the flat gate

  /** The gate treats an episode with no end recorded as a fall; the aggregate does not. */
  predicate NoFall(e: S.Episode) {
    && (e.reason == None || e.reason == Some("horizon"))
    && (if e.terminated.Some? then !e.terminated.value else e.fell == Some(false))
  }

  predicate Complete(e: S.Episode) {
    S.Truncate(e.length) >= HORIZON
  }

  function NoFalls(s: seq<S.Episode>): nat {
    if s == [] then 0 else NoFalls(s[..|s| - 1]) + if NoFall(s[|s| - 1]) then 1 else 0
  }

  /** The velocities of the episodes that ran the whole horizon. */
  function CompletedVelocities(s: seq<S.Episode>): (v: seq<real>)
    ensures |v| <= |s|
  {
    if s == [] then []
    else CompletedVelocities(s[..|s| - 1]) + if Complete(s[|s| - 1]) then [S.Velocity(s[|s| - 1])] else []
  }

  datatype Gate = Gate(passed: bool, noFalls: nat, minVelocity: real, horizons: nat)

  /** flat_gate_result at the one reviewed step; None when there are no episodes. */
  function FlatGate(episodes: seq<S.Episode>, minVelocity: real): Option<Gate> {
    if episodes == [] then None
    else
      var velocities := CompletedVelocities(episodes);
      var slowest := if velocities == [] then 0.0 else S.Minimum(velocities);
      var passed := |velocities| >= REQUIRED_HORIZONS && NoFalls(episodes) >= REQUIRED_HORIZONS
                    && velocities != [] && slowest >= minVelocity;
      Some(Gate(passed, NoFalls(episodes), slowest, |velocities|))
  }

  predicate AtLeast(v: seq<real>, bound: real) {
    forall i :: 0 <= i < |v| ==> v[i] >= bound
  }

  /** No completed episode averaged less than the bound. */
  predicate NoneSlow(s: seq<S.Episode>, bound: real) {
    forall i :: 0 <= i < |s| && Complete(s[i]) ==> S.Velocity(s[i]) >= bound
  }

  lemma AtLeastAppend(v: seq<real>, x: real, bound: real)
    ensures AtLeast(v + [x], bound) <==> AtLeast(v, bound) && x >= bound
  {
    var all := v + [x];
    assert all[|v|] == x && forall i :: 0 <= i < |v| ==> v[i] == all[i];
  }

  lemma NoneSlowAppend(s: seq<S.Episode>, e: S.Episode, bound: real)
    ensures NoneSlow(s + [e], bound) <==> NoneSlow(s, bound) && (Complete(e) ==> S.Velocity(e) >= bound)
  {
    var all := s + [e];
    assert all[|s|] == e && forall i :: 0 <= i < |s| ==> s[i] == all[i];
  }

  lemma {:induction false} CompletedAre(s: seq<S.Episode>, bound: real)
    ensures AtLeast(CompletedVelocities(s), bound) <==> NoneSlow(s, bound)
  {
    if s != [] {
      var n := |s| - 1;
      CompletedAre(s[..n], bound);
      AtLeastAppend(CompletedVelocities(s[..n]), S.Velocity(s[n]), bound);
      NoneSlowAppend(s[..n], s[n], bound);
      assert s == s[..n] + [s[n]];
      if !Complete(s[n]) { assert CompletedVelocities(s) == CompletedVelocities(s[..n]); }
    }
  }

  lemma MinimumAtLeast(v: seq<real>, bound: real)
    requires v != []
    ensures S.Minimum(v) >= bound <==> AtLeast(v, bound)
  {
    var i :| 0 <= i < |v| && v[i] == S.Minimum(v);
  }

  /** The episodes as long as the horizon. */
  function FullHorizons(s: seq<S.Episode>): set<nat> {
    set i: nat | i < |s| && S.Truncate(s[i].length) >= 1000
  }

  /** The episodes with no end but the horizon that say they did not terminate, or, saying nothing, did not fall. */
  function Standing(s: seq<S.Episode>): set<nat> {
    set i: nat | i < |s| && s[i].reason in {None, Some("horizon")}
      && (s[i].terminated == Some(false) || (s[i].terminated == None && s[i].fell == Some(false)))
  }

  lemma {:induction false} HorizonsCount(s: seq<S.Episode>)
    ensures |CompletedVelocities(s)| == |FullHorizons(s)|
  {
    if s != [] {
      var n := |s| - 1;
      HorizonsCount(s[..n]);
      assert FullHorizons(s) == FullHorizons(s[..n]) + if Complete(s[n]) then {n} else {};
    }
  }

  lemma {:induction false} StandingCount(s: seq<S.Episode>)
    ensures NoFalls(s) == |Standing(s)|
  {
    if s != [] {
      var n := |s| - 1;
      StandingCount(s[..n]);
      assert Standing(s) == Standing(s[..n]) + if NoFall(s[n]) then {n} else {};
    }
  }

  /** Nine full horizons, nine episodes left standing, and no full horizon too slow. */
  lemma GatePassesMeans(episodes: seq<S.Episode>, minVelocity: real)
    ensures FlatGate(episodes, minVelocity).Some? <==> episodes != []
    ensures episodes != [] ==> (
      var gate := FlatGate(episodes, minVelocity).value;
      && gate.horizons == |FullHorizons(episodes)| && gate.noFalls == |Standing(episodes)|
      && (gate.passed <==> (
            && |FullHorizons(episodes)| >= 9 && |Standing(episodes)| >= 9
            && forall i :: i in FullHorizons(episodes) ==> S.Velocities(episodes)[i] >= minVelocity)))
  {
    hide AtLeast, CompletedVelocities, NoFalls, FullHorizons, Standing;
    if episodes != [] {
      HorizonsCount(episodes);
      StandingCount(episodes);
      CompletedAre(episodes, minVelocity);
      SlowMeans(episodes, minVelocity);
      if CompletedVelocities(episodes) != [] { MinimumAtLeast(CompletedVelocities(episodes), minVelocity); }
    }
  }

  /** The slowest velocity it reports: the greatest bound all full horizons keep to, or zero without one. */
  lemma GateSlowest(episodes: seq<S.Episode>, minVelocity: real, bound: real)
    requires episodes != []
    ensures var slowest := FlatGate(episodes, minVelocity).value.minVelocity;
      if FullHorizons(episodes) == {} then slowest == 0.0
      else slowest >= bound <==> forall i :: i in FullHorizons(episodes) ==> S.Velocities(episodes)[i] >= bound
  {
    hide AtLeast, CompletedVelocities, NoFalls, FullHorizons, Standing;
    HorizonsCount(episodes);
    CompletedAre(episodes, bound);
    SlowMeans(episodes, bound);
    if CompletedVelocities(episodes) != [] { MinimumAtLeast(CompletedVelocities(episodes), bound); }
  }

  lemma SlowMeans(s: seq<S.Episode>, bound: real)
    ensures NoneSlow(s, bound) <==> forall i :: i in FullHorizons(s) ==> S.Velocities(s)[i] >= bound
  {
    if forall i :: i in FullHorizons(s) ==> S.Velocities(s)[i] >= bound {
      forall i | 0 <= i < |s| && Complete(s[i]) ensures S.Velocity(s[i]) >= bound { assert i in FullHorizons(s); }
    }
  }

  // ----- the budget

  datatype BudgetError = NotTheReviewedGate | CheckpointOutOfRange | SpendBeforeCheckpoint | CeilingConsumed

  /** rough_budget. */
  function RoughBudget(gateStep: int, checkpointStep: Option<int>, trained: Option<int>): Result<int, BudgetError> {
    if gateStep != FLAT_EFFECTIVE_STEPS then Err(NotTheReviewedGate)
    else
      var effective := if checkpointStep.Some? then checkpointStep.value else gateStep;
      if effective <= 0 || effective > gateStep then Err(CheckpointOutOfRange)
      else
        var spent := if trained.Some? then trained.value else effective;
        if spent < effective then Err(SpendBeforeCheckpoint)
        else if spent >= TOTAL_STEPS then Err(CeilingConsumed)
        else Ok(TOTAL_STEPS - spent)
  }

  /** What is left of the 450 million steps, and which measurements leave nothing to say. */
  lemma BudgetMeans(gateStep: int, checkpointStep: Option<int>, trained: Option<int>)
    ensures var r := RoughBudget(gateStep, checkpointStep, trained);
      var effective := if checkpointStep == None then gateStep else checkpointStep.value;
      var spent := if trained == None then effective else trained.value;
      var reviewed, inRange := gateStep == 199_229_440, 1 <= effective <= gateStep;
      && (r == Err(NotTheReviewedGate) <==> !reviewed)
      && (r == Err(CheckpointOutOfRange) <==> reviewed && !inRange)
      && (r == Err(SpendBeforeCheckpoint) <==> reviewed && inRange && spent < effective)
      && (r == Err(CeilingConsumed) <==> reviewed && inRange && spent >= effective && spent >= 450_000_000)
      && (r.Ok? <==> reviewed && inRange && effective <= spent < 450_000_000)
      && (r.Ok? ==> r.value + spent == 450_000_000)
  {
  }

  datatype Provenance = Provenance(
    matrix: string, image: string, flatConfig: string, roughConfig: string,
    flatCheckpoint: string, roughCheckpoint: string,
    flatEffective: int, flatTrained: int, budget: int, requested: int, roughEffective: int, total: int)

  datatype ProvenanceError = FromBudget(budget: BudgetError) | RequestOverBudget | MeasuredOverBudget | OverCeiling

  /** Python's `or`: a missing or zero value gives way. */
  function OrElse(x: int, y: int): int {
    if x == 0 then y else x
  }

  /** provenance_chain as the curriculum calls it, with every measurement present. */
  function ProvenanceChain(digests: Digests, flatCheckpoint: string, roughCheckpoint: string, gateStep: int,
                           flatEffective: int, flatTrained: int, roughEffective: int, requested: int)
    : Result<Provenance, ProvenanceError>
  {
    var selected := OrElse(flatEffective, gateStep);
    var measured := OrElse(flatTrained, selected);
    match RoughBudget(gateStep, Some(selected), Some(measured))
    case Err(e) => Err(FromBudget(e))
    case Ok(budget) =>
      if requested > budget then Err(RequestOverBudget)
      else if roughEffective > budget then Err(MeasuredOverBudget)
      else if measured + roughEffective > TOTAL_STEPS then Err(OverCeiling)
      else Ok(Provenance(digests.matrix, digests.image, digests.flatConfig, digests.roughConfig,
                         flatCheckpoint, roughCheckpoint, selected, measured, budget, requested,
                         roughEffective, measured + roughEffective))
  }

  /**
   The chain accepts exactly the measurements that fit, a missing or zero one standing for the
   step before it: the ceiling check after the budget check can never be the one that fails, and an
   accepted total stays under the ceiling.
   */
  lemma ProvenanceMeans(digests: Digests, flatCheckpoint: string, roughCheckpoint: string, gateStep: int,
                        flatEffective: int, flatTrained: int, roughEffective: int, requested: int)
    ensures var r := ProvenanceChain(digests, flatCheckpoint, roughCheckpoint, gateStep,
                                     flatEffective, flatTrained, roughEffective, requested);
      var selected := if flatEffective == 0 then gateStep else flatEffective;
      var trained := if flatTrained == 0 then selected else flatTrained;
      && (r.Ok? <==> (
            && gateStep == FLAT_EFFECTIVE_STEPS && 0 < selected <= gateStep
            && selected <= trained < TOTAL_STEPS
            && trained + requested <= TOTAL_STEPS && trained + roughEffective <= TOTAL_STEPS))
      && r != Err(OverCeiling)
      && (r.Ok? ==> r.value.flatEffective == selected && r.value.flatTrained == trained)
      && (r.Ok? ==> r.value.total == trained + roughEffective <= TOTAL_STEPS)
      && (r.Ok? ==> r.value.budget == TOTAL_STEPS - trained)
  {
  }

  // ----- the transition record

  /** A checkpoint file with the verified contents of its sidecar. */
  datatype Checkpoint = Checkpoint(name: string, environment: string, step: int, sha256: string, sidecarSha256: string)

  datatype Digests = Digests(matrix: string, image: string, flatConfig: string, roughConfig: string)

  datatype Parent = Parent(name: string, sidecarName: string, step: int, sha256: string, sidecarSha256: string)

  datatype StepBudget = StepBudget(measuredFlat: int, remaining: int, requested: int)

  datatype Restore = Restore(
    brax: string, loadPath: string, restored: seq<string>, reinitialized: seq<string>, seed: int)

  datatype Transition = Transition(
    schema: int, source: string, target: string, targetRun: string,
    parent: Parent, digests: Digests, budget: StepBudget, restore: Restore)

  datatype TransitionError =
    | ParentEnvironment
    | ParentBeyondSpend
    | HeaderMismatch
    | TargetNotRough
    | ParentMismatch
    | DigestMismatch
    | RestoreMismatch
    | BudgetMismatch

  function ParentOf(c: Checkpoint): Parent {
    Parent(c.name, c.name + ".json", c.step, c.sha256, c.sidecarSha256)
  }

  function RestoreFrom(loadPath: string): Restore {
    Restore("0.14.2", loadPath,
            ["observation_normalizer", "policy_parameters", "value_parameters"],
            ["optimizer_state", "learner_step", "rollout_state", "prng_state"], 0)
  }

  /** build_transition_record. */
  function BuildTransition(parent: Checkpoint, targetRun: string, loadPath: string, digests: Digests, budget: StepBudget)
    : Result<Transition, TransitionError>
  {
    if parent.environment != FLAT_ENVIRONMENT then Err(ParentEnvironment)
    else if parent.step > budget.measuredFlat then Err(ParentBeyondSpend)
    else Ok(Transition(1, FLAT_ENVIRONMENT, ROUGH_ENVIRONMENT, targetRun, ParentOf(parent), digests, budget,
                       RestoreFrom(loadPath)))
  }

  /** Which parents may cross, what the record says of them, and what is carried over and what starts afresh. */
  lemma BuiltMeans(parent: Checkpoint, targetRun: string, loadPath: string, digests: Digests, budget: StepBudget)
    ensures var r := BuildTransition(parent, targetRun, loadPath, digests, budget);
      && (r == Err(ParentEnvironment) <==> parent.environment != "G1ForwardFlatTerrain")
      && (r == Err(ParentBeyondSpend) <==> parent.environment == "G1ForwardFlatTerrain" && parent.step > budget.measuredFlat)
      && (r.Ok? <==> parent.environment == "G1ForwardFlatTerrain" && parent.step <= budget.measuredFlat)
    ensures BuildTransition(parent, targetRun, loadPath, digests, budget).Ok? ==> (
      var t := BuildTransition(parent, targetRun, loadPath, digests, budget).value;
      && t.schema == 1 && t.source == "G1ForwardFlatTerrain" && t.target == "G1ForwardRoughTerrain" && t.targetRun == targetRun
      && t.parent.name == parent.name && t.parent.sidecarName == parent.name + ".json" && t.parent.step == parent.step
      && t.parent.sha256 == parent.sha256 && t.parent.sidecarSha256 == parent.sidecarSha256
      && t.digests == digests && t.budget == budget && t.restore.loadPath == loadPath && t.restore.brax == "0.14.2"
      && t.restore.restored == ["observation_normalizer", "policy_parameters", "value_parameters"]
      && t.restore.reinitialized == ["optimizer_state", "learner_step", "rollout_state", "prng_state"] && t.restore.seed == 0)
  {
  }

  /** verify_transition_record: None when the record is accepted. */
  function VerifyTransition(t: Transition, parent: Checkpoint, targetEnvironment: string, digests: Digests,
                            targetRun: string, loadPath: string): Option<TransitionError> {
    if t.schema != 1 || t.source != FLAT_ENVIRONMENT || t.target != ROUGH_ENVIRONMENT || t.targetRun != targetRun then
      Some(HeaderMismatch)
    else if targetEnvironment != ROUGH_ENVIRONMENT then Some(TargetNotRough)
    else if parent.environment != FLAT_ENVIRONMENT then Some(ParentEnvironment)
    else if t.parent.name != parent.name || t.parent.sidecarName != parent.name + ".json"
            || t.parent.step != parent.step || t.parent.sha256 != parent.sha256
            || t.parent.sidecarSha256 != parent.sidecarSha256 then Some(ParentMismatch)
    else if t.digests != digests then Some(DigestMismatch)
    else if t.restore != RestoreFrom(loadPath) then Some(RestoreMismatch)
    else if t.budget.measuredFlat < parent.step || t.budget.requested <= 0 || t.budget.requested > t.budget.remaining
    then Some(BudgetMismatch)
    else None
  }

  /** Verification accepts exactly what building writes, for a rough target and a request within budget. */
  lemma VerifyIffBuilt(t: Transition, parent: Checkpoint, targetEnvironment: string, digests: Digests,
                       targetRun: string, loadPath: string)
    ensures VerifyTransition(t, parent, targetEnvironment, digests, targetRun, loadPath) == None <==> (
      && BuildTransition(parent, targetRun, loadPath, digests, t.budget) == Ok(t)
      && targetEnvironment == ROUGH_ENVIRONMENT
      && 0 < t.budget.requested <= t.budget.remaining)
  {
  }
}
