/**
 The hosted G1 curriculum as a protocol over durable records, and the recovery that finalizes
 from those records alone.

 Trainer, evaluator and finalizer are foreign: pure parameters that may fail and may return
 anything.  `lives` is the number of effects the process performs before it dies, so every
 contract of the run speaks about every crash point.
 */
module Curriculum {
  import opened Wrappers
  import opened StepQuantum
  import opened CurriculumChecks
  import S = CheckpointSelection

  datatype Config = Config(
    environment: string, totalSteps: int, every: int, envs: int, unroll: int,
    evaluationSeeds: seq<int>, evaluationEpisodes: nat)

  datatype Inputs = Inputs(
    flat: Config, rough: Config, runId: string, runsRoot: string, digests: Digests, gallery: string,
    selection: seq<int>, final: seq<int>, selectionPer: int, finalPer: int,
    hard: seq<(string, real)>, preferred: seq<(string, real)>,
    overrides: seq<(string, string)>, minVelocity: real)

  datatype Trained = Trained(final: Checkpoint, retained: seq<Checkpoint>)

  datatype Value = Text(text: string) | Number(number: int)

  datatype FlatLineage = FlatLineage(
    configDigest: string, gate: Gate, checkpointSha: string, checkpointStep: int, requested: int, trained: int)

  datatype RoughLineage = RoughLineage(
    configDigest: string, inputDigest: string, selectedDigest: string, selectedStep: int,
    budget: int, requested: int, trained: int)

  datatype Lineage =
    | FlatOnly(flat: FlatLineage, selection: seq<int>, final: seq<int>, finalTouched: seq<int>)
    | Both(flat: FlatLineage, rough: RoughLineage, provenance: Provenance, transition: Transition)

  datatype FinalizationInput = FinalizationInput(
    schema: int, roughRun: string, selectedDigest: string, transition: Transition, lineage: Lineage,
    selection: seq<int>, final: seq<int>, ranking: S.Explanation,
    hard: seq<(string, real)>, preferred: seq<(string, real)>)

  datatype FinalizeCall = FinalizeCall(
    roughRun: string, overrides: seq<(string, Value)>, gallery: string, selectedDigest: string, matrix: string,
    lineage: Lineage, selection: seq<int>, final: seq<int>, ranking: S.Explanation,
    hard: seq<(string, real)>, preferred: seq<(string, real)>)

  datatype Foreign = Foreign(
    train: (Config, Option<Checkpoint>) -> Option<Trained>,
    evaluate: (Config, Checkpoint, seq<int>) -> seq<S.Episode>,
    finalize: FinalizeCall -> bool)

  datatype CurriculumError =
    | OverrideForbidden
    | Step(step: StepError)
    | FlatRequestChanged
    | FlatEnvironment
    | TrainerFailed
    | FlatOvershot
    | FlatBoundary
    | Evaluation(selection: S.SelectionError)
    | CheckpointMismatch
    | NoFlatEpisodes
    | DigestNotUnique
    | BudgetRejected
    | RoughEnvironment
    | TransitionRejected
    | AlreadyDifferent
    | RoughOvershot
    | NoRoughCheckpoint
    | SelectedBeyond
    | ProvenanceRejected
    | RecordsAbsent
    | ParentUnavailable
    | InputDisagrees
    | FinalizerFailed
    | Crashed

  /** What one side, the container's disk or the object store, holds for the run. */
  datatype Records = Records(
    flatLineage: Option<Lineage>, transition: Option<Transition>, lineage: Option<Lineage>,
    finalization: Option<FinalizationInput>)

  const NO_RECORDS := Records(None, None, None, None)

  /**
   Effects, logged as they start, and the two decisions they hang on: the gate's, and the
   selection's.  The finalizer evaluates too, on the seeds its config owns.
   */
  datatype Event =
    | TrainedFlat(steps: int)
    | Evaluated(digests: seq<string>, seeds: seq<int>)
    | GateJudged(digest: string, passed: bool)
    | TrainedRough(steps: int, parent: string)
    | Selected(candidates: seq<S.Evidence>, digest: string)
    | EvaluatedFinal(digest: string, seeds: seq<int>)
    | Finalized(call: FinalizeCall, seeds: seq<int>, recovered: bool)

  /** The run's records, the checkpoints each phase retained, and what was done so far. */
  class Storage {
    var local: Records
    var remote: Records
    var flat: seq<Checkpoint>
    var rough: seq<Checkpoint>
    ghost var log: seq<Event>

    constructor ()
      ensures local == NO_RECORDS && remote == NO_RECORDS && flat == [] && rough == [] && log == []
    {
      local, remote, flat, rough, log := NO_RECORDS, NO_RECORDS, [], [], [];
    }
  }

  /** write_immutable_local and put_immutable_json: create once, or replay the same value. */
  predicate Accepts<T(==)>(held: Option<T>, value: T) {
    held == None || held == Some(value)
  }

  // ----- overrides

  const ALLOWED_OVERRIDES := ["storage.mode", "storage.bucket", "storage.prefix", "storage.endpoint_url",
                              "storage.region", "storage.retries"]

  predicate OverridesAllowed(overrides: seq<(string, string)>) {
    forall i :: 0 <= i < |overrides| ==> overrides[i].0 in ALLOWED_OVERRIDES
  }

  /** _finalize_overrides: everything but a step budget, then the phase's own. */
  function FinalizeOverrides(overrides: seq<(string, string)>, steps: int): seq<(string, Value)> {
    if overrides == [] then [("training.total_steps", Number(steps))]
    else if overrides[0].0 == "training.total_steps" then FinalizeOverrides(overrides[1..], steps)
    else [(overrides[0].0, Text(overrides[0].1))] + FinalizeOverrides(overrides[1..], steps)
  }

  /** Whatever is overridden, the finalizer gets one step budget, the phase's own, and every other override. */
  lemma {:induction false} OneBudget(overrides: seq<(string, string)>, steps: int)
    ensures var r := FinalizeOverrides(overrides, steps);
      && |r| > 0 && r[|r| - 1] == ("training.total_steps", Number(steps))
      && (forall k :: 0 <= k < |r| - 1 ==> r[k].0 != "training.total_steps")
      && (forall o :: o in overrides && o.0 != "training.total_steps" ==> (o.0, Text(o.1)) in r)
  {
    if overrides != [] {
      OneBudget(overrides[1..], steps);
      var r, rest := FinalizeOverrides(overrides, steps), FinalizeOverrides(overrides[1..], steps);
      forall o | o in overrides && o.0 != "training.total_steps" ensures (o.0, Text(o.1)) in r {
        if o != overrides[0] { assert o in overrides[1..]; }
      }
      if overrides[0].0 != "training.total_steps" {
        assert r == [(overrides[0].0, Text(overrides[0].1))] + rest;
      }
    }
  }

  /** Allowed overrides all reach the finalizer, in order, followed by the phase budget. */
  lemma {:induction false} AllowedOverridesSurvive(overrides: seq<(string, string)>, steps: int)
    requires OverridesAllowed(overrides)
    ensures var r := FinalizeOverrides(overrides, steps);
      && |r| == |overrides| + 1 && r[|overrides|] == ("training.total_steps", Number(steps))
      && forall i :: 0 <= i < |overrides| ==> r[i] == (overrides[i].0, Text(overrides[i].1))
  {
    if overrides != [] {
      assert overrides[0].0 in ALLOWED_OVERRIDES;
      AllowedOverridesSurvive(overrides[1..], steps);
      assert forall i :: 0 < i < |overrides| ==> overrides[i] == overrides[1..][i - 1];
    }
  }

  // ----- checkpoint directories

  /** File names in a directory are distinct. */
  predicate Directory(cs: seq<Checkpoint>) {
    forall i, j :: 0 <= i < j < |cs| ==> cs[i].name != cs[j].name
  }

  function WithDigest(cs: seq<Checkpoint>, digest: string): (m: seq<Checkpoint>)
    ensures forall c :: c in m <==> c in cs && c.sha256 == digest
  {
    if cs == [] then [] else (if cs[0].sha256 == digest then [cs[0]] else []) + WithDigest(cs[1..], digest)
  }

  /** checkpoint_by_digest: the only checkpoint with the digest. */
  function ByDigest(cs: seq<Checkpoint>, digest: string): (r: Option<Checkpoint>)
    ensures r.Some? ==> r.value in cs && r.value.sha256 == digest
    ensures r.Some? ==> forall c :: c in cs && c.sha256 == digest ==> c == r.value
  {
    var m := WithDigest(cs, digest);
    if |m| == 1 then assert m[0] in m; Some(m[0]) else None
  }

  function ByName(cs: seq<Checkpoint>, name: string): Option<Checkpoint> {
    if cs == [] then None else if cs[0].name == name then Some(cs[0]) else ByName(cs[1..], name)
  }

  lemma {:induction false} ByNameFinds(cs: seq<Checkpoint>, c: Checkpoint)
    requires Directory(cs) && c in cs
    ensures ByName(cs, c.name) == Some(c)
  {
    if cs[0] != c {
      assert c in cs[1..];
      ByNameFinds(cs[1..], c);
    }
  }

  // ----- what the run is determined by

  function FlatConfig(i: Inputs): Config {
    i.flat.(totalSteps := FLAT_EFFECTIVE_STEPS)
  }

  function RoughConfig(i: Inputs, steps: int): Config {
    i.rough.(totalSteps := steps)
  }

  function RoughRun(i: Inputs): string {
    i.runId + "-rough"
  }

  const ROUGH_BUDGET: nat := TOTAL_STEPS - FLAT_EFFECTIVE_STEPS

  function SelectionSchedule(i: Inputs): seq<int>
    requires i.selectionPer > 0
  {
    S.Schedule(i.selection, i.selectionPer)
  }

  function FinalSchedule(i: Inputs): seq<int>
    requires i.finalPer > 0
  {
    S.Schedule(i.final, i.finalPer)
  }

  /** The finalizer's schedule: the seeds of its config in turn, one episode each. */
  function FinalizerSchedule(i: Inputs): seq<int> {
    if i.rough.evaluationSeeds == [] then []
    else
      seq(i.rough.evaluationEpisodes, k requires 0 <= k => i.rough.evaluationSeeds[k % |i.rough.evaluationSeeds|])
  }

  /** The evidence evaluating these checkpoints on the selection schedule gives. */
  function Candidates(i: Inputs, f: Foreign, config: Config, cs: seq<Checkpoint>): (r: seq<S.Evidence>)
    requires i.selectionPer > 0
    ensures |r| == |cs|
  {
    seq(|cs|, k requires 0 <= k < |cs| =>
      S.Evidence(k, cs[k].step, cs[k].sha256, S.Selection, f.evaluate(config, cs[k], SelectionSchedule(i))))
  }

  function Digest(cs: seq<Checkpoint>): seq<string> {
    seq(|cs|, k requires 0 <= k < |cs| => cs[k].sha256)
  }

  datatype FlatResult = FlatResult(trained: Trained, evidence: S.Evidence, gate: Gate)

  /** Evaluation accepted these checkpoints: the config's own environment, and only selection seeds. */
  ghost predicate EvaluationAccepted(i: Inputs, f: Foreign, config: Config, cs: seq<Checkpoint>)
    requires i.selectionPer > 0
  {
    forall k :: 0 <= k < |cs| ==>
      cs[k].environment == config.environment && S.OnlySeeds(f.evaluate(config, cs[k], SelectionSchedule(i)), i.selection)
  }

  /** The flat config's batch shape bounds the nominal request to the reviewed boundary. */
  ghost predicate FlatRequest(i: Inputs) {
    && i.flat.every > 0 && i.flat.envs > 0 && i.flat.unroll > 0
    && ReturnedBy(FLAT_NOMINAL_STEPS, i.flat.every, i.flat.envs * i.flat.unroll, FLAT_EFFECTIVE_STEPS)
  }

  /** A flat phase that reached its boundary and was judged on selection seeds only. */
  ghost predicate FlatPhaseOf(i: Inputs, f: Foreign, x: FlatResult) {
    && S.SeedRolesValid(i.selection, i.final) && i.selectionPer > 0
    && FlatRequest(i) && i.flat.environment == FLAT_ENVIRONMENT
    && f.train(FlatConfig(i), None) == Some(x.trained)
    && x.trained.final.step == FLAT_EFFECTIVE_STEPS
    && EvaluationAccepted(i, f, FlatConfig(i), [x.trained.final])
    && Candidates(i, f, FlatConfig(i), [x.trained.final]) == [x.evidence]
    && FlatGate(x.evidence.episodes, i.minVelocity) == Some(x.gate)
  }

  function FlatLineageOf(i: Inputs, x: FlatResult): FlatLineage {
    FlatLineage(i.digests.flatConfig, x.gate, x.evidence.sha256, x.evidence.step, FLAT_EFFECTIVE_STEPS,
                x.trained.final.step)
  }

  /** The step request the rough budget is bounded to. */
  ghost predicate RoughRequest(i: Inputs, steps: nat) {
    && i.rough.every > 0 && i.rough.envs > 0 && i.rough.unroll > 0
    && ReturnedBy(ROUGH_BUDGET, i.rough.every, i.rough.envs * i.rough.unroll, steps)
  }

  /** The declared crossing from the flat checkpoint into the rough run. */
  datatype Crossing = Crossing(parent: Checkpoint, requested: nat, transition: Transition)

  /** The position of the last dot, or the length without one. */
  function LastDot(s: string): (n: nat)
    ensures n <= |s|
  {
    if s == "" then 0
    else if s[|s| - 1] == '.' then |s| - 1
    else
      var n := LastDot(s[..|s| - 1]);
      if n == |s| - 1 then |s| else n
  }

  /** Path.stem: without the last suffix, if there is one. */
  function Stem(name: string): string {
    var n := LastDot(name);
    if 0 < n < |name| - 1 then name[..n] else name
  }

  lemma {:induction false} LastDotOf(base: string, suffix: string)
    requires '.' !in suffix
    ensures LastDot(base + "." + suffix) == |base|
  {
    var s := base + "." + suffix;
    if suffix == "" {
      assert s[|s| - 1] == '.';
    } else {
      var n := |suffix| - 1;
      assert s[|s| - 1] == suffix[n] && s[..|s| - 1] == base + "." + suffix[..n];
      LastDotOf(base, suffix[..n]);
    }
  }

  /** The stem of a checkpoint's file is its name without the ending. */
  lemma StemOf(base: string, suffix: string)
    requires base != "" && suffix != "" && '.' !in suffix
    ensures Stem(base + "." + suffix) == base
  {
    LastDotOf(base, suffix);
    assert (base + "." + suffix)[..|base|] == base;
  }

  function LoadPath(i: Inputs, parent: Checkpoint): string {
    i.runsRoot + "/" + RoughRun(i) + "/resume/" + Stem(parent.name)
  }

  ghost predicate CrossingOf(i: Inputs, x: FlatResult, c: Crossing) {
    && x.gate.passed
    && ByDigest(x.trained.retained, x.evidence.sha256) == Some(c.parent)
    && RoughRequest(i, c.requested) && 0 < c.requested <= ROUGH_BUDGET
    && i.rough.environment == ROUGH_ENVIRONMENT
    && BuildTransition(c.parent, RoughRun(i), LoadPath(i, c.parent), i.digests,
                       StepBudget(FLAT_EFFECTIVE_STEPS, ROUGH_BUDGET, c.requested)) == Ok(c.transition)
  }

  datatype RoughResult = RoughResult(
    trained: Trained, candidates: seq<S.Evidence>, winner: S.Evidence, ranking: S.Explanation)

  /** A rough phase resumed from the crossing, its candidates ranked on selection seeds only. */
  ghost predicate RoughPhaseOf(i: Inputs, f: Foreign, c: Crossing, x: RoughResult) {
    && S.SeedRolesValid(i.selection, i.final) && i.selectionPer > 0
    && f.train(RoughConfig(i, c.requested), Some(c.parent)) == Some(x.trained)
    && x.winner.step <= x.trained.final.step <= ROUGH_BUDGET
    && EvaluationAccepted(i, f, RoughConfig(i, c.requested), x.trained.retained)
    && x.candidates == Candidates(i, f, RoughConfig(i, c.requested), x.trained.retained)
    && S.SelectCheckpoint(x.candidates, "locomotion") == Ok(x.winner)
    && S.ExplainRanking(x.candidates, x.winner, "locomotion") == Ok(x.ranking)
    && ByDigest(x.trained.retained, x.winner.sha256).Some?
  }

  function ProvenanceOf(i: Inputs, flat: FlatResult, c: Crossing, x: RoughResult): Result<Provenance, ProvenanceError> {
    ProvenanceChain(i.digests, flat.evidence.sha256, x.winner.sha256, FLAT_EFFECTIVE_STEPS,
                    flat.evidence.step, flat.trained.final.step, x.trained.final.step, c.requested)
  }

  function InputOf(i: Inputs, flat: FlatResult, c: Crossing, x: RoughResult, p: Provenance): FinalizationInput {
    var rough := RoughLineage(i.digests.roughConfig, flat.evidence.sha256, x.winner.sha256, x.winner.step,
                              ROUGH_BUDGET, c.requested, x.trained.final.step);
    FinalizationInput(1, RoughRun(i), x.winner.sha256, c.transition, Both(FlatLineageOf(i, flat), rough, p, c.transition),
                      i.selection, i.final, x.ranking, i.hard, i.preferred)
  }

  /** The finalizer call that a finalization input and a step budget stand for. */
  function CallOf(i: Inputs, input: FinalizationInput, steps: int): FinalizeCall {
    FinalizeCall(RoughRun(i), FinalizeOverrides(i.overrides, steps), i.gallery, input.selectedDigest, i.digests.matrix,
                 input.lineage, input.selection, input.final, input.ranking, input.hard, input.preferred)
  }

  /** The finalization input, and the request, that a run over these inputs commits to. */
  ghost predicate Commits(i: Inputs, f: Foreign, input: FinalizationInput, steps: nat) {
    exists flat, c, x, j ::
      FlatPhaseOf(i, f, flat) && CrossingOf(i, flat, c) && RoughPhaseOf(i, f, c, x) && JudgedBy(i, f, c, x, j)
      && CommitsTo(i, flat, c, x, input, steps)
  }

  ghost predicate CommitsTo(i: Inputs, flat: FlatResult, c: Crossing, x: RoughResult, input: FinalizationInput, steps: nat) {
    && ProvenanceOf(i, flat, c, x).Ok? && steps == c.requested
    && input == InputOf(i, flat, c, x, ProvenanceOf(i, flat, c, x).value)
  }

  lemma FlatPhaseIsUnique(i: Inputs, f: Foreign, x: FlatResult, y: FlatResult)
    requires FlatPhaseOf(i, f, x) && FlatPhaseOf(i, f, y)
    ensures x == y
  {
    hide FlatGate, Candidates;
    assert [x.evidence][0] == [y.evidence][0];
  }

  lemma CrossingIsUnique(i: Inputs, x: FlatResult, a: Crossing, b: Crossing)
    requires CrossingOf(i, x, a) && CrossingOf(i, x, b)
    ensures a == b
  {
    hide ReturnedBy, BuildTransition;
    ReturnedIsUnique(ROUGH_BUDGET, i.rough.every, i.rough.envs * i.rough.unroll, a.requested, b.requested);
  }

  lemma RoughPhaseIsUnique(i: Inputs, f: Foreign, c: Crossing, x: RoughResult, y: RoughResult)
    requires RoughPhaseOf(i, f, c, x) && RoughPhaseOf(i, f, c, y)
    ensures x == y
  {
    hide S.SelectCheckpoint, S.ExplainRanking, Candidates;
  }

  /** One trainer and one evaluator leave one input to commit to. */
  lemma CommitmentIsUnique(i: Inputs, f: Foreign, a: FinalizationInput, s: nat, b: FinalizationInput, t: nat)
    requires Commits(i, f, a, s) && Commits(i, f, b, t)
    ensures a == b && s == t
  {
    hide FlatPhaseOf, CrossingOf, RoughPhaseOf, JudgedBy, ProvenanceOf, InputOf;
    var flat, c, x, j :| FlatPhaseOf(i, f, flat) && CrossingOf(i, flat, c) && RoughPhaseOf(i, f, c, x)
      && JudgedBy(i, f, c, x, j) && CommitsTo(i, flat, c, x, a, s);
    var flat', c', x', j' :| FlatPhaseOf(i, f, flat') && CrossingOf(i, flat', c') && RoughPhaseOf(i, f, c', x')
      && JudgedBy(i, f, c', x', j') && CommitsTo(i, flat', c', x', b, t);
    FlatPhaseIsUnique(i, f, flat, flat');
    CrossingIsUnique(i, flat, c, c');
    RoughPhaseIsUnique(i, f, c, x, x');
  }

  // ----- the phases

  /** A request the step-bounding loop answers; it asks nothing of non-positive shapes, which it rejects. */
  ghost predicate StepsSettle(config: Config, budget: nat) {
    config.every > 0 && config.envs > 0 && config.unroll > 0 ==>
      Settles(budget, config.every, config.envs * config.unroll)
  }

  /** evaluate_candidates on the selection schedule, with the environment check of checkpoint_inventory. */
  method EvaluateSelection(i: Inputs, f: Foreign, config: Config, cs: seq<Checkpoint>, storage: Storage)
    returns (r: Result<seq<S.Evidence>, CurriculumError>)
    modifies storage`log
    ensures r.Ok? <==>
      S.SeedRolesValid(i.selection, i.final) && i.selectionPer > 0 && EvaluationAccepted(i, f, config, cs)
    ensures r.Ok? ==> r.value == Candidates(i, f, config, cs)
    ensures r.Err? ==> r.error.Evaluation? || r.error == CheckpointMismatch
    ensures storage.log == if S.SeedRolesValid(i.selection, i.final) && i.selectionPer > 0
      then old(storage.log) + [Evaluated(Digest(cs), SelectionSchedule(i))] else old(storage.log)
  {
    if S.SeedRolesValid(i.selection, i.final) && i.selectionPer > 0 {
      storage.log := storage.log + [Evaluated(Digest(cs), SelectionSchedule(i))];
    }
    var items := seq(|cs|, k requires 0 <= k < |cs| => S.Checkpoint(k, cs[k].step, cs[k].sha256));
    var evaluate := (c: S.Checkpoint, seeds: seq<int>) =>
      if 0 <= c.ref < |cs| then f.evaluate(config, cs[c.ref], seeds) else [];
    var found := S.EvaluateCandidates(items, evaluate, i.selection, i.final, i.selectionPer);
    assert forall k :: 0 <= k < |cs| && i.selectionPer > 0 ==>
      evaluate(items[k], SelectionSchedule(i)) == f.evaluate(config, cs[k], SelectionSchedule(i));
    if found.Err? {
      return Err(Evaluation(found.error));
    }
    if exists k :: 0 <= k < |cs| && cs[k].environment != config.environment {
      return Err(CheckpointMismatch);
    }
    var evidence := Candidates(i, f, config, cs);
    forall k | 0 <= k < |cs| ensures found.value[k] == evidence[k] {
      assert evaluate(items[k], SelectionSchedule(i)) == f.evaluate(config, cs[k], SelectionSchedule(i));
    }
    assert found.value == evidence;
    return Ok(found.value);
  }

  /** The checks that compare what the curriculum itself computed. */
  predicate OwnCheck(e: CurriculumError) {
    e == BudgetRejected || e == TransitionRejected || e == ProvenanceRejected
  }

  /** The checks a trainer that stays within its request never trips. */
  predicate TrainerCheck(e: CurriculumError) {
    OwnCheck(e) || e == FlatOvershot || e == RoughOvershot || e == SelectedBeyond
  }

  /** The trainer returns one of the checkpoints it retained, the last of them, within the requested steps. */
  ghost predicate WithinRequest(f: Foreign) {
    forall config, resume :: f.train(config, resume).Some? ==> Within(f.train(config, resume).value, config.totalSteps)
  }

  predicate Within(t: Trained, steps: int) {
    t.final in t.retained && t.final.step <= steps && forall c :: c in t.retained ==> c.step <= t.final.step
  }

  /** Checkpoint directories are directories. */
  ghost predicate TrainsIntoDirectories(f: Foreign) {
    forall config, resume :: f.train(config, resume).Some? ==> Directory(f.train(config, resume).value.retained)
  }

  /**
   What a run does next, `at` being where in the log it began: flat training, its evaluation on
   selection seeds, the gate; only if it passed, rough training from that very checkpoint within
   the rough budget, the candidates' evaluation on selection seeds, their selection, the winner's
   evaluation on reserved seeds, and the winner's finalization.
   */
  ghost predicate Next(i: Inputs, at: nat, log: seq<Event>, e: Event)
    requires at <= |log|
  {
    match |log| - at
    case 0 => e == TrainedFlat(FLAT_EFFECTIVE_STEPS)
    case 1 => OnSelectionSeeds(i, e) && |e.digests| == 1
    case 2 => e.GateJudged? && log[at + 1].Evaluated? && log[at + 1].digests == [e.digest]
    case 3 => e.TrainedRough? && 0 < e.steps <= ROUGH_BUDGET && log[at + 2] == GateJudged(e.parent, true)
    case 4 => OnSelectionSeeds(i, e)
    case 5 => e.Selected? && log[at + 4].Evaluated? && IsSelection(e, log[at + 4].digests)
    case 6 => OnFinalSeeds(i, e) && log[at + 5].Selected? && e.digest == log[at + 5].digest
    case 7 => e.Finalized? && e.seeds == FinalizerSchedule(i) && !e.recovered
      && log[at + 5].Selected? && e.call.selectedDigest == log[at + 5].digest
    case _ => false
  }

  /** At every crash point a run's events since `start` are a prefix of that script. */
  ghost predicate Script(i: Inputs, start: seq<Event>, log: seq<Event>) {
    && |start| <= |log| && log[..|start|] == start
    && forall k :: |start| <= k < |log| ==> Next(i, |start|, log[..k], log[k])
  }

  lemma ScriptGoesOn(i: Inputs, start: seq<Event>, log: seq<Event>, e: Event)
    requires Script(i, start, log) && Next(i, |start|, log, e)
    ensures Script(i, start, log + [e])
  {
    hide Next;
    var all := log + [e];
    forall k | |start| <= k < |all| ensures Next(i, |start|, all[..k], all[k]) {
      assert all[..k] == log[..k];
      if k == |log| { assert log[..k] == log; }
    }
    assert all[..|start|] == log[..|start|];
  }

  ghost predicate OnSelectionSeeds(i: Inputs, e: Event) {
    e.Evaluated? && i.selectionPer > 0 && e.seeds == SelectionSchedule(i) && S.SeedRolesValid(i.selection, i.final)
  }

  /** The digest is that of the candidate selection returns from the evidence on these checkpoints. */
  ghost predicate IsSelection(e: Event, digests: seq<string>)
    requires e.Selected?
  {
    && |e.candidates| == |digests| && (forall k :: 0 <= k < |digests| ==> e.candidates[k].sha256 == digests[k])
    && S.SelectCheckpoint(e.candidates, "locomotion").Ok?
    && S.SelectCheckpoint(e.candidates, "locomotion").value.sha256 == e.digest
  }

  ghost predicate OnFinalSeeds(i: Inputs, e: Event) {
    e.EvaluatedFinal? && i.finalPer > 0 && e.seeds == FinalSchedule(i)
  }

  /** Immutable records that were held stay as they were. */
  predicate Preserves(before: Records, after: Records) {
    && (before.flatLineage.Some? ==> after.flatLineage == before.flatLineage)
    && (before.transition.Some? ==> after.transition == before.transition)
    && (before.finalization.Some? ==> after.finalization == before.finalization)
  }

  /** A flat request that comes out at the boundary comes out nowhere else. */
  lemma FlatRequestSettles(i: Inputs)
    ensures FlatRequest(i) ==>
      i.flat.envs * i.flat.unroll * Intervals(FLAT_NOMINAL_STEPS, i.flat.every) <= FLAT_NOMINAL_STEPS
    ensures FlatRequest(i) ==> forall s: nat ::
      ReturnedBy(FLAT_NOMINAL_STEPS, i.flat.every, i.flat.envs * i.flat.unroll, s) ==> s == FLAT_EFFECTIVE_STEPS
  {
    hide Intervals;
    if FlatRequest(i) {
      forall s: nat | ReturnedBy(FLAT_NOMINAL_STEPS, i.flat.every, i.flat.envs * i.flat.unroll, s)
        ensures s == FLAT_EFFECTIVE_STEPS
      {
        ReturnedIsUnique(FLAT_NOMINAL_STEPS, i.flat.every, i.flat.envs * i.flat.unroll, s, FLAT_EFFECTIVE_STEPS);
      }
    }
  }

  /** Phase 1: flat, from scratch, judged at its one boundary. */
  method FlatPhase(i: Inputs, f: Foreign, storage: Storage, lives: nat) returns (r: Result<FlatResult, CurriculumError>)
    requires StepsSettle(i.flat, FLAT_NOMINAL_STEPS)
    modifies storage`flat, storage`log
    ensures r.Ok? ==> FlatPhaseOf(i, f, r.value) && storage.flat == r.value.trained.retained
    ensures Script(i, old(storage.log), storage.log) && |storage.log| <= |old(storage.log)| + 3
    ensures r.Ok? ==> |storage.log| == |old(storage.log)| + 3
    ensures r.Ok? ==> storage.log[|old(storage.log)| + 2] == GateJudged(r.value.evidence.sha256, r.value.gate.passed)
    ensures WithinRequest(f) && r.Err? ==> !TrainerCheck(r.error)
    ensures lives >= 2 && r.Err? ==> !exists x :: FlatPhaseOf(i, f, x)
  {
    hide ReturnedBy, Settles, Intervals, FlatGate, Candidates, EvaluationAccepted, Script;
    ghost var start := storage.log;
    assert Script(i, start, start) by { ScriptStarts(i, start); }
    FlatRequestSettles(i);
    var steps := BoundedPhaseSteps(FLAT_NOMINAL_STEPS, i.flat.every, i.flat.envs, i.flat.unroll);
    if steps.Err? {
      return Err(Step(steps.error));
    }
    if steps.value != FLAT_EFFECTIVE_STEPS {
      return Err(FlatRequestChanged);
    }
    var config := FlatConfig(i);
    if config.environment != FLAT_ENVIRONMENT {
      return Err(FlatEnvironment);
    }
    if lives == 0 {
      return Err(Crashed);
    }
    ScriptGoesOn(i, start, storage.log, TrainedFlat(steps.value));
    storage.log := storage.log + [TrainedFlat(steps.value)];
    var result := f.train(config, None);
    if result == None {
      return Err(TrainerFailed);
    }
    var trained := result.value;
    storage.flat := trained.retained;
    if trained.final.step > steps.value {
      return Err(FlatOvershot);
    }
    if trained.final.step != FLAT_EFFECTIVE_STEPS {
      return Err(FlatBoundary);
    }
    if lives == 1 {
      return Err(Crashed);
    }
    ghost var before := storage.log;
    var evidence := EvaluateSelection(i, f, config, [trained.final], storage);
    if storage.log != before {
      ScriptGoesOn(i, start, before, Evaluated(Digest([trained.final]), SelectionSchedule(i)));
    }
    if evidence.Err? {
      return Err(evidence.error);
    }
    assert evidence.value == [evidence.value[0]];
    assert forall x :: FlatPhaseOf(i, f, x) ==> [x.evidence][0] == evidence.value[0];
    var gate := FlatGate(evidence.value[0].episodes, i.minVelocity);
    if gate == None {
      return Err(NoFlatEpisodes);
    }
    ghost var judged := GateJudged(evidence.value[0].sha256, gate.value.passed);
    assert Digest([trained.final]) == [judged.digest] by { CandidateDigest(i, f, config, [trained.final], 0); }
    ScriptGoesOn(i, start, storage.log, judged);
    storage.log := storage.log + [judged];
    return Ok(FlatResult(trained, evidence.value[0], gate.value));
  }

  lemma ScriptStarts(i: Inputs, start: seq<Event>)
    ensures Script(i, start, start)
  {
  }

  lemma CandidateDigest(i: Inputs, f: Foreign, config: Config, cs: seq<Checkpoint>, k: nat)
    requires i.selectionPer > 0 && k < |cs|
    ensures Candidates(i, f, config, cs)[k].sha256 == Digest(cs)[k] == cs[k].sha256
  {
  }

  /** The rough config's batch shape bounds the remaining budget to a request. */
  method RoughSteps(i: Inputs) returns (r: Result<nat, CurriculumError>)
    requires StepsSettle(i.rough, ROUGH_BUDGET)
    ensures r.Ok? ==> RoughRequest(i, r.value) && 0 < r.value <= ROUGH_BUDGET
    ensures r.Err? ==> r.error.Step? && forall s: nat :: !RoughRequest(i, s)
  {
    hide Settles, Intervals, Round, Fixed, Bounded;
    var steps := BoundedPhaseSteps(ROUGH_BUDGET, i.rough.every, i.rough.envs, i.rough.unroll);
    return if steps.Ok? then Ok(steps.value) else Err(Step(steps.error));
  }

  /** Whether a record is built depends on the parent alone; a trainer within its request hands over one that is. */
  lemma BuildAccepts(i: Inputs, f: Foreign, x: FlatResult, parent: Checkpoint, loadPath: string, budget: StepBudget)
    requires FlatPhaseOf(i, f, x) && ByDigest(x.trained.retained, x.evidence.sha256) == Some(parent)
    requires budget.measuredFlat == FLAT_EFFECTIVE_STEPS
    ensures WithinRequest(f) ==> BuildTransition(parent, RoughRun(i), loadPath, i.digests, budget).Ok?
    ensures forall c: Crossing {:trigger CrossingOf(i, x, c)} :: CrossingOf(i, x, c) ==>
      BuildTransition(parent, RoughRun(i), loadPath, i.digests, budget).Ok?
  {
    hide S.SeedRolesValid, FlatGate, FlatRequest, RoughRequest;
    FlatEvidenceIs(i, f, x);
    if WithinRequest(f) {
      assert Within(f.train(FlatConfig(i), None).value, FLAT_EFFECTIVE_STEPS);
      assert x.trained.final == parent;
    }
  }

  lemma BuiltBudget(parent: Checkpoint, targetRun: string, loadPath: string, digests: Digests, budget: StepBudget)
    requires BuildTransition(parent, targetRun, loadPath, digests, budget).Ok?
    ensures BuildTransition(parent, targetRun, loadPath, digests, budget).value.budget == budget
  {
  }

  /** The records hold no transition but the one this flat phase leads to. */
  ghost predicate AcceptsCrossing(i: Inputs, flat: FlatResult, r: Records) {
    forall c :: CrossingOf(i, flat, c) ==> Accepts(r.transition, c.transition)
  }

  /** Nothing in the records stands in the way of what this run would commit to. */
  ghost predicate Undisturbed(i: Inputs, f: Foreign, r: Records) {
    r.finalization == None && forall flat :: FlatPhaseOf(i, f, flat) ==> AcceptsCrossing(i, flat, r)
  }

  /** The crossing: resolve the parent, bound the rough request, and write the transition once. */
  method CrossOver(i: Inputs, f: Foreign, storage: Storage, flat: FlatResult, lives: nat)
    returns (r: Result<Crossing, CurriculumError>)
    requires FlatPhaseOf(i, f, flat) && flat.gate.passed && StepsSettle(i.rough, ROUGH_BUDGET)
    modifies storage`local, storage`remote
    ensures r.Ok? ==> CrossingOf(i, flat, r.value)
    ensures r.Ok? ==> storage.local == old(storage.local).(transition := Some(r.value.transition))
    ensures r.Ok? ==> storage.remote == old(storage.remote).(transition := Some(r.value.transition))
    ensures Preserves(old(storage.local), storage.local) && Preserves(old(storage.remote), storage.remote)
    ensures storage.local.finalization == old(storage.local.finalization)
    ensures storage.remote.finalization == old(storage.remote.finalization)
    ensures WithinRequest(f) && r.Err? ==> !TrainerCheck(r.error)
    ensures lives >= 4 && r.Err? && AcceptsCrossing(i, flat, old(storage.local)) && AcceptsCrossing(i, flat, old(storage.remote)) ==>
      !exists c :: CrossingOf(i, flat, c)
  {
    hide FlatPhaseOf, RoughRequest, StepsSettle, WithinRequest, ByDigest, BuildTransition, VerifyTransition, LoadPath, Stem;
    FlatEvidenceIs(i, f, flat);
    var parent := ByDigest(flat.trained.retained, flat.evidence.sha256);
    if parent == None {
      return Err(DigestNotUnique);
    }
    var remaining := RoughBudget(FLAT_EFFECTIVE_STEPS, Some(flat.evidence.step), Some(flat.trained.final.step));
    if remaining.Err? {
      return Err(BudgetRejected);
    }
    var steps := RoughSteps(i);
    if steps.Err? {
      return Err(steps.error);
    }
    if i.rough.environment != ROUGH_ENVIRONMENT {
      return Err(RoughEnvironment);
    }
    var loadPath := LoadPath(i, parent.value);
    var budget := StepBudget(flat.trained.final.step, remaining.value, steps.value);
    BuildAccepts(i, f, flat, parent.value, loadPath, budget);
    var built := BuildTransition(parent.value, RoughRun(i), loadPath, i.digests, budget);
    if built.Err? {
      return Err(TransitionRejected);
    }
    var transition := built.value;
    VerifyIffBuilt(transition, parent.value, i.rough.environment, i.digests, RoughRun(i), loadPath);
    assert transition.budget == budget by { BuiltBudget(parent.value, RoughRun(i), loadPath, i.digests, budget); }
    assert CrossingOf(i, flat, Crossing(parent.value, steps.value, transition));
    if lives <= 2 {
      return Err(Crashed);
    }
    if !Accepts(storage.local.transition, transition) {
      return Err(AlreadyDifferent);
    }
    storage.local := storage.local.(transition := Some(transition));
    if lives == 3 {
      return Err(Crashed);
    }
    if !Accepts(storage.remote.transition, transition) {
      return Err(AlreadyDifferent);
    }
    storage.remote := storage.remote.(transition := Some(transition));
    var rejected := VerifyTransition(transition, parent.value, i.rough.environment, i.digests, RoughRun(i), loadPath);
    if rejected.Some? {
      return Err(TransitionRejected);
    }
    return Ok(Crossing(parent.value, steps.value, transition));
  }

  /** Phase 2: rough, resumed from the crossing, its candidates ranked on selection seeds. */
  method RoughPhase(i: Inputs, f: Foreign, storage: Storage, c: Crossing, lives: nat, ghost start: seq<Event>)
    returns (r: Result<RoughResult, CurriculumError>)
    requires 0 < c.requested <= ROUGH_BUDGET
    requires Script(i, start, storage.log) && |storage.log| == |start| + 3
    requires storage.log[|start| + 2] == GateJudged(c.parent.sha256, true)
    modifies storage`rough, storage`log
    ensures r.Ok? ==> RoughPhaseOf(i, f, c, r.value) && storage.rough == r.value.trained.retained
    ensures Script(i, start, storage.log) && |start| + 3 <= |storage.log| <= |start| + 6
    ensures r.Ok? ==> |storage.log| == |start| + 6
    ensures r.Ok? ==> storage.log[|start| + 5] == Selected(r.value.candidates, r.value.winner.sha256)
    ensures WithinRequest(f) && r.Err? ==> !TrainerCheck(r.error)
    ensures lives >= 6 && r.Err? ==> !exists x :: RoughPhaseOf(i, f, c, x)
  {
    hide S.SelectCheckpoint, S.ExplainRanking, Candidates, ByDigest, Digest, EvaluationAccepted, Script;
    var config := RoughConfig(i, c.requested);
    if lives <= 4 {
      return Err(Crashed);
    }
    ScriptGoesOn(i, start, storage.log, TrainedRough(c.requested, c.parent.sha256));
    storage.log := storage.log + [TrainedRough(c.requested, c.parent.sha256)];
    var result := f.train(config, Some(c.parent));
    if result == None {
      return Err(TrainerFailed);
    }
    var trained := result.value;
    storage.rough := trained.retained;
    if trained.final.step > ROUGH_BUDGET {
      return Err(RoughOvershot);
    }
    if trained.retained == [] {
      return Err(NoRoughCheckpoint);
    }
    if lives == 5 {
      return Err(Crashed);
    }
    ghost var before := storage.log;
    var candidates := EvaluateSelection(i, f, config, trained.retained, storage);
    if storage.log != before {
      ScriptGoesOn(i, start, before, Evaluated(Digest(trained.retained), SelectionSchedule(i)));
    }
    if candidates.Err? {
      return Err(candidates.error);
    }
    var winner := S.SelectCheckpoint(candidates.value, "locomotion");
    if winner.Err? {
      return Err(Evaluation(winner.error));
    }
    WinnerIsCandidate(i, f, config, trained.retained, "locomotion");
    ghost var selected := Selected(candidates.value, winner.value.sha256);
    assert IsSelection(selected, Digest(trained.retained)) by { SelectionOf(i, f, config, trained.retained); }
    ScriptGoesOn(i, start, storage.log, selected);
    storage.log := storage.log + [selected];
    if winner.value.step > trained.final.step {
      return Err(SelectedBeyond);
    }
    S.ExplanationAgrees(candidates.value, "locomotion", winner.value);
    var ranking := S.ExplainRanking(candidates.value, winner.value, "locomotion");
    if ByDigest(trained.retained, winner.value.sha256) == None {
      return Err(DigestNotUnique);
    }
    return Ok(RoughResult(trained, candidates.value, winner.value, ranking.value));
  }

  lemma SelectionOf(i: Inputs, f: Foreign, config: Config, cs: seq<Checkpoint>)
    requires i.selectionPer > 0 && S.SelectCheckpoint(Candidates(i, f, config, cs), "locomotion").Ok?
    ensures var w := S.SelectCheckpoint(Candidates(i, f, config, cs), "locomotion").value;
      IsSelection(Selected(Candidates(i, f, config, cs), w.sha256), Digest(cs))
  {
    hide S.SelectCheckpoint;
  }

  /** The selected evidence is one of the retained checkpoints'. */
  lemma WinnerIsCandidate(i: Inputs, f: Foreign, config: Config, cs: seq<Checkpoint>, kind: string)
    requires i.selectionPer > 0 && S.SelectCheckpoint(Candidates(i, f, config, cs), kind).Ok?
    ensures var w := S.SelectCheckpoint(Candidates(i, f, config, cs), kind).value;
      w.sha256 in Digest(cs) && exists c :: c in cs && c.step == w.step && c.sha256 == w.sha256
  {
    var values := Candidates(i, f, config, cs);
    S.SelectMeans(values, kind);
    var k := S.FirstMax(S.Keys(values, kind).value);
    assert cs[k] in cs && Digest(cs)[k] == cs[k].sha256;
  }

  // ----- the final evaluation and the commitment

  /** evaluate_final_checkpoint: one checkpoint, on the reserved seeds. */
  method EvaluateFinal(i: Inputs, f: Foreign, config: Config, c: Checkpoint, storage: Storage)
    returns (r: Result<S.Evidence, CurriculumError>)
    modifies storage`log
    ensures storage.log == if S.SeedRolesValid(i.selection, i.final) && i.finalPer > 0
      then old(storage.log) + [EvaluatedFinal(c.sha256, FinalSchedule(i))] else old(storage.log)
    ensures r.Ok? <==> (
      && S.SeedRolesValid(i.selection, i.final) && i.finalPer > 0 && c.environment == config.environment
      && S.OnlySeeds(f.evaluate(config, c, FinalSchedule(i)), i.final))
    ensures r.Ok? ==> r.value == S.Evidence(0, c.step, c.sha256, S.Final, f.evaluate(config, c, FinalSchedule(i)))
    ensures r.Err? ==> r.error.Evaluation? || r.error == CheckpointMismatch
  {
    if !S.SeedRolesValid(i.selection, i.final) {
      return Err(Evaluation(S.SeedRoles));
    }
    if i.finalPer <= 0 {
      return Err(Evaluation(S.EpisodeCount));
    }
    storage.log := storage.log + [EvaluatedFinal(c.sha256, FinalSchedule(i))];
    var episodes := f.evaluate(config, c, FinalSchedule(i));
    if !S.OnlySeeds(episodes, i.final) {
      return Err(Evaluation(S.UndeclaredSeed));
    }
    if c.environment != config.environment {
      return Err(CheckpointMismatch);
    }
    return Ok(S.Evidence(0, c.step, c.sha256, S.Final, episodes));
  }

  datatype Verdict = Accepted | Rejected | NeedsHuman

  function VerdictOf(hard: map<string, bool>, preferred: map<string, bool>): Verdict {
    if !Passed(hard) then Rejected else if Passed(preferred) then Accepted else NeedsHuman
  }

  predicate Passed(results: map<string, bool>) {
    forall name :: name in results ==> results[name]
  }

  datatype Outcome =
    | FlatGateFailed(lineage: Lineage)
    | Finished(verdict: Verdict, hardResults: map<string, bool>, preferredResults: map<string, bool>, lineage: Lineage)

  /** What a finished run measured, against the ceiling. */
  ghost predicate UnderCeiling(lineage: Lineage) {
    && lineage.Both?
    && lineage.provenance.total == lineage.flat.trained + lineage.rough.trained <= TOTAL_STEPS
    && lineage.flat.requested + lineage.rough.requested <= TOTAL_STEPS
  }

  predicate DistinctCriteria(criteria: seq<(string, real)>) {
    forall i, j :: 0 <= i < j < |criteria| ==> criteria[i].0 != criteria[j].0
  }

  predicate CriteriaKnown(criteria: seq<(string, real)>) {
    forall k :: 0 <= k < |criteria| ==> criteria[k].0 == S.DESIGN_FIELD || S.KnownCriterion(criteria[k].0)
  }

  /** Each criterion that measures anything has the result its target gives. */
  ghost predicate ResultsOf(criteria: seq<(string, real)>, a: S.Aggregate, count: nat, results: map<string, bool>) {
    && (forall k :: 0 <= k < |criteria| && criteria[k].0 != S.DESIGN_FIELD ==>
          criteria[k].0 in results && results[criteria[k].0] == S.Meets(a, count, criteria[k].0, criteria[k].1))
    && (forall name :: name in results ==>
          name != S.DESIGN_FIELD && exists k :: 0 <= k < |criteria| && criteria[k].0 == name)
    && CriteriaKnown(criteria)
  }

  /** The evidence the verdict rests on: the winner, on the reserved seeds. */
  function FinalEvidence(i: Inputs, f: Foreign, c: Crossing, x: RoughResult): S.Evidence
    requires i.finalPer > 0 && ByDigest(x.trained.retained, x.winner.sha256).Some?
  {
    var w := ByDigest(x.trained.retained, x.winner.sha256).value;
    S.Evidence(0, w.step, w.sha256, S.Final, f.evaluate(RoughConfig(i, c.requested), w, FinalSchedule(i)))
  }

  datatype Judged = Judged(hard: map<string, bool>, preferred: map<string, bool>)

  ghost predicate JudgedBy(i: Inputs, f: Foreign, c: Crossing, x: RoughResult, j: Judged) {
    && i.finalPer > 0 && ByDigest(x.trained.retained, x.winner.sha256).Some?
    && var e := FinalEvidence(i, f, c, x);
      S.OnlySeeds(e.episodes, i.final) && S.Aggregated(e).Ok? && ResultsOf(i.hard, S.Aggregated(e).value, |e.episodes|, j.hard)
      && ResultsOf(i.preferred, S.Aggregated(e).value, |e.episodes|, j.preferred)
  }

  /** Every criterion that is not a design field holds of the episodes. */
  ghost predicate AllSatisfied(criteria: seq<(string, real)>, s: seq<S.Episode>) {
    forall k :: 0 <= k < |criteria| && criteria[k].0 != "assumed_reliability" ==>
      S.Satisfies(s, criteria[k].0, criteria[k].1)
  }

  /** Rejected for a hard criterion missed, accepted with none missed, left to a human for a preferred one. */
  ghost predicate VerdictFits(i: Inputs, s: seq<S.Episode>, v: Verdict) {
    var hard, preferred := AllSatisfied(i.hard, s), AllSatisfied(i.preferred, s);
    && (v == Rejected <==> !hard)
    && (v == Accepted <==> hard && preferred)
    && (v == NeedsHuman <==> hard && !preferred)
  }

  lemma PassedMeans(criteria: seq<(string, real)>, e: S.Evidence, results: map<string, bool>)
    requires S.Aggregated(e).Ok? && ResultsOf(criteria, S.Aggregated(e).value, |e.episodes|, results)
    ensures Passed(results) <==> AllSatisfied(criteria, e.episodes)
  {
    hide S.Aggregated, S.Meets, S.Satisfies, CriteriaKnown;
    forall k | 0 <= k < |criteria|
      ensures S.Meets(S.Aggregated(e).value, |e.episodes|, criteria[k].0, criteria[k].1)
        <==> S.Satisfies(e.episodes, criteria[k].0, criteria[k].1)
    {
      S.MeetsMeans(e, criteria[k].0, criteria[k].1);
    }
    if AllSatisfied(criteria, e.episodes) {
      forall name | name in results ensures results[name] {
        var k :| 0 <= k < |criteria| && criteria[k].0 == name;
        assert S.Satisfies(e.episodes, criteria[k].0, criteria[k].1);
      }
    } else {
      var k :| 0 <= k < |criteria| && criteria[k].0 != S.DESIGN_FIELD
        && !S.Satisfies(e.episodes, criteria[k].0, criteria[k].1);
      assert !results[criteria[k].0];
    }
  }

  lemma VerdictMeans(i: Inputs, f: Foreign, c: Crossing, x: RoughResult, j: Judged)
    requires JudgedBy(i, f, c, x, j)
    ensures VerdictFits(i, FinalEvidence(i, f, c, x).episodes, VerdictOf(j.hard, j.preferred))
  {
    hide S.Aggregated, ResultsOf, Passed, AllSatisfied, S.OnlySeeds, ByDigest;
    PassedMeans(i.hard, FinalEvidence(i, f, c, x), j.hard);
    PassedMeans(i.preferred, FinalEvidence(i, f, c, x), j.preferred);
  }

  /** The provenance chain accepts every flat and rough phase that got this far, under the ceiling. */
  lemma ProvenanceAccepted(i: Inputs, f: Foreign, flat: FlatResult, c: Crossing, x: RoughResult)
    requires FlatPhaseOf(i, f, flat) && CrossingOf(i, flat, c) && RoughPhaseOf(i, f, c, x)
    ensures ProvenanceOf(i, flat, c, x).Ok?
    ensures UnderCeiling(InputOf(i, flat, c, x, ProvenanceOf(i, flat, c, x).value).lineage)
  {
    hide S.SelectCheckpoint, S.ExplainRanking, S.SeedRolesValid, Candidates, ByDigest, BuildTransition;
    FlatEvidenceIs(i, f, flat);
  }

  /** Hold the final evidence against the hard and the preferred criteria. */
  method Accept(i: Inputs, e: S.Evidence) returns (r: Result<(map<string, bool>, map<string, bool>), CurriculumError>)
    requires DistinctCriteria(i.hard) && DistinctCriteria(i.preferred)
    ensures r.Ok? <==> S.Aggregated(e).Ok? && CriteriaKnown(i.hard) && CriteriaKnown(i.preferred)
    ensures r.Ok? ==> ResultsOf(i.hard, S.Aggregated(e).value, |e.episodes|, r.value.0)
    ensures r.Ok? ==> ResultsOf(i.preferred, S.Aggregated(e).value, |e.episodes|, r.value.1)
    ensures r.Err? ==> r.error.Evaluation?
  {
    hide S.Meets, S.KnownCriterion, S.Aggregated;
    var aggregate := S.Aggregated(e);
    if aggregate.Err? {
      return Err(Evaluation(aggregate.error));
    }
    var hard := S.AcceptanceFromAggregate(aggregate.value, |e.episodes|, i.hard);
    if hard.Err? {
      return Err(Evaluation(hard.error));
    }
    var preferred := S.AcceptanceFromAggregate(aggregate.value, |e.episodes|, i.preferred);
    if preferred.Err? {
      return Err(Evaluation(preferred.error));
    }
    return Ok((hard.value, preferred.value));
  }

  /** The one final evaluation and what it is held against. */
  method Judge(i: Inputs, f: Foreign, storage: Storage, c: Crossing, x: RoughResult, lives: nat, ghost start: seq<Event>)
    returns (r: Result<Judged, CurriculumError>)
    requires ByDigest(x.trained.retained, x.winner.sha256).Some? && S.SeedRolesValid(i.selection, i.final)
    requires ByDigest(x.trained.retained, x.winner.sha256).value.environment == i.rough.environment
    requires DistinctCriteria(i.hard) && DistinctCriteria(i.preferred)
    requires Script(i, start, storage.log) && |storage.log| == |start| + 6
    requires storage.log[|start| + 5] == Selected(x.candidates, x.winner.sha256)
    modifies storage`log
    ensures Script(i, start, storage.log) && |start| + 6 <= |storage.log| <= |start| + 7
    ensures r.Ok? ==> |storage.log| == |start| + 7
    ensures storage.log[|start| + 5] == Selected(x.candidates, x.winner.sha256)
    ensures r.Ok? ==> JudgedBy(i, f, c, x, r.value)
    ensures r.Err? ==> !TrainerCheck(r.error)
    ensures lives >= 7 && r.Err? ==> !exists j :: JudgedBy(i, f, c, x, j)
  {
    hide Script, ByDigest, S.SeedRolesValid, S.Aggregated, S.OnlySeeds, FinalSchedule, DistinctCriteria, CriteriaKnown;
    var selected := ByDigest(x.trained.retained, x.winner.sha256).value;
    if lives <= 6 {
      return Err(Crashed);
    }
    ghost var before := storage.log;
    var final := EvaluateFinal(i, f, RoughConfig(i, c.requested), selected, storage);
    if storage.log != before {
      ScriptGoesOn(i, start, before, EvaluatedFinal(selected.sha256, FinalSchedule(i)));
    }
    if final.Err? {
      return Err(final.error);
    }
    var results := Accept(i, final.value);
    if results.Err? {
      return Err(results.error);
    }
    assert final.value == FinalEvidence(i, f, c, x);
    return Ok(Judged(results.value.0, results.value.1));
  }

  datatype Commitment = Commitment(input: FinalizationInput, steps: nat)

  /** The finalization input is stored, locally at least, and the object store holds no other. */
  ghost predicate Committed(i: Inputs, f: Foreign, local: Records, before: Records, remote: Records, c: Commitment) {
    && Commits(i, f, c.input, c.steps)
    && local.finalization == Some(c.input) && local.transition == Some(c.input.transition)
    && remote.transition == Some(c.input.transition)
    && (remote.finalization == before.finalization || remote.finalization == Some(c.input))
  }

  /** The event of a run finalizing what it committed to. */
  ghost function FinalizedBy(i: Inputs, c: Commitment): Event {
    Finalized(CallOf(i, c.input, c.steps), FinalizerSchedule(i), false)
  }

  /** Make the lineage and the finalization input durable, then finalize. */
  method Conclude(i: Inputs, f: Foreign, storage: Storage, flat: FlatResult, c: Crossing, x: RoughResult, j: Judged,
                  lives: nat, ghost start: seq<Event>)
    returns (r: Result<Outcome, CurriculumError>, committed: Option<Commitment>)
    requires FlatPhaseOf(i, f, flat) && CrossingOf(i, flat, c) && RoughPhaseOf(i, f, c, x)
    requires JudgedBy(i, f, c, x, j)
    requires Script(i, start, storage.log) && |storage.log| == |start| + 7
    requires storage.log[|start| + 5] == Selected(x.candidates, x.winner.sha256)
    requires storage.local.transition == storage.remote.transition == Some(c.transition)
    modifies storage`local, storage`remote, storage`log
    ensures Script(i, start, storage.log)
    ensures committed == None ==> storage.local.finalization == old(storage.local.finalization)
    ensures committed == None ==> storage.remote.finalization == old(storage.remote.finalization)
    ensures committed == None ==> storage.log == old(storage.log)
    ensures committed.Some? ==> Committed(i, f, storage.local, old(storage.remote), storage.remote, committed.value)
    ensures committed.Some? ==> ProvenanceOf(i, flat, c, x).Ok?
    ensures committed.Some? ==> committed.value.input == InputOf(i, flat, c, x, ProvenanceOf(i, flat, c, x).value)
    ensures storage.log == old(storage.log) || (
      && committed.Some? && storage.remote.finalization == Some(committed.value.input)
      && storage.log == old(storage.log) + [FinalizedBy(i, committed.value)])
    ensures committed.Some? && storage.remote.finalization != Some(committed.value.input) ==>
      r == Err(AlreadyDifferent) || r == Err(Crashed)
    ensures lives <= 10 ==> storage.remote.finalization == old(storage.remote.finalization)
    ensures Preserves(old(storage.local), storage.local) && Preserves(old(storage.remote), storage.remote)
    ensures r.Ok? ==> storage.log != old(storage.log) && committed.Some?
    ensures r.Ok? ==>
      && r.value.Finished? && r.value.hardResults == j.hard && r.value.preferredResults == j.preferred
      && r.value.lineage == committed.value.input.lineage
      && VerdictFits(i, FinalEvidence(i, f, c, x).episodes, r.value.verdict)
    ensures r.Err? ==> !TrainerCheck(r.error)
    ensures lives > 9 && old(storage.local.finalization) == None ==> committed.Some?
    ensures lives > 11 && old(storage.local.finalization) == old(storage.remote.finalization) == None ==>
      |storage.log| == |start| + 8 && (r.Ok? <==> f.finalize(CallOf(i, committed.value.input, committed.value.steps)))
  {
    hide FlatPhaseOf, RoughPhaseOf, JudgedBy, CrossingOf, ProvenanceOf, FinalizeOverrides, FinalizerSchedule, Passed, Script;
    hide VerdictFits, VerdictOf, FinalEvidence;
    VerdictMeans(i, f, c, x, j);
    ProvenanceAccepted(i, f, flat, c, x);
    committed := None;
    var provenance := ProvenanceOf(i, flat, c, x);
    if provenance.Err? {
      return Err(ProvenanceRejected), None;
    }
    var input := InputOf(i, flat, c, x, provenance.value);
    if lives <= 7 {
      return Err(Crashed), None;
    }
    storage.local := storage.local.(lineage := Some(input.lineage));
    if lives == 8 {
      return Err(Crashed), None;
    }
    storage.remote := storage.remote.(lineage := Some(input.lineage));
    if lives == 9 {
      return Err(Crashed), None;
    }
    if !Accepts(storage.local.finalization, input) {
      return Err(AlreadyDifferent), None;
    }
    storage.local := storage.local.(finalization := Some(input));
    committed := Some(Commitment(input, c.requested));
    assert CommitsTo(i, flat, c, x, input, c.requested) && Commits(i, f, input, c.requested);
    if lives == 10 {
      return Err(Crashed), committed;
    }
    if !Accepts(storage.remote.finalization, input) {
      return Err(AlreadyDifferent), committed;
    }
    storage.remote := storage.remote.(finalization := Some(input));
    if lives == 11 {
      return Err(Crashed), committed;
    }
    var call := FinalizeCall(RoughRun(i), FinalizeOverrides(i.overrides, c.requested), i.gallery, x.winner.sha256,
                             i.digests.matrix, input.lineage, i.selection, i.final, x.ranking, i.hard, i.preferred);
    ScriptGoesOn(i, start, storage.log, Finalized(call, FinalizerSchedule(i), false));
    storage.log := storage.log + [Finalized(call, FinalizerSchedule(i), false)];
    if !f.finalize(call) {
      return Err(FinalizerFailed), committed;
    }
    return Ok(Finished(VerdictOf(j.hard, j.preferred), j.hard, j.preferred, input.lineage)), committed;
  }

  lemma FlatEvidenceIs(i: Inputs, f: Foreign, x: FlatResult)
    requires FlatPhaseOf(i, f, x)
    ensures x.evidence.step == x.trained.final.step == FLAT_EFFECTIVE_STEPS
    ensures x.evidence.sha256 == x.trained.final.sha256
    ensures f.train(FlatConfig(i), None) == Some(x.trained) && x.trained.final.environment == FLAT_ENVIRONMENT
  {
    assert [x.evidence][0] == Candidates(i, f, FlatConfig(i), [x.trained.final])[0];
    assert [x.trained.final][0].environment == FlatConfig(i).environment;
  }

  // ----- what is asked of the evaluators

  /** Every declared seed, so many times one after another, in the order declared. */
  predicate Repeats(schedule: seq<int>, declared: seq<int>, times: nat) {
    && |schedule| == |declared| * times
    && forall a, r :: 0 <= a < |declared| && 0 <= r < times ==>
         Place(a, times, r) < |schedule| && schedule[Place(a, times, r)] == declared[a]
  }

  function Place(a: nat, times: nat, r: nat): nat {
    a * times + r
  }

  lemma ScheduleRepeats(seeds: seq<int>, times: nat)
    ensures Repeats(S.Schedule(seeds, times), seeds, times)
  {
    S.ScheduleLength(seeds, times);
    forall a, r | 0 <= a < |seeds| && 0 <= r < times
      ensures Place(a, times, r) < |S.Schedule(seeds, times)| && S.Schedule(seeds, times)[Place(a, times, r)] == seeds[a]
    {
      S.ScheduleAt(seeds, times, a, r);
    }
  }

  /** Selection seeds for the candidates, reserved seeds for the winner, and the config's own for the finalizer. */
  lemma SchedulesMean(i: Inputs)
    ensures i.selectionPer > 0 ==> Repeats(SelectionSchedule(i), i.selection, i.selectionPer)
    ensures i.finalPer > 0 ==> Repeats(FinalSchedule(i), i.final, i.finalPer)
    ensures var own, n := i.rough.evaluationSeeds, i.rough.evaluationEpisodes;
      |FinalizerSchedule(i)| == (if own == [] then 0 else n)
      && forall k :: 0 <= k < |FinalizerSchedule(i)| ==> FinalizerSchedule(i)[k] == own[k % |own|]
  {
    if i.selectionPer > 0 { ScheduleRepeats(i.selection, i.selectionPer); }
    if i.finalPer > 0 { ScheduleRepeats(i.final, i.finalPer); }
  }

  /** Training is asked for the reviewed flat boundary and for the rough request, and nothing else of a config changes. */
  lemma ConfigsMean(i: Inputs, steps: int)
    ensures FlatConfig(i).totalSteps == 199_229_440 && FlatConfig(i).(totalSteps := i.flat.totalSteps) == i.flat
    ensures RoughConfig(i, steps).totalSteps == steps && RoughConfig(i, steps).(totalSteps := i.rough.totalSteps) == i.rough
  {
  }

  // ----- what a commitment says

  /** One flat checkpoint runs through every record: the parent, the lineage, and the chain. */
  predicate NamesParent(input: FinalizationInput, digest: string) {
    && input.transition.parent.sha256 == digest && input.lineage.Both?
    && input.lineage.flat.checkpointSha == digest && input.lineage.rough.inputDigest == digest
    && input.lineage.provenance.flatCheckpoint == digest && input.lineage.transition == input.transition
  }

  /** And one rough checkpoint: the one handed to the finalizer is the one explained and accounted for. */
  predicate NamesWinner(input: FinalizationInput, digest: string) {
    && input.selectedDigest == digest && input.ranking.selected.sha256 == digest && input.lineage.Both?
    && input.lineage.rough.selectedDigest == digest && input.lineage.provenance.roughCheckpoint == digest
    && input.lineage.rough.selectedStep == input.ranking.selected.step
  }

  /** The steps of a commitment: the reviewed flat boundary, the rough request, and their measured total. */
  predicate AccountsFor(input: FinalizationInput, steps: int) {
    && input.lineage.Both?
    && input.lineage.flat.requested == input.lineage.flat.trained == input.lineage.flat.checkpointStep == 199_229_440
    && input.lineage.rough.budget == 450_000_000 - 199_229_440 && input.lineage.rough.requested == steps
    && input.lineage.rough.selectedStep <= input.lineage.rough.trained <= input.lineage.rough.budget
    && input.lineage.provenance.total == 199_229_440 + input.lineage.rough.trained
    && input.lineage.provenance.requested == steps && input.lineage.provenance.roughEffective == input.lineage.rough.trained
    && input.lineage.provenance.budget == input.lineage.rough.budget
    && input.transition.budget == StepBudget(199_229_440, 450_000_000 - 199_229_440, steps)
  }

  /** A commitment is one story: its run, its two checkpoints, its steps, and the reviewed inputs as they came. */
  lemma CommitmentMeans(i: Inputs, f: Foreign, input: FinalizationInput, steps: nat)
    requires Commits(i, f, input, steps)
    ensures input.schema == 1 && input.roughRun == i.runId + "-rough" && input.transition.targetRun == i.runId + "-rough"
    ensures NamesParent(input, input.transition.parent.sha256) && NamesWinner(input, input.selectedDigest)
    ensures AccountsFor(input, steps)
    ensures input.selection == i.selection && input.final == i.final && input.hard == i.hard && input.preferred == i.preferred
    ensures input.lineage.flat.configDigest == i.digests.flatConfig && input.lineage.rough.configDigest == i.digests.roughConfig
    ensures input.transition.digests == i.digests && input.lineage.flat.gate.passed
    ensures input.transition.restore.loadPath
      == i.runsRoot + "/" + (i.runId + "-rough") + "/resume/" + Stem(input.transition.parent.name)
  {
    hide Stem;
    hide FlatPhaseOf, RoughPhaseOf, JudgedBy, RoughRequest;
    var flat, c, x, j :| FlatPhaseOf(i, f, flat) && CrossingOf(i, flat, c) && RoughPhaseOf(i, f, c, x)
      && JudgedBy(i, f, c, x, j) && CommitsTo(i, flat, c, x, input, steps);
    FlatEvidenceIs(i, f, flat);
    WinnerExplained(i, f, c, x);
  }

  lemma WinnerExplained(i: Inputs, f: Foreign, c: Crossing, x: RoughResult)
    requires RoughPhaseOf(i, f, c, x)
    ensures x.ranking.selected.sha256 == x.winner.sha256 && x.ranking.selected.step == x.winner.step
    ensures x.winner.step <= x.trained.final.step <= ROUGH_BUDGET
  {
    hide S.RankKey, S.Less, S.Sorted, S.IsFirstMax, S.IsRunnerUp;
    var w, r := S.ExplanationMeans(x.candidates, "locomotion", x.winner);
    S.SelectMeans(x.candidates, "locomotion");
    S.FirstMaxIsUnique(S.Keys(x.candidates, "locomotion").value, w, S.FirstMax(S.Keys(x.candidates, "locomotion").value));
  }

  /** The finalizer is called for the rough run, with the request in its overrides, and what the input says. */
  lemma CallMeans(i: Inputs, input: FinalizationInput, steps: int)
    requires OverridesAllowed(i.overrides)
    ensures var call, n := CallOf(i, input, steps), |i.overrides|;
      && call.roughRun == i.runId + "-rough" && call.gallery == i.gallery && call.matrix == i.digests.matrix
      && |call.overrides| == n + 1 && call.overrides[n] == ("training.total_steps", Number(steps))
      && (forall k :: 0 <= k < n ==> call.overrides[k] == (i.overrides[k].0, Text(i.overrides[k].1)))
      && call.selectedDigest == input.selectedDigest && call.lineage == input.lineage && call.ranking == input.ranking
      && call.selection == input.selection && call.final == input.final
      && call.hard == input.hard && call.preferred == input.preferred
  {
    hide OverridesAllowed, FinalizeOverrides;
    AllowedOverridesSurvive(i.overrides, steps);
  }

  // ----- the whole run

  /** The verdict of a finished run, traced to its one evaluation on the reserved seeds. */
  ghost predicate Justified(i: Inputs, f: Foreign, o: Outcome) {
    exists flat, c, x, j ::
      && FlatPhaseOf(i, f, flat) && CrossingOf(i, flat, c) && RoughPhaseOf(i, f, c, x) && JudgedBy(i, f, c, x, j)
      && o.Finished? && o.hardResults == j.hard && o.preferredResults == j.preferred
      && VerdictFits(i, FinalEvidence(i, f, c, x).episodes, o.verdict)
  }

  /** A flat gate that failed: its lineage says so, and that no reserved seed was touched. */
  ghost predicate GateFailure(i: Inputs, f: Foreign, o: Outcome) {
    exists flat ::
      FlatPhaseOf(i, f, flat) && !flat.gate.passed
      && o == FlatGateFailed(FlatOnly(FlatLineageOf(i, flat), i.selection, i.final, []))
  }

  /** A failed gate ends the run with its lineage on record, and nothing else done. */
  method RecordGateFailure(i: Inputs, f: Foreign, storage: Storage, flat: FlatResult, lives: nat)
    returns (r: Result<Outcome, CurriculumError>)
    requires FlatPhaseOf(i, f, flat) && !flat.gate.passed
    modifies storage`local, storage`remote
    ensures Preserves(old(storage.local), storage.local) && Preserves(old(storage.remote), storage.remote)
    ensures storage.local.finalization == old(storage.local.finalization)
    ensures storage.remote.finalization == old(storage.remote.finalization)
    ensures r.Ok? ==> r.value.FlatGateFailed? && GateFailure(i, f, r.value)
    ensures r.Ok? ==> storage.local.flatLineage == storage.remote.flatLineage == Some(r.value.lineage)
    ensures r.Err? ==> !TrainerCheck(r.error)
    ensures lives > 3 && old(storage.local.flatLineage) == old(storage.remote.flatLineage) == None ==> r.Ok?
  {
    hide FlatPhaseOf;
    var lineage := FlatOnly(FlatLineageOf(i, flat), i.selection, i.final, []);
    if lives <= 2 {
      return Err(Crashed);
    }
    if !Accepts(storage.local.flatLineage, lineage) {
      return Err(AlreadyDifferent);
    }
    storage.local := storage.local.(flatLineage := Some(lineage));
    if lives == 3 {
      return Err(Crashed);
    }
    if !Accepts(storage.remote.flatLineage, lineage) {
      return Err(AlreadyDifferent);
    }
    storage.remote := storage.remote.(flatLineage := Some(lineage));
    return Ok(FlatGateFailed(lineage));
  }

  /** Training and evaluation go well enough for a run to commit; Commits says to what. */
  ghost predicate Completes(i: Inputs, f: Foreign) {
    exists flat :: FlatPhaseOf(i, f, flat) && flat.gate.passed && CompletesFlat(i, f, flat)
  }

  /** The flat phase reaches its boundary, and its gate fails. */
  ghost predicate GateFails(i: Inputs, f: Foreign) {
    exists flat :: FlatPhaseOf(i, f, flat) && !flat.gate.passed
  }

  ghost predicate CompletesFlat(i: Inputs, f: Foreign, flat: FlatResult) {
    exists c :: CrossingOf(i, flat, c) && CompletesCrossing(i, f, flat, c)
  }

  ghost predicate CompletesCrossing(i: Inputs, f: Foreign, flat: FlatResult, c: Crossing) {
    exists x :: RoughPhaseOf(i, f, c, x) && CompletesRough(i, f, flat, c, x)
  }

  ghost predicate CompletesRough(i: Inputs, f: Foreign, flat: FlatResult, c: Crossing, x: RoughResult) {
    ProvenanceOf(i, flat, c, x).Ok? && exists j :: JudgedBy(i, f, c, x, j)
  }

  lemma NoFlatPhase(i: Inputs, f: Foreign)
    ensures (!exists flat :: FlatPhaseOf(i, f, flat)) ==> !Completes(i, f) && !GateFails(i, f)
  {
  }

  lemma NoCrossing(i: Inputs, f: Foreign, flat: FlatResult)
    ensures (!exists c :: CrossingOf(i, flat, c)) ==> !CompletesFlat(i, f, flat)
  {
  }

  lemma NoRoughPhase(i: Inputs, f: Foreign, flat: FlatResult, c: Crossing)
    ensures (!exists x :: RoughPhaseOf(i, f, c, x)) ==> !CompletesCrossing(i, f, flat, c)
  {
  }

  lemma CompletesAtFlat(i: Inputs, f: Foreign, flat: FlatResult)
    requires FlatPhaseOf(i, f, flat)
    ensures Completes(i, f) <==> flat.gate.passed && CompletesFlat(i, f, flat)
    ensures GateFails(i, f) <==> !flat.gate.passed
  {
    hide FlatPhaseOf, CompletesFlat;
    forall y | FlatPhaseOf(i, f, y) ensures y == flat { FlatPhaseIsUnique(i, f, flat, y); }
  }

  lemma CompletesAtCrossing(i: Inputs, f: Foreign, flat: FlatResult, c: Crossing)
    requires CrossingOf(i, flat, c)
    ensures CompletesFlat(i, f, flat) <==> CompletesCrossing(i, f, flat, c)
  {
    hide CrossingOf, CompletesCrossing;
    forall d | CrossingOf(i, flat, d) ensures d == c { CrossingIsUnique(i, flat, c, d); }
  }

  lemma CompletesAtRough(i: Inputs, f: Foreign, flat: FlatResult, c: Crossing, x: RoughResult)
    requires RoughPhaseOf(i, f, c, x)
    ensures CompletesCrossing(i, f, flat, c) <==> CompletesRough(i, f, flat, c, x)
  {
    hide RoughPhaseOf, CompletesRough;
    forall y | RoughPhaseOf(i, f, c, y) ensures y == x { RoughPhaseIsUnique(i, f, c, x, y); }
  }

  lemma CommitsCompletes(i: Inputs, f: Foreign, input: FinalizationInput, steps: nat)
    requires Commits(i, f, input, steps)
    ensures Completes(i, f)
  {
    hide FlatPhaseOf, CrossingOf, RoughPhaseOf, JudgedBy, ProvenanceOf, InputOf;
    var flat, c, x, j :| FlatPhaseOf(i, f, flat) && CrossingOf(i, flat, c) && RoughPhaseOf(i, f, c, x)
      && JudgedBy(i, f, c, x, j) && CommitsTo(i, flat, c, x, input, steps);
    assert CompletesRough(i, f, flat, c, x);
    assert CompletesCrossing(i, f, flat, c);
    assert CompletesFlat(i, f, flat);
    assert flat.gate.passed by { CrossingPassed(i, flat, c); }
  }

  lemma CrossingPassed(i: Inputs, x: FlatResult, c: Crossing)
    requires CrossingOf(i, x, c)
    ensures x.gate.passed && c.parent.sha256 == x.evidence.sha256 && 0 < c.requested <= ROUGH_BUDGET
  {
  }

  lemma NothingDone(i: Inputs, records: Records, start: seq<Event>)
    ensures Script(i, start, start) && Preserves(records, records) && !TrainerCheck(OverrideForbidden)
    ensures forall log, r :: |log| < |start| + 8 ==> FinalizedAs(i, start, log, r, None)
  {
  }

  lemma UnhinderedMeans(i: Inputs, f: Foreign, local: Records, remote: Records)
    ensures Unhindered(i, f, local, remote) ==>
      OverridesAllowed(i.overrides) && Undisturbed(i, f, local) && Undisturbed(i, f, remote)
  {
  }

  /** From a passed flat gate to the end. */
  method RunRough(i: Inputs, f: Foreign, storage: Storage, flat: FlatResult, lives: nat, ghost start: seq<Event>)
    returns (r: Result<Outcome, CurriculumError>, committed: Option<Commitment>)
    requires FlatPhaseOf(i, f, flat) && flat.gate.passed && storage.flat == flat.trained.retained
    requires StepsSettle(i.rough, ROUGH_BUDGET) && OverridesAllowed(i.overrides)
    requires DistinctCriteria(i.hard) && DistinctCriteria(i.preferred)
    requires Script(i, start, storage.log) && |storage.log| == |start| + 3
    requires storage.log[|start| + 2] == GateJudged(flat.evidence.sha256, true)
    modifies storage
    ensures Script(i, start, storage.log)
    ensures Preserves(old(storage.local), storage.local) && Preserves(old(storage.remote), storage.remote)
    ensures r.Ok? ==> r.value.Finished? && Justified(i, f, r.value) && UnderCeiling(r.value.lineage)
    ensures |storage.log| <= |start| + 8 && (r.Ok? ==> |storage.log| == |start| + 8)
    ensures committed.Some? ==> UnderCeiling(committed.value.input.lineage)
    ensures committed.Some? ==> SelectedIn(storage.log, committed.value.input.selectedDigest)
    ensures committed.Some? ==> Committed(i, f, storage.local, old(storage.remote), storage.remote, committed.value)
    ensures committed.Some? && TrainsIntoDirectories(f) ==>
      RecoveryReady(i, storage.flat, storage.rough, committed.value.input)
    ensures committed == None ==> storage.local.finalization == old(storage.local.finalization)
    ensures committed == None ==> storage.remote.finalization == old(storage.remote.finalization)
    ensures FinalizedAs(i, start, storage.log, storage.remote, committed)
    ensures committed.Some? && storage.remote.finalization != Some(committed.value.input) ==>
      r == Err(AlreadyDifferent) || r == Err(Crashed)
    ensures lives <= 10 ==> storage.remote.finalization == old(storage.remote.finalization)
    ensures WithinRequest(f) && r.Err? ==> !TrainerCheck(r.error)
    ensures lives > 9 && Undisturbed(i, f, old(storage.local)) && Undisturbed(i, f, old(storage.remote)) ==>
      (committed.Some? <==> CompletesFlat(i, f, flat))
    ensures committed.Some? ==> |storage.log| >= |start| + 7
    ensures lives > 11 && Undisturbed(i, f, old(storage.local)) && Undisturbed(i, f, old(storage.remote)) ==>
      (committed.Some? ==> |storage.log| == |start| + 8)
      && (r.Ok? <==> committed.Some? && f.finalize(CallOf(i, committed.value.input, committed.value.steps)))
  {
    hide Script, OverridesAllowed, VerdictFits, FinalEvidence, CompletesFlat, CompletesCrossing, ByDigest, TrainerCheck, SelectedIn;
    hide FlatPhaseOf, RoughPhaseOf, JudgedBy, ProvenanceOf, CallOf, InputOf, CrossingOf, Intervals, S.SeedRolesValid;
    hide StepsSettle, UnderCeiling, RecoveryReady, Commits, WithinRequest, TrainsIntoDirectories, DistinctCriteria;
    committed := None;
    var crossing := CrossOver(i, f, storage, flat, lives);
    if crossing.Err? {
      NoCrossing(i, f, flat);
      return Err(crossing.error), None;
    }
    CompletesAtCrossing(i, f, flat, crossing.value);
    CrossingPassed(i, flat, crossing.value);
    var rough := RoughPhase(i, f, storage, crossing.value, lives, start);
    if rough.Err? {
      NoRoughPhase(i, f, flat, crossing.value);
      return Err(rough.error), None;
    }
    CompletesAtRough(i, f, flat, crossing.value, rough.value);
    RoughResolves(i, f, crossing.value, rough.value);
    var judged := Judge(i, f, storage, crossing.value, rough.value, lives, start);
    if judged.Err? {
      return Err(judged.error), None;
    }
    r, committed := Conclude(i, f, storage, flat, crossing.value, rough.value, judged.value, lives, start);
    ProvenanceAccepted(i, f, flat, crossing.value, rough.value);
    if committed.Some? {
      SelectedAt(storage.log, |start| + 5);
      InputSelects(i, flat, crossing.value, rough.value);
    }
    if committed.Some? && TrainsIntoDirectories(f) {
      LeavesReady(i, f, flat, crossing.value, rough.value, committed.value.input);
    }
  }

  /** Some run selected a checkpoint with this digest. */
  ghost predicate SelectedIn(log: seq<Event>, digest: string) {
    exists k :: 0 <= k < |log| && log[k].Selected? && log[k].digest == digest
  }

  lemma SelectedAt(log: seq<Event>, k: nat)
    requires k < |log| && log[k].Selected?
    ensures SelectedIn(log, log[k].digest)
  {
  }

  lemma InputSelects(i: Inputs, flat: FlatResult, c: Crossing, x: RoughResult)
    ensures ProvenanceOf(i, flat, c, x).Ok? ==>
      InputOf(i, flat, c, x, ProvenanceOf(i, flat, c, x).value).selectedDigest == x.winner.sha256
  {
  }

  /** The last of eight events is the committed finalizer call, its input in the object store. */
  ghost predicate FinalizedAs(i: Inputs, start: seq<Event>, log: seq<Event>, remote: Records, committed: Option<Commitment>) {
    |log| == |start| + 8 ==>
      committed.Some? && remote.finalization == Some(committed.value.input) && log[|start| + 7] == FinalizedBy(i, committed.value)
  }

  ghost predicate Unhindered(i: Inputs, f: Foreign, local: Records, remote: Records) {
    OverridesAllowed(i.overrides) && Undisturbed(i, f, local) && Undisturbed(i, f, remote)
  }

  /**
   run_g1_curriculum, up to any crash.  Every contract holds for every trainer, evaluator and
   finalizer.  The last two say which checks a trainer within its request never trips, and
   that an uninterrupted run on a fresh id ends well exactly when its phases can.
   */
  method RunG1Curriculum(i: Inputs, f: Foreign, storage: Storage, lives: nat)
    returns (r: Result<Outcome, CurriculumError>, committed: Option<Commitment>)
    requires StepsSettle(i.flat, FLAT_NOMINAL_STEPS) && StepsSettle(i.rough, ROUGH_BUDGET)
    requires DistinctCriteria(i.hard) && DistinctCriteria(i.preferred)
    modifies storage
    ensures Script(i, old(storage.log), storage.log)
    ensures Preserves(old(storage.local), storage.local) && Preserves(old(storage.remote), storage.remote)
    ensures r.Ok? && r.value.FlatGateFailed? ==> GateFailure(i, f, r.value) && |storage.log| == |old(storage.log)| + 3
    ensures r.Ok? && r.value.FlatGateFailed? ==>
      storage.local.flatLineage == storage.remote.flatLineage == Some(r.value.lineage)
    ensures r.Ok? && r.value.Finished? ==> Justified(i, f, r.value) && UnderCeiling(r.value.lineage)
    ensures r.Ok? && r.value.Finished? ==> |storage.log| == |old(storage.log)| + 8
    ensures |storage.log| <= |old(storage.log)| + 8
    ensures committed.Some? ==> UnderCeiling(committed.value.input.lineage)
    ensures committed.Some? ==> SelectedIn(storage.log, committed.value.input.selectedDigest)
    ensures committed.Some? ==> Committed(i, f, storage.local, old(storage.remote), storage.remote, committed.value)
    ensures committed.Some? && TrainsIntoDirectories(f) ==>
      RecoveryReady(i, storage.flat, storage.rough, committed.value.input)
    ensures committed == None ==> storage.local.finalization == old(storage.local.finalization)
    ensures committed == None ==> storage.remote.finalization == old(storage.remote.finalization)
    ensures FinalizedAs(i, old(storage.log), storage.log, storage.remote, committed)
    ensures committed.Some? && storage.remote.finalization != Some(committed.value.input) ==>
      r == Err(AlreadyDifferent) || r == Err(Crashed)
    ensures lives <= 10 ==> storage.remote.finalization == old(storage.remote.finalization)
    ensures WithinRequest(f) && r.Err? ==> !TrainerCheck(r.error)
    ensures committed.Some? ==> |storage.log| >= |old(storage.log)| + 7
    ensures Unhindered(i, f, old(storage.local), old(storage.remote)) && lives > 9 ==> (committed.Some? <==> Completes(i, f))
    ensures Unhindered(i, f, old(storage.local), old(storage.remote)) && lives > 11 ==>
      (committed.Some? ==> |storage.log| == |old(storage.log)| + 8)
    ensures var noLineage := old(storage.local.flatLineage) == old(storage.remote.flatLineage) == None;
      Unhindered(i, f, old(storage.local), old(storage.remote)) && lives > 11 && noLineage ==>
        (r.Ok? <==>
          GateFails(i, f) || (committed.Some? && f.finalize(CallOf(i, committed.value.input, committed.value.steps))))
  {
    hide *;
    ghost var start := storage.log;
    NothingDone(i, storage.local, start);
    NothingDone(i, storage.remote, start);
    UnhinderedMeans(i, f, storage.local, storage.remote);
    if !OverridesAllowed(i.overrides) {
      return Err(OverrideForbidden), None;
    }
    var flat := FlatPhase(i, f, storage, lives);
    if flat.Err? {
      NoFlatPhase(i, f);
      return Err(flat.error), None;
    }
    CompletesAtFlat(i, f, flat.value);
    if !flat.value.gate.passed {
      r := RecordGateFailure(i, f, storage, flat.value, lives);
      return r, None;
    }
    r, committed := RunRough(i, f, storage, flat.value, lives, start);
  }

  lemma RoughResolves(i: Inputs, f: Foreign, c: Crossing, x: RoughResult)
    requires RoughPhaseOf(i, f, c, x)
    ensures ByDigest(x.trained.retained, x.winner.sha256).Some? && S.SeedRolesValid(i.selection, i.final)
    ensures ByDigest(x.trained.retained, x.winner.sha256).value.environment == i.rough.environment
  {
    var w := ByDigest(x.trained.retained, x.winner.sha256).value;
    var k :| 0 <= k < |x.trained.retained| && x.trained.retained[k] == w;
    assert x.trained.retained[k].environment == RoughConfig(i, c.requested).environment;
  }

  // ----- recovery

  /**
   Everything recovery checks, said of a finalization input and the two checkpoint
   directories: the named parent is there, the transition verifies against it, the input
   belongs to this run, and the selected digest resolves.
   */
  ghost predicate RecoveryReady(i: Inputs, flat: seq<Checkpoint>, rough: seq<Checkpoint>, input: FinalizationInput) {
    var t := input.transition;
    && OverridesAllowed(i.overrides)
    && (exists steps: nat :: RoughRequest(i, steps))
    && ByName(flat, t.parent.name).Some?
    && ParentMatches(i, ByName(flat, t.parent.name).value, t)
    && input.schema == 1 && input.roughRun == RoughRun(i)
    && ByDigest(rough, input.selectedDigest).Some?
  }

  predicate ParentMatches(i: Inputs, p: Checkpoint, t: Transition) {
    && p.environment == i.flat.environment && p.sha256 == t.parent.sha256
    && VerifyTransition(t, p, i.rough.environment, i.digests, RoughRun(i), t.restore.loadPath) == None
  }

  /** A committed run leaves everything recovery needs. */
  lemma LeavesReady(i: Inputs, f: Foreign, flat: FlatResult, c: Crossing, x: RoughResult, input: FinalizationInput)
    requires FlatPhaseOf(i, f, flat) && CrossingOf(i, flat, c) && RoughPhaseOf(i, f, c, x)
    requires TrainsIntoDirectories(f) && OverridesAllowed(i.overrides)
    requires ProvenanceOf(i, flat, c, x).Ok? && input == InputOf(i, flat, c, x, ProvenanceOf(i, flat, c, x).value)
    ensures RecoveryReady(i, flat.trained.retained, x.trained.retained, input)
  {
    hide S.SelectCheckpoint, S.ExplainRanking, S.SeedRolesValid, Candidates, FlatGate, OverridesAllowed, Settles;
    ByNameFinds(flat.trained.retained, c.parent);
    VerifyIffBuilt(c.transition, c.parent, i.rough.environment, i.digests, RoughRun(i), LoadPath(i, c.parent));
  }

  function Either<T>(remote: Option<T>, local: Option<T>): Option<T> {
    if remote.Some? then remote else local
  }

  /** download_tree over the rough run: what the object store holds replaces what the disk holds. */
  function Downloaded(remote: Records, local: Records): Records {
    Records(local.flatLineage, Either(remote.transition, local.transition), Either(remote.lineage, local.lineage),
            Either(remote.finalization, local.finalization))
  }

  /** Of the rough run's records the object store's win, and where it has none the disk's stay. */
  lemma DownloadMeans(remote: Records, local: Records)
    ensures var r := Downloaded(remote, local);
      && r.flatLineage == local.flatLineage
      && r.transition == (if remote.transition == None then local.transition else remote.transition)
      && r.lineage == (if remote.lineage == None then local.lineage else remote.lineage)
      && r.finalization == (if remote.finalization == None then local.finalization else remote.finalization)
  {
  }

  /** Both records are there, they agree, and everything they name checks out. */
  ghost predicate Recoverable(i: Inputs, flat: seq<Checkpoint>, rough: seq<Checkpoint>, records: Records) {
    && records.finalization.Some? && records.transition == Some(records.finalization.value.transition)
    && RecoveryReady(i, flat, rough, records.finalization.value)
  }

  /** The finalizer was called once, with the call the input stands for. */
  ghost predicate FinalizedFrom(i: Inputs, f: Foreign, input: FinalizationInput, before: seq<Event>, after: seq<Event>,
                                r: Result<FinalizeCall, CurriculumError>) {
    exists steps: nat ::
      RoughRequest(i, steps) && after == before + [Finalized(CallOf(i, input, steps), FinalizerSchedule(i), true)]
      && r == if f.finalize(CallOf(i, input, steps)) then Ok(CallOf(i, input, steps)) else Err(FinalizerFailed)
  }

  /** recover_g1_finalization: finalize from the immutable records alone; `Ok` names the call made. */
  method Recover(i: Inputs, f: Foreign, storage: Storage) returns (r: Result<FinalizeCall, CurriculumError>)
    requires StepsSettle(i.rough, ROUGH_BUDGET)
    modifies storage`local, storage`log
    ensures var records := Downloaded(old(storage.remote), old(storage.local));
      if Recoverable(i, storage.flat, storage.rough, records) then
        FinalizedFrom(i, f, records.finalization.value, old(storage.log), storage.log, r)
      else
        r.Err? && storage.log == old(storage.log)
    ensures storage.local == old(storage.local) || storage.local == Downloaded(old(storage.remote), old(storage.local))
  {
    hide RoughRequest, StepsSettle, FinalizeOverrides, ByName, VerifyTransition, ByDigest;
    if !OverridesAllowed(i.overrides) {
      return Err(OverrideForbidden);
    }
    var steps := RoughSteps(i);
    if steps.Err? {
      return Err(steps.error);
    }
    storage.local := Downloaded(storage.remote, storage.local);
    if storage.local.transition == None || storage.local.finalization == None {
      return Err(RecordsAbsent);
    }
    var transition, input := storage.local.transition.value, storage.local.finalization.value;
    var parent := ByName(storage.flat, transition.parent.name);
    if parent == None || parent.value.environment != i.flat.environment || parent.value.sha256 != transition.parent.sha256 {
      return Err(ParentUnavailable);
    }
    var loadPath := transition.restore.loadPath;
    if VerifyTransition(transition, parent.value, i.rough.environment, i.digests, RoughRun(i), loadPath).Some? {
      return Err(TransitionRejected);
    }
    if input.schema != 1 || input.transition != transition || input.roughRun != RoughRun(i) {
      return Err(InputDisagrees);
    }
    if ByDigest(storage.rough, input.selectedDigest) == None {
      return Err(DigestNotUnique);
    }
    var call := FinalizeCall(RoughRun(i), FinalizeOverrides(i.overrides, steps.value), i.gallery, input.selectedDigest,
                             i.digests.matrix, input.lineage, input.selection, input.final, input.ranking,
                             input.hard, input.preferred);
    storage.log := storage.log + [Finalized(call, FinalizerSchedule(i), true)];
    assert call == CallOf(i, input, steps.value) && RoughRequest(i, steps.value);
    return if f.finalize(call) then Ok(call) else Err(FinalizerFailed);
  }

  lemma CommitsRequest(i: Inputs, f: Foreign, input: FinalizationInput, steps: nat)
    requires Commits(i, f, input, steps)
    ensures RoughRequest(i, steps)
  {
  }

  /** A recovery finalizes with the request the run committed to. */
  lemma RecoveredRequest(i: Inputs, f: Foreign, input: FinalizationInput, steps: nat, before: seq<Event>,
                         after: seq<Event>, r: Result<FinalizeCall, CurriculumError>)
    requires FinalizedFrom(i, f, input, before, after, r) && RoughRequest(i, steps)
    ensures after == before + [Finalized(CallOf(i, input, steps), FinalizerSchedule(i), true)]
    ensures r == if f.finalize(CallOf(i, input, steps)) then Ok(CallOf(i, input, steps)) else Err(FinalizerFailed)
  {
    hide ReturnedBy, CallOf;
    var s: nat :| RoughRequest(i, s) && after == before + [Finalized(CallOf(i, input, s), FinalizerSchedule(i), true)]
      && r == if f.finalize(CallOf(i, input, s)) then Ok(CallOf(i, input, s)) else Err(FinalizerFailed);
    ReturnedIsUnique(ROUGH_BUDGET, i.rough.every, i.rough.envs * i.rough.unroll, s, steps);
  }

  lemma FinalizesLast(i: Inputs, start: seq<Event>, log: seq<Event>)
    requires Script(i, start, log)
    ensures |start| <= |log| <= |start| + 8
    ensures forall k :: |start| <= k < |log| && log[k].Finalized? ==> k == |start| + 7
  {
    forall k | |start| <= k < |log| ensures k < |start| + 8 && (log[k].Finalized? ==> k == |start| + 7) {
      assert Next(i, |start|, log[..k], log[k]);
    }
    if |log| > |start| {
      var k := |log| - 1;
      assert Next(i, |start|, log[..k], log[k]);
    }
  }

  /** Every finalization since `start` is this one call. */
  ghost predicate OnlyFinalizes(start: seq<Event>, log: seq<Event>, call: FinalizeCall) {
    forall k :: |start| <= k < |log| && log[k].Finalized? ==> log[k].call == call
  }

  /**
   A run that dies anywhere, its disk lost or kept, and then recovery: once the finalization
   input is in the object store, or still on the disk, recovery passes every check and calls
   the finalizer exactly as the run did or was about to; before that it calls nothing.
   */
  method RunThenRecover(i: Inputs, f: Foreign, storage: Storage, lives: nat, diskLost: bool)
    returns (r: Result<Outcome, CurriculumError>, committed: Option<Commitment>, recovered: Result<FinalizeCall, CurriculumError>)
    requires StepsSettle(i.flat, FLAT_NOMINAL_STEPS) && StepsSettle(i.rough, ROUGH_BUDGET)
    requires DistinctCriteria(i.hard) && DistinctCriteria(i.preferred) && TrainsIntoDirectories(f)
    requires storage.local == storage.remote == NO_RECORDS
    modifies storage
    ensures |storage.log| >= |old(storage.log)|
    ensures committed == None ==> recovered.Err?
    ensures committed == None ==> forall k :: |old(storage.log)| <= k < |storage.log| ==> !storage.log[k].Finalized?
    ensures committed.Some? ==> Commits(i, f, committed.value.input, committed.value.steps)
    ensures committed.Some? ==>
      OnlyFinalizes(old(storage.log), storage.log, CallOf(i, committed.value.input, committed.value.steps))
    ensures committed.Some? && (!diskLost || storage.remote.finalization.Some?) ==>
      var call := CallOf(i, committed.value.input, committed.value.steps);
      |storage.log| > |old(storage.log)| && storage.log[|storage.log| - 1] == Finalized(call, FinalizerSchedule(i), true)
      && recovered == if f.finalize(call) then Ok(call) else Err(FinalizerFailed)
  {
    hide StepsSettle, DistinctCriteria, TrainsIntoDirectories, CallOf, Commits, RecoveryReady, Justified, GateFailure,
      UnderCeiling, RoughRequest, Script, FinalizedFrom;
    ghost var start := storage.log;
    r, committed := RunG1Curriculum(i, f, storage, lives);
    FinalizesLast(i, start, storage.log);
    ghost var before := storage.log;
    if diskLost {
      storage.local := NO_RECORDS;
    }
    ghost var records := Downloaded(storage.remote, storage.local);
    recovered := Recover(i, f, storage);
    if committed.Some? {
      var Commitment(input, steps) := committed.value;
      CommitsRequest(i, f, input, steps);
      if !diskLost || storage.remote.finalization.Some? {
        assert records.finalization == Some(input) && records.transition == Some(input.transition);
        RecoveredRequest(i, f, input, steps, before, storage.log, recovered);
      } else {
        assert records.finalization == None;
      }
    }
  }
}
