/**
 Any number of runs and recoveries over one object store, each with trainers, evaluators and a
 finalizer of its own, on a disk kept or lost, dying at any effect.
 */
module CurriculumHistory {
  import opened Wrappers
  import opened StepQuantum
  import opened CurriculumChecks
  import S = CheckpointSelection
  import opened Curriculum

  /** Some seed of the schedule is reserved. */
  predicate Reserved(i: Inputs, seeds: seq<int>) {
    exists s :: s in seeds && s in i.final
  }

  /** Whatever evaluates a reserved seed is about a digest some earlier selection chose. */
  ghost predicate AfterSelection(i: Inputs, log: seq<Event>, k: nat)
    requires k < |log|
  {
    match log[k]
    case Evaluated(_, seeds) => !Reserved(i, seeds)
    case EvaluatedFinal(digest, _) => SelectedIn(log[..k], digest)
    case Finalized(call, _, _) => SelectedIn(log[..k], call.selectedDigest)
    case _ => true
  }

  /**
   Reserved seeds in one run: the curriculum evaluates them once, the finalizer once more, both
   on the winner and after its selection; a run whose gate failed does neither.
   */
  lemma ReservedSeedsAfterSelection(i: Inputs, start: seq<Event>, log: seq<Event>, k: nat)
    requires Script(i, start, log) && |start| <= k < |log|
    ensures log[k].Evaluated? ==> !Reserved(i, log[k].seeds)
    ensures log[k].EvaluatedFinal? <==> k == |start| + 6
    ensures log[k].Finalized? <==> k == |start| + 7
    ensures k >= |start| + 6 ==> log[|start| + 5].Selected? && log[|start| + 2].GateJudged? && log[|start| + 2].passed
    ensures log[k].EvaluatedFinal? ==> log[k].digest == log[|start| + 5].digest
    ensures log[k].Finalized? ==> log[k].call.selectedDigest == log[|start| + 5].digest
    ensures AfterSelection(i, log, k)
  {
    var at := |start|;
    assert Next(i, at, log[..k], log[k]);
    if k >= at + 3 { assert Next(i, at, log[..at + 3], log[at + 3]); }
    if k >= at + 6 {
      assert Next(i, at, log[..at + 5], log[at + 5]);
      SelectedAt(log[..k], at + 5);
    }
    if log[k].Evaluated? {
      S.ScheduleOnlySeeds(i.selection, i.selectionPer);
    }
  }

  lemma SelectedStays(log: seq<Event>, more: seq<Event>, digest: string)
    requires SelectedIn(log, digest)
    ensures SelectedIn(log + more, digest)
  {
    var k :| 0 <= k < |log| && log[k].Selected? && log[k].digest == digest;
    assert (log + more)[k] == log[k];
  }

  /** The call is the one a finalization input stands for. */
  ghost predicate Carries(i: Inputs, call: FinalizeCall, input: FinalizationInput) {
    exists steps: nat :: RoughRequest(i, steps) && call == CallOf(i, input, steps)
  }

  /** One process: a run or a recovery, with its own trainer, evaluator and finalizer, on an old or a fresh disk. */
  datatype Attempt = Attempt(recover: bool, foreign: Foreign, lives: nat, freshDisk: bool)

  /** A held input names a digest that some run selected. */
  ghost predicate Traced(log: seq<Event>, records: Records) {
    records.finalization.Some? ==> SelectedIn(log, records.finalization.value.selectedDigest)
  }

  /**
   A finalization at `k`: from `stored` on, where the object store's input was written, it
   carries that input; before, it can only be a recovery from a disk's own record.
   */
  ghost predicate FinalizationOk(i: Inputs, log: seq<Event>, remote: Records, stored: Option<nat>, k: nat)
    requires k < |log|
  {
    log[k].Finalized? ==>
      if stored.Some? && stored.value <= k
      then remote.finalization.Some? && Carries(i, log[k].call, remote.finalization.value)
      else log[k].recovered
  }

  /** What every run and recovery so far leaves true of the log and of both sides' records. */
  ghost predicate History(i: Inputs, log: seq<Event>, local: Records, remote: Records, stored: Option<nat>) {
    && (stored.Some? <==> remote.finalization.Some?) && (stored.Some? ==> stored.value <= |log|)
    && (forall k :: 0 <= k < |log| ==> AfterSelection(i, log, k) && FinalizationOk(i, log, remote, stored, k))
    && Traced(log, local) && Traced(log, remote)
  }

  lemma AfterSelectionStays(i: Inputs, log: seq<Event>, more: seq<Event>, k: nat)
    requires k < |log| && AfterSelection(i, log, k)
    ensures AfterSelection(i, log + more, k)
  {
    assert (log + more)[..k] == log[..k];
  }

  /** A recovery adds at most one event, about the input it found. */
  lemma RecoveryKeepsHistory(i: Inputs, f: Foreign, log: seq<Event>, local: Records, remote: Records, stored: Option<nat>,
                             flat: seq<Checkpoint>, rough: seq<Checkpoint>, log': seq<Event>,
                             r: Result<FinalizeCall, CurriculumError>)
    requires History(i, log, local, remote, stored)
    requires var records := Downloaded(remote, local);
      if Recoverable(i, flat, rough, records) then FinalizedFrom(i, f, records.finalization.value, log, log', r) else log' == log
    ensures History(i, log', local, remote, stored) && History(i, log', Downloaded(remote, local), remote, stored)
    ensures |log| <= |log'| && log'[..|log|] == log
  {
    hide SelectedIn, RoughRequest, CallOf, Reserved, RecoveryReady;
    if log' != log {
      var input := Downloaded(remote, local).finalization.value;
      var steps: nat :| RoughRequest(i, steps)
        && log' == log + [Finalized(CallOf(i, input, steps), FinalizerSchedule(i), true)];
      var e := log'[|log|];
      assert e.call.selectedDigest == input.selectedDigest by { CallSelects(i, input, steps); }
      assert Carries(i, e.call, input);
      forall k | 0 <= k < |log'| ensures AfterSelection(i, log', k) && FinalizationOk(i, log', remote, stored, k) {
        if k < |log| { AfterSelectionStays(i, log, [e], k); } else { assert log'[..k] == log; }
      }
      if local.finalization.Some? { SelectedStays(log, [e], local.finalization.value.selectedDigest); }
      if remote.finalization.Some? { SelectedStays(log, [e], remote.finalization.value.selectedDigest); }
    }
  }

  lemma CallSelects(i: Inputs, input: FinalizationInput, steps: int)
    ensures CallOf(i, input, steps).selectedDigest == input.selectedDigest
  {
  }

  /** A run's own events follow its script, and it finalizes only what the object store then holds. */
  lemma RunKeepsHistory(i: Inputs, f: Foreign, start: seq<Event>, log: seq<Event>, before: (Records, Records),
                        after: (Records, Records), stored: Option<nat>, stored': Option<nat>, committed: Option<Commitment>)
    requires History(i, start, before.0, before.1, stored)
    requires Script(i, start, log) && Preserves(before.1, after.1)
    requires committed.Some? ==> Committed(i, f, after.0, before.1, after.1, committed.value)
    requires committed.Some? ==> SelectedIn(log, committed.value.input.selectedDigest)
    requires committed == None ==> after.0.finalization == before.0.finalization
    requires committed == None ==> after.1.finalization == before.1.finalization
    requires FinalizedAs(i, start, log, after.1, committed)
    requires stored' == if stored.None? && after.1.finalization.Some? then Some(|start|) else stored
    ensures History(i, log, after.0, after.1, stored')
    ensures |start| <= |log| && log[..|start|] == start
  {
    hide SelectedIn, RoughRequest, CallOf, Reserved, Script, Commits;
    FinalizesLast(i, start, log);
    assert |start| <= |log| && log[..|start|] == start by { ScriptExtends(i, start, log); }
    var more := log[|start|..];
    assert log == start + more;
    forall k | 0 <= k < |log| ensures AfterSelection(i, log, k) && FinalizationOk(i, log, after.1, stored', k) {
      if k < |start| {
        AfterSelectionStays(i, start, more, k);
        assert FinalizationOk(i, start, before.1, stored, k);
      } else {
        ReservedSeedsAfterSelection(i, start, log, k);
        if log[k].Finalized? {
          CommitsRequest(i, f, committed.value.input, committed.value.steps);
          assert Carries(i, log[k].call, committed.value.input);
        }
      }
    }
    if before.0.finalization.Some? { SelectedStays(start, more, before.0.finalization.value.selectedDigest); }
    if before.1.finalization.Some? { SelectedStays(start, more, before.1.finalization.value.selectedDigest); }
  }

  lemma ScriptExtends(i: Inputs, start: seq<Event>, log: seq<Event>)
    requires Script(i, start, log)
    ensures |start| <= |log| && log[..|start|] == start
  {
  }

  /**
   Any sequence of runs and recoveries, each with parties of its own, dying anywhere.  The input
   that first reaches the object store is final: no later run or recovery finalizes another.
   */
  method Session(i: Inputs, storage: Storage, attempts: seq<Attempt>) returns (ghost stored: Option<nat>)
    requires StepsSettle(i.flat, FLAT_NOMINAL_STEPS) && StepsSettle(i.rough, ROUGH_BUDGET)
    requires DistinctCriteria(i.hard) && DistinctCriteria(i.preferred)
    requires storage.local == storage.remote == NO_RECORDS && storage.log == []
    modifies storage
    ensures History(i, storage.log, storage.local, storage.remote, stored)
  {
    hide StepsSettle, DistinctCriteria;
    stored := None;
    for n := 0 to |attempts|
      invariant History(i, storage.log, storage.local, storage.remote, stored)
    {
      stored := TakeTurn(i, storage, attempts[n], stored);
    }
  }

  /** One process over the object store; an input it finds there it cannot replace. */
  method TakeTurn(i: Inputs, storage: Storage, a: Attempt, ghost stored: Option<nat>) returns (ghost stored': Option<nat>)
    requires StepsSettle(i.flat, FLAT_NOMINAL_STEPS) && StepsSettle(i.rough, ROUGH_BUDGET)
    requires DistinctCriteria(i.hard) && DistinctCriteria(i.preferred)
    requires History(i, storage.log, storage.local, storage.remote, stored)
    modifies storage
    ensures History(i, storage.log, storage.local, storage.remote, stored') && (stored.Some? ==> stored' == stored)
    ensures old(storage.remote.finalization).Some? ==> storage.remote.finalization == old(storage.remote.finalization)
    ensures |old(storage.log)| <= |storage.log| && storage.log[..|old(storage.log)|] == old(storage.log)
  {
    hide *;
    FreshDisk(i, storage.log, storage.local, storage.remote, stored);
    if a.freshDisk {
      storage.local := NO_RECORDS;
    }
    ghost var start, before := storage.log, (storage.local, storage.remote);
    if a.recover {
      var r := Recover(i, a.foreign, storage);
      RecoveryKeepsHistory(i, a.foreign, start, before.0, before.1, stored, storage.flat, storage.rough, storage.log, r);
      stored' := stored;
    } else {
      var _, committed := RunG1Curriculum(i, a.foreign, storage, a.lives);
      stored' := if stored.None? && storage.remote.finalization.Some? then Some(|start|) else stored;
      PreservesInput(before.1, storage.remote);
      RunKeepsHistory(i, a.foreign, start, storage.log, before, (storage.local, storage.remote), stored, stored', committed);
    }
  }

  lemma FreshDisk(i: Inputs, log: seq<Event>, local: Records, remote: Records, stored: Option<nat>)
    requires History(i, log, local, remote, stored)
    ensures History(i, log, NO_RECORDS, remote, stored)
    ensures stored.Some? <==> remote.finalization.Some?
  {
  }

  lemma PreservesInput(before: Records, after: Records)
    requires Preserves(before, after)
    ensures before.finalization.Some? ==> after.finalization == before.finalization
  {
  }

  lemma UndisturbedFor(i: Inputs, f: Foreign, input: FinalizationInput, steps: nat, r: Records)
    requires Commits(i, f, input, steps) && r.finalization == None && Accepts(r.transition, input.transition)
    ensures Undisturbed(i, f, r)
  {
    hide FlatPhaseOf, CrossingOf, RoughPhaseOf, JudgedBy, ProvenanceOf;
    var flat, c, x, j :| FlatPhaseOf(i, f, flat) && CrossingOf(i, flat, c) && RoughPhaseOf(i, f, c, x)
      && JudgedBy(i, f, c, x, j) && CommitsTo(i, flat, c, x, input, steps);
    forall y | FlatPhaseOf(i, f, y) ensures AcceptsCrossing(i, y, r) {
      FlatPhaseIsUnique(i, f, flat, y);
      forall d | CrossingOf(i, y, d) ensures Accepts(r.transition, d.transition) { CrossingIsUnique(i, flat, c, d); }
    }
  }

  /** An undisturbed run with lives to spare commits to the one input there is. */
  lemma CommitsAsDetermined(i: Inputs, f: Foreign, input: FinalizationInput, steps: nat, local: Records, remote: Records)
    requires Commits(i, f, input, steps) && OverridesAllowed(i.overrides)
    requires local.finalization == remote.finalization == None
    requires Accepts(local.transition, input.transition) && Accepts(remote.transition, input.transition)
    ensures Unhindered(i, f, local, remote) && Completes(i, f)
    ensures forall c: Commitment :: Commits(i, f, c.input, c.steps) ==> c == Commitment(input, steps)
  {
    hide Commits, Completes, OverridesAllowed, Undisturbed;
    UndisturbedFor(i, f, input, steps, local);
    UndisturbedFor(i, f, input, steps, remote);
    CommitsCompletes(i, f, input, steps);
    forall c: Commitment | Commits(i, f, c.input, c.steps) ensures c == Commitment(input, steps) {
      CommitmentIsUnique(i, f, c.input, c.steps, input, steps);
    }
  }

  /** What a commitment is worth: the stored input, the transition on both sides, the request. */
  lemma CommittedMeans(i: Inputs, f: Foreign, local: Records, before: Records, remote: Records, c: Commitment)
    requires Committed(i, f, local, before, remote, c)
    ensures Commits(i, f, c.input, c.steps) && RoughRequest(i, c.steps)
    ensures local.finalization == Some(c.input) && local.transition == remote.transition == Some(c.input.transition)
    ensures remote.finalization == before.finalization || remote.finalization == Some(c.input)
  {
    CommitsRequest(i, f, c.input, c.steps);
  }

  lemma FinalizedMeans(i: Inputs, start: seq<Event>, log: seq<Event>, remote: Records, c: Commitment)
    requires FinalizedAs(i, start, log, remote, Some(c)) && |log| == |start| + 8
    ensures remote.finalization == Some(c.input)
    ensures log[|start| + 7] == Finalized(CallOf(i, c.input, c.steps), FinalizerSchedule(i), false)
  {
  }

  /** A run on records that leave it alone, past its commitment: to the end, or dead before its input is stored. */
  method RunDetermined(i: Inputs, f: Foreign, storage: Storage, toTheEnd: bool, ghost x: FinalizationInput, ghost s: nat)
    requires StepsSettle(i.flat, FLAT_NOMINAL_STEPS) && StepsSettle(i.rough, ROUGH_BUDGET)
    requires DistinctCriteria(i.hard) && DistinctCriteria(i.preferred) && OverridesAllowed(i.overrides)
    requires Commits(i, f, x, s) && storage.local.finalization == storage.remote.finalization == None
    requires Accepts(storage.local.transition, x.transition) && Accepts(storage.remote.transition, x.transition)
    modifies storage
    ensures storage.local.finalization == Some(x)
    ensures storage.local.transition == storage.remote.transition == Some(x.transition)
    ensures TrainsIntoDirectories(f) ==> RecoveryReady(i, storage.flat, storage.rough, x)
    ensures |old(storage.log)| <= |storage.log| && storage.log[..|old(storage.log)|] == old(storage.log)
    ensures !toTheEnd ==> |storage.log| == |old(storage.log)| + 7 && storage.remote.finalization == None
    ensures toTheEnd ==> |storage.log| == |old(storage.log)| + 8
    ensures toTheEnd ==>
      storage.log[|old(storage.log)| + 7] == Finalized(CallOf(i, x, s), FinalizerSchedule(i), false)
  {
    hide *;
    CommitsAsDetermined(i, f, x, s, storage.local, storage.remote);
    ghost var start, before := storage.log, storage.remote;
    var _, committed := RunG1Curriculum(i, f, storage, if toTheEnd then 12 else 10);
    CommittedMeans(i, f, storage.local, before, storage.remote, committed.value);
    assert committed.value == Commitment(x, s);
    ScriptExtends(i, start, storage.log);
    FinalizesLast(i, start, storage.log);
    if |storage.log| == |start| + 8 { FinalizedMeans(i, start, storage.log, storage.remote, committed.value); }
  }

  /**
   What a recovery from a disk's own input can still do.  A run dies between the two writes of its
   input `x`, and is recovered on that disk: `x` is finalized.  The object store knows nothing of
   it, so a run of other parties on a fresh disk, with the same transition, finalizes its `y` too.
   */
  method LocalInputCanBeSuperseded(i: Inputs, f: Foreign, g: Foreign, storage: Storage,
                                   ghost x: FinalizationInput, ghost s: nat, ghost y: FinalizationInput, ghost t: nat)
    requires StepsSettle(i.flat, FLAT_NOMINAL_STEPS) && StepsSettle(i.rough, ROUGH_BUDGET)
    requires DistinctCriteria(i.hard) && DistinctCriteria(i.preferred) && OverridesAllowed(i.overrides)
    requires TrainsIntoDirectories(f) && Commits(i, f, x, s) && Commits(i, g, y, t) && x.transition == y.transition
    requires storage.local == storage.remote == NO_RECORDS && storage.log == []
    modifies storage
    ensures |storage.log| == 16
    ensures storage.log[7] == Finalized(CallOf(i, x, s), FinalizerSchedule(i), true)
    ensures storage.log[15] == Finalized(CallOf(i, y, t), FinalizerSchedule(i), false)
  {
    NoRecordsAccept(x.transition);
    hide *;
    RunDetermined(i, f, storage, false, x, s);
    ghost var before := storage.log;
    RecoverableInput(i, storage.flat, storage.rough, storage.remote, storage.local);
    var r := Recover(i, f, storage);
    CommitsRequest(i, f, x, s);
    RecoveredRequest(i, f, x, s, before, storage.log, r);
    storage.local := NO_RECORDS;
    NoRecordsAccept(y.transition);
    assert storage.remote.transition == Some(y.transition);
    RunDetermined(i, g, storage, true, y, t);
  }

  lemma NoRecordsAccept(t: Transition)
    ensures NO_RECORDS.finalization == None && Accepts(NO_RECORDS.transition, t) && Accepts(Some(t), t)
  {
  }

  /** With no input in the object store, recovery takes the disk's. */
  lemma RecoverableInput(i: Inputs, flat: seq<Checkpoint>, rough: seq<Checkpoint>, remote: Records, local: Records)
    requires remote.finalization == None && local.finalization.Some?
    requires local.transition == remote.transition == Some(local.finalization.value.transition)
    requires RecoveryReady(i, flat, rough, local.finalization.value)
    ensures Downloaded(remote, local).finalization == local.finalization
    ensures Recoverable(i, flat, rough, Downloaded(remote, local))
  {
  }
}
