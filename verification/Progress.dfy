/**
 DurableProgressCallback and the checkpoint run_training publishes.

 The step counts the trainer reports and the aggregates evaluation returns are parameters.
 */
module Progress {
  import opened Arithmetic
  import opened Wrappers

  /** checkpoint_rank: success rate first, mean reward as the tie-break. */
  datatype Rank = Rank(successRate: real, meanReward: real)

  predicate Above(a: Rank, b: Rank) {
    a.successRate > b.successRate || (a.successRate == b.successRate && a.meanReward > b.meanReward)
  }

  datatype Evaluation = Evaluation(timesteps: nat, rank: Rank)

  /** The cadences are positive: the source's threshold loops do not end otherwise. */
  datatype Profile = Profile(checkpointEvery: nat, evaluationEvery: nat, total: nat, publishBest: bool) {
    predicate Positive() {
      checkpointEvery > 0 && evaluationEvery > 0
    }
  }

  function Max(a: nat, b: nat): nat {
    if a < b then b else a
  }

  /** The highest step count reported so far. */
  function Peak(steps: seq<nat>): nat {
    if steps == [] then 0 else Max(Peak(steps[..|steps| - 1]), steps[|steps| - 1])
  }

  /** The least multiple of the cadence above the peak; NextMultipleMeans says so. */
  function NextMultiple(every: nat, peak: nat): nat
    requires every > 0
  {
    (peak / every + 1) * every
  }

  /** The number of whole cadences a step count has passed. */
  function Passed(every: nat, t: nat): nat
    requires every > 0
  {
    t / every
  }

  /** The step counts that are the first to reach some multiple of the cadence. */
  function Crossings(every: nat, steps: seq<nat>): seq<nat>
    requires every > 0
  {
    if steps == [] then []
    else
      var n := |steps| - 1;
      Crossings(every, steps[..n]) + if Passed(every, steps[n]) > Passed(every, Peak(steps[..n])) then [steps[n]] else []
  }

  lemma NextMultipleMeans(every: nat, peak: nat, m: nat)
    requires every > 0
    ensures peak < NextMultiple(every, peak) <= peak + every
    ensures m * every > peak <==> m * every >= NextMultiple(every, peak)
  {
    DivMeans(peak, every);
    if m <= peak / every { MulMono(m, peak / every, every); } else { MulMono(peak / every + 1, m, every); }
  }

  /** Reaching the threshold is passing a multiple the peak had not. */
  lemma ReachesMeans(every: nat, peak: nat, t: nat)
    requires every > 0
    ensures NextMultiple(every, peak) <= t <==> t / every > peak / every
  {
    DivMeans(t, every);
    var p, q := peak / every, t / every;
    if q > p { MulMono(p + 1, q, every); } else { MulMono(q + 1, p + 1, every); }
  }

  lemma CrossingsStep(every: nat, steps: seq<nat>, t: nat)
    requires every > 0
    ensures Crossings(every, steps + [t])
      == Crossings(every, steps) + if NextMultiple(every, Peak(steps)) <= t then [t] else []
    ensures Peak(steps + [t]) == Max(Peak(steps), t)
    ensures NextMultiple(every, Peak(steps)) <= t ==> Peak(steps) < t
    ensures t < NextMultiple(every, Peak(steps)) ==>
      NextMultiple(every, Peak(steps + [t])) == NextMultiple(every, Peak(steps))
  {
    assert (steps + [t])[..|steps|] == steps;
    ReachesMeans(every, Peak(steps), t);
    if Peak(steps) < t { DivMono(Peak(steps), t, every); } else { DivMono(t, Peak(steps), every); }
  }

  lemma PassedMono(every: nat, a: nat, b: nat)
    requires every > 0 && a <= b
    ensures Passed(every, a) <= Passed(every, b)
  {
    DivMono(a, b, every);
  }

  /** Crossings pass strictly more cadences each time, at least one, and there are no more than the peak passed. */
  lemma {:induction false} CrossingsRise(every: nat, steps: seq<nat>)
    requires every > 0
    ensures var c := Crossings(every, steps);
      && (forall i, j :: 0 <= i < j < |c| ==> Passed(every, c[i]) < Passed(every, c[j]))
      && (forall i :: 0 <= i < |c| ==> 1 <= Passed(every, c[i]) <= Passed(every, Peak(steps)))
      && |c| <= Passed(every, Peak(steps))
  {
    hide Passed;
    if steps != [] {
      var n := |steps| - 1;
      CrossingsRise(every, steps[..n]);
      PassedMono(every, Peak(steps[..n]), Peak(steps));
      if steps[n] <= Peak(steps[..n]) { PassedMono(every, steps[n], Peak(steps[..n])); }
    }
  }

  /** The first report that has passed as many cadences as it has is a crossing. */
  lemma {:induction false} CrossingsCover(every: nat, steps: seq<nat>, i: nat)
    requires every > 0 && i < |steps| && Passed(every, steps[i]) > 0
    requires forall j :: 0 <= j < i ==> Passed(every, steps[j]) < Passed(every, steps[i])
    ensures steps[i] in Crossings(every, steps)
  {
    var n := |steps| - 1;
    if i < n {
      CrossingsCover(every, steps[..n], i);
    } else {
      PeakBelow(every, steps[..n], steps[n]);
    }
  }

  lemma {:induction false} PeakBelow(every: nat, steps: seq<nat>, t: nat)
    requires every > 0 && Passed(every, t) > 0
    requires forall j :: 0 <= j < |steps| ==> Passed(every, steps[j]) < Passed(every, t)
    ensures Passed(every, Peak(steps)) < Passed(every, t)
  {
    if steps != [] { PeakBelow(every, steps[..|steps| - 1], t); }
  }

  // ----- the best evaluation

  /** The entry is the earliest of the greatest rank. */
  predicate IsBest(evaluations: seq<Evaluation>, best: Option<Evaluation>) {
    match best
    case None => evaluations == []
    case Some(b) => exists i :: 0 <= i < |evaluations| && EarliestGreatest(evaluations, i) && evaluations[i] == b
  }

  /** No success rate is higher, among equal ones no reward, and of equal both it is the earliest. */
  predicate EarliestGreatest(evaluations: seq<Evaluation>, i: nat)
    requires i < |evaluations|
  {
    var b := evaluations[i].rank;
    && (forall j :: 0 <= j < |evaluations| ==>
          evaluations[j].rank.successRate < b.successRate
          || (evaluations[j].rank.successRate == b.successRate && evaluations[j].rank.meanReward <= b.meanReward))
    && (forall j :: 0 <= j < i ==>
          evaluations[j].rank.successRate < b.successRate
          || (evaluations[j].rank.successRate == b.successRate && evaluations[j].rank.meanReward < b.meanReward))
  }

  lemma BestGrows(evaluations: seq<Evaluation>, best: Option<Evaluation>, e: Evaluation)
    requires IsBest(evaluations, best)
    ensures IsBest(evaluations + [e], if best == None || Above(e.rank, best.value.rank) then Some(e) else best)
  {
    var all := evaluations + [e];
    match best
    case None =>
      assert EarliestGreatest(all, 0);
    case Some(b) =>
      var i :| 0 <= i < |evaluations| && EarliestGreatest(evaluations, i) && evaluations[i] == b;
      if Above(e.rank, b.rank) {
        assert EarliestGreatest(all, |evaluations|);
      } else {
        assert EarliestGreatest(all, i);
      }
  }

  // ----- the callback

  class DurableProgressCallback {
    const profile: Profile
    var nextCheckpoint: nat
    var nextEvaluation: nat
    var checkpoints: seq<nat>
    var evaluations: seq<Evaluation>
    var best: Option<Evaluation>
    ghost var steps: seq<nat>

    ghost predicate Valid()
      reads this
    {
      && profile.Positive()
      && nextCheckpoint == NextMultiple(profile.checkpointEvery, Peak(steps))
      && nextEvaluation == NextMultiple(profile.evaluationEvery, Peak(steps))
      && checkpoints == Crossings(profile.checkpointEvery, steps)
      && Timesteps(evaluations) == Crossings(profile.evaluationEvery, steps)
      && (if profile.publishBest then IsBest(evaluations, best) else best == None)
    }

    constructor (profile: Profile)
      requires profile.Positive()
      ensures Valid() && steps == [] && this.profile == profile
    {
      this.profile := profile;
      nextCheckpoint, nextEvaluation := profile.checkpointEvery, profile.evaluationEvery;
      checkpoints, evaluations, best := [], [], None;
      steps := [];
    }

    /**
     _on_step with the step count and what an evaluation would return now.  At most one
     checkpoint and one evaluation, exactly when a multiple of the cadence is first reached.
     */
    method OnStep(timesteps: nat, aggregate: Rank)
      requires Valid()
      modifies this
      ensures Valid() && steps == old(steps) + [timesteps]
      ensures evaluations == old(evaluations) || evaluations == old(evaluations) + [Evaluation(timesteps, aggregate)]
    {
      hide Crossings, Peak, IsBest, NextMultiple;
      CrossingsStep(profile.checkpointEvery, steps, timesteps);
      CrossingsStep(profile.evaluationEvery, steps, timesteps);
      if timesteps >= nextCheckpoint {
        checkpoints := checkpoints + [timesteps];
        nextCheckpoint := Advance(nextCheckpoint, profile.checkpointEvery, timesteps, Peak(steps));
      }
      if timesteps >= nextEvaluation {
        var e := Evaluation(timesteps, aggregate);
        if profile.publishBest { BestGrows(evaluations, best, e); }
        evaluations := evaluations + [e];
        if profile.publishBest && (best == None || Above(aggregate, best.value.rank)) {
          best := Some(e);
        }
        nextEvaluation := Advance(nextEvaluation, profile.evaluationEvery, timesteps, Peak(steps));
      }
      steps := steps + [timesteps];
      assert Timesteps(evaluations) == if evaluations == old(evaluations) then old(Timesteps(evaluations))
        else old(Timesteps(evaluations)) + [timesteps];
    }
  }

  function Timesteps(evaluations: seq<Evaluation>): seq<nat> {
    seq(|evaluations|, i requires 0 <= i < |evaluations| => evaluations[i].timesteps)
  }

  /** while next <= timesteps: next += every. */
  method Advance(next: nat, every: nat, timesteps: nat, ghost peak: nat) returns (r: nat)
    requires every > 0 && next == NextMultiple(every, peak) <= timesteps
    ensures peak <= timesteps && r == NextMultiple(every, timesteps)
  {
    NextMultipleMeans(every, peak, 0);
    r := next;
    ghost var m := peak / every + 1;
    while r <= timesteps
      invariant r == m * every <= timesteps + every
      decreases timesteps + every - r
    {
      r := r + every;
      m := m + 1;
    }
    QuotientIs(timesteps, every, m - 1);
  }

  // ----- the run

  datatype Published = Published(bestEvaluation: bool, timesteps: nat, rank: Option<Rank>)

  /**
   run_training around the callback: the trainer reports its steps, and the best evaluated
   policy is published, or the last one when nothing was evaluated or the profile says so.
   */
  method RunTraining(profile: Profile, reports: seq<(nat, Rank)>)
    returns (checkpoints: seq<nat>, evaluations: seq<Evaluation>, published: Published)
    requires profile.Positive()
    ensures checkpoints == Crossings(profile.checkpointEvery, Reported(reports))
    ensures Timesteps(evaluations) == Crossings(profile.evaluationEvery, Reported(reports))
    ensures forall e :: e in evaluations ==> (e.timesteps, e.rank) in reports
    ensures published.bestEvaluation <==> profile.publishBest && evaluations != []
    ensures published.bestEvaluation ==>
      published.rank.Some? && IsBest(evaluations, Some(Evaluation(published.timesteps, published.rank.value)))
    ensures !published.bestEvaluation ==> published == Published(false, profile.total, None)
  {
    var callback := new DurableProgressCallback(profile);
    for n := 0 to |reports|
      invariant callback.Valid() && fresh(callback) && callback.profile == profile
      invariant callback.steps == Reported(reports[..n])
      invariant forall e :: e in callback.evaluations ==> (e.timesteps, e.rank) in reports
    {
      assert Reported(reports[..n + 1]) == Reported(reports[..n]) + [reports[n].0];
      callback.OnStep(reports[n].0, reports[n].1);
    }
    assert reports[..|reports|] == reports;
    checkpoints, evaluations := callback.checkpoints, callback.evaluations;
    published := match callback.best
      case Some(e) => Published(true, e.timesteps, Some(e.rank))
      case None => Published(false, profile.total, None);
  }

  function Reported(reports: seq<(nat, Rank)>): seq<nat> {
    seq(|reports|, i requires 0 <= i < |reports| => reports[i].0)
  }
}
