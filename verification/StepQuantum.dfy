/**
 bounded_mjx_phase_steps: aligning a step request to whole Brax epochs.

 `quantum` is n_envs * unroll_length, the steps of one PPO batch.  True division
 followed by math.ceil is exact integer ceiling here; floats agree with it below 2^53.
 */
module StepQuantum {
  import opened Arithmetic
  import opened Wrappers

  function CeilDiv(a: nat, b: nat): nat
    requires b > 0
  {
    (a + b - 1) / b
  }

  function Max1(n: nat): nat {
    if n < 1 then 1 else n
  }

  /** Checkpoint intervals of a run of `steps`. */
  function Intervals(steps: nat, every: nat): nat
    requires every > 0
  {
    Max1(CeilDiv(steps, every))
  }

  /** The largest multiple of a whole epoch round that fits the budget. */
  function Bounded(budget: nat, quantum: nat, k: nat): nat
    requires quantum > 0 && k > 0
  {
    budget / (quantum * k) * (quantum * k)
  }

  /** The interval count one round of the loop hands to the next. */
  function Adjusted(budget: nat, every: nat, quantum: nat, k: nat): nat
    requires every > 0 && quantum > 0 && k > 0
  {
    Intervals(Bounded(budget, quantum, k), every)
  }

  /** The interval count at the start of round n. */
  function Round(budget: nat, every: nat, quantum: nat, n: nat): (k: nat)
    requires every > 0 && quantum > 0
    ensures k > 0
  {
    if n == 0 then Intervals(budget, every)
    else Adjusted(budget, every, quantum, Round(budget, every, quantum, n - 1))
  }

  /** Round n finds the interval count it started with, so the loop returns there. */
  predicate Fixed(budget: nat, every: nat, quantum: nat, n: nat)
    requires every > 0 && quantum > 0
  {
    var k := Round(budget, every, quantum, n);
    Adjusted(budget, every, quantum, k) == k
  }

  /** Some round ends the loop, by raising in the first one or by returning. */
  ghost predicate Settles(budget: nat, every: nat, quantum: nat)
    requires every > 0 && quantum > 0
  {
    quantum * Intervals(budget, every) > budget || exists n: nat :: Fixed(budget, every, quantum, n)
  }

  // ----- arithmetic

  lemma CeilDivMeans(a: nat, b: nat)
    requires b > 0
    ensures a <= CeilDiv(a, b) * b < a + b
  {
  }

  lemma CeilDivIs(a: nat, b: nat, k: nat)
    requires b > 0 && k > 0 && (k - 1) * b < a <= k * b
    ensures CeilDiv(a, b) == k
  {
    CeilDivMeans(a, b);
    var c := CeilDiv(a, b);
    if c < k { MulMono(c, k - 1, b); }
    if c > k { MulMono(k, c - 1, b); }
  }

  lemma CeilDivMono(a: nat, a': nat, b: nat)
    requires b > 0 && a <= a'
    ensures CeilDiv(a, b) <= CeilDiv(a', b)
  {
    CeilDivMeans(a, b);
    CeilDivMeans(a', b);
    if CeilDiv(a, b) > CeilDiv(a', b) {
      MulMono(CeilDiv(a', b), CeilDiv(a, b) - 1, b);
    }
  }

  lemma BoundedMeans(budget: nat, quantum: nat, k: nat)
    requires quantum > 0 && k > 0
    ensures Bounded(budget, quantum, k) <= budget < Bounded(budget, quantum, k) + quantum * k
    ensures Bounded(budget, quantum, k) > 0 <==> quantum * k <= budget
  {
    var d := quantum * k;
    DivMeans(budget, d);
    if d <= budget {
      if budget / d == 0 { assert false; }
      MulMono(1, budget / d, d);
    }
  }

  // ----- every round

  /** Interval counts never exceed the first, so only the first round can raise. */
  lemma {:induction false} RoundBounded(budget: nat, every: nat, quantum: nat, n: nat)
    requires every > 0 && quantum > 0
    ensures 1 <= Round(budget, every, quantum, n) <= Intervals(budget, every)
    decreases n
  {
    if n > 0 {
      RoundBounded(budget, every, quantum, n - 1);
      var k := Round(budget, every, quantum, n - 1);
      BoundedMeans(budget, quantum, k);
      CeilDivMono(Bounded(budget, quantum, k), budget, every);
    }
  }

  /** The loop raises exactly when one epoch at the first interval count exceeds the budget, and at once. */
  lemma RaisesOnlyAtOnce(budget: nat, every: nat, quantum: nat, n: nat)
    requires every > 0 && quantum > 0
    ensures Bounded(budget, quantum, Round(budget, every, quantum, 0)) == 0
      <==> quantum * Intervals(budget, every) > budget
    ensures Bounded(budget, quantum, Round(budget, every, quantum, n)) == 0
      ==> Bounded(budget, quantum, Round(budget, every, quantum, 0)) == 0
  {
    var k0, k := Round(budget, every, quantum, 0), Round(budget, every, quantum, n);
    RoundBounded(budget, every, quantum, n);
    BoundedMeans(budget, quantum, k0);
    BoundedMeans(budget, quantum, k);
    MulMono(k, k0, quantum);
  }

  // ----- the loop ends if it ends within as many rounds as there were intervals

  function Orbit(budget: nat, every: nat, quantum: nat, n: nat): (s: seq<nat>)
    requires every > 0 && quantum > 0
    ensures |s| == n && forall i :: 0 <= i < n ==> s[i] == Round(budget, every, quantum, i)
  {
    if n == 0 then [] else Orbit(budget, every, quantum, n - 1) + [Round(budget, every, quantum, n - 1)]
  }

  function Upto(n: nat): (s: set<nat>)
    ensures |s| == n && forall x :: x in s <==> 1 <= x <= n
  {
    if n == 0 then {} else Upto(n - 1) + {n}
  }

  function Elements(s: seq<nat>): set<nat> {
    set x | x in s
  }

  lemma {:induction false} DistinctCount(s: seq<nat>)
    requires forall i, j :: 0 <= i < j < |s| ==> s[i] != s[j]
    ensures |Elements(s)| == |s|
  {
    if s == [] {
      assert Elements(s) == {};
    } else {
      var init, last := s[..|s| - 1], s[|s| - 1];
      DistinctCount(init);
      assert s == init + [last];
      assert Elements(s) == Elements(init) + {last};
      assert last !in Elements(init);
    }
  }

  lemma Pigeonhole(s: seq<nat>, n: nat) returns (i: nat, j: nat)
    requires |s| > n && forall k :: 0 <= k < |s| ==> 1 <= s[k] <= n
    ensures i < j < |s| && s[i] == s[j]
  {
    if forall i, j :: 0 <= i < j < |s| ==> s[i] != s[j] {
      DistinctCount(s);
      SubsetCount(Elements(s), Upto(n));
      assert false;
    }
    i, j :| 0 <= i < j < |s| && s[i] == s[j];
  }

  lemma {:induction false} Periodic(budget: nat, every: nat, quantum: nat, i: nat, j: nat, m: nat)
    requires every > 0 && quantum > 0 && Round(budget, every, quantum, i) == Round(budget, every, quantum, j)
    ensures Round(budget, every, quantum, i + m) == Round(budget, every, quantum, j + m)
    decreases m
  {
    if m > 0 {
      Periodic(budget, every, quantum, i, j, m - 1);
    }
  }

  lemma {:induction false} FixedEarlier(budget: nat, every: nat, quantum: nat, i: nat, j: nat, n: nat) returns (m: nat)
    requires every > 0 && quantum > 0 && i < j
    requires Round(budget, every, quantum, i) == Round(budget, every, quantum, j)
    requires Fixed(budget, every, quantum, n)
    ensures m < j && Fixed(budget, every, quantum, m)
    decreases n
  {
    if n < j {
      m := n;
    } else {
      Periodic(budget, every, quantum, i, j, n - j);
      assert i + (n - j) < n && j + (n - j) == n;
      m := FixedEarlier(budget, every, quantum, i, j, i + (n - j));
    }
  }

  /** A finite check decides termination, for every budget: as many rounds as the first interval count. */
  lemma SettlesIffSoon(budget: nat, every: nat, quantum: nat)
    requires every > 0 && quantum > 0
    ensures Settles(budget, every, quantum) <==>
      || quantum * Intervals(budget, every) > budget
      || exists n: nat :: n < Intervals(budget, every) && Fixed(budget, every, quantum, n)
  {
    if n: nat :| Fixed(budget, every, quantum, n) {
      var k0 := Intervals(budget, every);
      var orbit := Orbit(budget, every, quantum, k0 + 1);
      forall i | 0 <= i < |orbit| ensures 1 <= orbit[i] <= k0 { RoundBounded(budget, every, quantum, i); }
      var i, j := Pigeonhole(orbit, k0);
      var m := FixedEarlier(budget, every, quantum, i, j, n);
      assert m < k0 && Fixed(budget, every, quantum, m);
    }
  }

  // ----- when one epoch fits a checkpoint interval, two rounds decide

  /** The two interval counts the loop can visit, and which one each leads to. */
  lemma TwoCounts(budget: nat, every: nat, quantum: nat, k: nat)
    requires budget > 0 && every > 0 && quantum > 0
    requires var k0 := Intervals(budget, every); quantum * k0 <= every && 1 <= k <= k0
    ensures var k0 := Intervals(budget, every);
      Adjusted(budget, every, quantum, k)
        == if k0 > 1 && Bounded(budget, quantum, k) <= (k0 - 1) * every then k0 - 1 else k0
  {
    var k0, b := Intervals(budget, every), Bounded(budget, quantum, k);
    CeilDivMeans(budget, every);
    BoundedMeans(budget, quantum, k);
    MulMono(k, k0, quantum);
    assert CeilDiv(budget, every) == k0 by {
      if CeilDiv(budget, every) == 0 { assert false; }
    }
    assert (k0 - 1) * every < budget <= k0 * every;
    assert b > budget - every;
    if k0 == 1 {
      CeilDivMono(b, budget, every);
    } else if b <= (k0 - 1) * every {
      assert (k0 - 2) * every < b;
      CeilDivIs(b, every, k0 - 1);
    } else {
      CeilDivIs(b, every, k0);
    }
  }

  /** The one family of requests on which the loop alternates for ever. */
  predicate Alternates(budget: nat, every: nat, quantum: nat)
    requires every > 0 && quantum > 0
  {
    var k0 := Intervals(budget, every);
    k0 > 1 && Bounded(budget, quantum, k0) <= (k0 - 1) * every < Bounded(budget, quantum, k0 - 1)
  }

  lemma {:induction false} AlternatesForever(budget: nat, every: nat, quantum: nat, n: nat)
    requires budget > 0 && every > 0 && quantum > 0
    requires quantum * Intervals(budget, every) <= every && Alternates(budget, every, quantum)
    ensures var k0 := Intervals(budget, every);
      Round(budget, every, quantum, n) == (if n % 2 == 0 then k0 else k0 - 1) && !Fixed(budget, every, quantum, n)
    decreases n
  {
    var k0 := Intervals(budget, every);
    TwoCounts(budget, every, quantum, k0);
    TwoCounts(budget, every, quantum, k0 - 1);
    if n > 0 {
      AlternatesForever(budget, every, quantum, n - 1);
    }
  }

  /** With an epoch no longer than a checkpoint interval, the loop ends within two rounds or never. */
  lemma TwoRoundsOrNever(budget: nat, every: nat, quantum: nat)
    requires budget > 0 && every > 0 && quantum > 0
    requires quantum * Intervals(budget, every) <= every && quantum * Intervals(budget, every) <= budget
    ensures Settles(budget, every, quantum) <==> !Alternates(budget, every, quantum)
    ensures Settles(budget, every, quantum) <==>
      Fixed(budget, every, quantum, 0) || Fixed(budget, every, quantum, 1)
  {
    var k0 := Intervals(budget, every);
    TwoCounts(budget, every, quantum, k0);
    if Alternates(budget, every, quantum) {
      forall n: nat ensures !Fixed(budget, every, quantum, n) { AlternatesForever(budget, every, quantum, n); }
    } else if k0 > 1 {
      TwoCounts(budget, every, quantum, k0 - 1);
      assert Round(budget, every, quantum, 1) == Adjusted(budget, every, quantum, k0);
      assert Fixed(budget, every, quantum, 0) || Fixed(budget, every, quantum, 1);
    } else {
      assert Fixed(budget, every, quantum, 0);
    }
  }

  /** A request the source would spin on: five steps, checkpoints every four, batches of one. */
  lemma FiveStepsNeverSettle()
    ensures !Settles(5, 4, 1)
  {
    TwoRoundsOrNever(5, 4, 1);
  }

  // ----- the loop

  datatype StepError = NotPositive | SmallerThanOneEpoch

  /** What a returned request promises. */
  predicate WholeEpochs(budget: nat, every: nat, quantum: nat, steps: nat)
    requires every > 0 && quantum > 0
  {
    var epoch := quantum * Intervals(steps, every);
    0 < steps <= budget && steps % epoch == 0 && budget - steps < epoch
  }

  /** The first round does not raise, and the value comes from the round that finds its interval count unchanged. */
  ghost predicate ReturnedBy(budget: nat, every: nat, quantum: nat, steps: nat)
    requires every > 0 && quantum > 0
  {
    quantum * Intervals(budget, every) <= budget && exists n: nat ::
      Fixed(budget, every, quantum, n) && steps == Bounded(budget, quantum, Round(budget, every, quantum, n))
  }

  /**
   bounded_mjx_phase_steps.  The precondition is where the source returns at all: on
   any other positive request its loop never ends.
   */
  method BoundedPhaseSteps(budget: int, every: int, envs: int, unroll: int) returns (r: Result<nat, StepError>)
    requires budget > 0 && every > 0 && envs > 0 && unroll > 0 ==> Settles(budget, every, envs * unroll)
    ensures r == Err(NotPositive) <==> budget <= 0 || every <= 0 || envs <= 0 || unroll <= 0
    ensures r == Err(SmallerThanOneEpoch) <==>
      budget > 0 && every > 0 && envs > 0 && unroll > 0 && envs * unroll * Intervals(budget, every) > budget
    ensures r.Ok? <==>
      budget > 0 && every > 0 && envs > 0 && unroll > 0 && envs * unroll * Intervals(budget, every) <= budget
    ensures r.Ok? ==> WholeEpochs(budget, every, envs * unroll, r.value)
    ensures r.Ok? ==> ReturnedBy(budget, every, envs * unroll, r.value)
  {
    if budget <= 0 || every <= 0 || envs <= 0 || unroll <= 0 {
      return Err(NotPositive);
    }
    hide ReturnedBy;
    var quantum := envs * unroll;
    var intervals := Intervals(budget, every);
    ghost var last: nat := 0;
    if quantum * intervals <= budget {
      last :| Fixed(budget, every, quantum, last);
    }
    ghost var n: nat := 0;
    while true
      invariant intervals == Round(budget, every, quantum, n)
      invariant quantum * Intervals(budget, every) <= budget ==> n <= last
      invariant n > 0 ==> quantum * Intervals(budget, every) <= budget
      decreases last - n
    {
      var bounded := budget / (quantum * intervals) * (quantum * intervals);
      RaisesOnlyAtOnce(budget, every, quantum, n);
      if bounded <= 0 {
        return Err(SmallerThanOneEpoch);
      }
      var adjusted := Intervals(bounded, every);
      if adjusted == intervals {
        ReturnedWhole(budget, every, quantum, intervals);
        FixedReturns(budget, every, quantum, n);
        return Ok(bounded);
      }
      intervals := adjusted;
      n := n + 1;
    }
  }

  lemma FixedReturns(budget: nat, every: nat, quantum: nat, n: nat)
    requires every > 0 && quantum > 0 && quantum * Intervals(budget, every) <= budget
    requires Fixed(budget, every, quantum, n)
    ensures ReturnedBy(budget, every, quantum, Bounded(budget, quantum, Round(budget, every, quantum, n)))
  {
  }

  lemma {:induction false} FixedStays(budget: nat, every: nat, quantum: nat, n: nat, m: nat)
    requires every > 0 && quantum > 0 && Fixed(budget, every, quantum, n) && n <= m
    ensures Round(budget, every, quantum, m) == Round(budget, every, quantum, n)
    decreases m
  {
    if n < m {
      FixedStays(budget, every, quantum, n, m - 1);
    }
  }

  /** At most one value can be returned for a request. */
  lemma ReturnedIsUnique(budget: nat, every: nat, quantum: nat, s: nat, t: nat)
    requires every > 0 && quantum > 0
    requires ReturnedBy(budget, every, quantum, s) && ReturnedBy(budget, every, quantum, t)
    ensures s == t
  {
    var n: nat :| Fixed(budget, every, quantum, n) && s == Bounded(budget, quantum, Round(budget, every, quantum, n));
    var m: nat :| Fixed(budget, every, quantum, m) && t == Bounded(budget, quantum, Round(budget, every, quantum, m));
    if n <= m { FixedStays(budget, every, quantum, n, m); } else { FixedStays(budget, every, quantum, m, n); }
  }

  lemma MulModZero(a: nat, d: nat)
    requires d > 0
    ensures a * d % d == 0
  {
    QuotientIs(a * d, d, a);
  }

  lemma ReturnedWhole(budget: nat, every: nat, quantum: nat, k: nat)
    requires every > 0 && quantum > 0 && k > 0 && Adjusted(budget, every, quantum, k) == k
    requires Bounded(budget, quantum, k) > 0
    ensures WholeEpochs(budget, every, quantum, Bounded(budget, quantum, k))
  {
    BoundedMeans(budget, quantum, k);
    MulModZero(budget / (quantum * k), quantum * k);
  }

  // ----- what the trainer does with a request

  /** Brax rounds each of its num_evals - 1 epochs up to whole batches. */
  function Executed(steps: nat, every: nat, quantum: nat): nat
    requires every > 0 && quantum > 0
  {
    var evaluations := if CeilDiv(steps, every) + 1 < 2 then 2 else CeilDiv(steps, every) + 1;
    var epochs := evaluations - 1;
    epochs * (CeilDiv(steps, epochs * quantum) * quantum)
  }

  /** Upstream rounding only ever adds steps, less than one epoch round of them. */
  lemma ExecutedOvershoots(steps: nat, every: nat, quantum: nat)
    requires every > 0 && quantum > 0
    ensures steps <= Executed(steps, every, quantum) < steps + quantum * Intervals(steps, every)
  {
    var k := Intervals(steps, every);
    var c := CeilDiv(steps, k * quantum);
    CeilDivMeans(steps, k * quantum);
    assert k * (c * quantum) == c * (k * quantum);
  }

  /** A request is executed exactly when it is a whole number of epoch rounds. */
  lemma ExecutedExactly(steps: nat, every: nat, quantum: nat)
    requires every > 0 && quantum > 0
    ensures Executed(steps, every, quantum) == steps <==> steps % (quantum * Intervals(steps, every)) == 0
  {
    var k := Intervals(steps, every);
    var epoch := k * quantum;
    var c := CeilDiv(steps, epoch);
    assert k * (c * quantum) == c * epoch;
    if steps % epoch == 0 {
      DivMeans(steps, epoch);
      assert steps == steps / epoch * epoch;
      CeilDivMeans(steps, epoch);
      if c > steps / epoch { MulMono(steps / epoch + 1, c, epoch); }
      if c < steps / epoch { MulMono(c, steps / epoch - 1, epoch); }
    } else {
      MulModZero(c, epoch);
    }
  }

  /** A returned request runs exactly as many steps as it names, and asking for it again returns it. */
  lemma ReturnedIsStable(budget: nat, every: nat, quantum: nat, steps: nat)
    requires every > 0 && quantum > 0 && WholeEpochs(budget, every, quantum, steps)
    ensures Executed(steps, every, quantum) == steps <= budget
    ensures Fixed(steps, every, quantum, 0)
    ensures Bounded(steps, quantum, Round(steps, every, quantum, 0)) == steps
  {
    hide Intervals, Executed;
    var epoch := quantum * Intervals(steps, every);
    DivMeans(steps, epoch);
    assert Bounded(steps, quantum, Intervals(steps, every)) == steps;
    ExecutedExactly(steps, every, quantum);
  }

  // ----- the reviewed requests

  const FLAT_NOMINAL_STEPS := 200_000_000
  const FLAT_EFFECTIVE_STEPS := 199_229_440
  const PILOT_EFFECTIVE_STEPS := 46_202_880
  const TOTAL_STEPS := 450_000_000
  const ROUGH_EFFECTIVE_STEPS := 250_511_360
  const CHECKPOINT_EVERY := 25_000_000
  const ENVS := 8192
  const UNROLL := 20

  /** q rounds of k intervals fill the budget, and still take k checkpoints. */
  lemma FilledBy(budget: nat, k: nat, q: nat)
    requires k > 0 && (k - 1) * CHECKPOINT_EVERY < budget <= k * CHECKPOINT_EVERY
    requires q * (ENVS * UNROLL * k) <= budget < (q + 1) * (ENVS * UNROLL * k)
    requires (k - 1) * CHECKPOINT_EVERY < q * (ENVS * UNROLL * k)
    ensures Intervals(budget, CHECKPOINT_EVERY) == k && Bounded(budget, ENVS * UNROLL, k) == q * (ENVS * UNROLL * k)
    ensures Fixed(budget, CHECKPOINT_EVERY, ENVS * UNROLL, 0)
  {
    CeilDivIs(budget, CHECKPOINT_EVERY, k);
    QuotientIs(budget, ENVS * UNROLL * k, q);
    CeilDivIs(q * (ENVS * UNROLL * k), CHECKPOINT_EVERY, k);
  }

  /** All three reviewed requests return in the first round, with the reviewed numbers. */
  lemma ReviewedRequests()
    ensures Fixed(FLAT_NOMINAL_STEPS, CHECKPOINT_EVERY, ENVS * UNROLL, 0)
    ensures Intervals(FLAT_NOMINAL_STEPS, CHECKPOINT_EVERY) == 8
    ensures Bounded(FLAT_NOMINAL_STEPS, ENVS * UNROLL, 8) == FLAT_EFFECTIVE_STEPS
    ensures Fixed(PILOT_EFFECTIVE_STEPS, CHECKPOINT_EVERY, ENVS * UNROLL, 0)
    ensures Intervals(PILOT_EFFECTIVE_STEPS, CHECKPOINT_EVERY) == 2
    ensures Bounded(PILOT_EFFECTIVE_STEPS, ENVS * UNROLL, 2) == PILOT_EFFECTIVE_STEPS
    ensures Fixed(TOTAL_STEPS - FLAT_EFFECTIVE_STEPS, CHECKPOINT_EVERY, ENVS * UNROLL, 0)
    ensures Intervals(TOTAL_STEPS - FLAT_EFFECTIVE_STEPS, CHECKPOINT_EVERY) == 11
    ensures Bounded(TOTAL_STEPS - FLAT_EFFECTIVE_STEPS, ENVS * UNROLL, 11) == ROUGH_EFFECTIVE_STEPS
  {
    hide Fixed, Bounded, Intervals;
    FilledBy(FLAT_NOMINAL_STEPS, 8, 152);
    FilledBy(PILOT_EFFECTIVE_STEPS, 2, 141);
    FilledBy(TOTAL_STEPS - FLAT_EFFECTIVE_STEPS, 11, 139);
  }

  /** What the first production curriculum executed for its nominal requests. */
  lemma NominalRequestsOvershoot()
    ensures Executed(FLAT_NOMINAL_STEPS, CHECKPOINT_EVERY, ENVS * UNROLL) == 200_540_160
    ensures Executed(250_000_000, CHECKPOINT_EVERY, ENVS * UNROLL) == 250_675_200
  {
    CeilDivIs(FLAT_NOMINAL_STEPS, CHECKPOINT_EVERY, 8);
    CeilDivIs(FLAT_NOMINAL_STEPS, 8 * (ENVS * UNROLL), 153);
    CeilDivIs(250_000_000, CHECKPOINT_EVERY, 10);
    CeilDivIs(250_000_000, 10 * (ENVS * UNROLL), 153);
  }

  /** The reviewed flat and pilot requests; the rough one starts from what the flat phase left. */
  method AssertReviewedStepContract() returns (flat: nat, rough: nat, pilot: nat)
    ensures flat == FLAT_EFFECTIVE_STEPS && rough == ROUGH_EFFECTIVE_STEPS && pilot == PILOT_EFFECTIVE_STEPS
    ensures Executed(flat, CHECKPOINT_EVERY, ENVS * UNROLL) + Executed(rough, CHECKPOINT_EVERY, ENVS * UNROLL)
      == flat + rough <= TOTAL_STEPS
  {
    ReviewedRequests();
    flat := ReviewedRequest(FLAT_NOMINAL_STEPS, 8);
    pilot := ReviewedRequest(PILOT_EFFECTIVE_STEPS, 2);
    rough := ReviewedRequest(TOTAL_STEPS - flat, 11);
  }

  method ReviewedRequest(budget: nat, k: nat) returns (steps: nat)
    requires k > 0 && Intervals(budget, CHECKPOINT_EVERY) == k && ENVS * UNROLL * k <= budget
    requires Fixed(budget, CHECKPOINT_EVERY, ENVS * UNROLL, 0)
    ensures steps == Bounded(budget, ENVS * UNROLL, k)
    ensures Executed(steps, CHECKPOINT_EVERY, ENVS * UNROLL) == steps
  {
    hide Bounded, Intervals, Executed, WholeEpochs, Adjusted;
    var r := BoundedPhaseSteps(budget, CHECKPOINT_EVERY, ENVS, UNROLL);
    ReturnedIsUnique(budget, CHECKPOINT_EVERY, ENVS * UNROLL, r.value, Bounded(budget, ENVS * UNROLL, k));
    ReturnedIsStable(budget, CHECKPOINT_EVERY, ENVS * UNROLL, r.value);
    return r.value;
  }
}
