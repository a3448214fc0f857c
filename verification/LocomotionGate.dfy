/**
 Whether an acceptance gate is one a good-enough policy can clear: the binomial tail,
 and the bisection for the least per-episode reliability that reaches a target.

 Reliabilities are exact reals; the source computes the same expressions in floats.
 */
module LocomotionGate {
  import opened Wrappers

  datatype GateError = NoEpisodes | RequiredOutOfRange | NotAProbability

  /** Binomial coefficients by Pascal's rule; CombIsFactorialQuotient ties them to factorials. */
  function Comb(n: nat, k: nat): nat {
    if k == 0 then 1 else if n == 0 then 0 else Comb(n - 1, k - 1) + Comb(n - 1, k)
  }

  function Factorial(n: nat): nat {
    if n == 0 then 1 else n * Factorial(n - 1)
  }

  function Pow(p: real, n: nat): real {
    if n == 0 then 1.0 else p * Pow(p, n - 1)
  }

  /** The weight of c equally likely ways, x for their successes and y for their failures. */
  function Weight(c: real, x: real, y: real): real {
    c * x * y
  }

  /** Probability that exactly i of n independent episodes succeed. */
  function Term(n: nat, i: nat, p: real): real {
    if i > n then 0.0 else Weight(Comb(n, i) as real, Pow(p, i), Pow(1.0 - p, n - i))
  }

  /** The terms k, k + 1, ..., n added up. */
  function Tail(n: nat, k: nat, p: real): real
    decreases n + 1 - k
  {
    if k > n then 0.0 else Term(n, k, p) + Tail(n, k + 1, p)
  }

  /** gate_pass_probability. */
  function GatePassProbability(episodes: int, required: int, reliability: real): Result<real, GateError> {
    if episodes <= 0 then Err(NoEpisodes)
    else if !(0 <= required <= episodes) then Err(RequiredOutOfRange)
    else if !(0.0 <= reliability <= 1.0) then Err(NotAProbability)
    else Ok(Tail(episodes, required, reliability))
  }

  /** Which requests have a probability, and what is wrong with each other one. */
  lemma GateAnswers(episodes: int, required: int, reliability: real)
    ensures var r := GatePassProbability(episodes, required, reliability);
      && (r == Err(NoEpisodes) <==> episodes < 1)
      && (r == Err(RequiredOutOfRange) <==> episodes >= 1 && (required < 0 || required > episodes))
      && (r == Err(NotAProbability) <==> 0 <= required <= episodes && episodes >= 1 && (reliability < 0.0 || reliability > 1.0))
      && (r.Ok? <==> 0 <= required <= episodes && episodes >= 1 && 0.0 <= reliability <= 1.0)
  {
  }

  // ----- the coefficients and the terms

  lemma {:induction false} CombOutside(n: nat, k: nat)
    requires k > n
    ensures Comb(n, k) == 0
  {
    if n > 0 {
      CombOutside(n - 1, k - 1);
      CombOutside(n - 1, k);
    }
  }

  lemma {:induction false} CombAll(n: nat)
    ensures Comb(n, n) == 1
  {
    if n > 0 {
      CombAll(n - 1);
      CombOutside(n - 1, n);
    }
  }

  /** Pascal's rule gives n! / (k! (n - k)!). */
  lemma {:induction false} CombIsFactorialQuotient(n: nat, k: nat)
    requires k <= n
    ensures Comb(n, k) * (Factorial(k) * Factorial(n - k)) == Factorial(n)
  {
    if k == 0 {
    } else if k == n {
      CombAll(n);
    } else {
      CombIsFactorialQuotient(n - 1, k - 1);
      CombIsFactorialQuotient(n - 1, k);
      var a, b := Comb(n - 1, k - 1), Comb(n - 1, k);
      var f, g := Factorial(k - 1), Factorial(n - k - 1);
      FactorialSplit(a, b, f, g, k, n, Factorial(n - 1));
    }
  }

  lemma FactorialSplit(a: nat, b: nat, f: nat, g: nat, k: nat, n: nat, h: nat)
    requires 0 < k < n && a * (f * ((n - k) * g)) == h && b * ((k * f) * g) == h
    ensures (a + b) * ((k * f) * ((n - k) * g)) == n * h
  {
    var x := f * g;
    assert f * ((n - k) * g) == (n - k) * x;
    assert (k * f) * g == k * x;
    assert (k * f) * ((n - k) * g) == k * ((n - k) * x);
    calc {
      (a + b) * (k * ((n - k) * x));
      k * (a * ((n - k) * x)) + (n - k) * (b * (k * x));
      k * h + (n - k) * h;
      n * h;
    }
  }

  lemma NonNegativeProduct(a: real, b: real)
    requires a >= 0.0 && b >= 0.0
    ensures a * b >= 0.0
  {
  }

  lemma Shrinks(p: real, x: real, y: real)
    requires 0.0 <= p <= 1.0 && 0.0 <= x <= 1.0 && y == p * x
    ensures 0.0 <= y <= 1.0
  {
    NonNegativeProduct(p, x);
    NonNegativeProduct(1.0 - p, x);
    assert (1.0 - p) * x == x - p * x;
  }

  lemma {:induction false} PowIn(p: real, n: nat)
    requires 0.0 <= p <= 1.0
    ensures 0.0 <= Pow(p, n) <= 1.0
  {
    if n > 0 {
      PowIn(p, n - 1);
      Shrinks(p, Pow(p, n - 1), Pow(p, n));
    }
  }

  lemma TermNonNegative(n: nat, i: nat, p: real)
    requires 0.0 <= p <= 1.0
    ensures Term(n, i, p) >= 0.0
  {
    if i <= n {
      PowIn(p, i);
      PowIn(1.0 - p, n - i);
      NonNegativeProduct(Comb(n, i) as real, Pow(p, i));
      NonNegativeProduct(Comb(n, i) as real * Pow(p, i), Pow(1.0 - p, n - i));
    }
  }

  /** What follows a success with probability p and a failure otherwise. */
  function Mix(p: real, a: real, b: real): real {
    p * a + (1.0 - p) * b
  }

  lemma MixSums(p: real, a: real, b: real, c: real, d: real)
    ensures Mix(p, a, b) + Mix(p, c, d) == Mix(p, a + c, b + d)
  {
    assert p * (a + c) == p * a + p * c;
    assert (1.0 - p) * (b + d) == (1.0 - p) * b + (1.0 - p) * d;
  }

  lemma MixMonotone(p: real, q: real, a: real, b: real, a': real, b': real)
    requires 0.0 <= p <= q <= 1.0 && a <= a' && b <= b' <= a'
    ensures Mix(p, a, b) <= Mix(q, a', b')
  {
    NonNegativeProduct(p, a' - a);
    assert p * (a' - a) == p * a' - p * a;
    NonNegativeProduct(1.0 - p, b' - b);
    assert (1.0 - p) * (b' - b) == (1.0 - p) * b' - (1.0 - p) * b;
    NonNegativeProduct(q - p, a' - b');
    assert (q - p) * (a' - b') == q * a' - q * b' - p * a' + p * b';
    assert (1.0 - q) * b' == b' - q * b';
    assert (1.0 - p) * b' == b' - p * b';
  }

  /** The last episode either succeeds or fails. */
  lemma TermStep(n: nat, i: nat, p: real)
    requires n > 0 && i > 0
    ensures Term(n, i, p) == Mix(p, Term(n - 1, i - 1, p), Term(n - 1, i, p))
  {
    if i < n {
      hide Mix, Weight;
      assert n - 1 - (i - 1) == n - i && Comb(n, i) == Comb(n - 1, i - 1) + Comb(n - 1, i);
      WeightStep(p, Comb(n - 1, i - 1) as real, Comb(n - 1, i) as real,
                 Pow(p, i - 1), Pow(p, i), Pow(1.0 - p, n - 1 - i), Pow(1.0 - p, n - i));
    } else if i == n {
      TermAll(n, p);
      TermAll(n - 1, p);
    }
  }

  /** Either the last episode succeeded, one of a ways, or it failed, one of b. */
  lemma WeightStep(p: real, a: real, b: real, x: real, px: real, y: real, qy: real)
    requires px == p * x && qy == (1.0 - p) * y
    ensures Weight(a + b, px, qy) == Mix(p, Weight(a, x, qy), Weight(b, px, y))
  {
    assert (a + b) * px * qy == a * px * qy + b * px * qy;
    assert a * px * qy == p * (a * x * qy);
    assert b * px * qy == (1.0 - p) * (b * px * y);
  }

  lemma TermAll(n: nat, p: real)
    ensures Term(n, n, p) == Pow(p, n)
  {
    CombAll(n);
  }

  // ----- the tail

  /** The summed tail satisfies the recurrence on the last episode. */
  lemma {:induction false} TailRecurrence(n: nat, k: nat, p: real)
    requires n > 0 && k > 0
    ensures Tail(n, k, p) == Mix(p, Tail(n - 1, k - 1, p), Tail(n - 1, k, p))
    decreases n + 1 - k
  {
    if k <= n {
      hide Mix, Term;
      TermStep(n, k, p);
      TailRecurrence(n, k + 1, p);
      MixSums(p, Term(n - 1, k - 1, p), Term(n - 1, k, p), Tail(n - 1, k, p), Tail(n - 1, k + 1, p));
      TailOpens(n - 1, k - 1, p);
      TailOpens(n - 1, k, p);
    }
  }

  lemma TailOpens(n: nat, k: nat, p: real)
    ensures Tail(n, k, p) == Term(n, k, p) + Tail(n, k + 1, p)
  {
  }

  /** All outcomes together have probability one. */
  lemma {:induction false} TailTotal(n: nat, p: real)
    ensures Tail(n, 0, p) == 1.0
  {
    if n == 0 {
      assert Tail(0, 1, p) == 0.0;
      assert Term(0, 0, p) == 1.0;
    } else {
      TailTotal(n - 1, p);
      TailRecurrence(n, 1, p);
      assert Term(n, 0, p) == Mix(p, 0.0, Term(n - 1, 0, p));
      assert Tail(n - 1, 0, p) == Term(n - 1, 0, p) + Tail(n - 1, 1, p);
      MixSums(p, 0.0, Term(n - 1, 0, p), Tail(n - 1, 0, p), Tail(n - 1, 1, p));
    }
  }

  lemma {:induction false} TailIn(n: nat, k: nat, p: real)
    requires 0.0 <= p <= 1.0
    ensures 0.0 <= Tail(n, k, p) <= 1.0
    decreases k
  {
    if k == 0 {
      TailTotal(n, p);
    } else {
      TailIn(n, k - 1, p);
      TailNonNegative(n, k, p);
      if k <= n {
        TermNonNegative(n, k - 1, p);
      }
    }
  }

  lemma {:induction false} TailNonNegative(n: nat, k: nat, p: real)
    requires 0.0 <= p <= 1.0
    ensures Tail(n, k, p) >= 0.0
    decreases n + 1 - k
  {
    if k <= n {
      TermNonNegative(n, k, p);
      TailNonNegative(n, k + 1, p);
    }
  }

  /** Demanding more successes never makes a gate easier. */
  lemma {:induction false} TailFallsInRequired(n: nat, k: nat, k': nat, p: real)
    requires 0.0 <= p <= 1.0 && k <= k'
    ensures Tail(n, k', p) <= Tail(n, k, p)
    decreases k' - k
  {
    if k < k' {
      TailFallsInRequired(n, k + 1, k', p);
      TermNonNegative(n, k, p);
    }
  }

  /** A more reliable policy never clears a gate less often. */
  lemma {:induction false} TailRisesInReliability(n: nat, k: nat, p: real, q: real)
    requires 0.0 <= p <= q <= 1.0
    ensures Tail(n, k, p) <= Tail(n, k, q)
    decreases n
  {
    hide Mix, Term;
    if k == 0 {
      TailTotal(n, p);
      TailTotal(n, q);
    } else if n > 0 {
      TailRecurrence(n, k, p);
      TailRecurrence(n, k, q);
      TailRisesInReliability(n - 1, k - 1, p, q);
      TailRisesInReliability(n - 1, k, p, q);
      TailFallsInRequired(n - 1, k - 1, k, q);
      MixMonotone(p, q, Tail(n - 1, k - 1, p), Tail(n - 1, k, p), Tail(n - 1, k - 1, q), Tail(n - 1, k, q));
    }
  }

  /** A gate with no allowed failure passes with probability p^n: 10.7% for ten episodes at 0.8. */
  lemma PerfectGate(n: nat, p: real)
    ensures Tail(n, n, p) == Pow(p, n)
  {
    TermAll(n, p);
    assert Tail(n, n + 1, p) == 0.0;
  }

  /** A perfectly reliable policy clears every gate. */
  lemma {:induction false} CertainPolicy(n: nat, k: nat)
    requires k <= n
    ensures Tail(n, k, 1.0) == 1.0
    decreases n
  {
    if k == 0 {
      TailTotal(n, 1.0);
    } else {
      TailRecurrence(n, k, 1.0);
      CertainPolicy(n - 1, k - 1);
    }
  }

  /** The laws together, over the function the source exports. */
  lemma GateLaws(n: int, k: int, k': int, p: real, p': real)
    requires GatePassProbability(n, k, p).Ok?
    ensures 0.0 <= GatePassProbability(n, k, p).value <= 1.0
    ensures GatePassProbability(n, k', p).Ok? && k <= k'
      ==> GatePassProbability(n, k', p).value <= GatePassProbability(n, k, p).value
    ensures GatePassProbability(n, k, p').Ok? && p <= p'
      ==> GatePassProbability(n, k, p).value <= GatePassProbability(n, k, p').value
  {
    TailIn(n, k, p);
    if GatePassProbability(n, k', p).Ok? && k <= k' { TailFallsInRequired(n, k, k', p); }
    if GatePassProbability(n, k, p').Ok? && p <= p' { TailRisesInReliability(n, k, p, p'); }
  }

  // ----- the bisection

  const ROUNDS: nat := 200

  /**
   minimum_reliability_for.  The result reaches the target whenever any reliability does,
   and no reliability that reaches it lies more than 2^-200 below.
   */
  method MinimumReliabilityFor(episodes: int, required: int, target: real) returns (r: Result<real, GateError>)
    ensures r.Ok? <==> episodes > 0 && 0 <= required <= episodes
    ensures r.Err? ==> r.error == if episodes <= 0 then NoEpisodes else RequiredOutOfRange
    ensures r.Ok? ==> 0.0 < r.value <= 1.0 && (Tail(episodes, required, r.value) >= target <==> target <= 1.0)
    ensures r.Ok? ==>
      forall p :: 0.0 <= p <= 1.0 && Tail(episodes, required, p) >= target ==> r.value - p <= Pow(0.5, ROUNDS)
    ensures r.Ok? && target > 1.0 ==> r.value == 1.0
  {
    var low, high := 0.0, 1.0;
    if 0 <= required <= episodes {
      CertainPolicy(episodes, required);
    }
    for i := 0 to ROUNDS
      invariant i > 0 ==> episodes > 0 && 0 <= required <= episodes
      invariant 0.0 <= low < high <= 1.0 && high - low == Pow(0.5, i)
      invariant 0 < episodes && 0 <= required <= episodes ==> low == 0.0 || Tail(episodes, required, low) < target
      invariant 0 < episodes && 0 <= required <= episodes ==> high == 1.0 || Tail(episodes, required, high) >= target
    {
      var middle := (low + high) / 2.0;
      var passes := GatePassProbability(episodes, required, middle);
      if passes.Err? {
        return Err(passes.error);
      }
      if passes.value < target {
        low := middle;
      } else {
        high := middle;
      }
    }
    TailIn(episodes, required, high);
    forall p | 0.0 <= p <= 1.0 && Tail(episodes, required, p) >= target ensures high - p <= Pow(0.5, ROUNDS) {
      if p < low {
        TailRisesInReliability(episodes, required, p, low);
      }
    }
    return Ok(high);
  }
}
