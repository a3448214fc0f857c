/** evaluation_seeds: one family of seeds per base seed, walked apart by a fixed stride. */
module EvaluationSeeds {
  import opened Arithmetic
  import opened Wrappers

  const STRIDE := 1000

  datatype SeedError = NegativeEpisodes | NoBaseSeeds | RepeatedBaseSeed | BaseSeedTooLarge

  predicate Distinct(s: seq<int>) {
    forall i, j :: 0 <= i < j < |s| ==> s[i] != s[j]
  }

  predicate BelowStride(s: seq<int>) {
    forall i :: 0 <= i < |s| ==> s[i] < STRIDE
  }

  /** The seed at one index: the base seed in turn, one stride further on every round. */
  function SeedAt(bases: seq<int>, index: nat): int
    requires bases != []
  {
    bases[index % |bases|] + index / |bases| * STRIDE
  }

  function Seeds(bases: seq<int>, episodes: nat): (s: seq<int>)
    requires bases != []
    ensures |s| == episodes && forall i :: 0 <= i < episodes ==> s[i] == SeedAt(bases, i)
  {
    seq(episodes, i requires 0 <= i < episodes => SeedAt(bases, i))
  }

  function EvaluationSeeds(bases: seq<int>, episodes: int): Result<seq<int>, SeedError> {
    if episodes < 0 then Err(NegativeEpisodes)
    else if bases == [] then Err(NoBaseSeeds)
    else if !Distinct(bases) then Err(RepeatedBaseSeed)
    else if !BelowStride(bases) then Err(BaseSeedTooLarge)
    else Ok(Seeds(bases, episodes))
  }

  /** Which requests are answered, and what is wrong with each other one. */
  lemma SeedsAnswered(bases: seq<int>, episodes: int)
    ensures var r := EvaluationSeeds(bases, episodes);
      var repeated := exists i, j :: 0 <= i < j < |bases| && bases[i] == bases[j];
      var large := exists i :: 0 <= i < |bases| && bases[i] >= 1000;
      && (r == Err(NegativeEpisodes) <==> episodes < 0)
      && (r == Err(NoBaseSeeds) <==> episodes >= 0 && |bases| == 0)
      && (r == Err(RepeatedBaseSeed) <==> episodes >= 0 && repeated)
      && (r == Err(BaseSeedTooLarge) <==> episodes >= 0 && !repeated && large)
      && (r.Ok? <==> episodes >= 0 && |bases| > 0 && !repeated && !large)
  {
  }

  function Residues(bases: seq<int>): (r: seq<int>)
    ensures |r| == |bases|
  {
    seq(|bases|, i requires 0 <= i < |bases| => bases[i] % STRIDE)
  }

  /** The first round is the base seeds in their order, and every round is the one before it, one stride on. */
  lemma RoundsAre(bases: seq<int>, episodes: nat, i: nat)
    requires bases != [] && i < episodes
    ensures Seeds(bases, episodes)[i]
      == if i < |bases| then bases[i] else Seeds(bases, episodes)[i - |bases|] + 1000
  {
    var count := |bases|;
    if i < count {
      IndexOf(count, i, 0);
    } else {
      var q := i / count;
      DivMeans(i, count);
      IndexOf(count, i - q * count, q);
      IndexOf(count, i - q * count, q - 1);
      assert (q - 1) * count == q * count - count;
    }
  }

  /** Index arithmetic: the index of base i in round q, and back. */
  lemma IndexOf(count: nat, i: nat, q: nat)
    requires i < count
    ensures (i + q * count) % count == i && (i + q * count) / count == q
  {
    QuotientIs(i + q * count, count, q);
  }

  lemma SameSeed(bases: seq<int>, x: nat, y: nat)
    requires bases != [] && Distinct(Residues(bases)) && SeedAt(bases, x) == SeedAt(bases, y)
    ensures x == y
  {
    var count := |bases|;
    var i, j := x % count, y % count;
    var r := Residues(bases);
    assert r[i] == SeedAt(bases, x) % STRIDE;
    assert r[j] == SeedAt(bases, y) % STRIDE;
    assert i == j;
    assert x / count == y / count;
    assert x == x / count * count + i && y == y / count * count + j;
  }

  /** Two base seeds in one residue class meet after as many rounds as strides lie between them. */
  lemma ResiduesCollide(bases: seq<int>, i: nat, j: nat) returns (x: nat, y: nat)
    requires i < j < |bases| && bases[i] % STRIDE == bases[j] % STRIDE
    ensures x != y && SeedAt(bases, x) == SeedAt(bases, y)
  {
    var d := bases[i] / STRIDE - bases[j] / STRIDE;
    assert bases[i] - bases[j] == d * STRIDE;
    var count := |bases|;
    var p, q: nat := if d < 0 then -d else 0, if d > 0 then d else 0;
    x, y := i + p * count, j + q * count;
    IndexOf(count, i, p);
    IndexOf(count, j, q);
  }

  /**
   The exact condition for what the documentation promises: no collision at any episode
   count, precisely when no two base seeds are congruent modulo the stride.
   */
  lemma NeverCollideIff(bases: seq<int>)
    requires bases != []
    ensures (forall episodes: nat :: Distinct(Seeds(bases, episodes))) <==> Distinct(Residues(bases))
  {
    if Distinct(Residues(bases)) {
      forall episodes: nat ensures Distinct(Seeds(bases, episodes)) {
        var s := Seeds(bases, episodes);
        forall x, y | 0 <= x < y < |s| ensures s[x] != s[y] {
          if s[x] == s[y] { SameSeed(bases, x, y); }
        }
      }
    } else {
      var r := Residues(bases);
      var i, j :| 0 <= i < j < |r| && r[i] == r[j];
      var x, y := ResiduesCollide(bases, i, j);
      var s := Seeds(bases, x + y + 1);
      assert s[x] == s[y];
      assert !Distinct(s);
    }
  }

  /** Non-negative base seeds that pass the source's checks never collide. */
  lemma NonNegativeNeverCollide(bases: seq<int>, episodes: nat)
    requires EvaluationSeeds(bases, episodes).Ok? && forall i :: 0 <= i < |bases| ==> bases[i] >= 0
    ensures Distinct(EvaluationSeeds(bases, episodes).value)
  {
    assert forall i :: 0 <= i < |bases| ==> Residues(bases)[i] == bases[i];
    NeverCollideIff(bases);
  }

  /** The checks let negative base seeds through, and then seeds can repeat. */
  lemma NegativeBaseSeedCollides()
    ensures EvaluationSeeds([0, -1000], 4).Ok?
    ensures !Distinct(EvaluationSeeds([0, -1000], 4).value)
  {
    var s := Seeds([0, -1000], 4);
    assert s[0] == s[3];
  }

  /** A shorter evaluation scores a prefix of a longer one. */
  lemma ShorterIsPrefix(bases: seq<int>, few: nat, many: nat)
    requires few <= many && EvaluationSeeds(bases, many).Ok?
    ensures EvaluationSeeds(bases, few) == Ok(EvaluationSeeds(bases, many).value[..few])
  {
    assert Seeds(bases, few) == Seeds(bases, many)[..few];
  }
}
