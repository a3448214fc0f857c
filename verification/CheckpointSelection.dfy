/**
 Seed-isolated checkpoint selection: evaluation on selection seeds only, the ranking keys,
 `max` against the stable reverse sort that explains it, and the acceptance verdicts.
 */
module CheckpointSelection {
  import opened Arithmetic
  import opened Wrappers

  datatype SelectionError =
    | NoEpisodes
    | UnknownKind
    | NoCandidates
    | NotSelectionEvidence
    | NotTheWinner
    | SeedRoles
    | EpisodeCount
    | UndeclaredSeed
    | UnknownCriterion

  datatype Role = Selection | Final

  /** One evaluated episode; the optional entries may be missing from its dictionary. */
  datatype Episode = Episode(
    seed: Option<int>, reward: real, length: real, velocity: Option<real>,
    fell: Option<bool>, terminated: Option<bool>, reason: Option<string>)

  function Velocity(e: Episode): real {
    if e.velocity.Some? then e.velocity.value else 0.0
  }

  /** `ref` is the object's identity, which the explanation compares with `is`. */
  datatype Evidence = Evidence(ref: int, step: int, sha256: string, role: Role, episodes: seq<Episode>)

  datatype Aggregate = Aggregate(
    meanReward: real, meanLength: real, meanVelocity: real, minVelocity: real, noFalls: nat)

  function Sum(s: seq<real>): real {
    if s == [] then 0.0 else Sum(s[..|s| - 1]) + s[|s| - 1]
  }

  function Mean(s: seq<real>): real
    requires s != []
  {
    Sum(s) / |s| as real
  }

  function Minimum(s: seq<real>): (m: real)
    requires s != []
    ensures exists i :: 0 <= i < |s| && s[i] == m
    ensures forall i :: 0 <= i < |s| ==> m <= s[i]
  {
    var n := |s| - 1;
    if n == 0 then s[0]
    else
      var m := Minimum(s[..n]);
      if s[n] < m then s[n] else m
  }

  function NoFalls(s: seq<Episode>): nat {
    if s == [] then 0 else NoFalls(s[..|s| - 1]) + if s[|s| - 1].fell == Some(true) then 0 else 1
  }

  function Rewards(s: seq<Episode>): (r: seq<real>)
    ensures |r| == |s| && forall i :: 0 <= i < |s| ==> r[i] == s[i].reward
  {
    seq(|s|, i requires 0 <= i < |s| => s[i].reward)
  }

  function Lengths(s: seq<Episode>): (r: seq<real>)
    ensures |r| == |s| && forall i :: 0 <= i < |s| ==> r[i] == s[i].length
  {
    seq(|s|, i requires 0 <= i < |s| => s[i].length)
  }

  function Velocities(s: seq<Episode>): (r: seq<real>)
    ensures |r| == |s| && forall i :: 0 <= i < |s| ==> r[i] == if s[i].velocity.Some? then s[i].velocity.value else 0.0
  {
    seq(|s|, i requires 0 <= i < |s| => Velocity(s[i]))
  }

  /** EvaluationEvidence.aggregate. */
  function Aggregated(e: Evidence): Result<Aggregate, SelectionError> {
    if e.episodes == [] then Err(NoEpisodes)
    else Ok(Aggregate(
      Mean(Rewards(e.episodes)), Mean(Lengths(e.episodes)), Mean(Velocities(e.episodes)), Minimum(Velocities(e.episodes)),
      NoFalls(e.episodes)))
  }

  // ----- what the aggregate adds up

  /** A sum is its parts'; with the sum of one this fixes it. */
  lemma {:induction false} SumOfParts(a: seq<real>, b: seq<real>)
    ensures Sum(a + b) == Sum(a) + Sum(b)
    ensures |b| == 1 ==> Sum(b) == b[0]
  {
    if b == [] {
      assert a + b == a;
    } else {
      var n := |b| - 1;
      SumOfParts(a, b[..n]);
      assert (a + b)[..|a| + n] == a + b[..n];
    }
  }

  /** The episodes that did not fall. */
  function Upright(s: seq<Episode>): set<nat> {
    set i: nat | i < |s| && s[i].fell != Some(true)
  }

  lemma {:induction false} UprightCounts(s: seq<Episode>)
    ensures NoFalls(s) == |Upright(s)|
  {
    if s != [] {
      var n := |s| - 1;
      UprightCounts(s[..n]);
      assert Upright(s) == Upright(s[..n]) + if s[n].fell != Some(true) then {n} else {};
    }
  }

  type Key = seq<real>

  predicate Ranked(kind: string) {
    kind == "mean_reward" || kind == "locomotion"
  }

  function KeyOf(a: Aggregate, step: int, kind: string): Key {
    if kind == "mean_reward" then [a.meanReward, a.meanLength, -(step as real)]
    else [a.noFalls as real, a.minVelocity, a.meanLength, a.meanVelocity, a.meanReward, -(step as real)]
  }

  /** rank_key; the aggregate is taken before the kind is looked at. */
  function RankKey(e: Evidence, kind: string): Result<Key, SelectionError> {
    match Aggregated(e)
    case Err(error) => Err(error)
    case Ok(a) => if Ranked(kind) then Ok(KeyOf(a, e.step, kind)) else Err(UnknownKind)
  }

  // ----- tuple order

  /** Python's order on tuples: the first difference decides, and a proper prefix is smaller. */
  predicate Less(a: Key, b: Key) {
    if b == [] then false
    else if a == [] then true
    else if a[0] != b[0] then a[0] < b[0]
    else Less(a[1..], b[1..])
  }

  lemma {:induction false} LessIrreflexive(a: Key)
    ensures !Less(a, a)
  {
    if a != [] { LessIrreflexive(a[1..]); }
  }

  lemma {:induction false} LessTransitive(a: Key, b: Key, c: Key)
    requires Less(a, b) && Less(b, c)
    ensures Less(a, c)
  {
    if a != [] && a[0] == b[0] == c[0] {
      LessTransitive(a[1..], b[1..], c[1..]);
    }
  }

  lemma {:induction false} LessTotal(a: Key, b: Key)
    ensures Less(a, b) || Less(b, a) || a == b
  {
    if a != [] && b != [] {
      LessTotal(a[1..], b[1..]);
      assert a == [a[0]] + a[1..] && b == [b[0]] + b[1..];
    }
  }

  // ----- max

  /** Python's `max`: the first position no later position beats. */
  function FirstMax(keys: seq<Key>): (m: nat)
    requires keys != []
    ensures m < |keys|
  {
    var n := |keys| - 1;
    if n == 0 then 0
    else
      var m := FirstMax(keys[..n]);
      if Less(keys[m], keys[n]) then n else m
  }

  /** Position m holds a greatest key, and no earlier position holds an equal one. */
  predicate IsFirstMax(keys: seq<Key>, m: nat) {
    && m < |keys|
    && (forall j :: 0 <= j < |keys| ==> !Less(keys[m], keys[j]))
    && (forall j :: 0 <= j < m ==> keys[j] != keys[m])
  }

  lemma {:induction false} FirstMaxMeans(keys: seq<Key>)
    requires keys != []
    ensures IsFirstMax(keys, FirstMax(keys))
  {
    var n := |keys| - 1;
    LessIrreflexive(keys[n]);
    if n > 0 {
      var m := FirstMax(keys[..n]);
      FirstMaxMeans(keys[..n]);
      LessIrreflexive(keys[m]);
      if Less(keys[m], keys[n]) {
        forall j | 0 <= j < n ensures !Less(keys[n], keys[j]) && keys[j] != keys[n] {
          assert keys[..n][j] == keys[j];
          if Less(keys[n], keys[j]) { LessTransitive(keys[m], keys[n], keys[j]); }
        }
      } else {
        forall j | 0 <= j < n ensures !Less(keys[m], keys[j]) { assert keys[..n][j] == keys[j]; }
        forall j | 0 <= j < m ensures keys[j] != keys[m] { assert keys[..n][j] == keys[j]; }
      }
    }
  }

  lemma FirstMaxIsUnique(keys: seq<Key>, m: nat, m': nat)
    requires IsFirstMax(keys, m) && IsFirstMax(keys, m')
    ensures m == m'
  {
    LessTotal(keys[m], keys[m']);
  }

  // ----- sorted(..., reverse=True)

  /** Positions in order: non-increasing keys, and among equal keys the input order. */
  predicate InOrder(keys: seq<Key>, a: nat, b: nat)
    requires a < |keys| && b < |keys|
  {
    !Less(keys[a], keys[b]) && (keys[a] == keys[b] ==> a < b)
  }

  /** Insert a later position behind every position whose key is at least as great. */
  function Insert(keys: seq<Key>, order: seq<nat>, p: nat): (r: seq<nat>)
    requires p < |keys| && forall i :: 0 <= i < |order| ==> order[i] < |keys|
    ensures |r| == |order| + 1 && forall i :: 0 <= i < |r| ==> r[i] == p || r[i] in order
  {
    if order == [] then [p]
    else if Less(keys[order[0]], keys[p]) then [p] + order
    else [order[0]] + Insert(keys, order[1..], p)
  }

  /** The first n positions, stably sorted by descending key. */
  function Sorted(keys: seq<Key>, n: nat): (r: seq<nat>)
    requires n <= |keys|
    ensures |r| == n && forall i :: 0 <= i < n ==> r[i] < n
  {
    if n == 0 then [] else Insert(keys, Sorted(keys, n - 1), n - 1)
  }

  predicate AllInOrder(keys: seq<Key>, order: seq<nat>) {
    && (forall i :: 0 <= i < |order| ==> order[i] < |keys|)
    && (forall i, j :: 0 <= i < j < |order| ==> InOrder(keys, order[i], order[j]))
  }

  lemma {:induction false} InsertInOrder(keys: seq<Key>, order: seq<nat>, p: nat)
    requires p < |keys| && AllInOrder(keys, order) && forall i :: 0 <= i < |order| ==> order[i] < p
    ensures AllInOrder(keys, Insert(keys, order, p))
  {
    var r := Insert(keys, order, p);
    if order == [] {
    } else if Less(keys[order[0]], keys[p]) {
      forall j | 0 <= j < |order| ensures InOrder(keys, p, order[j]) {
        BelowHead(keys, order, j, p);
      }
    } else {
      var rest := Insert(keys, order[1..], p);
      InsertInOrder(keys, order[1..], p);
      assert r == [order[0]] + rest;
      forall j | 0 <= j < |rest| ensures InOrder(keys, order[0], rest[j]) {
        if rest[j] != p {
          var k :| 0 <= k < |order[1..]| && order[1..][k] == rest[j];
          assert order[k + 1] == rest[j];
        }
      }
      forall i, j | 0 <= i < j < |r| ensures InOrder(keys, r[i], r[j]) {
        if i > 0 { assert r[i] == rest[i - 1] && r[j] == rest[j - 1]; }
        else { assert r[j] == rest[j - 1]; }
      }
    }
  }

  /** A key above the head of a descending list is above all of it. */
  lemma BelowHead(keys: seq<Key>, order: seq<nat>, j: nat, p: nat)
    requires AllInOrder(keys, order) && j < |order| && p < |keys| && Less(keys[order[0]], keys[p])
    ensures Less(keys[order[j]], keys[p])
    ensures InOrder(keys, p, order[j])
  {
    var h, k, t := keys[order[0]], keys[order[j]], keys[p];
    if j > 0 {
      assert InOrder(keys, order[0], order[j]);
      LessTotal(h, k);
      if k != h { LessTransitive(k, h, t); }
    }
    LessIrreflexive(k);
    if Less(t, k) { LessTransitive(k, t, k); }
  }

  /** The sort is stable and descending. */
  lemma {:induction false} SortedInOrder(keys: seq<Key>, n: nat)
    requires n <= |keys|
    ensures AllInOrder(keys, Sorted(keys, n))
  {
    if n > 0 {
      hide AllInOrder, Insert;
      SortedInOrder(keys, n - 1);
      InsertInOrder(keys, Sorted(keys, n - 1), n - 1);
    }
  }

  lemma {:induction false} InsertKeeps(keys: seq<Key>, order: seq<nat>, p: nat)
    requires p < |keys| && forall i :: 0 <= i < |order| ==> order[i] < |keys|
    ensures multiset(Insert(keys, order, p)) == multiset(order) + multiset{p}
  {
    if order != [] && !Less(keys[order[0]], keys[p]) {
      InsertKeeps(keys, order[1..], p);
      assert order == [order[0]] + order[1..];
    }
  }

  function Positions(n: nat): multiset<nat> {
    if n == 0 then multiset{} else Positions(n - 1) + multiset{n - 1 as nat}
  }

  lemma {:induction false} PositionsAll(n: nat, j: nat)
    ensures j in Positions(n) <==> j < n
  {
    if n > 0 { PositionsAll(n - 1, j); }
  }

  /** The sort loses and repeats nothing. */
  lemma {:induction false} SortedKeeps(keys: seq<Key>, n: nat)
    requires n <= |keys|
    ensures multiset(Sorted(keys, n)) == Positions(n)
  {
    if n > 0 {
      SortedKeeps(keys, n - 1);
      InsertKeeps(keys, Sorted(keys, n - 1), n - 1);
    }
  }

  /** Any stable descending arrangement of all positions starts with the position `max` returns. */
  lemma HeadIsFirstMax(keys: seq<Key>, order: seq<nat>)
    requires keys != [] && AllInOrder(keys, order) && multiset(order) == Positions(|keys|)
    ensures |order| > 0 && order[0] == FirstMax(keys)
  {
    PositionsAll(|keys|, 0);
    assert 0 in multiset(order);
    var h := order[0];
    forall j: nat | j < |keys| ensures !Less(keys[h], keys[j]) && (j < h ==> keys[j] != keys[h]) {
      PositionsAll(|keys|, j);
      assert j in multiset(order);
      var i :| 0 <= i < |order| && order[i] == j;
      if i == 0 { LessIrreflexive(keys[h]); } else { assert InOrder(keys, order[0], order[i]); }
    }
    FirstMaxMeans(keys);
    FirstMaxIsUnique(keys, h, FirstMax(keys));
  }

  // ----- selection and its explanation

  /** The keys of all candidates, or the first error met taking them in order. */
  function Keys(values: seq<Evidence>, kind: string): (r: Result<seq<Key>, SelectionError>)
    ensures r.Ok? ==> |r.value| == |values|
    ensures r.Ok? ==> forall i :: 0 <= i < |values| ==> RankKey(values[i], kind) == Ok(r.value[i])
    ensures r.Err? ==> exists i :: 0 <= i < |values| && RankKey(values[i], kind) == Err(r.error)
  {
    if values == [] then Ok([])
    else
      var n := |values| - 1;
      match Keys(values[..n], kind)
      case Err(error) => assert values[..n] <= values; Err(error)
      case Ok(keys) =>
        match RankKey(values[n], kind)
        case Err(error) => Err(error)
        case Ok(key) => Ok(keys + [key])
  }

  /** select_checkpoint. */
  function SelectCheckpoint(values: seq<Evidence>, kind: string): Result<Evidence, SelectionError> {
    if values == [] then Err(NoCandidates)
    else if exists i :: 0 <= i < |values| && values[i].role != Selection then Err(NotSelectionEvidence)
    else
      match Keys(values, kind)
      case Err(error) => Err(error)
      case Ok(keys) => Ok(values[FirstMax(keys)])
  }

  datatype Description = Description(step: int, sha256: string, values: Key)

  datatype Explanation = Explanation(count: nat, selected: Description, runnerUp: Option<Description>)

  /** explain_ranking. */
  function ExplainRanking(values: seq<Evidence>, selected: Evidence, kind: string): Result<Explanation, SelectionError> {
    if !Ranked(kind) then Err(UnknownKind)
    else
      match Keys(values, kind)
      case Err(error) => Err(error)
      case Ok(keys) =>
        var order := Sorted(keys, |keys|);
        if order == [] || values[order[0]].ref != selected.ref then Err(NotTheWinner)
        else
          Ok(Explanation(|order|, Describe(values[order[0]], keys[order[0]]),
                         if |order| > 1 then Some(Describe(values[order[1]], keys[order[1]])) else None))
  }

  function Describe(e: Evidence, key: Key): Description {
    Description(e.step, e.sha256, key)
  }

  /** What selection accepts, and that the winner is the first candidate no other beats. */
  lemma SelectMeans(values: seq<Evidence>, kind: string)
    ensures SelectCheckpoint(values, kind).Ok? <==>
      && values != []
      && (forall i :: 0 <= i < |values| ==> values[i].role == Selection && values[i].episodes != [])
      && Ranked(kind)
    ensures SelectCheckpoint(values, kind).Ok? ==> Keys(values, kind).Ok?
    ensures SelectCheckpoint(values, kind).Ok? ==>
      var keys := Keys(values, kind).value;
      IsFirstMax(keys, FirstMax(keys)) && SelectCheckpoint(values, kind).value == values[FirstMax(keys)]
  {
    hide Mean, Minimum, NoFalls, Sum, KeyOf, Less, IsFirstMax, FirstMax;
    if Keys(values, kind).Ok? && values != [] {
      FirstMaxMeans(Keys(values, kind).value);
      assert RankKey(values[0], kind).Ok?;
    }
  }

  /** The explanation accepts exactly the candidate selection returned, ties included. */
  lemma ExplanationAgrees(values: seq<Evidence>, kind: string, claimed: Evidence)
    requires SelectCheckpoint(values, kind).Ok?
    ensures ExplainRanking(values, claimed, kind).Ok? <==> claimed.ref == SelectCheckpoint(values, kind).value.ref
  {
    SelectMeans(values, kind);
    var keys := Keys(values, kind).value;
    SortedInOrder(keys, |keys|);
    SortedKeeps(keys, |keys|);
    HeadIsFirstMax(keys, Sorted(keys, |keys|));
  }

  /** What an explanation says: all candidates counted, the winner described, and the best of the rest. */
  lemma ExplanationMeans(values: seq<Evidence>, kind: string, claimed: Evidence) returns (w: nat, r: nat)
    requires ExplainRanking(values, claimed, kind).Ok?
    ensures Keys(values, kind).Ok? && ExplanationOf(ExplainRanking(values, claimed, kind).value, values,
                                                    Keys(values, kind).value, w, r)
  {
    hide Less, RankKey, IsFirstMax, IsRunnerUp, FirstMax, Sorted;
    var keys := Keys(values, kind).value;
    var order := Sorted(keys, |keys|);
    SortedInOrder(keys, |keys|);
    SortedKeeps(keys, |keys|);
    HeadIsFirstMax(keys, order);
    FirstMaxMeans(keys);
    w, r := order[0], 0;
    if |order| > 1 {
      r := order[1];
      SecondIsRunnerUp(keys, order);
    }
  }

  /** The explanation counts all candidates, describes the winner w, and the runner-up r if there is one. */
  predicate ExplanationOf(x: Explanation, values: seq<Evidence>, keys: seq<Key>, w: nat, r: nat)
    requires |keys| == |values|
  {
    && x.count == |values|
    && IsFirstMax(keys, w) && x.selected == Describe(values[w], keys[w])
    && match x.runnerUp
       case None => |values| == 1
       case Some(second) => IsRunnerUp(keys, w, r) && second == Describe(values[r], keys[r])
  }

  /** Position r holds a key that no position other than w beats. */
  predicate IsRunnerUp(keys: seq<Key>, w: nat, r: nat) {
    r < |keys| && r != w && forall j :: 0 <= j < |keys| && j != w ==> !Less(keys[r], keys[j])
  }

  lemma SecondIsRunnerUp(keys: seq<Key>, order: seq<nat>)
    requires AllInOrder(keys, order) && multiset(order) == Positions(|keys|) && |order| > 1
    ensures IsRunnerUp(keys, order[0], order[1])
  {
    var w, r := order[0], order[1];
    assert InOrder(keys, order[0], order[1]);
    LessIrreflexive(keys[r]);
    forall j: nat | j < |keys| && j != w ensures !Less(keys[r], keys[j]) {
      PositionsAll(|keys|, j);
      assert j in multiset(order);
      var i :| 0 <= i < |order| && order[i] == j;
      if i > 1 { assert InOrder(keys, order[1], order[i]); }
    }
  }

  /** Between candidates with the same aggregate, the earlier checkpoint wins whatever the list order. */
  lemma EarliestStepWins(values: seq<Evidence>, kind: string, j: nat)
    requires SelectCheckpoint(values, kind).Ok? && j < |values|
    requires Aggregated(values[j]) == Aggregated(SelectCheckpoint(values, kind).value)
    ensures SelectCheckpoint(values, kind).value.step <= values[j].step
  {
    hide Aggregated, Less, FirstMax, Keys;
    SelectMeans(values, kind);
    var keys := Keys(values, kind).value;
    var w := FirstMax(keys);
    var a := Aggregated(values[j]).value;
    assert keys[w] == KeyOf(a, values[w].step, kind) && keys[j] == KeyOf(a, values[j].step, kind);
    if values[w].step > values[j].step {
      LastDecides(KeyOf(a, values[w].step, kind), KeyOf(a, values[j].step, kind));
    }
  }

  lemma {:induction false} LastDecides(a: Key, b: Key)
    requires |a| == |b| > 0 && a[..|a| - 1] == b[..|b| - 1] && a[|a| - 1] < b[|b| - 1]
    ensures Less(a, b)
  {
    if |a| > 1 {
      assert a[0] == a[..|a| - 1][0] == b[..|b| - 1][0] == b[0];
      assert a[1..][..|a| - 2] == a[..|a| - 1][1..] == b[..|b| - 1][1..] == b[1..][..|b| - 2];
      LastDecides(a[1..], b[1..]);
    }
  }

  // ----- who wins

  /** Fewest falls, then the fastest slowest episode, then length, velocity and reward on average, then the earlier step. */
  ghost predicate RanksAsWell(w: Evidence, v: Evidence)
    requires w.episodes != [] && v.episodes != []
  {
    var x, y := w.episodes, v.episodes;
    |Upright(x)| > |Upright(y)| || (|Upright(x)| == |Upright(y)| && (
    var m, n := Minimum(Velocities(x)), Minimum(Velocities(y));
    m > n || (m == n && (
    Mean(Lengths(x)) > Mean(Lengths(y)) || (Mean(Lengths(x)) == Mean(Lengths(y)) && (
    Mean(Velocities(x)) > Mean(Velocities(y)) || (Mean(Velocities(x)) == Mean(Velocities(y)) && (
    Mean(Rewards(x)) > Mean(Rewards(y)) || (Mean(Rewards(x)) == Mean(Rewards(y)) && w.step <= v.step)))))))))
  }

  /** Reward on average, then length, then the earlier step. */
  ghost predicate RewardsAsWell(w: Evidence, v: Evidence)
    requires w.episodes != [] && v.episodes != []
  {
    var x, y := w.episodes, v.episodes;
    Mean(Rewards(x)) > Mean(Rewards(y)) || (Mean(Rewards(x)) == Mean(Rewards(y)) && (
    Mean(Lengths(x)) > Mean(Lengths(y)) || (Mean(Lengths(x)) == Mean(Lengths(y)) && w.step <= v.step)))
  }

  lemma NotLessFrom(a: Key, b: Key, k: nat)
    requires |a| == |b| && k < |a| && !Less(a[k..], b[k..])
    ensures a[k] > b[k] || (a[k] == b[k] && !Less(a[k + 1..], b[k + 1..]))
  {
    assert a[k..][1..] == a[k + 1..] && b[k..][1..] == b[k + 1..];
  }

  /** No candidate is better than the winner, measure by measure. */
  lemma WinnerRanks(values: seq<Evidence>, kind: string, j: nat)
    requires SelectCheckpoint(values, kind).Ok? && j < |values|
    ensures var w := SelectCheckpoint(values, kind).value;
      w.episodes != [] && values[j].episodes != []
      && (kind == "locomotion" ==> RanksAsWell(w, values[j]))
      && (kind == "mean_reward" ==> RewardsAsWell(w, values[j]))
  {
    hide Less, FirstMax, Keys, Mean, Upright, NoFalls, Minimum, RankKey;
    SelectMeans(values, kind);
    var keys := Keys(values, kind).value;
    var w := FirstMax(keys);
    WinnerKeys(values, kind, w, j);
    var a, b := keys[w], keys[j];
    assert a[0..] == a && b[0..] == b;
    NotLessFrom(a, b, 0);
    UprightCounts(values[w].episodes);
    UprightCounts(values[j].episodes);
    if a[0] == b[0] {
      NotLessFrom(a, b, 1);
      if a[1] == b[1] {
        NotLessFrom(a, b, 2);
        if kind == "locomotion" && a[2] == b[2] {
          NotLessFrom(a, b, 3);
          if a[3] == b[3] {
            NotLessFrom(a, b, 4);
            if a[4] == b[4] { NotLessFrom(a, b, 5); }
          }
        }
      }
    }
  }

  /** The values an explanation reports, measured on the episodes. */
  lemma RankKeyMeans(e: Evidence, kind: string)
    ensures RankKey(e, kind).Ok? <==> e.episodes != [] && (kind == "mean_reward" || kind == "locomotion")
    ensures var s := e.episodes;
      && (RankKey(e, kind).Ok? && kind == "mean_reward" ==>
            RankKey(e, kind).value == [Mean(Rewards(s)), Mean(Lengths(s)), -(e.step as real)])
      && (RankKey(e, kind).Ok? && kind == "locomotion" ==>
            RankKey(e, kind).value == [|Upright(s)| as real, Minimum(Velocities(s)), Mean(Lengths(s)), Mean(Velocities(s)),
                                       Mean(Rewards(s)), -(e.step as real)])
  {
    hide Mean, Minimum, NoFalls, Upright;
    UprightCounts(e.episodes);
  }

  lemma WinnerKeys(values: seq<Evidence>, kind: string, w: nat, j: nat)
    requires Keys(values, kind).Ok? && w < |values| && j < |values| && Ranked(kind)
    ensures values[w].episodes != [] && values[j].episodes != []
    ensures Keys(values, kind).value[w] == KeyOf(Aggregated(values[w]).value, values[w].step, kind)
    ensures Keys(values, kind).value[j] == KeyOf(Aggregated(values[j]).value, values[j].step, kind)
  {
    hide Less, FirstMax, Mean;
  }

  // ----- seed isolation

  /** validate_seed_roles. */
  predicate SeedRolesValid(selection: seq<int>, final: seq<int>) {
    selection != [] && final != [] && forall s :: s in selection ==> s !in final
  }

  /** A checkpoint on disk and what evaluating it on a schedule of seeds yields. */
  datatype Checkpoint = Checkpoint(ref: int, step: int, sha256: string)

  /** Every seed, each repeated `times` times in a row. */
  function Schedule(seeds: seq<int>, times: nat): seq<int> {
    if seeds == [] then [] else Schedule(seeds[..|seeds| - 1], times) + seq(times, _ => seeds[|seeds| - 1])
  }

  lemma {:induction false} ScheduleOnlySeeds(seeds: seq<int>, times: nat)
    ensures forall s :: s in Schedule(seeds, times) ==> s in seeds
  {
    if seeds != [] { ScheduleOnlySeeds(seeds[..|seeds| - 1], times); }
  }

  /** Seed k has its `times` places one after another, after those of the seeds before it. */
  lemma {:induction false} ScheduleAt(seeds: seq<int>, times: nat, k: nat, r: nat)
    requires k < |seeds| && r < times
    ensures |Schedule(seeds, times)| == |seeds| * times
    ensures k * times + r < |Schedule(seeds, times)| && Schedule(seeds, times)[k * times + r] == seeds[k]
  {
    var n := |seeds| - 1;
    ScheduleLength(seeds, times);
    ScheduleLength(seeds[..n], times);
    MulMono(k + 1, |seeds|, times);
    if k < n {
      ScheduleAt(seeds[..n], times, k, r);
    }
  }

  lemma {:induction false} ScheduleLength(seeds: seq<int>, times: nat)
    ensures |Schedule(seeds, times)| == |seeds| * times
  {
    if seeds != [] {
      ScheduleLength(seeds[..|seeds| - 1], times);
      assert |seeds| * times == (|seeds| - 1) * times + times;
    }
  }

  predicate OnlySeeds(episodes: seq<Episode>, seeds: seq<int>) {
    forall i :: 0 <= i < |episodes| ==> episodes[i].seed.Some? && episodes[i].seed.value in seeds
  }

  predicate Shares(a: seq<int>, b: seq<int>) {
    exists s :: s in a && s in b
  }

  /** The roles are sound: both have seeds, and no seed has both. */
  lemma SeedRolesMean(selection: seq<int>, final: seq<int>)
    ensures SeedRolesValid(selection, final) <==> !(|selection| == 0 || |final| == 0 || Shares(selection, final))
  {
    if Shares(selection, final) {
      var s :| s in selection && s in final;
    } else {
      forall s | s in selection ensures s !in final {}
    }
  }

  /** Some episode has no seed, or another one. */
  predicate UndeclaredIn(episodes: seq<Episode>, seeds: seq<int>) {
    exists k :: 0 <= k < |episodes| && (episodes[k].seed == None || episodes[k].seed.value !in seeds)
  }

  predicate UndeclaredBy(checkpoints: seq<Checkpoint>, evaluate: (Checkpoint, seq<int>) -> seq<Episode>,
                         schedule: seq<int>, seeds: seq<int>) {
    exists i :: 0 <= i < |checkpoints| && UndeclaredIn(evaluate(checkpoints[i], schedule), seeds)
  }

  /**
   evaluate_candidates with evidence_for_selection.  The evaluator is foreign code: it is asked
   for the schedule, but the seeds its episodes carry are checked, not trusted.
   */
  method EvaluateCandidates(checkpoints: seq<Checkpoint>, evaluate: (Checkpoint, seq<int>) -> seq<Episode>,
                            selection: seq<int>, final: seq<int>, perSeed: int)
    returns (r: Result<seq<Evidence>, SelectionError>)
    ensures var unfit := |selection| == 0 || |final| == 0 || Shares(selection, final);
      && (r == Err(SeedRoles) <==> unfit)
      && (r == Err(EpisodeCount) <==> !unfit && perSeed <= 0)
      && (r.Err? ==> r.error in {SeedRoles, EpisodeCount, UndeclaredSeed})
    ensures r == Err(UndeclaredSeed) ==>
      perSeed > 0 && UndeclaredBy(checkpoints, evaluate, Schedule(selection, perSeed), selection)
    ensures r.Ok? ==> !UndeclaredBy(checkpoints, evaluate, Schedule(selection, perSeed), selection)
    ensures r.Ok? ==> |r.value| == |checkpoints| && forall i :: 0 <= i < |checkpoints| ==>
      var c := checkpoints[i];
      r.value[i] == Evidence(c.ref, c.step, c.sha256, Selection, evaluate(c, Schedule(selection, perSeed)))
    ensures r.Ok? ==> forall i :: 0 <= i < |r.value| ==> NoFinalSeed(r.value[i], final)
  {
    SeedRolesMean(selection, final);
    if !SeedRolesValid(selection, final) {
      return Err(SeedRoles);
    }
    if perSeed <= 0 {
      return Err(EpisodeCount);
    }
    var schedule := Schedule(selection, perSeed);
    var result: seq<Evidence> := [];
    for n := 0 to |checkpoints|
      invariant |result| == n
      invariant forall i :: 0 <= i < n ==> !UndeclaredIn(evaluate(checkpoints[i], schedule), selection)
      invariant forall i :: 0 <= i < n ==>
        var c := checkpoints[i];
        result[i] == Evidence(c.ref, c.step, c.sha256, Selection, evaluate(c, schedule))
      invariant forall i :: 0 <= i < n ==> NoFinalSeed(result[i], final)
    {
      var c := checkpoints[n];
      var episodes := evaluate(c, schedule);
      if !OnlySeeds(episodes, selection) {
        return Err(UndeclaredSeed);
      }
      var e := Evidence(c.ref, c.step, c.sha256, Selection, episodes);
      forall i | 0 <= i < |episodes| ensures episodes[i].seed.Some? && episodes[i].seed.value !in final {
        var s := episodes[i].seed.value;
        assert s in selection;
        assert s !in final;
      }
      result := result + [e];
    }
    return Ok(result);
  }

  /** No episode of the evidence was run on a reserved seed. */
  predicate NoFinalSeed(e: Evidence, final: seq<int>) {
    forall i :: 0 <= i < |e.episodes| ==> e.episodes[i].seed.Some? && e.episodes[i].seed.value !in final
  }

  // ----- acceptance

  function Truncate(x: real): int {
    if x >= 0.0 then x.Floor else -(-x).Floor
  }

  predicate KnownCriterion(name: string) {
    name in ["episodes", "required_horizons", "mean_reward", "mean_episode_length", "min_velocity", "mean_velocity"]
  }

  const DESIGN_FIELD := "assumed_reliability"

  /** Whether one criterion holds. */
  predicate Meets(a: Aggregate, count: nat, name: string, target: real) {
    match name
    case "episodes" => count == Truncate(target)
    case "required_horizons" => a.noFalls >= Truncate(target)
    case "mean_reward" => a.meanReward >= target
    case "mean_episode_length" => a.meanLength >= target
    case "min_velocity" => a.minVelocity >= target
    case "mean_velocity" => a.meanVelocity >= target
    case _ => false
  }

  /** int(): towards zero. */
  lemma TruncateMeans(x: real)
    ensures x >= 0.0 ==> Truncate(x) as real <= x < Truncate(x) as real + 1.0
    ensures x < 0.0 ==> Truncate(x) as real - 1.0 < x <= Truncate(x) as real
  {
  }

  /** What each criterion asks of the episodes themselves. */
  ghost predicate Satisfies(s: seq<Episode>, name: string, target: real) {
    var total := |s| as real * target;
    match name
    case "episodes" => |s| == Truncate(target)
    case "required_horizons" => |Upright(s)| >= Truncate(target)
    case "mean_reward" => Sum(Rewards(s)) >= total
    case "mean_episode_length" => Sum(Lengths(s)) >= total
    case "mean_velocity" => Sum(Velocities(s)) >= total
    case "min_velocity" => forall i :: 0 <= i < |s| ==> Velocities(s)[i] >= target
    case _ => false
  }

  lemma MeanAtLeast(s: seq<real>, target: real)
    requires s != []
    ensures Mean(s) >= target <==> Sum(s) >= |s| as real * target
  {
    var n := |s| as real;
    assert Mean(s) * n == Sum(s);
    if Mean(s) >= target { assert (Mean(s) - target) * n >= 0.0; } else { assert (target - Mean(s)) * n > 0.0; }
  }

  /** A criterion held against the aggregate is what it asks of the episodes. */
  lemma MeetsMeans(e: Evidence, name: string, target: real)
    requires Aggregated(e).Ok?
    ensures Meets(Aggregated(e).value, |e.episodes|, name, target) <==> Satisfies(e.episodes, name, target)
  {
    hide Mean, Minimum, Sum, NoFalls, Upright;
    UprightCounts(e.episodes);
    MeanAtLeast(Rewards(e.episodes), target);
    MeanAtLeast(Lengths(e.episodes), target);
    MeanAtLeast(Velocities(e.episodes), target);
  }

  /** acceptance_from_aggregate over the criteria in their dictionary order. */
  method AcceptanceFromAggregate(a: Aggregate, count: nat, criteria: seq<(string, real)>)
    returns (r: Result<map<string, bool>, SelectionError>)
    requires forall i, j :: 0 <= i < j < |criteria| ==> criteria[i].0 != criteria[j].0
    ensures r.Ok? <==> forall i :: 0 <= i < |criteria| ==> criteria[i].0 == DESIGN_FIELD || KnownCriterion(criteria[i].0)
    ensures r.Err? ==> r.error == UnknownCriterion
    ensures r.Ok? ==> forall name :: name in r.value <==>
      (name != DESIGN_FIELD && exists i :: 0 <= i < |criteria| && criteria[i].0 == name)
    ensures r.Ok? ==> forall i :: 0 <= i < |criteria| && criteria[i].0 != DESIGN_FIELD ==>
      criteria[i].0 in r.value && r.value[criteria[i].0] == Meets(a, count, criteria[i].0, criteria[i].1)
  {
    var results: map<string, bool> := map[];
    for n := 0 to |criteria|
      invariant forall i :: 0 <= i < n ==> criteria[i].0 == DESIGN_FIELD || KnownCriterion(criteria[i].0)
      invariant forall name :: name in results ==>
        (name != DESIGN_FIELD && exists i :: 0 <= i < n && criteria[i].0 == name)
      invariant forall i :: 0 <= i < n && criteria[i].0 != DESIGN_FIELD ==>
        criteria[i].0 in results && results[criteria[i].0] == Meets(a, count, criteria[i].0, criteria[i].1)
    {
      var (name, target) := criteria[n];
      if name != DESIGN_FIELD {
        if name == "episodes" {
          results := results[name := count == Truncate(target)];
        } else if name == "required_horizons" {
          results := results[name := a.noFalls >= Truncate(target)];
        } else if name == "mean_reward" {
          results := results[name := a.meanReward >= target];
        } else if name == "mean_episode_length" {
          results := results[name := a.meanLength >= target];
        } else if name == "min_velocity" {
          results := results[name := a.minVelocity >= target];
        } else if name == "mean_velocity" {
          results := results[name := a.meanVelocity >= target];
        } else {
          return Err(UnknownCriterion);
        }
      }
    }
    return Ok(results);
  }
}
