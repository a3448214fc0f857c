/**
 The two sliding-window limiters: the public one, which also compacts its table of clients,
 and the login-code one, whose limit and window come with every call.

 Both forget old stamps.  They are held against the limiter that forgets nothing.  Both read
 the clock before they take their lock, so readings may enter out of order even when the
 clock never steps back; what that costs is part of the result.
 */
module SlidingWindow {
  /** The stamps younger than the window. */
  function Recent(stamps: seq<real>, now: real, window: real): (r: seq<real>)
    ensures |r| <= |stamps|
  {
    if stamps == [] then []
    else
      var n := |stamps| - 1;
      Recent(stamps[..n], now, window) + if now - stamps[n] < window then [stamps[n]] else []
  }

  /** The stamps in the half-open interval [from, from + window). */
  function Within(stamps: seq<real>, from: real, window: real): (r: seq<real>)
    ensures |r| <= |stamps|
  {
    if stamps == [] then []
    else
      var n := |stamps| - 1;
      Within(stamps[..n], from, window) + if from <= stamps[n] < from + window then [stamps[n]] else []
  }

  /** What happens to one client's stamps, in lock order: a call of its own, or a compaction another call set off. */
  datatype Access =
    | Ask(now: real, limit: int, window: real)
    | Sweep(now: real, window: real)

  // ----- the limiter that forgets nothing

  predicate Admits(history: seq<real>, now: real, limit: int, window: real) {
    |Recent(history, now, window)| < limit
  }

  /** Every stamp it ever admitted. */
  function FullHistory(es: seq<Access>): seq<real> {
    if es == [] then []
    else
      var history, e := FullHistory(es[..|es| - 1]), es[|es| - 1];
      if e.Ask? && Admits(history, e.now, e.limit, e.window) then history + [e.now] else history
  }

  // ----- the limiter that prunes

  /** One decision of either limiter on the stamps it kept, and the stamps it keeps next. */
  function Decide(kept: seq<real>, now: real, limit: int, window: real): (bool, seq<real>) {
    var times := Recent(kept, now, window);
    if |times| >= limit then (false, times) else (true, times + [now])
  }

  /** The stamps it holds. */
  function Kept(es: seq<Access>): seq<real> {
    if es == [] then []
    else
      match es[|es| - 1]
      case Ask(now, limit, window) => Decide(Kept(es[..|es| - 1]), now, limit, window).1
      case Sweep(now, window) => Recent(Kept(es[..|es| - 1]), now, window)
  }

  /** Every stamp it admitted, kept or not. */
  function Admitted(es: seq<Access>): seq<real> {
    if es == [] then []
    else
      var admitted, e := Admitted(es[..|es| - 1]), es[|es| - 1];
      if e.Ask? && Decide(Kept(es[..|es| - 1]), e.now, e.limit, e.window).0 then admitted + [e.now] else admitted
  }

  /** Both limiters give call k the same verdict. */
  predicate SameVerdict(es: seq<Access>, k: nat)
    requires k < |es|
  {
    es[k].Ask? ==>
      Decide(Kept(es[..k]), es[k].now, es[k].limit, es[k].window).0
        == Admits(FullHistory(es[..k]), es[k].now, es[k].limit, es[k].window)
  }

  predicate Agrees(es: seq<Access>) {
    forall k :: 0 <= k < |es| ==> SameVerdict(es, k)
  }

  /** What one more call of the client's own does. */
  lemma AskStep(es: seq<Access>, now: real, limit: int, window: real)
    ensures var all, d := es + [Ask(now, limit, window)], Decide(Kept(es), now, limit, window);
      Kept(all) == d.1 && Admitted(all) == Admitted(es) + if d.0 then [now] else []
    ensures var all, ok := es + [Ask(now, limit, window)], Admits(FullHistory(es), now, limit, window);
      FullHistory(all) == FullHistory(es) + if ok then [now] else []
    ensures SameVerdict(es + [Ask(now, limit, window)], |es|)
      <==> Decide(Kept(es), now, limit, window).0 == Admits(FullHistory(es), now, limit, window)
  {
    hide Recent;
    assert (es + [Ask(now, limit, window)])[..|es|] == es;
  }

  /** What a compaction does. */
  lemma SweepStep(es: seq<Access>, now: real, window: real)
    ensures var all := es + [Sweep(now, window)];
      Kept(all) == Recent(Kept(es), now, window) && Admitted(all) == Admitted(es) && FullHistory(all) == FullHistory(es)
  {
    hide Recent;
    assert (es + [Sweep(now, window)])[..|es|] == es;
  }

  lemma AgreesPrefix(es: seq<Access>, e: Access)
    ensures Agrees(es + [e]) <==> Agrees(es) && SameVerdict(es + [e], |es|)
  {
    var all := es + [e];
    forall k | 0 <= k < |es| ensures SameVerdict(all, k) == SameVerdict(es, k) {
      assert all[..k] == es[..k];
    }
  }

  /** While the verdicts agree, so do the admissions. */
  lemma {:induction false} AgreedAdmissions(es: seq<Access>)
    requires Agrees(es)
    ensures Admitted(es) == FullHistory(es)
  {
    if es != [] {
      var n := |es| - 1;
      assert es == es[..n] + [es[n]];
      AgreesPrefix(es[..n], es[n]);
      AgreedAdmissions(es[..n]);
    }
  }

  // ----- the bound a window promises

  predicate AllLike(es: seq<Access>, limit: int, window: real) {
    forall k :: 0 <= k < |es| ==> es[k].window == window && (es[k].Ask? ==> es[k].limit == limit)
  }

  /** Full memory never admits more than the limit in any half-open window, whatever the readings. */
  lemma {:induction false} WindowHolds(es: seq<Access>, limit: int, window: real, from: real)
    requires AllLike(es, limit, window)
    ensures |Within(FullHistory(es), from, window)| <= if limit < 0 then 0 else limit
  {
    if es != [] {
      var n := |es| - 1;
      var before, e := FullHistory(es[..n]), es[n];
      WindowHolds(es[..n], limit, window, from);
      if e.Ask? && Admits(before, e.now, e.limit, e.window) {
        assert (before + [e.now])[..|before|] == before;
        if from <= e.now < from + window { WithinIsRecent(before, from, e.now, window); }
      }
    }
  }

  lemma {:induction false} WithinIsRecent(stamps: seq<real>, from: real, now: real, window: real)
    requires from <= now < from + window
    ensures |Within(stamps, from, window)| <= |Recent(stamps, now, window)|
  {
    if stamps != [] {
      WithinIsRecent(stamps[..|stamps| - 1], from, now, window);
    }
  }

  // ----- in order

  /** No access looks further back than one before it pruned: for one window, readings never decrease. */
  predicate InOrder(es: seq<Access>) {
    forall j, k :: 0 <= j < k < |es| ==> es[j].now - es[j].window <= es[k].now - es[k].window
  }

  lemma RecentAppend(stamps: seq<real>, t: real, now: real, window: real)
    ensures Recent(stamps + [t], now, window)
      == Recent(stamps, now, window) + if now - t < window then [t] else []
  {
    assert (stamps + [t])[..|stamps|] == stamps;
  }

  /** Pruning by an earlier horizon loses nothing a later horizon keeps. */
  lemma {:induction false} RecentOfRecent(stamps: seq<real>, now: real, window: real, now': real, window': real)
    requires now - window <= now' - window'
    ensures Recent(Recent(stamps, now, window), now', window') == Recent(stamps, now', window')
  {
    if stamps != [] {
      var n := |stamps| - 1;
      RecentOfRecent(stamps[..n], now, window, now', window');
      if now - stamps[n] < window {
        RecentAppend(Recent(stamps[..n], now, window), stamps[n], now', window');
      } else {
        assert Recent(stamps, now, window) == Recent(stamps[..n], now, window);
      }
    }
  }

  /** No access of the history looks further back than this one. */
  predicate NotLate(es: seq<Access>, now: real, window: real) {
    forall k :: 0 <= k < |es| ==> es[k].now - es[k].window <= now - window
  }

  lemma InOrderIff(es: seq<Access>, e: Access)
    ensures InOrder(es + [e]) <==> InOrder(es) && NotLate(es, e.now, e.window)
  {
    var all := es + [e];
    if InOrder(all) {
      forall j, k | 0 <= j < k < |es| ensures es[j].now - es[j].window <= es[k].now - es[k].window {
        assert all[j] == es[j] && all[k] == es[k];
      }
      forall k | 0 <= k < |es| ensures es[k].now - es[k].window <= e.now - e.window {
        assert all[k] == es[k] && all[|es|] == e;
      }
    }
  }

  /** In order, what was kept and what was ever admitted agree on every window still to come. */
  lemma {:induction false} InOrderKept(es: seq<Access>, now: real, window: real)
    requires InOrder(es) && NotLate(es, now, window)
    ensures Recent(Kept(es), now, window) == Recent(FullHistory(es), now, window)
  {
    if es != [] {
      var n := |es| - 1;
      var past, e := es[..n], es[n];
      assert es == past + [e];
      InOrderIff(past, e);
      InOrderKept(past, now, window);
      InOrderKept(past, e.now, e.window);
      KeptNext(past, e, now, window);
    }
  }

  lemma KeptNext(past: seq<Access>, e: Access, now: real, window: real)
    requires Recent(Kept(past), now, window) == Recent(FullHistory(past), now, window)
    requires Recent(Kept(past), e.now, e.window) == Recent(FullHistory(past), e.now, e.window)
    requires e.now - e.window <= now - window
    ensures Recent(Kept(past + [e]), now, window) == Recent(FullHistory(past + [e]), now, window)
  {
    hide Kept, FullHistory, Recent, SameVerdict;
    var kept, history := Kept(past), FullHistory(past);
    RecentOfRecent(kept, e.now, e.window, now, window);
    if e.Ask? {
      AskStep(past, e.now, e.limit, e.window);
      RecentAppend(Recent(kept, e.now, e.window), e.now, now, window);
      RecentAppend(history, e.now, now, window);
      assert history + [] == history;
    } else {
      SweepStep(past, e.now, e.window);
    }
  }

  /** In order, compactions included, every verdict is the full-history one. */
  lemma {:induction false} InOrderAgrees(es: seq<Access>)
    requires InOrder(es)
    ensures Agrees(es)
  {
    forall k | 0 <= k < |es| ensures SameVerdict(es, k) {
      if es[k].Ask? {
        hide Kept, FullHistory, Recent;
        InOrderKept(es[..k], es[k].now, es[k].window);
      }
    }
  }

  // ----- out of order

  predicate AllAsk(es: seq<Access>) {
    forall k :: 0 <= k < |es| ==> es[k].Ask?
  }

  predicate NewestKept(kept: seq<real>, history: seq<real>) {
    if history == [] then kept == []
    else
      var newest := history[|history| - 1];
      kept == [newest] && forall k :: 0 <= k < |history| ==> history[k] <= newest
  }

  lemma NothingKept()
    ensures Kept([]) == [] && FullHistory([]) == [] && NewestKept([], [])
  {
  }

  /** With at most one call per window, the one kept stamp is the newest ever admitted. */
  lemma {:induction false} OneKept(es: seq<Access>, window: real)
    requires AllAsk(es) && AllLike(es, 1, window) && window > 0.0
    ensures Agrees(es) && NewestKept(Kept(es), FullHistory(es))
  {
    hide Kept, FullHistory, Recent, NewestKept, SameVerdict;
    if es == [] {
      NothingKept();
    } else {
      var n := |es| - 1;
      OneKept(es[..n], window);
      assert es == es[..n] + [es[n]];
      AgreesPrefix(es[..n], es[n]);
      AskStep(es[..n], es[n].now, 1, window);
      OneDecision(Kept(es[..n]), FullHistory(es[..n]), es[n].now, window);
    }
  }

  lemma OneDecision(kept: seq<real>, history: seq<real>, now: real, window: real)
    requires NewestKept(kept, history) && window > 0.0
    ensures var d := Decide(kept, now, 1, window);
      d.0 == Admits(history, now, 1, window) && NewestKept(d.1, history + if d.0 then [now] else [])
  {
    if history != [] { RecentOfNewest(history, now, window); }
  }

  /** Nothing is recent once the newest stamp is not. */
  lemma {:induction false} RecentOfNewest(h: seq<real>, now: real, window: real)
    requires h != [] && forall k :: 0 <= k < |h| ==> h[k] <= h[|h| - 1]
    ensures Recent(h, now, window) == [] <==> now - h[|h| - 1] >= window
    ensures Recent([h[|h| - 1]], now, window) == if now - h[|h| - 1] < window then [h[|h| - 1]] else []
  {
    var n := |h| - 1;
    if now - h[n] >= window { RecentOfOlder(h, h[n], now, window); }
  }

  lemma {:induction false} RecentOfOlder(h: seq<real>, newest: real, now: real, window: real)
    requires now - newest >= window && forall k :: 0 <= k < |h| ==> h[k] <= newest
    ensures Recent(h, now, window) == []
  {
    if h != [] { RecentOfOlder(h[..|h| - 1], newest, now, window); }
  }

  /** A limit of zero or less never admits, pruned or not. */
  lemma NoneAdmitted(es: seq<Access>, limit: int, window: real)
    requires AllLike(es, limit, window) && limit <= 0
    ensures Agrees(es)
  {
  }

  /** n calls at one reading. */
  function Calls(n: nat, t: real, limit: int, window: real): (es: seq<Access>)
    ensures |es| == n && forall k :: 0 <= k < n ==> es[k] == Ask(t, limit, window)
  {
    seq(n, _ => Ask(t, limit, window))
  }

  function Copies(n: nat, t: real): (s: seq<real>)
    ensures |s| == n && forall k :: 0 <= k < n ==> s[k] == t
  {
    seq(n, _ => t)
  }

  lemma {:induction false} RecentCopies(n: nat, t: real, now: real, window: real)
    ensures Recent(Copies(n, t), now, window) == if now - t < window then Copies(n, t) else []
  {
    if n == 0 {
      assert Copies(n, t) == [];
    } else {
      hide Recent;
      RecentCopies(n - 1, t, now, window);
      RecentAppend(Copies(n - 1, t), t, now, window);
      assert Copies(n, t) == Copies(n - 1, t) + [t];
    }
  }

  lemma {:induction false} WithinCopies(n: nat, t: real, window: real)
    requires window > 0.0
    ensures |Within(Copies(n, t), t, window)| == n
  {
    if n > 0 {
      WithinCopies(n - 1, t, window);
      assert Copies(n, t)[..n - 1] == Copies(n - 1, t);
    }
  }

  /** Up to the limit, calls at one reading are all admitted and all kept. */
  lemma {:induction false} BurstAdmitted(n: nat, t: real, limit: int, window: real)
    requires n <= limit && window > 0.0
    ensures var es := Calls(n, t, limit, window);
      Kept(es) == FullHistory(es) == Admitted(es) == Copies(n, t)
  {
    if n > 0 {
      hide Kept, FullHistory, Admitted, Recent, SameVerdict;
      var es := Calls(n - 1, t, limit, window);
      assert Calls(n, t, limit, window) == es + [Ask(t, limit, window)];
      BurstAdmitted(n - 1, t, limit, window);
      AskStep(es, t, limit, window);
      RecentCopies(n - 1, t, t, window);
      assert Copies(n, t) == Copies(n - 1, t) + [t];
    }
  }

  /**
   A full burst one window before `t`, then `t`, then an earlier reading: pruning at `t` has
   forgotten the burst, which full memory still counts.
   */
  lemma LateReading(limit: int, window: real, t: real, now: real)
    requires limit >= 2 && window > 0.0 && now < t
    ensures var es := Calls(limit, t - window, limit, window) + [Ask(t, limit, window)];
      InOrder(es) && !SameVerdict(es + [Ask(now, limit, window)], |es|)
      && Admitted(es + [Ask(now, limit, window)]) == Copies(limit, t - window) + [t] + [now]
  {
    hide Kept, FullHistory, Admitted, Recent, SameVerdict;
    var burst, c := Calls(limit, t - window, limit, window), Copies(limit, t - window);
    BurstAdmitted(limit, t - window, limit, window);
    RecentCopies(limit, t - window, t, window);
    AskStep(burst, t, limit, window);
    assert [] + [t] == [t];
    AskStep(burst + [Ask(t, limit, window)], now, limit, window);
    RecentCopies(limit, t - window, now, window);
    RecentAppend(c, t, now, window);
    RecentAppend([], t, now, window);
  }

  /** The same after a compaction that another client's reading set off; here one stamp is enough. */
  lemma LateAfterSweep(limit: int, window: real, t: real, now: real)
    requires limit >= 1 && window > 0.0 && now < t
    ensures var es := Calls(limit, t - window, limit, window) + [Sweep(t, window)];
      InOrder(es) && !SameVerdict(es + [Ask(now, limit, window)], |es|)
  {
    hide Kept, FullHistory, Admitted, SameVerdict, Recent;
    var burst := Calls(limit, t - window, limit, window);
    BurstAdmitted(limit, t - window, limit, window);
    RecentCopies(limit, t - window, t, window);
    SweepStep(burst, t, window);
    AskStep(burst + [Sweep(t, window)], now, limit, window);
    RecentCopies(limit, t - window, now, window);
    RecentCopies(0, t, now, window);
    assert Copies(0, t) == [];
  }

  /**
   Exactly when a reading may enter after a greater one: whatever calls came before in order, the
   verdicts agree if and only if at most one call is allowed per window, or the reading is not late.
   */
  lemma LateCallsAgreeIff(limit: int, window: real, t: real, now: real)
    requires window > 0.0
    ensures (forall es :: AllAsk(es) && AllLike(es, limit, window) && InOrder(es + [Ask(t, limit, window)]) ==>
        Agrees(es + [Ask(t, limit, window), Ask(now, limit, window)]))
      <==> limit <= 1 || t <= now
  {
    var a, b := Ask(t, limit, window), Ask(now, limit, window);
    if limit <= 1 || t <= now {
      forall es | AllAsk(es) && AllLike(es, limit, window) && InOrder(es + [a]) ensures Agrees(es + [a, b]) {
        var all := es + [a, b];
        if limit <= 0 {
          NoneAdmitted(all, limit, window);
        } else if limit == 1 {
          OneKept(all, window);
        } else {
          InOrderThen(es + [a], b);
          assert all == es + [a] + [b];
          InOrderAgrees(all);
        }
      }
    } else {
      var es := Calls(limit, t - window, limit, window);
      LateReading(limit, window, t, now);
      assert es + [a] + [b] == es + [a, b];
      assert AllAsk(es) && AllLike(es, limit, window) && InOrder(es + [a]) && !Agrees(es + [a, b]);
    }
  }

  /** In order up to the last access, only that one has to be compared. */
  lemma InOrderThen(es: seq<Access>, e: Access)
    requires InOrder(es) && es != [] && es[|es| - 1].now - es[|es| - 1].window <= e.now - e.window
    ensures InOrder(es + [e])
  {
    InOrderIff(es, e);
    forall k | 0 <= k < |es| ensures es[k].now - es[k].window <= e.now - e.window {
      if k < |es| - 1 { assert es[k].now - es[k].window <= es[|es| - 1].now - es[|es| - 1].window; }
    }
  }

  /** After a compaction by another client's reading, agreement needs a limit that admits nothing, or no lateness. */
  lemma LateAfterSweepAgreeIff(limit: int, window: real, t: real, now: real)
    requires window > 0.0
    ensures (forall es :: AllLike(es, limit, window) && InOrder(es + [Sweep(t, window)]) ==>
        Agrees(es + [Sweep(t, window), Ask(now, limit, window)]))
      <==> limit <= 0 || t <= now
  {
    var a, b := Sweep(t, window), Ask(now, limit, window);
    if limit <= 0 || t <= now {
      forall es | AllLike(es, limit, window) && InOrder(es + [a]) ensures Agrees(es + [a, b]) {
        var all := es + [a, b];
        if limit <= 0 {
          NoneAdmitted(all, limit, window);
        } else {
          InOrderThen(es + [a], b);
          assert all == es + [a] + [b];
          InOrderAgrees(all);
        }
      }
    } else {
      var es := Calls(limit, t - window, limit, window);
      LateAfterSweep(limit, window, t, now);
      assert es + [a] + [b] == es + [a, b];
      assert AllLike(es, limit, window) && InOrder(es + [a]) && !Agrees(es + [a, b]);
    }
  }

  /**
   Two threads, a clock that never steps back: both read it before taking the lock, and the later
   reading gets the lock first.  The same calls in clock order agree with full memory; in lock
   order limit + 1 of them are admitted within one window.
   */
  lemma RaceExceedsLimit(limit: int, window: real, t: real, now: real)
    requires limit >= 2 && window > 0.0 && t - window <= now < t
    ensures var burst, first, second := Calls(limit, t - window, limit, window), Ask(now, limit, window), Ask(t, limit, window);
      Agrees(burst + [first, second])
      && |Within(Admitted(burst + [second, first]), t - window, window)| == limit + 1
  {
    hide Kept, FullHistory, Admitted, Recent, Agrees;
    var burst, first, second := Calls(limit, t - window, limit, window), Ask(now, limit, window), Ask(t, limit, window);
    InOrderAgrees(burst + [first, second]);
    LateReading(limit, window, t, now);
    assert burst + [second, first] == burst + [second] + [first];
    var c := Copies(limit, t - window);
    WithinCopies(limit, t - window, window);
    assert (c + [t] + [now])[..limit + 1] == c + [t] && (c + [t])[..limit] == c;
  }

  // ----- the classes

  function Lookup(table: map<string, seq<real>>, key: string): seq<real> {
    if key in table then table[key] else []
  }

  const MAX_TRACKED_CLIENTS := 8192

  /** One call of the public limiter, in lock order, and whether it compacted the table. */
  datatype Call = Call(client: string, now: real, swept: bool)

  /** What a log of calls was to one client. */
  ghost function AccessesOf(calls: seq<Call>, client: string, limit: int, window: real): seq<Access> {
    if calls == [] then []
    else
      var c := calls[|calls| - 1];
      AccessesOf(calls[..|calls| - 1], client, limit, window)
        + (if c.swept then [Sweep(c.now, window)] else [])
        + (if c.client == client then [Ask(c.now, limit, window)] else [])
  }

  predicate NonDecreasing(calls: seq<Call>) {
    forall j, k :: 0 <= j < k < |calls| ==> calls[j].now <= calls[k].now
  }

  lemma {:induction false} AccessesBefore(calls: seq<Call>, client: string, limit: int, window: real, k: nat)
    requires k < |AccessesOf(calls, client, limit, window)|
    ensures AccessesOf(calls, client, limit, window)[k].window == window
    ensures exists j :: 0 <= j < |calls| && calls[j].now == AccessesOf(calls, client, limit, window)[k].now
  {
    var n := |calls| - 1;
    if k < |AccessesOf(calls[..n], client, limit, window)| {
      AccessesBefore(calls[..n], client, limit, window, k);
      var j :| 0 <= j < n && calls[..n][j].now == AccessesOf(calls[..n], client, limit, window)[k].now;
      assert calls[j].now == AccessesOf(calls, client, limit, window)[k].now;
    } else {
      assert calls[n].now == AccessesOf(calls, client, limit, window)[k].now;
    }
  }

  /** Calls whose readings never decrease are in order for every client. */
  lemma {:induction false} AccessesInOrder(calls: seq<Call>, client: string, limit: int, window: real)
    requires NonDecreasing(calls)
    ensures InOrder(AccessesOf(calls, client, limit, window))
  {
    if calls != [] {
      var n := |calls| - 1;
      var before, all := AccessesOf(calls[..n], client, limit, window), AccessesOf(calls, client, limit, window);
      AccessesInOrder(calls[..n], client, limit, window);
      forall j, k | 0 <= j < k < |all| ensures all[j].now - all[j].window <= all[k].now - all[k].window {
        if k < |before| {
          assert all[j] == before[j] && all[k] == before[k];
        } else if j < |before| {
          AccessesBefore(calls[..n], client, limit, window, j);
          var l :| 0 <= l < n && calls[..n][l].now == before[j].now;
          assert calls[l].now <= calls[n].now;
        }
      }
    }
  }

  lemma {:induction false} AccessesAlike(calls: seq<Call>, client: string, limit: int, window: real)
    ensures AllLike(AccessesOf(calls, client, limit, window), limit, window)
  {
    if calls != [] { AccessesAlike(calls[..|calls| - 1], client, limit, window); }
  }

  /** Readings that never decrease in lock order: no client is admitted more often than the limit in any window. */
  lemma AllowedWithinLimit(calls: seq<Call>, client: string, limit: int, window: real, from: real)
    requires NonDecreasing(calls)
    ensures |Within(Admitted(AccessesOf(calls, client, limit, window)), from, window)| <= if limit < 0 then 0 else limit
  {
    var es := AccessesOf(calls, client, limit, window);
    AccessesInOrder(calls, client, limit, window);
    InOrderAgrees(es);
    AgreedAdmissions(es);
    AccessesAlike(calls, client, limit, window);
    WindowHolds(es, limit, window, from);
  }

  /** showcase.RateLimiter; `calls` is everything it was ever asked. */
  class RateLimiter {
    const limit: int
    const window: real
    var seen: map<string, seq<real>>
    ghost var calls: seq<Call>

    /** What the table holds for a client is what pruning leaves of its accesses. */
    ghost predicate Valid()
      reads this
    {
      forall client: string :: Lookup(seen, client) == Kept(AccessesOf(calls, client, limit, window))
    }

    constructor (limit: int, window: real)
      ensures Valid() && this.limit == limit && this.window == window && calls == []
    {
      this.limit, this.window := limit, window;
      seen, calls := map[], [];
    }

    /** Drop the stamps outside the window, then the clients left without any. */
    method Compact(now: real)
      modifies this`seen
      ensures forall client :: Lookup(seen, client) == Recent(Lookup(old(seen), client), now, window)
      ensures forall client :: client in seen ==> Recent(seen[client], now, window) != []
    {
      forall client | client in seen ensures Recent(Recent(seen[client], now, window), now, window) == Recent(seen[client], now, window) {
        RecentOfRecent(seen[client], now, window, now, window);
      }
      seen := map client | client in seen :: Recent(seen[client], now, window);
      seen := map client | client in seen && seen[client] != [] :: seen[client];
    }

    /**
     allow, for any reading.  The verdict is the full-history one whenever readings have not
     decreased in lock order; LateCallsAgreeIff says what lateness costs.  The table outgrows its
     bound only with clients still active.
     */
    method Allow(client: string, now: real) returns (ok: bool)
      requires Valid()
      modifies this
      ensures Valid() && calls == old(calls) + [Call(client, now, |old(seen)| > MAX_TRACKED_CLIENTS)]
      ensures Admitted(AccessesOf(calls, client, limit, window))
        == Admitted(AccessesOf(old(calls), client, limit, window)) + if ok then [now] else []
      ensures NonDecreasing(calls) ==>
        ok == Admits(FullHistory(AccessesOf(old(calls), client, limit, window)), now, limit, window)
      ensures |seen| <= MAX_TRACKED_CLIENTS + 1
        || forall other :: other in seen && other != client ==> Recent(seen[other], now, window) != []
    {
      hide Recent, Kept, Admitted, FullHistory, AccessesOf, NonDecreasing, Admits;
      var swept := |seen| > MAX_TRACKED_CLIENTS;
      if swept {
        Compact(now);
      }
      label pruned:
      var times := Recent(Lookup(seen, client), now, window);
      ok := |times| < limit;
      seen := seen[client := if ok then times + [now] else times];
      calls := calls + [Call(client, now, swept)];
      Extended(old(calls), client, now, swept, client, limit, window);
      forall c ensures Lookup(seen, c) == Kept(AccessesOf(calls, c, limit, window)) {
        Extended(old(calls), client, now, swept, c, limit, window);
        if c != client { assert Lookup(seen, c) == old@pruned(Lookup(seen, c)); }
      }
      if NonDecreasing(calls) { VerdictInOrder(old(calls), client, now, swept, limit, window); }
    }
  }

  /** What one more call does to a client: the sweep it set off, then the client's own decision. */
  lemma Extended(calls: seq<Call>, client: string, now: real, swept: bool, other: string, limit: int, window: real)
    ensures var before, after := AccessesOf(calls, other, limit, window),
                                 AccessesOf(calls + [Call(client, now, swept)], other, limit, window);
      var kept := if swept then Recent(Kept(before), now, window) else Kept(before);
      && Kept(after) == (if other == client then Decide(kept, now, limit, window).1 else kept)
      && Admitted(after) == Admitted(before) + (if other == client && Decide(kept, now, limit, window).0 then [now] else [])
  {
    hide Recent, Kept, Admitted;
    assert (calls + [Call(client, now, swept)])[..|calls|] == calls;
    var es := AccessesOf(calls, other, limit, window);
    var mid := es + if swept then [Sweep(now, window)] else [];
    if swept { SweepStep(es, now, window); } else { assert mid == es; }
    if other == client { AskStep(mid, now, limit, window); } else { assert mid + [] == mid; }
  }

  /** In order, the verdict after the sweep is the one full memory gives. */
  lemma VerdictInOrder(calls: seq<Call>, client: string, now: real, swept: bool, limit: int, window: real)
    requires NonDecreasing(calls + [Call(client, now, swept)])
    ensures var es := AccessesOf(calls, client, limit, window);
      var kept := if swept then Recent(Kept(es), now, window) else Kept(es);
      Decide(kept, now, limit, window).0 == Admits(FullHistory(es), now, limit, window)
  {
    var all := calls + [Call(client, now, swept)];
    assert forall j :: 0 <= j < |calls| ==> all[j] == calls[j] && all[j].now <= all[|calls|].now;
    var es := AccessesOf(calls, client, limit, window);
    AccessesInOrder(calls, client, limit, window);
    forall k | 0 <= k < |es| ensures es[k].now - es[k].window <= now - window {
      AccessesBefore(calls, client, limit, window, k);
    }
    InOrderKept(es, now, window);
    RecentOfRecent(Kept(es), now, window, now, window);
  }

  /** AuthStore.allow_code_request: the limit and the window come with each call. */
  class CodeRequests {
    var requestTimes: map<string, seq<real>>
    ghost var asked: map<string, seq<Access>>

    ghost function Asked(email: string): seq<Access>
      reads this
    {
      if email in asked then asked[email] else []
    }

    ghost predicate Valid()
      reads this
    {
      forall email: string :: Lookup(requestTimes, email) == Kept(Asked(email))
    }

    constructor ()
      ensures Valid() && asked == map[]
    {
      requestTimes, asked := map[], map[];
    }

    /** For any reading; the full-history verdict whenever no call looks further back than one before it. */
    method AllowCodeRequest(email: string, limit: int, window: real, now: real) returns (ok: bool)
      requires Valid()
      modifies this
      ensures Valid() && asked == old(asked)[email := old(Asked(email)) + [Ask(now, limit, window)]]
      ensures Admitted(Asked(email)) == Admitted(old(Asked(email))) + if ok then [now] else []
      ensures InOrder(Asked(email)) ==> ok == Admits(FullHistory(old(Asked(email))), now, limit, window)
    {
      hide Recent, Kept, FullHistory, Admitted, InOrder, Agrees, SameVerdict;
      ghost var es, e := Asked(email), Ask(now, limit, window);
      AskStep(es, now, limit, window);
      if InOrder(es + [e]) {
        InOrderIff(es, e);
        InOrderKept(es, now, window);
      }
      var times := Recent(Lookup(requestTimes, email), now, window);
      asked := asked[email := es + [e]];
      ok := |times| < limit;
      if !ok {
        requestTimes := requestTimes[email := times];
      } else {
        times := times + [now];
        requestTimes := requestTimes[email := times];
      }
      forall other ensures Lookup(requestTimes, other) == Kept(Asked(other)) {
        if other != email {
          assert Lookup(requestTimes, other) == old(Lookup(requestTimes, other)) && Asked(other) == old(Asked(other));
        }
      }
    }
  }
}
