/**
 The `preparation_attempts` table and the statements CustomTrainingStore runs on it.

 A row keeps the indexed columns beside the JSON document, as the schema does, so
 that their agreement is something to prove.  `order` is rowid order.  A
 remote id is None when the source holds None or an empty string: it tests the id
 for truth only.
 */
module Preparations {
  import opened Wrappers

  type Id = string

  datatype PrepState = Queued | Preparing | Accepted | Failed

  predicate Live(state: PrepState) {
    state.Queued? || state.Preparing?
  }

  datatype Phase =
    | AtRest | InputPublication | Submission | Starting | Execution | Finalization | Done
    | Reported(phase: string)

  datatype Attempt = Attempt(
    id: Id, tenant: string, setup: string, fingerprint: string,
    state: PrepState, phase: Phase, manifest: Option<string>, remote: Option<string>,
    reportReady: bool, canRetry: bool)

  datatype Row = Row(
    tenant: string, setup: string, fingerprint: string, state: PrepState,
    createdAt: real, data: Attempt)

  datatype Table = Table(rows: map<Id, Row>, order: seq<Id>)

  const EMPTY := Table(map[], [])

  /** A stored document with its tenant taken from the column. */
  function Decode(row: Row): Attempt {
    row.data.(tenant := row.tenant)
  }

  // ----- queries

  /** The WHERE clauses used against the table. */
  datatype Query =
    | OfSetup(tenant: string, setup: string)
    | OfKey(tenant: string, setup: string, fingerprint: string)
    | Reusable(tenant: string, setup: string, fingerprint: string)
    | AcceptedOf(tenant: string, setup: string, fingerprint: string)

  predicate Matches(q: Query, row: Row) {
    && row.tenant == q.tenant
    && row.setup == q.setup
    && match q
       case OfSetup(_, _) => true
       case OfKey(_, _, f) => row.fingerprint == f
       case Reusable(_, _, f) => row.fingerprint == f && !Decode(row).state.Failed?
       case AcceptedOf(_, _, f) => row.fingerprint == f && row.data.state.Accepted?
  }

  ghost predicate Listed(t: Table) {
    && (forall id :: id in t.order <==> id in t.rows)
    && (forall i, j :: 0 <= i < j < |t.order| ==> t.order[i] != t.order[j])
  }

  /** ORDER BY created_at DESC, rowid DESC LIMIT 1, over the first k rows: a position in rowid order. */
  function Newest(t: Table, q: Query, k: nat): (r: Option<nat>)
    requires Listed(t) && k <= |t.order|
    ensures r.Some? ==> r.value < k && Matches(q, t.rows[t.order[r.value]])
  {
    if k == 0 then None
    else
      var best := Newest(t, q, k - 1);
      var row := t.rows[t.order[k - 1]];
      if Matches(q, row) && (best.None? || t.rows[t.order[best.value]].createdAt <= row.createdAt)
      then Some(k - 1)
      else best
  }

  function Select(t: Table, q: Query): (r: Option<Id>)
    requires Listed(t)
    ensures r.Some? ==> r.value in t.rows && Matches(q, t.rows[r.value])
  {
    match Newest(t, q, |t.order|)
    case None => None
    case Some(i) => Some(t.order[i])
  }

  /** Row i precedes row j in `ORDER BY created_at DESC, rowid DESC`. */
  ghost predicate Before(t: Table, i: nat, j: nat)
    requires Listed(t) && i < |t.order| && j < |t.order|
  {
    var a, b := t.rows[t.order[i]].createdAt, t.rows[t.order[j]].createdAt;
    a > b || (a == b && i > j)
  }

  lemma {:induction false} NewestIsFirst(t: Table, q: Query, k: nat)
    requires Listed(t) && k <= |t.order|
    ensures Newest(t, q, k).None? ==> forall j :: 0 <= j < k ==> !Matches(q, t.rows[t.order[j]])
    ensures Newest(t, q, k).Some? ==>
      forall j :: 0 <= j < k && j != Newest(t, q, k).value && Matches(q, t.rows[t.order[j]])
        ==> Before(t, Newest(t, q, k).value, j)
  {
    if k > 0 {
      NewestIsFirst(t, q, k - 1);
    }
  }

  /** The query returns the first matching row of the declared order, and misses none. */
  lemma {:induction false} SelectIsFirst(t: Table, q: Query)
    requires Listed(t)
    ensures Select(t, q).None? <==> forall id :: id in t.rows ==> !Matches(q, t.rows[id])
    ensures Select(t, q).Some? ==>
      exists i :: 0 <= i < |t.order| && t.order[i] == Select(t, q).value
        && forall j :: 0 <= j < |t.order| && j != i && Matches(q, t.rows[t.order[j]]) ==> Before(t, i, j)
  {
    NewestIsFirst(t, q, |t.order|);
    if Select(t, q).Some? {
      var i := Newest(t, q, |t.order|).value;
      assert t.order[i] == Select(t, q).value;
    }
  }

  /** The setup's attempt created last, and of several created together the one inserted last. */
  ghost predicate NewestOf(t: Table, tenant: string, setup: string, answer: Attempt) {
    exists i :: 0 <= i < |t.order| && OfSetupAt(t, tenant, setup, i) && Decode(t.rows[t.order[i]]) == answer
      && forall j :: 0 <= j < |t.order| && j != i && OfSetupAt(t, tenant, setup, j) ==>
           t.rows[t.order[j]].createdAt < t.rows[t.order[i]].createdAt
           || (t.rows[t.order[j]].createdAt == t.rows[t.order[i]].createdAt && j < i)
  }

  predicate OfSetupAt(t: Table, tenant: string, setup: string, i: nat)
    requires i < |t.order|
  {
    t.order[i] in t.rows && t.rows[t.order[i]].tenant == tenant && t.rows[t.order[i]].setup == setup
  }

  lemma LatestIsNewest(t: Table, tenant: string, setup: string)
    requires Listed(t)
    ensures var r := Select(t, OfSetup(tenant, setup));
      && (r.None? <==> forall id :: id in t.rows ==> !(t.rows[id].tenant == tenant && t.rows[id].setup == setup))
      && (r.Some? ==> NewestOf(t, tenant, setup, Decode(t.rows[r.value])))
  {
    hide Select;
    var q := OfSetup(tenant, setup);
    SelectIsFirst(t, q);
    if Select(t, q).Some? {
      var i :| 0 <= i < |t.order| && t.order[i] == Select(t, q).value
        && forall j :: 0 <= j < |t.order| && j != i && Matches(q, t.rows[t.order[j]]) ==> Before(t, i, j);
      forall j | 0 <= j < |t.order| && j != i && OfSetupAt(t, tenant, setup, j) ensures Before(t, i, j) {
        assert Matches(q, t.rows[t.order[j]]);
      }
      assert OfSetupAt(t, tenant, setup, i);
    }
  }

  /** SELECT COUNT(*) ... WHERE tenant_id = ? AND state IN ('queued', 'preparing') counts this set. */
  function ActiveIds(t: Table, tenant: string): set<Id> {
    set id | id in t.rows && t.rows[id].tenant == tenant && Live(t.rows[id].state)
  }

  /** list_active_preparations */
  function ActiveAttempts(t: Table): map<Id, Attempt> {
    map id | id in t.rows && Live(t.rows[id].state) :: Decode(t.rows[id])
  }

  // ----- statements

  datatype ReserveOutcome = Reused(attempt: Attempt) | QuotaExceeded | DuplicateId | Created

  function NewRow(a: Attempt, now: real): Row {
    Row(a.tenant, a.setup, a.fingerprint, a.state, now, a)
  }

  function Insert(t: Table, a: Attempt, now: real): Table {
    Table(t.rows[a.id := NewRow(a, now)], t.order + [a.id])
  }

  /** reserve_preparation: one BEGIN IMMEDIATE transaction. */
  function Reserve(t: Table, a: Attempt, limit: nat, retry: bool, now: real): (ReserveOutcome, Table)
    requires Listed(t)
  {
    var reusable := Select(t, Reusable(a.tenant, a.setup, a.fingerprint));
    var existing := Select(t, OfKey(a.tenant, a.setup, a.fingerprint));
    if reusable.Some? then (Reused(Decode(t.rows[reusable.value])), t)
    else if existing.Some? && !retry then (Reused(Decode(t.rows[existing.value])), t)
    else if |ActiveIds(t, a.tenant)| >= limit then (QuotaExceeded, t)
    else if a.id in t.rows then (DuplicateId, t)
    else (Created, Insert(t, a, now))
  }

  /** put_preparation: the table after the UPDATE, or None when it matched no row. */
  function Put(t: Table, a: Attempt): Option<Table> {
    if a.id in t.rows && t.rows[a.id].tenant == a.tenant
    then Some(t.(rows := t.rows[a.id := t.rows[a.id].(state := a.state, data := a)]))
    else None
  }

  // ----- table invariant

  /** What a document in each state says about its report and its retry flag. */
  predicate WellShaped(a: Attempt) {
    match a.state
    case Accepted => a.reportReady && !a.canRetry
    case Failed => a.canRetry
    case _ => !a.reportReady && !a.canRetry
  }

  predicate RowOk(id: Id, row: Row) {
    && row.data.id == id
    && row.data.tenant == row.tenant
    && row.data.setup == row.setup
    && row.data.fingerprint == row.fingerprint
    && row.data.state == row.state
    && WellShaped(row.data)
  }

  predicate SameKey(a: Row, b: Row) {
    a.tenant == b.tenant && a.setup == b.setup && a.fingerprint == b.fingerprint
  }

  /** Per (tenant, setup, fingerprint) at most one attempt is not failed. */
  ghost predicate UniqueUnfailed(t: Table) {
    forall i, j :: i in t.rows && j in t.rows && i != j && SameKey(t.rows[i], t.rows[j])
      ==> t.rows[i].state.Failed? || t.rows[j].state.Failed?
  }

  ghost predicate WithinQuota(t: Table, limit: nat) {
    forall tenant :: |ActiveIds(t, tenant)| <= limit
  }

  ghost predicate TableOk(t: Table, limit: nat) {
    && Listed(t)
    && (forall id :: id in t.rows ==> RowOk(id, t.rows[id]))
    && UniqueUnfailed(t)
    && WithinQuota(t, limit)
  }

  predicate FreshAttempt(a: Attempt) {
    a.state.Queued? && a.remote.None? && a.manifest.None? && WellShaped(a)
  }

  predicate SameIdentity(a: Attempt, b: Attempt) {
    a.id == b.id && a.tenant == b.tenant && a.setup == b.setup && a.fingerprint == b.fingerprint
  }

  lemma InsertListed(t: Table, a: Attempt, now: real)
    requires Listed(t) && a.id !in t.rows
    ensures Listed(Insert(t, a, now))
  {
    var t' := Insert(t, a, now);
    assert a.id !in t.order;
    assert forall id :: id in t'.order <==> id in t.order || id == a.id;
  }

  lemma InsertUnique(t: Table, a: Attempt, now: real)
    requires UniqueUnfailed(t) && a.id !in t.rows
    requires forall id :: id in t.rows && SameKey(t.rows[id], NewRow(a, now)) ==> t.rows[id].state.Failed?
    ensures UniqueUnfailed(Insert(t, a, now))
  {
    var t' := Insert(t, a, now);
    forall i, j | i in t'.rows && j in t'.rows && i != j && SameKey(t'.rows[i], t'.rows[j])
      ensures t'.rows[i].state.Failed? || t'.rows[j].state.Failed?
    {
      if i == a.id {
        assert SameKey(t.rows[j], NewRow(a, now));
      } else if j == a.id {
        assert SameKey(t.rows[i], NewRow(a, now));
      } else {
        assert SameKey(t.rows[i], t.rows[j]);
      }
    }
  }

  lemma InsertQuota(t: Table, a: Attempt, now: real, limit: nat)
    requires WithinQuota(t, limit) && a.id !in t.rows && |ActiveIds(t, a.tenant)| < limit
    ensures WithinQuota(Insert(t, a, now), limit)
  {
    var t' := Insert(t, a, now);
    forall tenant ensures |ActiveIds(t', tenant)| <= limit {
      assert |ActiveIds(t, tenant)| <= limit;
      SubsetCount(ActiveIds(t', tenant),
        ActiveIds(t, tenant) + if tenant == a.tenant then {a.id} else {});
    }
  }

  lemma ReserveKeepsTable(t: Table, a: Attempt, limit: nat, retry: bool, now: real)
    requires TableOk(t, limit) && FreshAttempt(a)
    ensures TableOk(Reserve(t, a, limit, retry, now).1, limit)
  {
    if Reserve(t, a, limit, retry, now).0.Created? {
      SelectIsFirst(t, Reusable(a.tenant, a.setup, a.fingerprint));
      forall id | id in t.rows && SameKey(t.rows[id], NewRow(a, now))
        ensures t.rows[id].state.Failed?
      {
        assert !Matches(Reusable(a.tenant, a.setup, a.fingerprint), t.rows[id]);
      }
      InsertListed(t, a, now);
      InsertUnique(t, a, now);
      InsertQuota(t, a, now, limit);
    }
  }

  /** Writing a live row, whatever it becomes, keeps the table invariant. */
  lemma PutKeepsTable(t: Table, a: Attempt, limit: nat)
    requires TableOk(t, limit) && WellShaped(a)
    requires a.id in t.rows && SameIdentity(a, t.rows[a.id].data) && Live(t.rows[a.id].state)
    ensures Put(t, a).Some? && TableOk(Put(t, a).value, limit)
    ensures Put(t, a).value.rows.Keys == t.rows.Keys
    ensures Decode(Put(t, a).value.rows[a.id]) == a && Put(t, a).value.rows[a.id].state == a.state
    ensures Put(t, a).value.rows[a.id].createdAt == t.rows[a.id].createdAt
    ensures forall id :: id in t.rows && id != a.id ==> Put(t, a).value.rows[id] == t.rows[id]
  {
    var t' := Put(t, a).value;
    assert t'.rows.Keys == t.rows.Keys;
    forall tenant ensures |ActiveIds(t', tenant)| <= limit {
      SubsetCount(ActiveIds(t', tenant), ActiveIds(t, tenant));
    }
  }

  // ----- what each statement means to its caller

  /** The attempts of the same tenant, setup and fingerprint. */
  function SameKeyIds(t: Table, a: Attempt): set<Id> {
    set id | id in t.rows && t.rows[id].tenant == a.tenant && t.rows[id].setup == a.setup
      && t.rows[id].fingerprint == a.fingerprint
  }

  /** One of them is queued, preparing or accepted, or there is one and no retry was asked for. */
  predicate Reuses(t: Table, a: Attempt, retry: bool) {
    var same := SameKeyIds(t, a);
    (exists id :: id in same && t.rows[id].state in {Queued, Preparing, Accepted}) || (same != {} && !retry)
  }

  /** The tenant has as many attempts queued or preparing as it may. */
  predicate AtQuota(t: Table, tenant: string, limit: nat) {
    |set id | id in t.rows && t.rows[id].tenant == tenant && t.rows[id].state in {Queued, Preparing}| >= limit
  }

  lemma QuotaCounts(t: Table, tenant: string, limit: nat)
    ensures AtQuota(t, tenant, limit) <==> |ActiveIds(t, tenant)| >= limit
  {
    assert ActiveIds(t, tenant)
      == set id | id in t.rows && t.rows[id].tenant == tenant && t.rows[id].state in {Queued, Preparing};
  }

  /** The answer to a reuse: a live or accepted attempt if there is one, else the newest failed one. */
  ghost predicate ReusedIs(t: Table, a: Attempt, answer: Attempt)
    requires Listed(t)
  {
    exists i :: 0 <= i < |t.order| && t.order[i] in SameKeyIds(t, a) && Decode(t.rows[t.order[i]]) == answer
      && (answer.state.Failed? ==>
            forall j :: 0 <= j < |t.order| && j != i && t.order[j] in SameKeyIds(t, a) ==>
              t.rows[t.order[j]].state.Failed?
              && (t.rows[t.order[j]].createdAt < t.rows[t.order[i]].createdAt
                  || (t.rows[t.order[j]].createdAt == t.rows[t.order[i]].createdAt && j < i)))
  }

  /** Which answer each request meets, and the table it leaves. */
  lemma ReserveMeaning(t: Table, a: Attempt, limit: nat, retry: bool, now: real)
    requires TableOk(t, limit) && FreshAttempt(a)
    ensures var outcome := Reserve(t, a, limit, retry, now).0;
      && (outcome.Reused? <==> Reuses(t, a, retry))
      && (outcome.QuotaExceeded? <==> !Reuses(t, a, retry) && AtQuota(t, a.tenant, limit))
      && (outcome.DuplicateId? <==> !Reuses(t, a, retry) && !AtQuota(t, a.tenant, limit) && a.id in t.rows)
      && (outcome.Created? <==> !Reuses(t, a, retry) && !AtQuota(t, a.tenant, limit) && a.id !in t.rows)
      && (outcome.Reused? ==> ReusedIs(t, a, outcome.attempt))
    ensures var (outcome, t') := Reserve(t, a, limit, retry, now);
      t' == if outcome.Created?
        then Table(t.rows[a.id := Row(a.tenant, a.setup, a.fingerprint, Queued, now, a)], t.order + [a.id]) else t
  {
    hide Select, AtQuota, ActiveIds;
    QuotaCounts(t, a.tenant, limit);
    var same := SameKeyIds(t, a);
    var reusable, key := Reusable(a.tenant, a.setup, a.fingerprint), OfKey(a.tenant, a.setup, a.fingerprint);
    SelectIsFirst(t, reusable);
    SelectIsFirst(t, key);
    forall id | id in t.rows
      ensures Matches(key, t.rows[id]) <==> id in same
      ensures Matches(reusable, t.rows[id]) <==> id in same && t.rows[id].state in {Queued, Preparing, Accepted}
    {
      assert RowOk(id, t.rows[id]);
    }
    var r, e := Select(t, reusable), Select(t, key);
    if r.Some? {
      assert RowOk(r.value, t.rows[r.value]);
      var i :| 0 <= i < |t.order| && t.order[i] == r.value;
      assert ReusedIs(t, a, Decode(t.rows[r.value]));
    } else if e.Some? && !retry {
      NewestReused(t, a, e.value);
    }
  }

  /** With no attempt of the key alive or accepted, the newest is the first the key's query finds. */
  lemma NewestReused(t: Table, a: Attempt, id: Id)
    requires Listed(t) && Select(t, OfKey(a.tenant, a.setup, a.fingerprint)) == Some(id)
    requires forall other :: other in SameKeyIds(t, a) ==> t.rows[other].state.Failed?
    ensures ReusedIs(t, a, Decode(t.rows[id]))
  {
    hide Select;
    var key := OfKey(a.tenant, a.setup, a.fingerprint);
    SelectIsFirst(t, key);
    var i :| 0 <= i < |t.order| && t.order[i] == id
      && forall j :: 0 <= j < |t.order| && j != i && Matches(key, t.rows[t.order[j]]) ==> Before(t, i, j);
    forall j | 0 <= j < |t.order| && j != i && t.order[j] in SameKeyIds(t, a) ensures Before(t, i, j) {
      assert Matches(key, t.rows[t.order[j]]);
    }
  }

  /** Some attempt for the exact fingerprint has been accepted. */
  predicate HasAccepted(t: Table, tenant: string, setup: string, fingerprint: string) {
    exists id :: id in t.rows && t.rows[id].tenant == tenant && t.rows[id].setup == setup
      && t.rows[id].fingerprint == fingerprint && t.rows[id].state.Accepted?
  }

  /** The accepted lookup is exact: at most one row can be the answer, and it is report-ready. */
  lemma AcceptedLookupUnique(t: Table, limit: nat, tenant: string, setup: string, fingerprint: string, id: Id)
    requires TableOk(t, limit)
    ensures Select(t, AcceptedOf(tenant, setup, fingerprint)) == Some(id) <==>
      && id in t.rows && t.rows[id].tenant == tenant && t.rows[id].setup == setup
      && t.rows[id].fingerprint == fingerprint && t.rows[id].state.Accepted?
    ensures Select(t, AcceptedOf(tenant, setup, fingerprint)) == Some(id) ==> Decode(t.rows[id]).reportReady
  {
    var q := AcceptedOf(tenant, setup, fingerprint);
    SelectIsFirst(t, q);
    if id in t.rows && Matches(q, t.rows[id]) {
      var found := Select(t, q).value;
      assert SameKey(t.rows[found], t.rows[id]);
    }
  }
}
