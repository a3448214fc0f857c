/** What a setup is shown as, and how that agrees with the gate a start must pass. */
module Readiness {
  import opened Wrappers
  import P = Preparations
  import O = Orchestration
  import Saas = SetupCatalog

  datatype Setup = Setup(id: string, tenant: string, robotType: string, task: string, scene: string)

  datatype Reason =
    | FeatureDisabled | UnsupportedRobotType | UnsupportedTask | UnsupportedScene
    | NotPrepared | Preparing | PreparationFailed | Ready

  datatype Level = Ineligible | NotPreparedLevel | PreparingLevel | ReadyLevel | FailedLevel

  const ROBOT_TYPES := {"biped", "quadruped"}
  const TASKS := {"stand-balance", "walk-forward", "recover-from-fall"}
  const SCENES := {"flat-arena", "ramp-course", "hurdle-course", "step-course"}

  function TaskRobotTypes(task: string): set<string> {
    if task == "recover-from-fall" then {"quadruped"} else ROBOT_TYPES
  }

  /** eligibility: NotPrepared is the reason given to an eligible setup. */
  function Eligibility(setup: Setup, enabled: bool): Reason {
    if !enabled then FeatureDisabled
    else if setup.robotType !in ROBOT_TYPES then UnsupportedRobotType
    else if setup.task !in TASKS then UnsupportedTask
    else if setup.robotType !in TaskRobotTypes(setup.task) then UnsupportedTask
    else if setup.scene !in SCENES then UnsupportedScene
    else NotPrepared
  }

  /** With the feature on, the eligible setups are exactly those the catalog's tables can describe. */
  lemma EligibleIffCataloged(setup: Setup)
    ensures Eligibility(setup, true).NotPrepared? <==>
      Saas.KnownTask(setup.task) && Saas.Compatible(setup.task, setup.robotType) && Saas.KnownScene(setup.scene)
  {
    if setup.robotType in ROBOT_TYPES {
      assert setup.robotType == "biped" || setup.robotType == "quadruped";
    }
  }

  /** What keeps a setup from being eligible; the first of the reasons, in this order. */
  lemma EligibilityMeans(setup: Setup, enabled: bool)
    ensures var r := Eligibility(setup, enabled);
      var robot := setup.robotType == "biped" || setup.robotType == "quadruped";
      var task := setup.task == "stand-balance" || setup.task == "walk-forward"
        || (setup.task == "recover-from-fall" && setup.robotType == "quadruped");
      var scene := setup.scene == "flat-arena" || setup.scene == "ramp-course" || setup.scene == "hurdle-course"
        || setup.scene == "step-course";
      && (r.FeatureDisabled? <==> !enabled)
      && (r.UnsupportedRobotType? <==> enabled && !robot)
      && (r.UnsupportedTask? <==> enabled && robot && !task)
      && (r.UnsupportedScene? <==> enabled && robot && task && !scene)
      && (r.NotPrepared? <==> enabled && robot && task && scene)
  {
  }

  datatype Projection = Projection(
    trainable: bool, reason: Reason, level: Level, canPrepare: bool, canStart: bool, current: Option<P.Attempt>)

  /** project_setup_readiness, given the setup's latest attempt. */
  function Project(setup: Setup, latest: Option<P.Attempt>, fingerprint: string, enabled: bool): Projection {
    var allowed := Eligibility(setup, enabled);
    if !allowed.NotPrepared? then Projection(false, allowed, Ineligible, false, false, None)
    else
      var current := if latest.Some? && latest.value.fingerprint == fingerprint then latest else None;
      match current
      case None => Projection(false, NotPrepared, NotPreparedLevel, true, false, None)
      case Some(a) =>
        match a.state
        case Accepted => Projection(true, Ready, ReadyLevel, false, true, current)
        case Failed => Projection(false, PreparationFailed, FailedLevel, true, false, current)
        case _ => Projection(false, Preparing, PreparingLevel, false, false, current)
  }

  /** latest_preparation */
  function Latest(t: P.Table, setup: Setup): Option<P.Attempt>
    requires P.Listed(t)
  {
    match P.Select(t, P.OfSetup(setup.tenant, setup.id))
    case None => None
    case Some(id) => Some(P.Decode(t.rows[id]))
  }

  function ProjectNow(t: P.Table, setup: Setup, fingerprint: string, enabled: bool): Projection
    requires P.Listed(t)
  {
    Project(setup, Latest(t, setup), fingerprint, enabled)
  }

  /** The preparation check of start_robot_setup_training. */
  function Gate(t: P.Table, setup: Setup, fingerprint: string, enabled: bool): Option<P.Attempt>
    requires P.Listed(t)
  {
    if enabled then O.StartGate(t, setup.tenant, setup.id, fingerprint) else None
  }

  /**
   A setup shown as startable passes the gate in the same state, with the very attempt
   shown; and the projection is exactly that condition on the newest attempt.
   */
  lemma StartableMeansGateOpen(t: P.Table, limit: nat, setup: Setup, fingerprint: string, enabled: bool)
    requires P.TableOk(t, limit)
    ensures ProjectNow(t, setup, fingerprint, enabled).canStart <==>
      && Eligibility(setup, enabled).NotPrepared?
      && Gate(t, setup, fingerprint, enabled).Some?
      && Latest(t, setup) == Gate(t, setup, fingerprint, enabled)
    ensures ProjectNow(t, setup, fingerprint, enabled).canStart ==>
      ProjectNow(t, setup, fingerprint, enabled).current == Gate(t, setup, fingerprint, enabled)
  {
    var q := P.OfSetup(setup.tenant, setup.id);
    var latest := P.Select(t, q);
    if latest.Some? {
      assert P.RowOk(latest.value, t.rows[latest.value]);
      P.AcceptedLookupUnique(t, limit, setup.tenant, setup.id, fingerprint, latest.value);
    }
  }

  /** The gate opens exactly when an attempt for the current fingerprint has been accepted, newest or not. */
  lemma GateOpensIffAccepted(t: P.Table, limit: nat, setup: Setup, fingerprint: string)
    requires P.TableOk(t, limit)
    ensures Gate(t, setup, fingerprint, true).Some? <==>
      P.HasAccepted(t, setup.tenant, setup.id, fingerprint)
  {
    P.SelectIsFirst(t, P.AcceptedOf(setup.tenant, setup.id, fingerprint));
    var found := P.Select(t, P.AcceptedOf(setup.tenant, setup.id, fingerprint));
    if found.Some? {
      assert P.RowOk(found.value, t.rows[found.value]);
      P.AcceptedLookupUnique(t, limit, setup.tenant, setup.id, fingerprint, found.value);
    }
  }

  /**
   After a rollback the accepted attempt is not the newest one.  The gate is open, yet
   the setup is not shown as startable, and preparing again changes neither: the
   request is answered with the old attempt and inserts nothing.
   */
  lemma RollbackStaysHidden(t: P.Table, limit: nat, setup: Setup, fingerprint: string, id: P.Id, a: P.Attempt,
                            retry: bool, now: real)
    requires P.TableOk(t, limit)
    requires id in t.rows && P.Matches(P.AcceptedOf(setup.tenant, setup.id, fingerprint), t.rows[id])
    requires Latest(t, setup) != Some(P.Decode(t.rows[id]))
    requires a.tenant == setup.tenant && a.setup == setup.id && a.fingerprint == fingerprint
    ensures Gate(t, setup, fingerprint, true) == Some(P.Decode(t.rows[id]))
    ensures !ProjectNow(t, setup, fingerprint, true).canStart
    ensures P.Reserve(t, a, limit, retry, now) == (P.Reused(P.Decode(t.rows[id])), t)
  {
    P.AcceptedLookupUnique(t, limit, setup.tenant, setup.id, fingerprint, id);
    StartableMeansGateOpen(t, limit, setup, fingerprint, true);
    var q := P.Reusable(setup.tenant, setup.id, fingerprint);
    P.SelectIsFirst(t, q);
    assert P.RowOk(id, t.rows[id]);
    assert P.Matches(q, t.rows[id]);
    var found := P.Select(t, q).value;
    assert P.RowOk(found, t.rows[found]);
    assert P.SameKey(t.rows[found], t.rows[id]);
  }

  /** How each setup is shown: by its newest attempt, if that is for the current fingerprint. */
  lemma ShownAs(t: P.Table, limit: nat, setup: Setup, fingerprint: string, enabled: bool)
    requires P.TableOk(t, limit)
    ensures var p, allowed, latest := ProjectNow(t, setup, fingerprint, enabled), Eligibility(setup, enabled), Latest(t, setup);
      var current := if latest.Some? && latest.value.fingerprint == fingerprint then latest else None;
      if !allowed.NotPrepared? then p == Projection(false, allowed, Ineligible, false, false, None)
      else
        && p.current == current && (p.trainable <==> p.canStart)
        && (current.None? <==> p.level.NotPreparedLevel?) && (p.level.NotPreparedLevel? <==> p.reason.NotPrepared?)
        && (p.level.ReadyLevel? <==> p.canStart) && (p.level.ReadyLevel? <==> p.reason.Ready?)
        && (p.level.ReadyLevel? <==> current.Some? && current.value.state == P.Accepted)
        && (p.level.FailedLevel? <==> current.Some? && current.value.state == P.Failed)
        && (p.level.FailedLevel? <==> p.reason.PreparationFailed?)
        && (p.level.PreparingLevel? <==> current.Some? && current.value.state in {P.Queued, P.Preparing})
        && (p.level.PreparingLevel? <==> p.reason.Preparing?)
        && (p.canPrepare <==> p.level.NotPreparedLevel? || p.level.FailedLevel?)
    ensures Latest(t, setup).Some? ==> P.NewestOf(t, setup.tenant, setup.id, Latest(t, setup).value)
  {
    hide Eligibility, P.Select, P.NewestOf;
    P.LatestIsNewest(t, setup.tenant, setup.id);
  }

  /** An attempt for the fingerprint is alive or accepted, and it is not the newest of the setup. */
  ghost predicate Superseded(t: P.Table, setup: Setup, fingerprint: string)
    requires P.Listed(t)
  {
    exists id :: id in t.rows && P.Matches(P.Reusable(setup.tenant, setup.id, fingerprint), t.rows[id])
      && Latest(t, setup) != Some(P.Decode(t.rows[id]))
  }

  /**
   What is not offered would change nothing: asking anyway, even for a retry, hands back the attempt
   shown.  What is offered does reserve, quota permitting, except when an attempt is superseded.
   */
  lemma PrepareOfferMeans(t: P.Table, limit: nat, setup: Setup, fingerprint: string, a: P.Attempt, now: real)
    requires P.TableOk(t, limit) && Eligibility(setup, true).NotPrepared?
    requires a.tenant == setup.tenant && a.setup == setup.id && a.fingerprint == fingerprint
    ensures var p, r := ProjectNow(t, setup, fingerprint, true), P.Reserve(t, a, limit, true, now);
      && (!p.canPrepare ==> p.current.Some? && r == (P.Reused(p.current.value), t))
      && (p.canPrepare && r.0.Reused? <==> Superseded(t, setup, fingerprint))
  {
    hide P.Select, Eligibility;
    var all, live := P.OfSetup(setup.tenant, setup.id), P.Reusable(setup.tenant, setup.id, fingerprint);
    P.SelectIsFirst(t, all);
    P.SelectIsFirst(t, live);
    var newest, reused := P.Select(t, all), P.Select(t, live);
    forall id, other | id in t.rows && other in t.rows && P.Matches(live, t.rows[id]) && P.Matches(live, t.rows[other])
      ensures id == other
    {
      assert P.RowOk(id, t.rows[id]) && P.RowOk(other, t.rows[other]);
      assert P.SameKey(t.rows[id], t.rows[other]);
    }
    if newest.Some? { assert P.RowOk(newest.value, t.rows[newest.value]); }
    if reused.Some? { assert P.RowOk(reused.value, t.rows[reused.value]); }
  }
}
