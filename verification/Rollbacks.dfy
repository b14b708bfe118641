// Rollbacks: which reconciles start one, to which release, and when that release is no use.
module Rollbacks {
  import opened Kube
  import opened DrupalSites
  import opened Deployments
  import opened DeploymentLaws
  import opened Workflow
  import opened ReconcileFacts
  import opened EnsureFacts
  import opened PerformFacts
  import opened Safety
  import opened Endings

  /** A rollback is on record. */
  ghost predicate RollsBack(log: seq<Event>) {
    exists e :: e in log && e.RollbackStarted?
  }

  /** A release that can be gone back to: there is one, and it is not the one that just failed. */
  predicate Useful(target: string, spec: Spec) {
    target != "" && target != ReleaseId(spec)
  }

  /** The first reason for a code update: another release is deployed. */
  predicate Undeployed(w: World) {
    w.deploy.Some? && w.deploy.value.ReleaseOf() != ReleaseId(w.site.spec)
  }

  /** The second: the recorded release is not the current one. */
  predicate Unverified(site: Site) {
    |site.status.failsafe| > 0 && site.status.failsafe != site.status.current
  }

  // ------------------------------------------------------------------ which reconciles roll back

  /** The rollout of a settled deployment failed: its pod is broken, or clearing its caches had something to say. */
  predicate RolloutFails(t: Session, o: Oracle) {
    match CheckRollout(o.rolloutPods, Rel(t))
    case Waiting => false
    case Broken => true
    case RolledOut => CacheOutput(t, o).Some? && CacheOutput(t, o) != Some("")
  }

  /** Nothing was rolled back so far. */
  ghost predicate Quiet(log: seq<Event>) {
    forall e :: e in log ==> !e.RollbackStarted?
  }

  lemma RollBackIsLogged(u: Session, o: Oracle)
    ensures RollsBack(RollBack(u, o).log)
    ensures RollsBack(WriteStatus(RollBack(u, o), o).session.log) && RollsBack(Transient(RollBack(u, o), o).session.log)
    ensures forall site: Site :: RollsBack(WriteStatus(RollBack(u, o).(site := site), o).session.log)
  {
    hide UpsertRelease;
    var e := RollbackStarted(u.site.status.failsafe);
    var v := Emit(u, e);
    assert v.log[|u.log|] == e;
    assert RollBack(u, o).log[|u.log|] == e;
    assert e in RollBack(u, o).log;
    assert e in WriteStatus(RollBack(u, o), o).session.log;
    assert e in Transient(RollBack(u, o), o).session.log;
    forall site: Site ensures RollsBack(WriteStatus(RollBack(u, o).(site := site), o).session.log) {
      assert e in WriteStatus(RollBack(u, o).(site := site), o).session.log;
    }
  }

  lemma WriteIsQuiet(s: Session, o: Oracle)
    requires Quiet(s.log)
    ensures Quiet(WriteStatus(s, o).session.log) && Quiet(Transient(s, o).session.log)
  {
  }

  lemma ExecuteIsQuiet(s: Session, c: Command, x: Exec)
    requires Quiet(s.log)
    ensures Quiet(Execute(s, c, x).log)
  {
    hide ReleaseId, ExecPod;
  }

  lemma ClearIsQuiet(s: Session, o: Oracle)
    requires Quiet(s.log)
    ensures Quiet(ClearCaches(s, o).log)
  {
    hide Execute, ExecOutput, Quiet;
    ExecuteIsQuiet(s, ClearCache, o.cache1);
    ExecuteIsQuiet(Execute(s, ClearCache, o.cache1), ClearCache, o.cache2);
  }

  lemma QuietIsNoRollback(log: seq<Event>)
    ensures Quiet(log) <==> !RollsBack(log)
  {
  }

  lemma FinishRolls(t: Session, o: Oracle)
    requires Quiet(t.log)
    ensures RollsBack(FinishRollout(t, o).session.log) <==> RolloutFails(t, o)
  {
    hide CheckRollout, RollBack, RollbackRefused, ClearCaches, CacheOutput, WriteStatus, Transient, ReleaseId, FailCode,
      RollsBack, Quiet;
    WriteIsQuiet(t, o);
    ClearIsQuiet(t, o);
    var u := ClearCaches(t, o);
    WriteIsQuiet(u, o);
    var f := t.(site := FailCode(t.site, ERR_DEPLOYMENT_UPDATE_FAILED));
    RollBackIsLogged(f, o);
    RollBackIsLogged(u, o);
    QuietIsNoRollback(FinishRollout(t, o).session.log);
  }

  lemma UpdateVersionRolls(t: Session, o: Oracle)
    requires Quiet(t.log)
    ensures RollsBack(UpdateVersion(t, o).session.log) <==>
      RunsCodeUpdate(t) && UpdateUpsert(t, o).Unchanged? && RolloutFails(t, o)
  {
    hide FinishRollout, UpsertRelease, ConfigOf, ReleaseId, RolloutFails, RunsCodeUpdate, WriteStatus, Transient;
    WriteIsQuiet(t, o);
    FinishRolls(t, o);
  }

  /** The rest of the update section starts no rollback. */
  lemma RestIsQuiet(u: Session, o: Oracle)
    requires Quiet(u.log)
    ensures Quiet(UpdateSchema(u, o).session.log) && Quiet(AdvanceFailsafe(u, o).session.log)
  {
    hide Execute, ExecOutput, WriteStatus, WithCondition, RunsSchemaUpdate, Advanced, Quiet, AdvancesFailsafe;
    var a := Execute(u, TakeBackup, o.backup);
    var b := Execute(a, RunUpdb, o.runUpdb);
    ExecuteIsQuiet(u, TakeBackup, o.backup);
    ExecuteIsQuiet(a, RunUpdb, o.runUpdb);
    WriteIsQuiet(FailSchema(a, ERR_POD_EXEC), o);
    WriteIsQuiet(FailSchema(b, ERR_DB_UPDATE_FAILED), o);
    WriteIsQuiet(
      b.(site := WithCondition(WithCondition(b.site, DBUpdatesPending, Absent), DBUpdatesFailed, Absent)), o);
    WriteIsQuiet(u.(site := Advanced(u.site, o.resources.flags)), o);
  }

  lemma PerformRolls(t: Session, o: Oracle)
    requires Quiet(t.log)
    ensures RollsBack(Perform(t, o).session.log) <==>
      RunsCodeUpdate(t) && UpdateUpsert(t, o).Unchanged? && RolloutFails(t, o)
  {
    hide UpdateVersion, UpdateSchema, AdvanceFailsafe, UpdateUpsert, RolloutFails, RunsCodeUpdate, RollsBack, Quiet;
    UpdateVersionRolls(t, o);
    if UpdateVersion(t, o).Go? {
      var u := UpdateVersion(t, o).session;
      GoesQuietly(t, o);
      RestIsQuiet(u, o);
      RestIsQuiet(UpdateSchema(u, o).session, o);
      QuietIsNoRollback(Perform(t, o).session.log);
      QuietIsNoRollback(u.log);
    }
  }

  /** An update that lets the reconcile go on has rolled nothing back. */
  lemma GoesQuietly(t: Session, o: Oracle)
    requires Quiet(t.log) && UpdateVersion(t, o).Go?
    ensures Quiet(UpdateVersion(t, o).session.log)
  {
    hide CheckRollout, RollBack, RollbackRefused, ClearCaches, CacheOutput, ReleaseId, UpsertRelease, ConfigOf, Quiet;
    ClearIsQuiet(t, o);
  }

  /** A reconcile that does not reach the update section rolls nothing back. */
  lemma EarlierIsQuiet(w: World, o: Oracle)
    ensures Quiet(ToPerform(w, o).session.log)
  {
    hide ToEnsure, ToPerform, Decided, Coherent, Ensured, InMiddle, EnsureUpsert, Ensured1;
    ToPerformFacts(w, o);
    var log := ToPerform(w, o).session.log;
    forall e | e in log ensures !e.RollbackStarted? {
      if ToPerform(w, o).Go? {
        EnsuredEvents(w, o, ToEnsure(w, o).session, ToPerform(w, o).session);
      }
    }
  }

  lemma EnsuredEvents(w: World, o: Oracle, s: Session, t: Session)
    requires Ensured(w, o, s, t)
    ensures forall e :: e in t.log ==> Middle(w, o, s, e)
  {
  }

  /** The update section is reached with a code update to run, from the stored site. */
  predicate ReachesCodeUpdate(w: World, o: Oracle) {
    Live(w, o) && AllInStep(w, o) && Equips(Assessment(w, o), o) && NeedsCode(w, o)
  }

  /**
   * A reconcile rolls back exactly when its code update finds nothing to write to the deployment and the rollout
   * failed.
   */
  lemma RollsBackExactlyWhen(w: World, o: Oracle)
    ensures RollsBack(Log(w, o)) <==>
      && ReachesCodeUpdate(w, o)
      && UpdateUpsert(Equipped(w, o), o).Unchanged? && RolloutFails(Equipped(w, o), o)
  {
    hide ToPerform, ToEnsure, ToAssess, Perform, AllInStep, Equips, NeedsCode, RolloutFails, UpdateUpsert, Quiet,
      RollsBack, RunsCodeUpdate;
    EarlierIsQuiet(w, o);
    QuietIsNoRollback(ToPerform(w, o).session.log);
    ReachedExactly(w, o);
    if ToPerform(w, o).Go? {
      PerformRolls(Equipped(w, o), o);
    }
  }

  lemma ReachedExactly(w: World, o: Oracle)
    ensures ToPerform(w, o).Go? && RunsCodeUpdate(Equipped(w, o)) <==> ReachesCodeUpdate(w, o)
  {
    hide ToAssess, Assess, Ensure, Equips, SpecAccepted, StatusInStep, UpdateInStep, NeedsCode, NeedsSchema, ReleaseId,
      RunsCodeUpdate, RunsSchemaUpdate;
    if ToPerform(w, o).Go? {
      GoesOnlyLive(w, o);
      ToAssessEnds(w, o);
      AssessableIsStored(w, o);
      AssessEnds(w, o, ToAssess(w, o).session);
    }
    if Live(w, o) && AllInStep(w, o) {
      LaterSessions(w, o);
      if ToPerform(w, o).Go? {
        UpdatesAreStored(w, o, Equipped(w, o));
      }
    }
  }

  // ------------------------------------------------------------------ to which release

  /** A rollback that starts in any reconcile, with any faults, aims at the recorded failsafe release. */
  lemma RollbackTarget(w: World, o: Oracle, i: nat)
    requires i < |Log(w, o)| && Log(w, o)[i].RollbackStarted?
    ensures Log(w, o)[i].target == w.site.status.failsafe
    ensures w.site.status.current == ReleaseId(w.site.spec) && ReachesCodeUpdate(w, o)
  {
    hide Log, Decided, Ensured, Middle, Rolled, ReleaseId, Perform, Moves, Equipped, Assessment, Reconciled,
      StoppedLate, Observed, ToAssess, RunsCodeUpdate, RunsSchemaUpdate, AllInStep, Equips, NeedsCode,
      ReachesCodeUpdate;
    LogCases(w, o);
    var e := Log(w, o)[i];
    assert e in Log(w, o);
    var s, t := Assessment(w, o), Equipped(w, o);
    MiddleStartsNoRollback(w, o, s, e);
    LateEvent(w, o, s, t, i);
    EnsuredIsMiddle(w, o, s, t);
    MiddleSite(w, o, s, t);
    NeededKeepsFailsafe(w, o, s);
    ObservedCurrent(w, o, ToAssess(w, o).session);
    RollsBackExactlyWhen(w, o);
  }

  lemma NeedsHaveReasons(w: World, o: Oracle)
    requires NeedsCode(w, o) && w.site.status.current == ReleaseId(w.site.spec)
    ensures Undeployed(w) || Unverified(w.site)
    ensures Unverified(w.site) <==> Useful(w.site.status.failsafe, w.site.spec)
  {
    hide ReleaseId, Updatable;
  }

  /**
   * The target of a rollback is of use exactly when the update had the second of its two reasons: a recorded release
   * that is not the current one. An update whose only reason is that another release is deployed has nowhere to go.
   */
  lemma TargetUsefulExactlyWhen(w: World, o: Oracle, i: nat)
    requires i < |Log(w, o)| && Log(w, o)[i].RollbackStarted?
    ensures Useful(Log(w, o)[i].target, w.site.spec)
      <==> w.site.status.failsafe != "" && w.site.status.failsafe != ReleaseId(w.site.spec)
    ensures Useful(Log(w, o)[i].target, w.site.spec) <==> Unverified(w.site)
    ensures !Useful(Log(w, o)[i].target, w.site.spec) ==> Undeployed(w)
  {
    hide Log, ReleaseId, AllInStep, Equips, NeedsCode, Undeployed, Unverified, Live;
    RollbackTarget(w, o, i);
    NeedsHaveReasons(w, o);
  }

  /** A rollback to no release, or to the one that failed, is on record. */
  ghost predicate RollsBackInVain(w: World, o: Oracle) {
    exists i :: 0 <= i < |Log(w, o)| && Log(w, o)[i].RollbackStarted? && !Useful(Log(w, o)[i].target, w.site.spec)
  }

  /** The reconciles that roll back in vain: the code update has the first reason only, and its rollout failed. */
  lemma InVainExactlyWhen(w: World, o: Oracle)
    ensures RollsBackInVain(w, o) <==>
      && ReachesCodeUpdate(w, o) && Undeployed(w) && !Unverified(w.site)
      && UpdateUpsert(Equipped(w, o), o).Unchanged? && RolloutFails(Equipped(w, o), o)
  {
    hide Log, ReleaseId, ReachesCodeUpdate, Undeployed, Unverified, UpdateUpsert, RolloutFails, Useful;
    RollsBackExactlyWhen(w, o);
    forall i | 0 <= i < |Log(w, o)| && Log(w, o)[i].RollbackStarted?
      ensures
        && (!Useful(Log(w, o)[i].target, w.site.spec) <==> !Unverified(w.site))
        && (!Unverified(w.site) ==> Undeployed(w))
    {
      TargetUsefulExactlyWhen(w, o, i);
    }
    if RollsBack(Log(w, o)) {
      var e :| e in Log(w, o) && e.RollbackStarted?;
      var i :| 0 <= i < |Log(w, o)| && Log(w, o)[i] == e;
      assert Log(w, o)[i].RollbackStarted?;
    }
  }

  // ------------------------------------------------------------------ how the deployment can be settled by then

  /** A deployment that is being debugged and has the labels, owner and containers the operator keeps even then. */
  predicate LeftAlone(d: Deployment, site: Site) {
    d.Debugging() && Populate(Adopt(d, site), site) == d
  }

  /** The ordinary update goes ahead in the middle of a code update, because the read that would stop it failed. */
  predicate SlipsThrough(o: Oracle) {
    o.ensureReadFails && !o.dbod1Fails
  }

  /** Whatever the ordinary update applied is settled, before and after hashing. */
  lemma AppliedIsSettled(d: Deployment, site: Site, release: string, config: Config, h: Hashes)
    requires d.created
    ensures
      var e := Apply(d, site, release, config);
      && Apply(e, site, release, config) == e
      && Apply(SetHashes(e, h), site, release, config) == SetHashes(e, h)
  {
    hide Apply, SetHashes;
    ApplyMarksRelease(d, site, release, config);
    ApplyIsIdempotent(d, site, release, config);
    WritersSettleTogether(d, site, release, config, h);
    assert Stored(Apply(d, site, release, config)) == Apply(d, site, release, config);
  }

  /** A deployment at another release is settled exactly when it is left alone. */
  lemma OtherReleaseSettled(d: Deployment, site: Site, release: string, config: Config)
    requires d.created && d.ReleaseOf() != release
    ensures Apply(d, site, release, config) == d <==> LeftAlone(d, site)
  {
    hide Enforce, EnsureRoles, SiteLabels, AddOwner;
    ApplyMarksRelease(d, site, release, config);
  }

  lemma HashedLeftAlone(d: Deployment, site: Site, h: Hashes)
    requires d.created
    ensures LeftAlone(SetHashes(d, h), site) <==> LeftAlone(d, site)
    ensures SetHashes(d, h).created && SetHashes(d, h).ReleaseOf() == d.ReleaseOf()
  {
    hide EnsureRoles, SiteLabels, AddOwner;
    HashesKeepRelease(d, h);
  }

  lemma LeftAloneReads(d: Deployment, a: Site, b: Site)
    requires a.name == b.name && a.namespace == b.namespace && a.uid == b.uid
    ensures LeftAlone(d, a) == LeftAlone(d, b)
  {
    hide EnsureRoles, AddOwner;
    VolumesSame(a, b);
  }

  /** The deployment before the hash writer, while a code update is under way. */
  lemma EnsuredDuringUpdate(s: Session, o: Oracle)
    requires
      && s.world.deploy.Some? && s.world.dbod && s.site.meta.updateInProgress == IN_PROGRESS
      && !EnsureUpsert(s, o).Refused?
    ensures Ensured1(s, o) ==
      Some(if SlipsThrough(o) then Apply(s.world.deploy.value, s.site, Rel(s), ConfigOf(s, o))
        else s.world.deploy.value)
  {
    hide Apply, ReleaseId, ConfigOf;
  }

  lemma UnchangedMeansSettled(t: Session, o: Oracle)
    requires t.world.deploy.Some?
    ensures UpdateUpsert(t, o).Unchanged? <==>
      !o.updateCall.readFails && Apply(t.world.deploy.value, t.site, Rel(t), ConfigOf(t, o)) == t.world.deploy.value
  {
    hide Apply, ReleaseId, ConfigOf;
  }

  /** What the update finds, from the deployment before: settled by the ordinary update, or left alone. */
  lemma SettledByThen(s: Session, t: Session, o: Oracle)
    requires s.world.deploy.Some? && s.world.deploy.value.created && s.world.deploy.value.ReleaseOf() != Rel(s)
    requires
      && s.world.dbod && s.site.meta.updateInProgress == IN_PROGRESS && !EnsureUpsert(s, o).Refused? && t.site == s.site
    requires t.world.deploy == Ensured1(s, o)
      || (Ensured1(s, o).Some? && o.configmaps.ConfigmapsFound?
          && t.world.deploy == Some(SetHashes(Ensured1(s, o).value, o.configmaps.hashes)))
    ensures UpdateUpsert(t, o).Unchanged? <==>
      !o.updateCall.readFails && (SlipsThrough(o) || LeftAlone(s.world.deploy.value, s.site))
  {
    hide Apply, SetHashes, ReleaseId, ConfigOf, Ensured1, EnsureUpsert, LeftAlone, UpdateUpsert, SlipsThrough;
    var d, c := s.world.deploy.value, ConfigOf(s, o);
    assert ConfigOf(t, o) == c by { ConfigSame(s, t, o); }
    EnsuredDuringUpdate(s, o);
    UnchangedMeansSettled(t, o);
    var h := if o.configmaps.ConfigmapsFound? then o.configmaps.hashes else Hashes("", "", "", "");
    AppliedIsSettled(d, s.site, Rel(s), c, h);
    OtherReleaseSettled(d, s.site, Rel(s), c);
    HashedLeftAlone(d, s.site, h);
    OtherReleaseSettled(SetHashes(d, h), s.site, Rel(s), c);
  }

  lemma ConfigSame(s: Session, t: Session, o: Oracle)
    requires t.site == s.site
    ensures ConfigOf(t, o) == ConfigOf(s, o)
  {
  }

  lemma ReachedSessions(w: World, o: Oracle)
    requires ReachesCodeUpdate(w, o)
    ensures
      var s, t := Assessment(w, o), Equipped(w, o);
      && s.world.deploy == w.deploy && s.world.dbod && Rel(s) == ReleaseId(w.site.spec) && s.site.meta == w.site.meta
      && s.site.name == w.site.name && s.site.namespace == w.site.namespace && s.site.uid == w.site.uid
      && w.site.meta.updateInProgress == IN_PROGRESS && !EnsureUpsert(s, o).Refused? && t.site == s.site
      && (t.world.deploy == Ensured1(s, o)
          || (Ensured1(s, o).Some? && o.configmaps.ConfigmapsFound?
              && t.world.deploy == Some(SetHashes(Ensured1(s, o).value, o.configmaps.hashes))))
  {
    hide ToAssess, ToEnsure, ToPerform, Equips, SpecAccepted, StatusInStep, NeedsSchema, ReleaseId, Coherent, Middle,
      EnsureUpsert, Ensured1, SetHashes, MergeClone, Assessed, InStep, CodeReadable, CodeBehind;
    LaterSessions(w, o);
    ToPerformFacts(w, o);
    ToEnsureFacts(w, o);
    MergeKeepsRelease(w.site.spec, o.clone);
  }

  /**
   * A rollback in vain, from what is stored and answered: another release is deployed and none to go back to is
   * recorded, the rollout has failed, and the deployment was settled nevertheless, because a failed read let the
   * ordinary update through or because it is being debugged.
   */
  lemma InVainFromStored(w: World, o: Oracle)
    requires w.deploy.Some? && w.deploy.value.created
    ensures RollsBackInVain(w, o) <==>
      && ReachesCodeUpdate(w, o) && Undeployed(w) && !Unverified(w.site)
      && RolloutFails(Equipped(w, o), o) && !o.updateCall.readFails
      && (SlipsThrough(o) || LeftAlone(w.deploy.value, w.site))
  {
    hide RollsBackInVain, ReachesCodeUpdate, Unverified, UpdateUpsert, RolloutFails, SlipsThrough, LeftAlone, ReleaseId,
      Assessment, Equipped, Ensured1, EnsureUpsert, SetHashes;
    InVainExactlyWhen(w, o);
    if ReachesCodeUpdate(w, o) && Undeployed(w) {
      var s, t := Assessment(w, o), Equipped(w, o);
      ReachedSessions(w, o);
      SettledByThen(s, t, o);
      LeftAloneReads(w.deploy.value, s.site, w.site);
    }
  }
}
