// A schema update that fails: when the failure stays on record, and when it is lifted and the update tried again.
module FailedSchema {
  import opened Kube
  import opened DrupalSites
  import opened Deployments
  import opened Workflow
  import opened ReconcileFacts
  import opened Safety
  import opened Calm
  import opened Housekeeping
  import opened Convergence
  import opened EnsureFacts
  import opened Runs
  import opened Endings

  /** A site with nothing left to do but the schema update. */
  ghost predicate Pressing(env: Oracle, w: World) {
    && CalmWorld(env, w) && Performable(env, w, true) && !Behind(w)
    && Claimed(env, w) && Scheduled(w) && Hashed(env, w)
    && w.site.status.conditions.dbUpdatesFailed == Absent
  }

  /** The same on a site that is verified, so that its failsafe release is the release of the spec. */
  ghost predicate Due(env: Oracle, w: World) {
    Pressing(env, w) && Restored(w)
  }

  /** No fault but the last command: pods run, updates are pending, the backup is taken, run-updb fails. */
  ghost predicate UpdbFails(env: Oracle, w: World, o: Oracle) {
    && FaultFree(o) && SameInputs(env, o) && PodsUp(o, ReleaseId(w.site.spec)) && Checks(o, true)
    && o.backup.output.Some? && o.runUpdb.output == None
  }

  /** The failure on record. */
  function Recorded(w: World): World {
    w.(site := WithCondition(w.site, DBUpdatesFailed, Present(True, ERR_DB_UPDATE_FAILED)))
  }

  /** run-updb was executed, whatever came of it. */
  ghost predicate TriedUpdb(log: seq<Event>) {
    exists i :: 0 <= i < |log| && log[i].Executed? && log[i].command == RunUpdb
  }

  lemma UpdateSchemaFails(u: Session, o: Oracle)
    requires FaultFree(o) && RunsSchemaUpdate(u)
    requires
      && ExecPod(o.backup, Rel(u)).Some? && o.backup.output.Some? && ExecPod(o.runUpdb, Rel(u)).Some?
      && o.runUpdb.output == None
    ensures
      var f := UpdateSchema(u, o);
      && f.Stop? && TriedUpdb(f.session.log)
      && f.session.world == u.world.(site := u.world.site.(status :=
           WithCondition(u.site, DBUpdatesFailed, Present(True, ERR_DB_UPDATE_FAILED)).status))
  {
    hide ReleaseId, ExecPod, FaultFree;
    assert o.siteWrite == Accepted by { WritesAccepted(o); }
    var n := |u.log|;
    var log := UpdateSchema(u, o).session.log;
    assert log[n + 1].Executed? && log[n + 1].command == RunUpdb;
  }

  /** The update section begins in the world as it is. */
  lemma PressingIsProvisioned(env: Oracle, w: World)
    requires Pressing(env, w)
    ensures Provisioned(env, w, true) == w && ClaimedSession(env, w) == Begin(w)
  {
    hide SetHashes, WantsSchedule, Performable, CalmWorld, Behind;
    ClaimedFacts(env, w);
    assert w.deploy.Some?;
  }

  lemma RecordsFailure(env: Oracle, w: World, o: Oracle)
    requires Pressing(env, w) && UpdbFails(env, w, o)
    ensures Reconciled(w, o).session.world == Recorded(w) && TriedUpdb(Log(w, o))
  {
    hide ToPerform, SpecIncomplete, ClaimedSession, Listed, SameInputs, ReleaseId, FixedSpec, SetHashes, WantsSchedule,
      Synced, UpdateVersion, UpdateSchema, FaultFree, ExecPod, Chores, TriedUpdb, Provisioned, Claimed, Hashed;
    ToPerformPath(env, w, o, true);
    var u := ToPerform(w, o).session;
    PressingIsProvisioned(env, w);
    ClaimedUpdatable(env, w);
    NoCodeUpdate(u, o);
    UpdateSchemaFails(u, o);
  }

  /** The next reconcile finds the site at its failsafe release, and lifts the failure. */
  lemma LiftsFailure(env: Oracle, w: World, o: Oracle)
    requires Due(env, w) && FaultFree(o) && SameInputs(env, o)
    ensures Reconciled(Recorded(w), o).session.world == w
  {
    hide SpecIncomplete, NewStatus, ReleaseId, FixedSpec, ToAssess, SameInputs, FaultFree, Hashed, Claimed, Scheduled,
      Behind, Listed;
    var b := Recorded(w);
    assert Alive(env, b) && !SpecIncomplete(b.site) && !Synced(env, b) by { RecordedIsUntidy(env, w); }
    SyncsStatus(env, b, o);
    LiftedStatus(env, w, o);
  }

  lemma RecordedIsUntidy(env: Oracle, w: World)
    requires Due(env, w)
    ensures
      var b := Recorded(w);
      Alive(env, b) && !SpecIncomplete(b.site) && !Synced(env, b)
  {
    hide ReleaseId, FixedSpec, Hashed, Claimed, Scheduled, Behind, Listed;
  }

  lemma LiftedStatus(env: Oracle, w: World, o: Oracle)
    requires Due(env, w) && FaultFree(o) && SameInputs(env, o)
    ensures NewStatus(Begin(Recorded(w)), o) == w.site.status
  {
    hide ReleaseId, FixedSpec, FoundReady, FoundInitialized, Hashed, Claimed, Scheduled, Behind, Listed;
    FoundReadyCalm(Recorded(w), o);
  }

  lemma DuePresses(env: Oracle, w: World)
    requires Due(env, w)
    ensures Pressing(env, w)
  {
  }

  /** Whole reconciles one after the other, in all of which run-updb fails. */
  ghost predicate IsFailingRun(env: Oracle, w: World, ws: seq<World>, os: seq<Oracle>) {
    && |ws| == |os| + 1
    && forall k :: 0 <= k < |os| ==> ws[k + 1] == After(ws[k], Log(ws[k], os[k])) && UpdbFails(env, w, os[k])
  }

  /**
   * A failing schema update never comes to rest: at every second reconcile the world is the same again and run-updb is
   * executed again; in between, the failure is on record for as long as it takes to lift it.
   */
  lemma {:induction false} FailedSchemaUpdateRepeats(env: Oracle, w: World, ws: seq<World>, os: seq<Oracle>, i: nat)
    requires Due(env, w) && IsFailingRun(env, w, ws, os) && ws[0] == w && 2 * i < |os|
    ensures ws[2 * i] == w && ws[2 * i + 1] == Recorded(w) && TriedUpdb(Log(ws[2 * i], os[2 * i]))
    decreases i
  {
    hide Log, Due, Pressing, TriedUpdb, PodsUp, Checks, FaultFree, SameInputs;
    if i > 0 {
      FailedSchemaUpdateRepeats(env, w, ws, os, i - 1);
      var k := 2 * i - 1;
      assert UpdbFails(env, w, os[k]);
      WorldAfterLog(ws[k], os[k]);
      LiftsFailure(env, w, os[k]);
    }
    assert UpdbFails(env, w, os[2 * i]);
    assert Pressing(env, w) by { DuePresses(env, w); }
    WorldAfterLog(w, os[2 * i]);
    RecordsFailure(env, w, os[2 * i]);
  }

  // ------------------------------------------------------------------ such runs exist

  lemma LongerFailingRun(env: Oracle, w: World, ws: seq<World>, os: seq<Oracle>, o: Oracle)
    requires IsFailingRun(env, w, ws, os) && UpdbFails(env, w, o)
    ensures IsFailingRun(env, w, ws + [After(ws[|os|], Log(ws[|os|], o))], os + [o])
  {
    hide Log, UpdbFails;
  }

  /** Given one way to fail, there are failing runs of every length. */
  lemma {:induction false} FailingRunExists(env: Oracle, w: World, o: Oracle, n: nat)
    requires UpdbFails(env, w, o)
    ensures exists ws, os :: IsFailingRun(env, w, ws, os) && |os| == n && ws[0] == w
    decreases n
  {
    hide Log, UpdbFails;
    if n == 0 {
      assert IsFailingRun(env, w, [w], []);
    } else {
      FailingRunExists(env, w, o, n - 1);
      var ws: seq<World>, os: seq<Oracle> :| IsFailingRun(env, w, ws, os) && |os| == n - 1 && ws[0] == w;
      LongerFailingRun(env, w, ws, os, o);
      assert IsFailingRun(env, w, ws + [After(ws[|os|], Log(ws[|os|], o))], os + [o]);
    }
  }

  // ------------------------------------------------------------------ when a failure is lifted

  /** The two conditions that a failed update leaves. */
  predicate IsFailure(t: ConditionType) {
    t == CodeUpdateFailed || t == DBUpdatesFailed
  }

  /** The status observed at the failsafe release has no failure, the one observed elsewhere has the failures it had. */
  lemma ObservedFailures(w: World, o: Oracle, t: ConditionType)
    requires IsFailure(t) && w.site.Is(t)
    ensures NewStatus(Merged(w, o), o).conditions.Get(t).Holds() <==> !Restored(w)
  {
    hide ReleaseId, FoundReady, FoundInitialized, MergeClone;
    MergeKeepsRelease(w.site.spec, o.clone);
  }

  lemma CleanupKeepsStatus(w: World, o: Oracle)
    ensures Cleanup(Begin(w), o).session.world.site.status == w.site.status
  {
  }

  /** Only the error condition is set while the spec is completed. */
  lemma WritesOnlyStatus(s: Session, o: Oracle)
    ensures WriteSite(s, o).session.world.site.status == s.world.site.status
    ensures
      var st := WriteStatus(s, o).session.world.site.status;
      st == s.world.site.status || st == s.site.status
  {
  }

  lemma ErrorLeavesFailures(site: Site, reason: string, t: ConditionType)
    requires IsFailure(t)
    ensures WithCondition(site, Error, Present(True, reason)).status.conditions.Get(t) == site.status.conditions.Get(t)
  {
  }

  lemma InitSpecKeepsFailures(w: World, o: Oracle, t: ConditionType)
    requires IsFailure(t)
    ensures InitSpec(Begin(w), o).Stop? ==>
      InitSpec(Begin(w), o).session.world.site.status.conditions.Get(t) == w.site.status.conditions.Get(t)
  {
    hide CompleteSpec, SpecIncomplete, WriteSite, WriteStatus, WithCondition;
    CompleteSpecFacts(w.site, o);
    var s := Begin(w);
    var u := s.(site := CompleteSpec(s.site, o));
    ErrorLeavesFailures(s.site, ERR_INVALID_SPEC, t);
    ErrorLeavesFailures(s.site, ERR_CLIENT_K8S, t);
    ErrorLeavesFailures(u.site, ERR_INVALID_SPEC, t);
    WritesOnlyStatus(s.(site := WithCondition(s.site, Error, Present(True, ERR_INVALID_SPEC))), o);
    WritesOnlyStatus(s.(site := WithCondition(s.site, Error, Present(True, ERR_CLIENT_K8S))), o);
    WritesOnlyStatus(u, o);
    WritesOnlyStatus(u.(site := WithCondition(u.site, Error, Present(True, ERR_INVALID_SPEC))), o);
  }

  /** A live site with a complete spec gets its observed status, if the write is accepted. */
  lemma ObservedIsStored(w: World, o: Oracle)
    requires Live(w, o) && SpecAccepted(w, o) && !StatusInStep(w, o)
    ensures Reconciled(w, o).session.world.site.status
      == if o.siteWrite == Accepted then NewStatus(Merged(w, o), o) else w.site.status
  {
    hide InitSpec, SpecAccepted, StatusInStep, NewStatus, MergeClone, AskInstalled;
    SpecAcceptedGoes(w, o);
    InStepMeansNoChange(w, o);
    AskKeepsMerged(w, o);
  }

  /** A reconcile that does not find the spec at the failsafe release keeps the failures. */
  lemma KeptElsewhere(w: World, o: Oracle, t: ConditionType)
    requires IsFailure(t) && w.site.Is(t) && !Restored(w)
    ensures Reconciled(w, o).session.world.site.Is(t)
  {
    hide Log, ReleaseId, Reconciled;
    WorldAfterLog(w, o);
    assert Log(w, o)[..|Log(w, o)|] == Log(w, o);
    StepKeepsLatches(w, Reconcile(o, |Log(w, o)|), Reconciled(w, o).session.world);
  }

  /** A reconcile that ends before the status is observed keeps them as well. */
  lemma KeptBefore(w: World, o: Oracle, t: ConditionType)
    requires IsFailure(t) && w.site.Is(t) && !(Live(w, o) && SpecAccepted(w, o))
    ensures Reconciled(w, o).session.world.site.Is(t)
  {
    hide InitSpec, SyncStatus, Proclaim, SyncBackups, Cleanup, SpecAccepted;
    SpecAcceptedGoes(w, o);
    CleanupKeepsStatus(w, o);
    InitSpecKeepsFailures(w, o, t);
  }

  /**
   * A failed update is taken off the record exactly by a reconcile of a live site with a complete spec that finds the
   * spec at the failsafe release and has its write accepted; any other reconcile, with any faults, keeps it.
   */
  lemma FailureLiftedExactlyWhen(w: World, o: Oracle, t: ConditionType)
    requires IsFailure(t) && w.site.Is(t)
    ensures !Reconciled(w, o).session.world.site.Is(t)
      <==> Live(w, o) && SpecAccepted(w, o) && Restored(w) && o.siteWrite == Accepted
  {
    hide Reconciled, SpecAccepted, ReleaseId, NewStatus, StatusInStep;
    if !Restored(w) {
      KeptElsewhere(w, o, t);
    } else if Live(w, o) && SpecAccepted(w, o) {
      FailureIsOutOfStep(w, o, t);
      ObservedIsStored(w, o);
      ObservedFailures(w, o, t);
    } else {
      KeptBefore(w, o, t);
    }
  }

  lemma FailureIsOutOfStep(w: World, o: Oracle, t: ConditionType)
    requires IsFailure(t) && w.site.Is(t) && Restored(w)
    ensures !StatusInStep(w, o)
  {
    hide ReleaseId, SeenInitialized, FoundReady, MergeClone;
  }

  /**
   * In particular, a fault-free reconcile of a live site keeps a recorded failure exactly away from the failsafe
   * release.
   */
  lemma FailureKeptExactlyWhen(env: Oracle, w: World, o: Oracle, t: ConditionType)
    requires IsFailure(t) && w.site.Is(t)
    requires Alive(env, w) && !SpecIncomplete(w.site) && FaultFree(o) && SameInputs(env, o)
    ensures Reconciled(w, o).session.world.site.Is(t) <==> w.site.status.failsafe != ReleaseId(w.site.spec)
  {
    hide Reconciled, SpecIncomplete, ReleaseId, MergeClone;
    FailureLiftedExactlyWhen(w, o, t);
  }

  // ------------------------------------------------------------------ the failure a schema update records

  /** `v` is `s` but for a status with the same failsafe release. */
  predicate SameButStatus(s: Session, v: World) {
    v == s.world || (v == s.world.(site := s.world.site.(status := v.site.status))
      && v.site.status.failsafe == s.site.status.failsafe)
  }

  lemma WriteStatusLeaves(s: Session, u: Session, o: Oracle)
    requires u.world == s.world && u.site.status.failsafe == s.site.status.failsafe
    ensures SameButStatus(s, WriteStatus(u, o).session.world)
  {
  }

  lemma ExecuteLeaves(s: Session, c: Command, x: Exec)
    ensures Execute(s, c, x) == s.(log := Execute(s, c, x).log)
  {
    hide ReleaseId, ExecPod;
  }

  lemma ConditionLeaves(site: Site, t: ConditionType, c: Condition)
    ensures WithCondition(site, t, c).status.failsafe == site.status.failsafe
  {
  }

  /** A schema update that stops leaves the site and its failsafe release as they were. */
  lemma SchemaStopLeaves(t: Session, o: Oracle)
    requires UpdateSchema(t, o).Stop?
    ensures SameButStatus(t, UpdateSchema(t, o).session.world)
  {
    hide Execute, ExecOutput, WriteStatus, WithCondition, SameButStatus, RunsSchemaUpdate;
    var a := Execute(t, TakeBackup, o.backup);
    var b := Execute(a, RunUpdb, o.runUpdb);
    ExecuteLeaves(t, TakeBackup, o.backup);
    ExecuteLeaves(a, RunUpdb, o.runUpdb);
    ConditionLeaves(t.site, DBUpdatesFailed, Present(True, ERR_POD_EXEC));
    ConditionLeaves(t.site, DBUpdatesFailed, Present(True, ERR_DB_UPDATE_FAILED));
    ConditionLeaves(t.site, DBUpdatesPending, Absent);
    ConditionLeaves(WithCondition(t.site, DBUpdatesPending, Absent), DBUpdatesFailed, Absent);
    WriteStatusLeaves(t, FailSchema(a, ERR_POD_EXEC), o);
    WriteStatusLeaves(t, FailSchema(b, ERR_DB_UPDATE_FAILED), o);
    WriteStatusLeaves(
      t, b.(site := WithCondition(WithCondition(b.site, DBUpdatesPending, Absent), DBUpdatesFailed, Absent)), o);
  }

  lemma NoVersionUpdate(t: Session, o: Oracle)
    requires !RunsCodeUpdate(t)
    ensures UpdateVersion(t, o) == Go(t)
  {
  }

  lemma SiteOfMiddle(w: World, o: Oracle, s: Session, t: Session)
    requires Decided(w, o, s) && InMiddle(w, o, s, t)
    ensures t.world.site == w.site
  {
    hide Coherent, Middle, MergeClone, Assessed, InStep;
  }

  // ------------------------------------------------------------------ when a schema failure is recorded

  /** No schema failure, stored or in memory. */
  predicate Clear(s: Session) {
    !s.world.site.Is(DBUpdatesFailed) && !s.site.Is(DBUpdatesFailed)
  }

  /** A stage that lets a clear session go on clear, or stops it without a stored failure. */
  predicate LeavesClear(f: Flow) {
    if f.Go? then Clear(f.session) else !f.session.world.site.Is(DBUpdatesFailed)
  }

  /** Every condition but one can be set. */
  lemma OthersStayClear(site: Site, t: ConditionType, c: Condition)
    requires t != DBUpdatesFailed
    ensures WithCondition(site, t, c).Is(DBUpdatesFailed) <==> site.Is(DBUpdatesFailed)
  {
  }

  lemma WritesAreClear(s: Session, o: Oracle)
    requires Clear(s)
    ensures LeavesClear(WriteSite(s, o)) && LeavesClear(WriteStatus(s, o)) && LeavesClear(Transient(s, o))
    ensures forall reason :: LeavesClear(TransientNotReady(s, reason, o))
  {
  }

  /** Setting another condition and writing the status leaves no failure. */
  lemma ConditionClear(s: Session, o: Oracle, t: ConditionType, c: Condition)
    requires Clear(s) && t != DBUpdatesFailed
    ensures
      var u := s.(site := WithCondition(s.site, t, c));
      Clear(u) && LeavesClear(WriteStatus(u, o)) && LeavesClear(Transient(u, o))
  {
    hide WriteStatus, Transient, WithCondition, LeavesClear;
    OthersStayClear(s.site, t, c);
    WritesAreClear(s.(site := WithCondition(s.site, t, c)), o);
  }

  lemma GoesClear(s: Session)
    requires Clear(s)
    ensures LeavesClear(Go(s))
  {
  }

  lemma InitSpecClear(s: Session, o: Oracle)
    requires Clear(s)
    ensures LeavesClear(InitSpec(s, o))
  {
    hide SpecIncomplete, CompleteSpec, WriteSite, WriteStatus, WithCondition, LeavesClear;
    var t := s.(site := CompleteSpec(s.site, o));
    CompleteSpecFacts(s.site, o);
    WritesAreClear(t, o);
    ConditionClear(s, o, Error, Present(True, ERR_INVALID_SPEC));
    ConditionClear(s, o, Error, Present(True, ERR_CLIENT_K8S));
    ConditionClear(t, o, Error, Present(True, ERR_INVALID_SPEC));
    GoesClear(t);
  }

  lemma SyncStatusClear(s: Session, o: Oracle)
    requires Clear(s)
    ensures LeavesClear(SyncStatus(s, o))
  {
    hide NewStatus, AskInstalled, WriteStatus, LeavesClear;
    assert Clear(AskInstalled(s, o)) by { AskingClear(s, o); }
    NewStatusClear(s, o);
    WritesAreClear(AskInstalled(s, o).(site := s.site.(status := NewStatus(s, o))), o);
    GoesClear(AskInstalled(s, o));
  }

  lemma AskingClear(s: Session, o: Oracle)
    requires Clear(s)
    ensures Clear(AskInstalled(s, o))
  {
    hide ExecPod, ReleaseId;
  }

  lemma NewStatusClear(s: Session, o: Oracle)
    requires Clear(s)
    ensures !NewStatus(s, o).conditions.dbUpdatesFailed.Holds()
  {
    hide ReleaseId, FoundReady, FoundInitialized;
  }

  lemma ProjectClear(s: Session, o: Oracle)
    requires Clear(s)
    ensures LeavesClear(Proclaim(s, o)) && LeavesClear(SyncBackups(s, o))
  {
  }

  lemma CleanupClear(s: Session, o: Oracle)
    requires Clear(s)
    ensures LeavesClear(Cleanup(s, o))
  {
  }

  lemma ToAssessClear(w: World, o: Oracle)
    requires !w.site.Is(DBUpdatesFailed)
    ensures LeavesClear(ToAssess(w, o))
  {
    hide InitSpec, SyncStatus, Proclaim, SyncBackups, Cleanup;
    var s := Begin(w);
    CleanupClear(s, o);
    InitSpecClear(s, o);
    if InitSpec(s, o).Go? {
      SyncStatusClear(InitSpec(s, o).session, o);
      if SyncStatus(InitSpec(s, o).session, o).Go? {
        var s2 := SyncStatus(InitSpec(s, o).session, o).session;
        ProjectClear(s2, o);
        if Proclaim(s2, o).Go? {
          ProjectClear(Proclaim(s2, o).session, o);
        }
      }
    }
  }

  lemma AssessClear(s: Session, o: Oracle)
    requires Clear(s)
    ensures LeavesClear(Assess(s, o))
  {
    hide ComputeNeeds, SyncAnnotation, SyncPending, CloseFailed, Clear;
    NeedsClear(s, o);
    var t := ComputeNeeds(s, o);
    SyncsClear(t, o);
    if SyncAnnotation(t, o).Go? {
      SyncsClear(SyncAnnotation(t, o).session, o);
      if SyncPending(SyncAnnotation(t, o).session, o).Go? {
        SyncsClear(SyncPending(SyncAnnotation(t, o).session, o).session, o);
      }
    }
  }

  lemma NeedsClear(s: Session, o: Oracle)
    requires Clear(s)
    ensures Clear(ComputeNeeds(s, o))
  {
    hide ReleaseId, CodeBehind, CodeReadable, ExecPod, Updatable;
  }

  lemma SyncsClear(s: Session, o: Oracle)
    requires Clear(s)
    ensures LeavesClear(SyncAnnotation(s, o)) && LeavesClear(SyncPending(s, o)) && LeavesClear(CloseFailed(s, o))
  {
    hide WriteSite, WriteStatus, WithCondition, WithUpdateInProgress, Updatable, LeavesClear;
    GoesClear(s);
    forall v { AnnotationClear(s, o, v); }
    forall c { ConditionClear(s, o, DBUpdatesPending, c); }
  }

  lemma AnnotationClear(s: Session, o: Oracle, v: Option<string>)
    requires Clear(s)
    ensures LeavesClear(WriteSite(s.(site := WithUpdateInProgress(s.site, v)), o))
  {
  }

  lemma ResourcesClear(s: Session, o: Oracle)
    requires Clear(s)
    ensures LeavesClear(EnsureResources(s, o))
  {
    hide EnsureUpsert, JobFails, ScheduleFails, Record, EnsureJob, EnsureSchedule, TransientNotReady, LeavesClear;
    var s1 := Record(s, ByResources, EnsureUpsert(s, o));
    var s2 := EnsureJob(s1, o);
    RecordKeeps(s, ByResources, EnsureUpsert(s, o));
    JobKeeps(s1, o);
    ScheduleKeeps(s2, o);
    WritesAreClear(EnsureSchedule(s2, o), o);
    GoesClear(EnsureSchedule(s2, o));
  }

  lemma HashesClear(s: Session, o: Oracle)
    requires Clear(s)
    ensures LeavesClear(EnsureHashes(s, o))
  {
    hide HashUpsert, Record, TransientNotReady;
    RecordKeeps(s, ByHashes, HashUpsert(s, o));
    WritesAreClear(s, o);
  }

  lemma ReplicasClear(s: Session, o: Oracle)
    requires Clear(s)
    ensures LeavesClear(SyncReplicas(s, o)) && LeavesClear(CheckDatabase(s, o))
  {
    hide Replicas, WriteStatus, Transient, WithCondition;
    ConditionClear(s, o, Ready, Present(False, ERR_DBOD));
    WritesAreClear(s, o);
    WritesAreClear(s.(site := s.site.(status := s.site.status.(expectedReplicas := Replicas(s, o)))), o);
  }

  lemma EnsureClear(s: Session, o: Oracle)
    requires Clear(s)
    ensures LeavesClear(Ensure(s, o))
  {
    hide SyncReplicas, EnsureResources, EnsureHashes, CheckDatabase, Clear;
    ReplicasClear(s, o);
    if SyncReplicas(s, o).Go? {
      var s1 := SyncReplicas(s, o).session;
      ResourcesClear(s1, o);
      if EnsureResources(s1, o).Go? {
        var s2 := EnsureResources(s1, o).session;
        HashesClear(s2, o);
        if EnsureHashes(s2, o).Go? {
          ReplicasClear(EnsureHashes(s2, o).session, o);
        }
      }
    }
  }

  lemma ToPerformClear(w: World, o: Oracle)
    requires !w.site.Is(DBUpdatesFailed)
    ensures LeavesClear(ToPerform(w, o))
  {
    hide ToAssess, Assess, Ensure, Clear;
    ToAssessClear(w, o);
    if ToAssess(w, o).Go? {
      AssessClear(ToAssess(w, o).session, o);
      if ToEnsure(w, o).Go? {
        EnsureClear(ToEnsure(w, o).session, o);
      }
    }
  }

  lemma RollBackClear(s: Session, o: Oracle)
    requires Clear(s)
    ensures Clear(RollBack(s, o)) && Clear(ClearCaches(s, o))
  {
    hide UpsertRelease, ExecPod, ExecOutput, ReleaseId;
  }

  lemma FinishClear(t: Session, o: Oracle)
    requires Clear(t)
    ensures LeavesClear(FinishRollout(t, o))
  {
    hide CheckRollout, CacheOutput, RollBack, RollbackRefused, ClearCaches, ReleaseId, Transient, WriteStatus,
      LeavesClear, WithCondition;
    var f := t.(site := FailCode(t.site, ERR_DEPLOYMENT_UPDATE_FAILED));
    var c := ClearCaches(t, o);
    OthersStayClear(t.site, CodeUpdateFailed, Present(True, ERR_DEPLOYMENT_UPDATE_FAILED));
    RollBackClear(t, o);
    RollBackClear(f, o);
    RollBackClear(c, o);
    WritesAreClear(t, o);
    WritesAreClear(c, o);
    WritesAreClear(RollBack(f, o), o);
    ConditionClear(RollBack(c, o), o, CodeUpdateFailed, Present(True, ERR_CACHE));
    GoesClear(c);
  }

  lemma UpdateVersionClear(t: Session, o: Oracle)
    requires Clear(t)
    ensures LeavesClear(UpdateVersion(t, o))
  {
    hide UpsertRelease, FinishRollout, Record, ReleaseId, RunsCodeUpdate, Transient;
    RecordKeeps(t, ByUpdate, UpsertRelease(t, Rel(t), ConfigOf(t, o), o.updateCall));
    WritesAreClear(t, o);
    FinishClear(t, o);
  }

  /** The backup or run-updb fails, in its pod or for want of one. */
  predicate SchemaCommandFails(o: Oracle, release: string) {
    ExecOutput(o.backup, release).None? || ExecOutput(o.runUpdb, release).None?
  }

  lemma FailureWritten(s: Session, reason: string, o: Oracle)
    requires Clear(s)
    ensures WriteStatus(FailSchema(s, reason), o).session.world.site.Is(DBUpdatesFailed) <==> o.siteWrite == Accepted
  {
  }

  lemma SuccessWritten(s: Session, o: Oracle)
    requires Clear(s)
    ensures
      var done := s.(site := WithCondition(WithCondition(s.site, DBUpdatesPending, Absent), DBUpdatesFailed, Absent));
      LeavesClear(WriteStatus(done, o)) && Clear(done)
  {
  }

  lemma UpdateSchemaRecords(t: Session, o: Oracle)
    requires Clear(t)
    ensures
      var f := UpdateSchema(t, o);
      && (f.Go? ==> Clear(f.session))
      && (f.session.world.site.Is(DBUpdatesFailed) <==>
            RunsSchemaUpdate(t) && SchemaCommandFails(o, Rel(t)) && o.siteWrite == Accepted)
  {
    hide ExecOutput, ExecPod, ReleaseId, Execute, RunsSchemaUpdate, WriteStatus, WithCondition;
    var a := Execute(t, TakeBackup, o.backup);
    var b := Execute(a, RunUpdb, o.runUpdb);
    ExecuteLeaves(t, TakeBackup, o.backup);
    ExecuteLeaves(a, RunUpdb, o.runUpdb);
    FailureWritten(a, ERR_POD_EXEC, o);
    FailureWritten(b, ERR_DB_UPDATE_FAILED, o);
    SuccessWritten(b, o);
  }

  lemma AdvanceClear(u: Session, o: Oracle)
    requires Clear(u)
    ensures LeavesClear(AdvanceFailsafe(u, o))
  {
    hide ReleaseId, SiteImage;
  }

  /** The update section records a schema failure exactly when it runs the schema update and a command of it fails. */
  lemma PerformRecords(t: Session, o: Oracle)
    requires Clear(t) && !(RunsCodeUpdate(t) && RunsSchemaUpdate(t)) && (RunsCodeUpdate(t) ==> !t.dbNeeded)
    ensures Perform(t, o).session.world.site.Is(DBUpdatesFailed) <==>
      RunsSchemaUpdate(t) && SchemaCommandFails(o, Rel(t)) && o.siteWrite == Accepted
  {
    hide UpdateVersion, UpdateSchema, AdvanceFailsafe, SchemaCommandFails, ReleaseId, RunsSchemaUpdate, RunsCodeUpdate;
    UpdateVersionClear(t, o);
    if RunsCodeUpdate(t) {
      if UpdateVersion(t, o).Go? {
        UpdateVersionEnds(t, o);
        var u := UpdateVersion(t, o).session;
        NoSchemaNeeded(u, o);
        AdvanceClear(u, o);
      }
    } else {
      NoVersionUpdate(t, o);
      UpdateSchemaRecords(t, o);
      if UpdateSchema(t, o).Go? {
        AdvanceClear(UpdateSchema(t, o).session, o);
      }
    }
  }

  /** A reconcile that gets to its update section found everything in step. */
  lemma GetsToUpdate(w: World, o: Oracle)
    requires ToPerform(w, o).Go?
    ensures Live(w, o) && AllInStep(w, o) && Equips(Assessment(w, o), o)
  {
    hide ToAssess, Assess, Ensure, Equips, SpecAccepted, StatusInStep, UpdateInStep;
    AssessableIsStored(w, o);
    ToAssessEnds(w, o);
    AssessEnds(w, o, ToAssess(w, o).session);
    EnsureEnds(Assessment(w, o), o);
  }

  /** The session whose resources were ensured is still about the stored site. */
  lemma EquippedIsStored(w: World, o: Oracle)
    requires ToPerform(w, o).Go?
    ensures
      var t := Equipped(w, o);
      && t.world.site == w.site && Rel(t) == ReleaseId(w.site.spec)
      && t.site.status.failsafe == w.site.status.failsafe
    ensures w.site.status.current == ReleaseId(w.site.spec)
  {
    hide Decided, Ensured, InMiddle, Observed, Middle, ToAssess, ToEnsure, ReleaseId;
    ToEnsureFacts(w, o);
    ToPerformFacts(w, o);
    var s, t := Assessment(w, o), Equipped(w, o);
    EnsuredIsMiddle(w, o, s, t);
    MiddleSite(w, o, s, t);
    SiteOfMiddle(w, o, s, t);
    DecidedKeeps(w, o, s);
    NeededKeepsFailsafe(w, o, s);
    ObservedCurrent(w, o, ToAssess(w, o).session);
  }

  /**
   * A schema failure goes on record exactly when a live site with everything in step needs a schema update, its backup
   * or its run-updb fails, and the status write is accepted.
   */
  lemma FailureRecordedExactlyWhen(w: World, o: Oracle)
    requires !w.site.Is(DBUpdatesFailed)
    ensures Reconciled(w, o).session.world.site.Is(DBUpdatesFailed) <==>
      && Live(w, o) && AllInStep(w, o) && Equips(Assessment(w, o), o) && NeedsSchema(w, o)
      && SchemaCommandFails(o, ReleaseId(w.site.spec)) && o.siteWrite == Accepted
  {
    hide ToAssess, ToEnsure, ToPerform, Perform, Equips, AllInStep, NeedsCode, NeedsSchema, SchemaCommandFails,
      RunsCodeUpdate, RunsSchemaUpdate, ReleaseId;
    ToPerformClear(w, o);
    if ToPerform(w, o).Go? {
      var t := Equipped(w, o);
      GetsToUpdate(w, o);
      LaterSessions(w, o);
      assert UpdateInStep(w, o) by { InStepUpdates(w, o); }
      UpdatesAreStored(w, o, t);
      EquippedIsStored(w, o);
      PerformRecords(t, o);
    } else if Live(w, o) && AllInStep(w, o) {
      LaterSessions(w, o);
    }
  }

  lemma InStepUpdates(w: World, o: Oracle)
    requires AllInStep(w, o)
    ensures UpdateInStep(w, o)
  {
  }

  /** A reconcile that records a schema failure leaves the rest of the site, and its failsafe release, as they were. */
  lemma RecordingLeaves(w: World, o: Oracle)
    requires !w.site.Is(DBUpdatesFailed) && Reconciled(w, o).session.world.site.Is(DBUpdatesFailed)
    ensures
      var next := Reconciled(w, o).session.world;
      next.site == w.site.(status := next.site.status) && next.site.status.failsafe == w.site.status.failsafe
    ensures w.site.status.current == ReleaseId(w.site.spec)
  {
    hide ToAssess, ToEnsure, ToPerform, UpdateVersion, UpdateSchema, AdvanceFailsafe, Equips, AllInStep, NeedsCode,
      NeedsSchema, SchemaCommandFails, RunsCodeUpdate, RunsSchemaUpdate, ReleaseId;
    FailureRecordedExactlyWhen(w, o);
    LaterSessions(w, o);
    var t := Equipped(w, o);
    assert UpdateInStep(w, o) by { InStepUpdates(w, o); }
    UpdatesAreStored(w, o, t);
    EquippedIsStored(w, o);
    ToPerformClear(w, o);
    NoVersionUpdate(t, o);
    UpdateSchemaRecords(t, o);
    if UpdateSchema(t, o).Go? {
      AdvanceClear(UpdateSchema(t, o).session, o);
    }
    SchemaStopLeaves(t, o);
  }

  // ------------------------------------------------------------------ how long it stays

  /**
   * A schema failure, once recorded, survives the next accepted reconcile exactly when the failsafe release is not the
   * release of the spec: whatever failed, and whatever could be read.
   */
  lemma RecordedFailureStaysExactlyWhen(w: World, o: Oracle, later: Oracle)
    requires !w.site.Is(DBUpdatesFailed) && Reconciled(w, o).session.world.site.Is(DBUpdatesFailed)
    requires
      var next := Reconciled(w, o).session.world;
      Live(next, later) && SpecAccepted(next, later) && later.siteWrite == Accepted
    ensures Reconciled(Reconciled(w, o).session.world, later).session.world.site.Is(DBUpdatesFailed)
      <==> w.site.status.failsafe != ReleaseId(w.site.spec)
  {
    hide Reconciled, ReleaseId, SpecAccepted, Live;
    RecordingLeaves(w, o);
    FailureLiftedExactlyWhen(Reconciled(w, o).session.world, later, DBUpdatesFailed);
  }

  /** With a readable deployment the schema update runs at the failsafe release or with none. */
  lemma RecordedAtFailsafe(w: World, o: Oracle)
    requires !w.site.Is(DBUpdatesFailed) && Reconciled(w, o).session.world.site.Is(DBUpdatesFailed)
    requires CodeReadable(w, o)
    ensures w.site.status.failsafe == "" || w.site.status.failsafe == ReleaseId(w.site.spec)
  {
    hide Reconciled, ReleaseId, AllInStep, Equips, SchemaCommandFails;
    FailureRecordedExactlyWhen(w, o);
    RecordingLeaves(w, o);
  }

  /**
   * When the deployment could be read, the recorded failure survives the next accepted reconcile exactly when the site
   * has no failsafe release.
   */
  lemma ReadableFailureStaysExactlyWhen(w: World, o: Oracle, later: Oracle)
    requires !w.site.Is(DBUpdatesFailed) && Reconciled(w, o).session.world.site.Is(DBUpdatesFailed)
    requires CodeReadable(w, o)
    requires
      var next := Reconciled(w, o).session.world;
      Live(next, later) && SpecAccepted(next, later) && later.siteWrite == Accepted
    ensures Reconciled(Reconciled(w, o).session.world, later).session.world.site.Is(DBUpdatesFailed)
      <==> w.site.status.failsafe == ""
  {
    hide Reconciled, ReleaseId, SpecAccepted, CodeReadable, Live;
    RecordedAtFailsafe(w, o);
    NoReleaseIsEmpty(w.site.spec);
    RecordedFailureStaysExactlyWhen(w, o, later);
  }
}
