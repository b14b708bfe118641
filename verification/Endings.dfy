// How a reconcile ends: when it panics, and when the controller is brought back by it.
module Endings {
  import opened Kube
  import opened DrupalSites
  import opened Deployments
  import opened Workflow
  import opened ReconcileFacts
  import opened EnsureFacts
  import opened PerformFacts
  import opened Safety

  // ------------------------------------------------------------------ how far a reconcile gets, from the stored site

  /** The site can be read, and neither its deletion nor the pause annotation ends the reconcile. */
  predicate Live(w: World, o: Oracle) {
    !o.siteReadFails && !w.gone && !w.site.meta.deleting && !w.site.meta.paused
  }

  /** The clone source is there, nothing is missing in the spec, and the spec is valid. */
  predicate SpecAccepted(w: World, o: Oracle) {
    (w.site.spec.cloneFrom == "" || o.clone.SourceFound?) && !SpecIncomplete(w.site) && o.specValid
  }

  /** The pod, the clone job or the easystart task says that the site is there. */
  predicate SeenInitialized(w: World, o: Oracle) {
    || (ServerReady(w, o.installedReadFails) && ExecOutput(o.checkInstalled, ReleaseId(w.site.spec)).Some?)
    || o.cloneJobDone || o.easystartDone
  }

  /** The stored status says what can be observed. */
  predicate StatusInStep(w: World, o: Oracle) {
    var st, release := w.site.status, ReleaseId(w.site.spec);
    && st.current == release
    && st.conditions.ready == TruthOf(FoundReady(w, o))
    && (st.conditions.initialized.Holds() || st.conditions.initialized == TruthOf(SeenInitialized(w, o)))
    && (st.failsafe == release ==> !w.site.Is(CodeUpdateFailed) && !w.site.Is(DBUpdatesFailed))
    && (|MergeClone(w.site.spec, o.clone).extraConfigurationRepo| > 0 ==> st.webhookURL == o.webhookURL)
    && (ConfigRead(w, o).Some? ==> st.isPrimary == (w.site.name == ConfigRead(w, o).value))
  }

  /** The spec as the sections after the first see it. */
  function Merged(w: World, o: Oracle): Session {
    Begin(w).(site := w.site.(spec := MergeClone(w.site.spec, o.clone)))
  }

  lemma SpecAcceptedGoes(w: World, o: Oracle)
    ensures InitSpec(Begin(w), o).Go? <==> SpecAccepted(w, o)
    ensures SpecAccepted(w, o) ==> InitSpec(Begin(w), o) == Go(Merged(w, o))
  {
    hide CompleteSpec, SpecIncomplete, MergeClone, WriteSite, WriteStatus;
    CompleteSpecFacts(w.site, o);
  }

  lemma InStepMeansNoChange(w: World, o: Oracle)
    ensures NewStatus(Merged(w, o), o) == w.site.status <==> StatusInStep(w, o)
  {
    hide ReleaseId, FoundReady, MergeClone, ServerReady, ExecOutput;
    MergeKeepsRelease(w.site.spec, o.clone);
  }

  lemma StatusInStepGoes(w: World, o: Oracle)
    ensures SyncStatus(Merged(w, o), o).Go? <==> StatusInStep(w, o)
    ensures StatusInStep(w, o) ==>
      var s := SyncStatus(Merged(w, o), o).session;
      s == Merged(w, o).(log := s.log)
  {
    hide NewStatus, StatusInStep, MergeClone, WriteStatus, AskInstalled;
    InStepMeansNoChange(w, o);
    AskKeepsMerged(w, o);
  }

  lemma AskKeepsMerged(w: World, o: Oracle)
    ensures
      var s := AskInstalled(Merged(w, o), o);
      s == Merged(w, o).(log := s.log)
  {
    hide ReleaseId, ExecPod, MergeClone;
  }

  /** The project config and the list of backups can be read. */
  predicate ProjectReadable(o: Oracle) {
    !o.configReadFails && o.backups.Some?
  }

  /** The list of sites failed while there was a config: then a failed list of backups is reported, not fatal. */
  predicate ListFailureReported(w: World, o: Oracle) {
    w.primary.Some? && o.sitesInProject.None?
  }

  /** The four ways a reconcile of a live site gets through, or not, until its update is assessed. */
  lemma ToAssessEnds(w: World, o: Oracle)
    requires Live(w, o)
    ensures !(SpecAccepted(w, o) && StatusInStep(w, o)) ==>
      ToAssess(w, o).Stop? && ToAssess(w, o).outcome == WriteOutcome(o.siteWrite)
    ensures SpecAccepted(w, o) && StatusInStep(w, o) && o.configReadFails ==>
      ToAssess(w, o).Stop? && ToAssess(w, o).outcome == Panicked
    ensures SpecAccepted(w, o) && StatusInStep(w, o) && !o.configReadFails && o.backups.None? ==>
      ToAssess(w, o).Stop? && ToAssess(w, o).outcome == (if ListFailureReported(w, o) then Errored else Panicked)
    ensures
      (SpecAccepted(w, o) && StatusInStep(w, o) && ProjectReadable(o)
       && |o.backups.value| != |w.site.status.backups|) ==>
      ToAssess(w, o).Stop? && ToAssess(w, o).outcome == WriteOutcome(o.siteWrite)
    ensures ToAssess(w, o).Go? <==>
      SpecAccepted(w, o) && StatusInStep(w, o) && ProjectReadable(o) && |o.backups.value| == |w.site.status.backups|
  {
    hide InitSpec, SyncStatus, SpecAccepted, StatusInStep, MergeClone, Proclaim, SyncBackups;
    SpecAcceptedGoes(w, o);
    InitSpecEnds(w, o);
    if SpecAccepted(w, o) {
      StatusInStepGoes(w, o);
      SyncStatusEnds(w, o);
      if StatusInStep(w, o) {
        ProjectEnds(w, o, SyncStatus(Merged(w, o), o).session);
      }
    }
  }

  lemma InitSpecEnds(w: World, o: Oracle)
    ensures InitSpec(Begin(w), o).Stop? ==> InitSpec(Begin(w), o).outcome == WriteOutcome(o.siteWrite)
  {
    hide CompleteSpec, SpecIncomplete;
  }

  lemma SyncStatusEnds(w: World, o: Oracle)
    ensures SyncStatus(Merged(w, o), o).Stop? ==> SyncStatus(Merged(w, o), o).outcome == WriteOutcome(o.siteWrite)
  {
    hide NewStatus, AskInstalled, MergeClone;
  }

  lemma ProjectEnds(w: World, o: Oracle, s: Session)
    requires s == Merged(w, o).(log := s.log)
    ensures o.configReadFails ==> Proclaim(s, o) == Stop(s, Panicked)
    ensures !o.configReadFails ==> Proclaim(s, o).Go?
    ensures !o.configReadFails ==>
      var f := SyncBackups(Proclaim(s, o).session, o);
      if o.backups.None? then f.Stop? && f.outcome == (if ListFailureReported(w, o) then Errored else Panicked)
      else if |o.backups.value| != |w.site.status.backups| then f.Stop? && f.outcome == WriteOutcome(o.siteWrite)
      else f.Go?
  {
    hide MergeClone;
  }

  // ------------------------------------------------------------------ panics

  lemma AssessNeverPanics(s: Session, o: Oracle)
    ensures Assess(s, o).Stop? ==> Assess(s, o).outcome == WriteOutcome(o.siteWrite)
  {
    hide ComputeNeeds, ReleaseId, WriteOutcome, Updatable;
  }

  lemma EnsureNeverPanics(s: Session, o: Oracle)
    ensures Ensure(s, o).Stop? ==> Ensure(s, o).outcome != Panicked
  {
    hide EnsureUpsert, EnsureJob, EnsureSchedule, JobFails, ScheduleFails, Replicas, HashUpsert, Record;
  }

  lemma PerformNeverPanics(s: Session, o: Oracle)
    ensures Perform(s, o).outcome != Panicked
  {
    hide UpsertRelease, CheckRollout, ClearCaches, CacheOutput, RollBack, RollbackRefused, Execute, ExecOutput,
      ReleaseId, Record, RunsCodeUpdate, RunsSchemaUpdate, Advanced;
  }

  lemma LaterNeverPanics(s: Session, o: Oracle)
    ensures Assess(s, o).Stop? ==> Assess(s, o).outcome == WriteOutcome(o.siteWrite)
    ensures Ensure(s, o).Stop? ==> Ensure(s, o).outcome != Panicked
    ensures Perform(s, o).outcome != Panicked
  {
    hide Assess, Ensure, Perform;
    AssessNeverPanics(s, o);
    EnsureNeverPanics(s, o);
    PerformNeverPanics(s, o);
  }

  /** A plain write ends a reconcile without panic, and brings the controller back when it was not accepted. */
  lemma WriteEnds(write: Write)
    ensures WriteOutcome(write) != Panicked
    ensures Back(WriteOutcome(write)) <==> write != Accepted
  {
  }

  /** The outcomes after which the controller reconciles again by itself. */
  predicate Back(outcome: Outcome) {
    outcome == Requeued || outcome == Errored
  }

  /** A reconcile of a live site ends in its first stage that stops. */
  lemma LiveEnds(w: World, o: Oracle)
    requires Live(w, o)
    ensures ToAssess(w, o).Stop? ==> Reconciled(w, o).outcome == ToAssess(w, o).outcome
    ensures ToAssess(w, o).Go? && Assess(ToAssess(w, o).session, o).Stop? ==>
      Reconciled(w, o).outcome == Assess(ToAssess(w, o).session, o).outcome
    ensures ToEnsure(w, o).Go? && Ensure(ToEnsure(w, o).session, o).Stop? ==>
      Reconciled(w, o).outcome == Ensure(ToEnsure(w, o).session, o).outcome
    ensures ToPerform(w, o).Go? ==> Reconciled(w, o).outcome == Perform(ToPerform(w, o).session, o).outcome
    ensures ToEnsure(w, o).Go? <==> ToAssess(w, o).Go? && Assess(ToAssess(w, o).session, o).Go?
    ensures ToPerform(w, o).Go? <==> ToEnsure(w, o).Go? && Ensure(ToEnsure(w, o).session, o).Go?
  {
    hide ToAssess, Assess, Ensure, Perform;
  }

  /** Without a live site there is nothing to panic about. */
  lemma DeadEnds(w: World, o: Oracle)
    requires !Live(w, o)
    ensures Reconciled(w, o).outcome != Panicked
    ensures Back(Reconciled(w, o).outcome) <==>
      o.siteReadFails || (!w.gone && w.site.meta.deleting && w.site.meta.finalizer && !LetsGo(w, o))
  {
    hide InitSpec, SyncStatus, Proclaim, SyncBackups;
  }

  /** The deletion of a site gets through: the primary site is given up, the schedule gone, the finalizer removed. */
  predicate LetsGo(w: World, o: Oracle) {
    && (ConfigRead(w, o) == Some(w.site.name) ==> o.configWrite == Accepted)
    && CallSucceeds(o.scheduleCall, w.schedule)
    && o.siteWrite == Accepted
  }

  /**
   * A reconcile panics exactly when a live site with a complete spec and an up-to-date status meets a failed read of
   * the project config, or a failed list of backups that no failed list of sites comes before.
   */
  lemma PanicsExactlyWhen(w: World, o: Oracle)
    ensures Reconciled(w, o).outcome == Panicked <==>
      && Live(w, o) && SpecAccepted(w, o) && StatusInStep(w, o)
      && (o.configReadFails || (o.backups.None? && !ListFailureReported(w, o)))
  {
    hide Reconciled, ToAssess, ToEnsure, ToPerform, Assess, Ensure, Perform, SpecAccepted, StatusInStep;
    WriteEnds(o.siteWrite);
    if !Live(w, o) {
      DeadEnds(w, o);
    } else {
      ToAssessEnds(w, o);
      LiveEnds(w, o);
      LaterNeverPanics(ToAssess(w, o).session, o);
      LaterNeverPanics(ToEnsure(w, o).session, o);
      LaterNeverPanics(ToPerform(w, o).session, o);
    }
  }

  // ------------------------------------------------------------------ the assessment, from the stored site

  predicate NeedsCode(w: World, o: Oracle) {
    Updatable(w.site) && CodeReadable(w, o) && CodeBehind(w, w.site)
  }

  predicate NeedsSchema(w: World, o: Oracle) {
    var output := ExecOutput(o.checkUpdb, ReleaseId(w.site.spec));
    Updatable(w.site) && !NeedsCode(w, o) && output.Some? && output != Some("")
  }

  /** Annotation and pending condition follow the needs, or the failed update is closed. */
  predicate UpdateInStep(w: World, o: Oracle) {
    var pending := w.site.status.conditions.dbUpdatesPending;
    && (Updatable(w.site) ==>
          && w.site.meta.updateInProgress == (if NeedsCode(w, o) || NeedsSchema(w, o) then IN_PROGRESS else None)
          && pending == (if NeedsSchema(w, o) then Present(True, "") else Absent))
    && (w.site.Is(CodeUpdateFailed) ==> w.site.meta.updateInProgress.None? && pending == Present(Unknown, ""))
  }

  /** What a session that is assessed shares with the stored world. */
  predicate SameStored(w: World, s: Session) {
    && s.world == w.(primary := s.world.primary)
    && s.site.meta == w.site.meta && s.site.status.(isPrimary := w.site.status.isPrimary) == w.site.status
    && ReleaseId(s.site.spec) == ReleaseId(w.site.spec)
    && !s.codeNeeded && !s.dbNeeded
  }

  lemma AssessableIsStored(w: World, o: Oracle)
    requires ToAssess(w, o).Go?
    ensures SameStored(w, ToAssess(w, o).session) && Live(w, o)
  {
    hide ReleaseId, MergeClone, Coherent, FoundReady, ToAssess, SpecIncomplete;
    ToAssessFacts(w, o);
    MergeKeepsRelease(w.site.spec, o.clone);
    GoesOnlyLive(w, o);
  }

  lemma GoesOnlyLive(w: World, o: Oracle)
    requires ToAssess(w, o).Go?
    ensures Live(w, o)
  {
    hide InitSpec, SyncStatus, Proclaim, SyncBackups;
  }

  lemma NeedsAreStored(w: World, o: Oracle, s: Session)
    requires SameStored(w, s)
    ensures
      var t := ComputeNeeds(s, o);
      && t.codeNeeded == NeedsCode(w, o) && t.dbNeeded == NeedsSchema(w, o)
      && t.site == s.site && t.world == s.world
  {
    hide ReleaseId, ExecPod;
  }

  lemma AssessEnds(w: World, o: Oracle, s: Session)
    requires SameStored(w, s)
    ensures Assess(s, o).Go? <==> UpdateInStep(w, o)
    ensures Assess(s, o).Go? ==> Assess(s, o) == Go(ComputeNeeds(s, o))
  {
    hide ReleaseId, ComputeNeeds, NeedsCode, NeedsSchema, WriteSite, WriteStatus;
    NeedsAreStored(w, o, s);
  }

  // ------------------------------------------------------------------ the resources

  /** The configuration of the server is known and its replicas are on record. */
  predicate Configured(s: Session, o: Oracle) {
    Replicas(s, o).Some? && !o.overrideReadFails && s.site.status.expectedReplicas == Replicas(s, o)
  }

  predicate ResourcesEnsured(s: Session, o: Oracle) {
    !o.otherResourcesFail && !EnsureUpsert(s, o).Refused? && !JobFails(s, o) && !ScheduleFails(s, o)
  }

  /** What the hash writer reports. */
  function HashResult(s: Session, o: Oracle): Upsert<Deployment> {
    HashUpsert(s.(world := s.world.(deploy := Ensured1(s, o))), o)
  }

  predicate HashesEnsured(s: Session, o: Oracle) {
    !o.configmaps.ConfigmapFailed? && !HashResult(s, o).Refused?
  }

  predicate DatabaseReady(w: World, o: Oracle) {
    w.dbod && !o.dbod3Fails
  }

  /** The section on resources gets through. */
  predicate Equips(s: Session, o: Oracle) {
    Configured(s, o) && ResourcesEnsured(s, o) && HashesEnsured(s, o) && DatabaseReady(s.world, o)
  }

  /**
   * The section on resources ends the reconcile and brings the controller back: for a missing namespace, a conflict of
   * the hash writer, a missing database, or a record of replicas that could not be written. Every failed resource, and
   * every failed read, is lost.
   */
  predicate ResourcesComeBack(s: Session, o: Oracle) {
    || o.namespace.NamespaceMissing?
    || (o.namespace.NamespaceFound? && o.siteWrite != Accepted
        && (Replicas(s, o).None? || (!o.overrideReadFails && s.site.status.expectedReplicas != Replicas(s, o))))
    || (Configured(s, o) && ResourcesEnsured(s, o) && !o.configmaps.ConfigmapFailed?
      && HashResult(s, o) == Refused(true))
    || (Configured(s, o) && ResourcesEnsured(s, o) && HashesEnsured(s, o) && !DatabaseReady(s.world, o))
  }

  lemma ConfiguredGoes(s: Session, o: Oracle)
    ensures SyncReplicas(s, o).Go? <==> Configured(s, o)
    ensures SyncReplicas(s, o).Go? ==> SyncReplicas(s, o).session == s
    ensures SyncReplicas(s, o).Stop? ==> (Back(SyncReplicas(s, o).outcome) <==>
      || o.namespace.NamespaceMissing?
      || (o.namespace.NamespaceFound? && o.siteWrite != Accepted
          && (Replicas(s, o).None? || (!o.overrideReadFails && s.site.status.expectedReplicas != Replicas(s, o)))))
  {
    hide ExpectedReplicas;
    WriteEnds(o.siteWrite);
  }

  lemma RecordKeeps(s: Session, author: Author, r: Upsert<Deployment>)
    ensures
      var t := Record(s, author, r);
      t == s.(world := s.world.(deploy := Result(s.world.deploy, r)), log := t.log)
  {
  }

  lemma JobKeeps(s: Session, o: Oracle)
    ensures
      var t := EnsureJob(s, o);
      t == s.(world := s.world.(jobs := t.world.jobs), log := t.log)
  {
    hide JobFor, CallSucceeds;
  }

  lemma ScheduleKeeps(s: Session, o: Oracle)
    ensures
      var t := EnsureSchedule(s, o);
      t == s.(world := s.world.(schedule := t.world.schedule), log := t.log)
  {
    hide WantsSchedule, CallSucceeds;
  }

  /** Whether a job or the schedule fails does not depend on what was ensured before. */
  lemma FailuresApart(s: Session, t: Session, o: Oracle)
    requires t.site == s.site && t.world.dbod == s.world.dbod
    ensures t.world.jobs == s.world.jobs ==> JobFails(t, o) == JobFails(s, o)
    ensures t.world.schedule == s.world.schedule ==> ScheduleFails(t, o) == ScheduleFails(s, o)
  {
    hide WantsSchedule, CallSucceeds;
  }

  lemma ResourcesGo(s: Session, o: Oracle)
    ensures EnsureResources(s, o).Go? <==> ResourcesEnsured(s, o)
    ensures EnsureResources(s, o).Stop? ==> EnsureResources(s, o).outcome == Finished
    ensures EnsureResources(s, o).Go? ==>
      var t := EnsureResources(s, o).session;
      t.world.deploy == Ensured1(s, o) && t.world.dbod == s.world.dbod && t.site == s.site
      && t.codeNeeded == s.codeNeeded && t.dbNeeded == s.dbNeeded && t.flagged == s.flagged
  {
    hide EnsureUpsert, Record, Result, JobFails, ScheduleFails, EnsureJob, EnsureSchedule, WriteStatus;
    var s1 := Record(s, ByResources, EnsureUpsert(s, o));
    var s2 := EnsureJob(s1, o);
    RecordKeeps(s, ByResources, EnsureUpsert(s, o));
    JobKeeps(s1, o);
    ScheduleKeeps(s2, o);
    FailuresApart(s, s1, o);
    FailuresApart(s, s2, o);
  }

  lemma HashUpsertReads(s: Session, t: Session, o: Oracle)
    requires t.world.deploy == Ensured1(s, o)
    ensures HashUpsert(t, o) == HashResult(s, o)
  {
    hide SetHashes, Ensured1;
  }

  lemma HashesGo(s: Session, t: Session, o: Oracle)
    requires t.world.deploy == Ensured1(s, o)
    ensures EnsureHashes(t, o).Go? <==> HashesEnsured(s, o)
    ensures EnsureHashes(t, o).Stop? ==> (Back(EnsureHashes(t, o).outcome) <==>
      !o.configmaps.ConfigmapFailed? && HashResult(s, o) == Refused(true))
    ensures EnsureHashes(t, o).Go? ==>
      var u := EnsureHashes(t, o).session;
      u.world.dbod == t.world.dbod && u.site == t.site
      && u.codeNeeded == t.codeNeeded && u.dbNeeded == t.dbNeeded && u.flagged == t.flagged
  {
    hide Ensured1, HashUpsert, HashResult, Record, WriteStatus, WithCondition, Result;
    HashUpsertReads(s, t, o);
    RecordKeeps(t, ByHashes, HashUpsert(t, o));
  }

  lemma DatabaseGoes(s: Session, o: Oracle)
    ensures CheckDatabase(s, o).Go? <==> DatabaseReady(s.world, o)
    ensures CheckDatabase(s, o).Go? ==> CheckDatabase(s, o).session == s
    ensures CheckDatabase(s, o).Stop? ==> CheckDatabase(s, o).outcome == Requeued
  {
  }

  lemma EnsureEnds(s: Session, o: Oracle)
    ensures Ensure(s, o).Go? <==> Equips(s, o)
    ensures Ensure(s, o).Stop? ==> (Back(Ensure(s, o).outcome) <==> ResourcesComeBack(s, o))
    ensures Ensure(s, o).Go? ==>
      var t := Ensure(s, o).session;
      t.site == s.site && t.codeNeeded == s.codeNeeded && t.dbNeeded == s.dbNeeded && t.flagged == s.flagged
  {
    hide SyncReplicas, EnsureResources, EnsureHashes, CheckDatabase, Replicas, ResourcesEnsured, HashResult, Ensured1;
    ConfiguredGoes(s, o);
    NamespaceFirst(s, o);
    if Configured(s, o) {
      ResourcesGo(s, o);
      if ResourcesEnsured(s, o) {
        var t := EnsureResources(s, o).session;
        HashesGo(s, t, o);
        if HashesEnsured(s, o) {
          DatabaseGoes(EnsureHashes(t, o).session, o);
        }
      }
    }
  }

  lemma NamespaceFirst(s: Session, o: Oracle)
    ensures Replicas(s, o).Some? ==> o.namespace.NamespaceFound?
  {
  }

  // ------------------------------------------------------------------ the update

  /** The rollout of a settled deployment came to a verdict that is written to the status. */
  predicate RolloutRecorded(t: Session, o: Oracle) {
    match CheckRollout(o.rolloutPods, Rel(t))
    case Waiting => false
    case Broken => !RollbackUpsert(t, o).Refused?
    case RolledOut => CacheOutput(t, o) != Some("")
  }

  /** The code update is over: the pods of a settled deployment run, and their caches were cleared in silence. */
  predicate RolloutVerified(t: Session, o: Oracle) {
    CheckRollout(o.rolloutPods, Rel(t)) == RolledOut && CacheOutput(t, o) == Some("")
  }

  /** The status is written, or there is nothing to write and an earlier error is remembered. */
  predicate LastWordComesBack(t: Session, o: Oracle) {
    if AdvancesFailsafe(t.site) then o.siteWrite != Accepted else t.flagged
  }

  /**
   * The code update brings the controller back when it wrote the deployment, when its verdict could not be written, or
   * when it is over and the reconcile then ends that way. A refused write of the deployment, a pod that has not come up
   * yet or cannot be listed, and a refused rollback are lost.
   */
  predicate CodeUpdateComesBack(t: Session, o: Oracle) {
    var r := UpdateUpsert(t, o);
    || r.Created? || r.Updated?
    || (r.Unchanged? && RolloutRecorded(t, o) && o.siteWrite != Accepted)
    || (r.Unchanged? && RolloutVerified(t, o) && LastWordComesBack(t, o))
  }

  lemma RollbackReported(t: Session, o: Oracle)
    ensures RollbackRefused(t.(site := FailCode(t.site, ERR_DEPLOYMENT_UPDATE_FAILED)), o)
      == RollbackUpsert(t, o).Refused?
  {
    hide Apply, ConfigOf;
    var u := t.(site := FailCode(t.site, ERR_DEPLOYMENT_UPDATE_FAILED));
    RollbackIgnoresConditions(t, u, u, o);
  }

  lemma FinishRolloutEnds(t: Session, o: Oracle)
    ensures FinishRollout(t, o).Go? <==> RolloutVerified(t, o)
    ensures FinishRollout(t, o).Stop? ==>
      (Back(FinishRollout(t, o).outcome) <==> RolloutRecorded(t, o) && o.siteWrite != Accepted)
    ensures FinishRollout(t, o).Go? ==>
      var u := FinishRollout(t, o).session;
      u.site == t.site && u.dbNeeded == t.dbNeeded && u.codeNeeded == t.codeNeeded && u.flagged == t.flagged
  {
    hide CheckRollout, RollBack, RollbackRefused, CacheOutput, ClearCaches, RollbackUpsert, ReleaseId, FailCode;
    WriteEnds(o.siteWrite);
    RollbackReported(t, o);
    ClearKeeps(t, o);
  }

  lemma ClearKeeps(t: Session, o: Oracle)
    ensures ClearCaches(t, o) == t.(log := ClearCaches(t, o).log)
  {
    hide ReleaseId, ExecPod;
  }

  lemma AdvanceEnds(t: Session, o: Oracle)
    ensures Back(AdvanceFailsafe(t, o).outcome) <==> LastWordComesBack(t, o)
  {
    hide Advanced, AdvancesFailsafe;
    WriteEnds(o.siteWrite);
  }

  lemma UpdateVersionEnds(t: Session, o: Oracle)
    requires RunsCodeUpdate(t)
    ensures
      var f, r := UpdateVersion(t, o), UpdateUpsert(t, o);
      && (f.Go? <==> r.Unchanged? && RolloutVerified(t, o))
      && (f.Go? ==> f.session.site == t.site && f.session.dbNeeded == t.dbNeeded && f.session.flagged == t.flagged)
      && (f.Stop? ==>
            (Back(f.outcome) <==>
              || r.Created? || r.Updated?
              || (r.Unchanged? && RolloutRecorded(t, o) && o.siteWrite != Accepted)))
  {
    hide FinishRollout, UpsertRelease, ConfigOf, ReleaseId, RolloutRecorded, RolloutVerified, RunsCodeUpdate;
    FinishRolloutEnds(t, o);
  }

  /** With a code update the section has no schema update to run. */
  lemma CodeUpdateEnds(t: Session, o: Oracle)
    requires RunsCodeUpdate(t) && !t.dbNeeded
    ensures Back(Perform(t, o).outcome) <==> CodeUpdateComesBack(t, o)
  {
    hide UpdateVersion, UpdateUpsert, AdvanceFailsafe, RolloutRecorded, RolloutVerified, LastWordComesBack,
      RunsCodeUpdate, Back;
    UpdateVersionEnds(t, o);
    RecordedOrVerified(t, o);
    if UpdateVersion(t, o).Go? {
      var u := UpdateVersion(t, o).session;
      NoSchemaNeeded(u, o);
      AdvanceEnds(u, o);
      LastWordSame(t, u, o);
    }
  }

  lemma RecordedOrVerified(t: Session, o: Oracle)
    ensures !(RolloutRecorded(t, o) && RolloutVerified(t, o))
  {
    hide CheckRollout, CacheOutput, ReleaseId, RollbackUpsert;
  }

  lemma NoSchemaNeeded(u: Session, o: Oracle)
    requires !u.dbNeeded
    ensures UpdateSchema(u, o) == Go(u)
  {
  }

  lemma LastWordSame(t: Session, u: Session, o: Oracle)
    requires u.site == t.site && u.flagged == t.flagged
    ensures LastWordComesBack(u, o) == LastWordComesBack(t, o)
  {
    hide AdvancesFailsafe;
  }

  lemma SchemaStopEnds(t: Session, o: Oracle)
    requires UpdateSchema(t, o).Stop?
    ensures UpdateSchema(t, o).outcome == WriteOutcome(o.siteWrite)
  {
    hide Execute, ExecOutput, ReleaseId, RunsSchemaUpdate;
  }

  /** A schema update is announced as pending, so that it always ends in a write. */
  lemma SchemaUpdateEnds(t: Session, o: Oracle)
    requires RunsSchemaUpdate(t) && !t.codeNeeded && t.site.Is(DBUpdatesPending)
    ensures Back(Perform(t, o).outcome) <==> o.siteWrite != Accepted
  {
    hide UpdateSchema;
    WriteEnds(o.siteWrite);
    if UpdateSchema(t, o).Go? {
      UpdateSchemaGoes(t, o);
    } else {
      SchemaStopEnds(t, o);
    }
  }

  /** Without an update the last word is on the failsafe release. */
  lemma NoUpdateEnds(t: Session, o: Oracle)
    requires !RunsCodeUpdate(t) && !RunsSchemaUpdate(t)
    ensures Back(Perform(t, o).outcome) <==> LastWordComesBack(t, o)
  {
    hide AdvanceFailsafe, LastWordComesBack, RunsCodeUpdate, RunsSchemaUpdate;
    AdvanceEnds(t, o);
  }

  // ------------------------------------------------------------------ when the controller comes back

  /** The update section of a reconcile brings the controller back. */
  predicate UpdateComesBack(w: World, o: Oracle) {
    var t := Equipped(w, o);
    if NeedsCode(w, o) then CodeUpdateComesBack(t, o)
    else if NeedsSchema(w, o) && !w.site.Is(DBUpdatesFailed) then o.siteWrite != Accepted
    else LastWordComesBack(t, o)
  }

  /** Up to the resources everything was in step, and nothing had to be written. */
  predicate AllInStep(w: World, o: Oracle) {
    && SpecAccepted(w, o) && StatusInStep(w, o) && ProjectReadable(o)
    && |o.backups.value| == |w.site.status.backups| && UpdateInStep(w, o)
  }

  /** What makes the controller come back by itself, section by section. */
  predicate ComesBack(w: World, o: Oracle) {
    if !Live(w, o) then
      o.siteReadFails || (!w.gone && w.site.meta.deleting && w.site.meta.finalizer && !LetsGo(w, o))
    else if AllInStep(w, o) then
      if Equips(Assessment(w, o), o) then UpdateComesBack(w, o) else ResourcesComeBack(Assessment(w, o), o)
    else if SpecAccepted(w, o) && StatusInStep(w, o) && !ProjectReadable(o) then
      !o.configReadFails && ListFailureReported(w, o)
    else o.siteWrite != Accepted
  }

  /** The sessions of the later sections, from the stored site. */
  lemma LaterSessions(w: World, o: Oracle)
    requires Live(w, o) && AllInStep(w, o)
    ensures ToEnsure(w, o).Go?
    ensures ToPerform(w, o).Go? <==> Equips(Assessment(w, o), o)
    ensures ToPerform(w, o).Go? ==>
      var t := Equipped(w, o);
      && t.codeNeeded == NeedsCode(w, o) && t.dbNeeded == NeedsSchema(w, o)
      && t.site.meta == w.site.meta && t.site.status.conditions == w.site.status.conditions
  {
    hide ToAssess, Assess, Ensure, Equips, SpecAccepted, StatusInStep, UpdateInStep, NeedsCode, NeedsSchema, ReleaseId,
      ResourcesComeBack;
    ToAssessEnds(w, o);
    LiveEnds(w, o);
    AssessableIsStored(w, o);
    var s := ToAssess(w, o).session;
    AssessEnds(w, o, s);
    NeedsAreStored(w, o, s);
    EnsureEnds(Assessment(w, o), o);
  }

  /** Whether the update section runs an update, from the stored site. */
  lemma UpdatesAreStored(w: World, o: Oracle, t: Session)
    requires UpdateInStep(w, o) && t.codeNeeded == NeedsCode(w, o) && t.dbNeeded == NeedsSchema(w, o)
    requires t.site.meta == w.site.meta && t.site.status.conditions == w.site.status.conditions
    ensures RunsCodeUpdate(t) <==> NeedsCode(w, o)
    ensures RunsSchemaUpdate(t) <==> NeedsSchema(w, o) && !w.site.Is(DBUpdatesFailed)
    ensures NeedsCode(w, o) ==> !NeedsSchema(w, o)
    ensures NeedsSchema(w, o) ==> t.site.Is(DBUpdatesPending)
  {
    hide CodeReadable, CodeBehind, ExecOutput, ReleaseId;
  }

  lemma UpdateEnds(w: World, o: Oracle)
    requires Live(w, o) && AllInStep(w, o) && Equips(Assessment(w, o), o)
    ensures Back(Reconciled(w, o).outcome) <==> UpdateComesBack(w, o)
  {
    hide ToAssess, ToEnsure, ToPerform, Perform, Equips, SpecAccepted, StatusInStep, UpdateInStep, NeedsCode,
      NeedsSchema, ReleaseId, CodeUpdateComesBack, LastWordComesBack, RunsCodeUpdate, RunsSchemaUpdate, Back;
    LaterSessions(w, o);
    LiveEnds(w, o);
    var t := Equipped(w, o);
    UpdatesAreStored(w, o, t);
    if NeedsCode(w, o) {
      CodeUpdateEnds(t, o);
    } else if RunsSchemaUpdate(t) {
      SchemaUpdateEnds(t, o);
    } else {
      NoUpdateEnds(t, o);
    }
  }

  lemma AssessmentComesBack(w: World, o: Oracle)
    requires Live(w, o) && !AllInStep(w, o)
    ensures Back(Reconciled(w, o).outcome) <==> ComesBack(w, o)
  {
    hide ToAssess, ToEnsure, ToPerform, Assess, Perform, SpecAccepted, StatusInStep, UpdateInStep;
    WriteEnds(o.siteWrite);
    ToAssessEnds(w, o);
    LiveEnds(w, o);
    if ToAssess(w, o).Go? {
      AssessableIsStored(w, o);
      AssessEnds(w, o, ToAssess(w, o).session);
      LaterNeverPanics(ToAssess(w, o).session, o);
    }
  }

  /**
   * A reconcile ends requeued or with an error exactly when one of its sections brings the controller back: a hard
   * error, a plain write of the site or its status that was not accepted, or a deployment the update has written.
   * Whatever the operator itself calls a transient error is not among these.
   */
  lemma ComesBackExactlyWhen(w: World, o: Oracle)
    ensures Back(Reconciled(w, o).outcome) <==> ComesBack(w, o)
  {
    hide Reconciled, ToAssess, ToEnsure, ToPerform, Ensure, Perform, SpecAccepted, StatusInStep, UpdateInStep,
      AllInStep, Equips, ResourcesComeBack, UpdateComesBack, Back;
    if !Live(w, o) {
      DeadEnds(w, o);
    } else if !AllInStep(w, o) {
      AssessmentComesBack(w, o);
    } else if Equips(Assessment(w, o), o) {
      UpdateEnds(w, o);
    } else {
      LaterSessions(w, o);
      LiveEnds(w, o);
      EnsureEnds(Assessment(w, o), o);
    }
  }

  /**
   * The failures that the update itself calls temporary are lost: a refused write of the deployment, a pod that has not
   * come up yet or cannot be listed, a refused rollback, and, once the status is written, a cache clear that failed
   * twice end the reconcile as if it had succeeded.
   */
  lemma TemporaryFailuresAreLost(w: World, o: Oracle)
    requires Live(w, o) && AllInStep(w, o) && Equips(Assessment(w, o), o) && NeedsCode(w, o)
    requires
      var t := Equipped(w, o);
      || UpdateUpsert(t, o).Refused?
      || (UpdateUpsert(t, o).Unchanged? && CheckRollout(o.rolloutPods, Rel(t)) == Waiting)
      || (UpdateUpsert(t, o).Unchanged? && CheckRollout(o.rolloutPods, Rel(t)) == Broken
        && RollbackUpsert(t, o).Refused?)
      || (UpdateUpsert(t, o).Unchanged? && CheckRollout(o.rolloutPods, Rel(t)) == RolledOut
        && CacheOutput(t, o).None? && o.siteWrite == Accepted)
    ensures Reconciled(w, o).outcome == Finished
  {
    hide Reconciled, Equips, AllInStep, NeedsCode, UpdateUpsert, RollbackUpsert, CheckRollout, CacheOutput, ReleaseId;
    ComesBackExactlyWhen(w, o);
    PanicsExactlyWhen(w, o);
    assert ProjectReadable(o) by { InStepReads(w, o); }
  }

  lemma InStepReads(w: World, o: Oracle)
    requires AllInStep(w, o)
    ensures ProjectReadable(o)
  {
  }

  // ------------------------------------------------------------------ when the annotation goes

  /** Metadata comes from the start or from a logged write. */
  lemma {:induction false} MetaHistory(w: World, log: seq<Event>)
    requires forall e :: e in log ==> !e.SiteWritten?
    ensures After(w, log).site.meta == w.site.meta
    decreases |log|
  {
    if log != [] {
      var before := log[..|log| - 1];
      assert forall e :: e in before ==> e in log;
      MetaHistory(w, before);
      assert log[|log| - 1] in log;
    }
  }

  lemma CleanupKeepsAnnotation(w: World, o: Oracle)
    ensures Cleanup(Begin(w), o).session.world.site.meta.updateInProgress == w.site.meta.updateInProgress
  {
  }

  lemma InitSpecKeepsAnnotation(w: World, o: Oracle)
    ensures InitSpec(Begin(w), o).session.world.site.meta.updateInProgress == w.site.meta.updateInProgress
  {
    hide SpecIncomplete, CompleteSpec, WriteSite, WriteStatus, WithCondition;
    CompletionKeepsAnnotation(w.site, o);
    var s := Begin(w);
    var t := s.(site := CompleteSpec(s.site, o));
    WritesOnlyMeta(s.(site := WithCondition(s.site, Error, Present(True, ERR_INVALID_SPEC))), o);
    WritesOnlyMeta(s.(site := WithCondition(s.site, Error, Present(True, ERR_CLIENT_K8S))), o);
    WritesOnlyMeta(t, o);
    WritesOnlyMeta(t.(site := WithCondition(t.site, Error, Present(True, ERR_INVALID_SPEC))), o);
  }

  lemma WritesOnlyMeta(s: Session, o: Oracle)
    ensures WriteStatus(s, o).session.world.site.meta == s.world.site.meta
    ensures
      var m := WriteSite(s, o).session.world.site.meta;
      m == s.world.site.meta || m == s.site.meta
  {
  }

  lemma CompletionKeepsAnnotation(site: Site, o: Oracle)
    ensures CompleteSpec(site, o).meta.updateInProgress == site.meta.updateInProgress
  {
    hide MergeClone;
  }

  lemma SyncStatusKeepsMeta(s: Session, o: Oracle)
    ensures SyncStatus(s, o).session.world.site.meta == s.world.site.meta
  {
    hide NewStatus, ExecPod, ReleaseId;
  }

  lemma ProjectKeepsMeta(s: Session, o: Oracle)
    ensures Proclaim(s, o).session.world.site.meta == s.world.site.meta
    ensures SyncBackups(s, o).session.world.site.meta == s.world.site.meta
  {
  }

  lemma ToAssessKeepsAnnotation(w: World, o: Oracle)
    ensures ToAssess(w, o).session.world.site.meta.updateInProgress == w.site.meta.updateInProgress
  {
    hide InitSpec, SyncStatus, Proclaim, SyncBackups, Cleanup;
    CleanupKeepsAnnotation(w, o);
    InitSpecKeepsAnnotation(w, o);
    if InitSpec(Begin(w), o).Go? {
      var s1 := InitSpec(Begin(w), o).session;
      SyncStatusKeepsMeta(s1, o);
      if SyncStatus(s1, o).Go? {
        var s2 := SyncStatus(s1, o).session;
        ProjectKeepsMeta(s2, o);
        ProjectKeepsMeta(Proclaim(s2, o).session, o);
      }
    }
  }

  /** The annotation is no longer wanted: nothing is needed any more, or the code update has failed. */
  predicate AnnotationDue(w: World, o: Oracle) {
    w.site.Is(CodeUpdateFailed) || (Updatable(w.site) && !NeedsCode(w, o) && !NeedsSchema(w, o))
  }

  /** The first write of the assessment removes the annotation when no update is needed. */
  lemma SyncRemovesAnnotation(t: Session, o: Oracle)
    requires t.world.site.meta == t.site.meta && t.site.meta.updateInProgress.Some?
    ensures
      var f := SyncAnnotation(t, o);
      && (f.Go? ==> f.session == t && !(Updatable(t.site) && !t.codeNeeded && !t.dbNeeded))
      && (f.Stop? ==>
            && Updatable(t.site)
            && (f.session.world.site.meta.updateInProgress == None
             <==> o.siteWrite == Accepted && Updatable(t.site) && !t.codeNeeded && !t.dbNeeded))
  {
  }

  lemma PendingKeepsAnnotation(t: Session, o: Oracle)
    ensures SyncPending(t, o).session.world.site.meta == t.world.site.meta
    ensures SyncPending(t, o).Go? ==> SyncPending(t, o).session == t
    ensures SyncPending(t, o).Stop? ==> Updatable(t.site)
  {
  }

  /** The last write of the assessment removes the annotation after a failed code update. */
  lemma CloseRemovesAnnotation(t: Session, o: Oracle)
    requires t.world.site.meta == t.site.meta && t.site.meta.updateInProgress.Some?
    ensures
      var f := CloseFailed(t, o);
      && (f.Go? <==> !t.site.Is(CodeUpdateFailed))
      && (f.Stop? ==> (f.session.world.site.meta.updateInProgress == None <==> o.siteWrite == Accepted))
  {
  }

  lemma AssessRemovesAnnotation(w: World, o: Oracle, s: Session)
    requires SameStored(w, s) && w.site.meta.updateInProgress.Some?
    ensures AnnotationDue(w, o) ==> Assess(s, o).Stop?
    ensures Assess(s, o).Stop? ==>
      var next := Assess(s, o).session.world;
      (next.site.meta.updateInProgress == None <==> o.siteWrite == Accepted && AnnotationDue(w, o))
  {
    hide ReleaseId, ComputeNeeds, NeedsCode, NeedsSchema, SyncAnnotation, SyncPending, CloseFailed;
    NeedsAreStored(w, o, s);
    var t := ComputeNeeds(s, o);
    SyncRemovesAnnotation(t, o);
    PendingKeepsAnnotation(t, o);
    CloseRemovesAnnotation(t, o);
  }

  /** Later sections do not write the site. */
  lemma LaterKeepsMeta(w: World, o: Oracle)
    requires Live(w, o) && ToEnsure(w, o).Go?
    ensures Reconciled(w, o).session.world.site.meta == w.site.meta
  {
    hide ToEnsure, ToAssess, ToPerform, Perform, Ensure, Reconciled, Decided, Observed, Coherent, Ensured, Late, Middle,
      Moves, StoppedLate;
    LogCases(w, o);
    assert Reconciled(w, o).session.world == After(w, Log(w, o)) by { CoherentIsAfter(w, Reconciled(w, o).session); }
    forall e | e in Log(w, o) ensures !e.SiteWritten? {
      LaterWritesNoSite(w, o, e);
    }
    MetaHistory(w, Log(w, o));
  }

  lemma CoherentIsAfter(w: World, s: Session)
    requires Coherent(w, s)
    ensures s.world == After(w, s.log)
  {
  }

  lemma LaterWritesNoSite(w: World, o: Oracle, e: Event)
    requires ToEnsure(w, o).Go? && e in Log(w, o)
    ensures !e.SiteWritten?
  {
    hide ToEnsure, Ensure, Perform, Decided, Coherent, Ensured, Late, Moves, StoppedLate, InMiddle, Ensured1,
      EnsureUpsert, SetHashes;
    ToPerformFacts(w, o);
    ToEnsureFacts(w, o);
    var s := ToEnsure(w, o).session;
    if ToPerform(w, o).Stop? {
      assert Middle(w, o, s, e) by { MiddleEvent(w, o, s, ToPerform(w, o).session, e); }
    } else {
      var t := ToPerform(w, o).session;
      EnsuredIsMiddle(w, o, s, t);
      PerformEvents(w, o, s, t);
      LateWritesNoSite(w, o, s, t, Perform(t, o).session, e);
    }
  }

  lemma MiddleEvent(w: World, o: Oracle, s: Session, t: Session, e: Event)
    requires StoppedMiddle(w, o, s, t) && e in t.log
    ensures Middle(w, o, s, e)
  {
  }

  lemma LateWritesNoSite(w: World, o: Oracle, s: Session, t: Session, f: Session, e: Event)
    requires StoppedLate(w, o, s, t, f) || Moves(w, o, s, t, f)
    requires e in f.log
    ensures !e.SiteWritten?
  {
    hide UpdateVersion, RunsCodeUpdate, Coherent, UpsertRelease, Ensured1, EnsureUpsert, SetHashes, ReleaseId, Advanced;
    if Moves(w, o, s, t, f) && e != f.log[|f.log| - 1] {
      assert e in UpdateVersion(t, o).session.log;
    }
  }

  /**
   * A reconcile removes the update annotation exactly when it gets to the assessment, the annotation is no longer
   * wanted, and the write is accepted. A failed schema update is no reason: its updates are still pending.
   */
  lemma AnnotationGoesExactlyWhen(w: World, o: Oracle)
    requires w.site.meta.updateInProgress.Some?
    ensures Reconciled(w, o).session.world.site.meta.updateInProgress == None <==>
      && Live(w, o) && SpecAccepted(w, o) && StatusInStep(w, o) && ProjectReadable(o)
      && |o.backups.value| == |w.site.status.backups| && AnnotationDue(w, o) && o.siteWrite == Accepted
  {
    hide ToAssess, Assess, Perform, SpecAccepted, StatusInStep, AnnotationDue, Ensure;
    ToAssessKeepsAnnotation(w, o);
    if Live(w, o) {
      ToAssessEnds(w, o);
      if ToAssess(w, o).Go? {
        AssessableIsStored(w, o);
        AssessRemovesAnnotation(w, o, ToAssess(w, o).session);
        if Assess(ToAssess(w, o).session, o).Go? {
          LaterKeepsMeta(w, o);
        }
      }
    } else {
      GoesOnlyLiveStops(w, o);
    }
  }

  lemma GoesOnlyLiveStops(w: World, o: Oracle)
    requires !Live(w, o)
    ensures ToAssess(w, o).Stop?
  {
    if ToAssess(w, o).Go? {
      GoesOnlyLive(w, o);
    }
  }
}
