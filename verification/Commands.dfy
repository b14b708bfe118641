// Every pod command of a reconcile: which pod it runs in, what it answers, and why it is issued.
module Commands {
  import opened Kube
  import opened DrupalSites
  import opened Workflow
  import opened ReconcileFacts
  import opened EnsureFacts
  import opened Safety
  import opened Effects

  /** The event is a command with this answer, in the first pod of the release, which is running. */
  ghost predicate Ran(w: World, x: Exec, e: Event)
    requires e.Executed?
  {
    Pods.RunsIn(x, Asked(w), e.pod) && e.output == x.output
  }

  /** The site is up, and no failed code update stands in the way of looking for another one. */
  predicate Checked(w: World) {
    w.site.Is(Ready) && w.site.Is(Initialized) && !w.site.Is(CodeUpdateFailed)
  }

  /** A schema update is due on a site without a code update. */
  ghost predicate SchemaDue(w: World, o: Oracle) {
    && Checked(w) && !Due(w, o) && !w.site.Is(DBUpdatesFailed)
    && Answer(w, o.checkUpdb).Some? && Answer(w, o.checkUpdb) != Some("")
  }

  ghost predicate CommandRun(w: World, o: Oracle, e: Event)
    requires e.Executed?
  {
    match e.command
    case CheckInstalled =>
      && !w.site.Is(Initialized) && !o.installedReadFails && w.deploy.Some? && w.readyReplicas > 0
      && Ran(w, o.checkInstalled, e)
    case CheckUpdb => Checked(w) && !Due(w, o) && Ran(w, o.checkUpdb, e)
    case ClearCache =>
      && Due(w, o) && Pods.RunningPods(o.rolloutPods, Asked(w))
      && (Ran(w, o.cache1, e) || (Answer(w, o.cache1).None? && Ran(w, o.cache2, e)))
    case TakeBackup => SchemaDue(w, o) && Ran(w, o.backup, e)
    case RunUpdb => SchemaDue(w, o) && Answer(w, o.backup).Some? && Ran(w, o.runUpdb, e)
  }

  // ------------------------------------------------------------------ sections

  lemma Executes(w: World, o: Oracle, s: Session, c: Command, x: Exec, e: Event)
    requires Basis(w, o, s) && e.Executed?
    ensures e in Execute(s, c, x).log && e !in s.log ==> e.command == c && Ran(w, x, e)
  {
    hide ExecPod, Basis, Pods.RunsIn;
    BasisAsks(w, o, s);
    Pods.CommandRuns(x, Rel(s));
  }

  lemma WritesRunNothing(s: Session, o: Oracle, reason: string, e: Event)
    requires e.Executed?
    ensures e in WriteSite(s, o).session.log ==> e in s.log
    ensures e in WriteStatus(s, o).session.log ==> e in s.log
    ensures e in Transient(s, o).session.log ==> e in s.log
    ensures e in TransientNotReady(s, reason, o).session.log ==> e in s.log
  {
  }

  lemma EarlyRunsNothing(w: World, s: Session, o: Oracle, e: Event)
    requires e.Executed?
    ensures e !in InitSpec(Begin(w), o).session.log && e !in Cleanup(Begin(w), o).session.log
    ensures e in Proclaim(s, o).session.log ==> e in s.log
    ensures e in SyncBackups(s, o).session.log ==> e in s.log
  {
    hide CompleteSpec, SpecIncomplete, WithCondition, CheckPrimary;
  }

  lemma SyncRuns(w: World, o: Oracle, s: Session, e: Event)
    requires Basis(w, o, s) && s.world == w && s.site.status == w.site.status && e.Executed?
    ensures e in SyncStatus(s, o).session.log && e !in s.log ==> CommandRun(w, o, e)
  {
    hide NewStatus, Execute, Ran, Due, Answer, Pods.RunningPods, Basis;
    Executes(w, o, s, CheckInstalled, o.checkInstalled, e);
  }

  lemma NeedsRun(w: World, o: Oracle, s: Session, e: Event)
    requires Basis(w, o, s) && s.world.deploy == w.deploy && e.Executed?
    ensures e in ComputeNeeds(s, o).log && e !in s.log ==> CommandRun(w, o, e)
  {
    hide Execute, ExecOutput, Ran, Answer, Pods.RunningPods, Repo, Primary, ReleaseId;
    NeedsBasis(w, o, s);
    var t := s.(flagged := s.flagged || !CodeReadable(s.world, o), codeNeeded := false);
    assert Basis(w, o, t);
    Executes(w, o, t, CheckUpdb, o.checkUpdb, e);
  }

  /** The need for a code update, in terms of what is stored. */
  lemma NeedsBasis(w: World, o: Oracle, s: Session)
    requires Basis(w, o, s) && s.world.deploy == w.deploy
    ensures Updatable(s.site) <==> Checked(w)
    ensures Checked(w) ==> (CodeReadable(s.world, o) && CodeBehind(s.world, s.site) <==> Due(w, o))
  {
    hide Repo, Primary;
    BasisAsks(w, o, s);
  }

  lemma AssessRuns(w: World, o: Oracle, s: Session, e: Event)
    requires Basis(w, o, s) && s.world.deploy == w.deploy && e.Executed?
    ensures e in Assess(s, o).session.log && e !in s.log ==> CommandRun(w, o, e)
  {
    hide ComputeNeeds, CommandRun, Basis, SyncAnnotation, SyncPending, CloseFailed;
    NeedsRun(w, o, s, e);
    var t := ComputeNeeds(s, o);
    SyncRunsNothing(t, o, e);
    if SyncAnnotation(t, o).Go? {
      SyncRunsNothing(SyncAnnotation(t, o).session, o, e);
      if SyncPending(SyncAnnotation(t, o).session, o).Go? {
        SyncRunsNothing(SyncPending(SyncAnnotation(t, o).session, o).session, o, e);
      }
    }
  }

  lemma SyncRunsNothing(s: Session, o: Oracle, e: Event)
    requires e.Executed?
    ensures e in SyncAnnotation(s, o).session.log ==> e in s.log
    ensures e in SyncPending(s, o).session.log ==> e in s.log
    ensures e in CloseFailed(s, o).session.log ==> e in s.log
  {
    hide WithCondition, WithUpdateInProgress, Updatable;
  }

  lemma ToAssessRuns(w: World, o: Oracle, e: Event)
    requires e in ToAssess(w, o).session.log && e.Executed?
    ensures CommandRun(w, o, e)
  {
    hide InitSpec, SyncStatus, Proclaim, SyncBackups, Cleanup, CommandRun, Basis, SpecIncomplete, MergeClone;
    EarlyRunsNothing(w, Begin(w), o, e);
    InitSpecCharts(w, o);
    InitSpecFacts(w, o);
    if InitSpec(Begin(w), o).Go? {
      var s1 := InitSpec(Begin(w), o).session;
      SyncRuns(w, o, s1, e);
      if SyncStatus(s1, o).Go? {
        var s2 := SyncStatus(s1, o).session;
        EarlyRunsNothing(w, s2, o, e);
        EarlyRunsNothing(w, Proclaim(s2, o).session, o, e);
      }
    }
  }

  lemma EnsureRunsNothing(s: Session, o: Oracle, e: Event)
    requires e.Executed?
    ensures e in Ensure(s, o).session.log ==> e in s.log
  {
    hide SyncReplicas, EnsureResources, EnsureHashes, CheckDatabase;
    ReplicasRunNothing(s, o, e);
    ResourcesRunNothing(s, o, e);
    if EnsureResources(s, o).Go? {
      var t := EnsureResources(s, o).session;
      HashesRunNothing(t, o, e);
      DatabaseRunsNothing(EnsureHashes(t, o).session, o, e);
    }
  }

  lemma ReplicasRunNothing(s: Session, o: Oracle, e: Event)
    requires e.Executed?
    ensures e in SyncReplicas(s, o).session.log ==> e in s.log
    ensures SyncReplicas(s, o).Go? ==> SyncReplicas(s, o).session == s
  {
    hide Replicas;
  }

  lemma ResourcesRunNothing(s: Session, o: Oracle, e: Event)
    requires e.Executed?
    ensures e in EnsureResources(s, o).session.log ==> e in s.log
  {
    hide EnsureUpsert, Record, EnsureJob, EnsureSchedule, JobFails, ScheduleFails, TransientNotReady;
    var s1 := Record(s, ByResources, EnsureUpsert(s, o));
    RecordRunsNothing(s, ByResources, EnsureUpsert(s, o), e);
    HelpersRunNothing(s1, o, e);
    HelpersRunNothing(EnsureJob(s1, o), o, e);
    WritesRunNothing(EnsureSchedule(EnsureJob(s1, o), o), o, ERR_CLIENT_K8S, e);
  }

  lemma RecordRunsNothing(s: Session, author: Author, r: Upsert<Deployments.Deployment>, e: Event)
    requires e.Executed?
    ensures e in Record(s, author, r).log ==> e in s.log
  {
  }

  lemma HelpersRunNothing(s: Session, o: Oracle, e: Event)
    requires e.Executed?
    ensures e in EnsureJob(s, o).log ==> e in s.log
    ensures e in EnsureSchedule(s, o).log ==> e in s.log
  {
    hide JobFor, WantsSchedule, CallSucceeds;
  }

  lemma HashesRunNothing(s: Session, o: Oracle, e: Event)
    requires e.Executed?
    ensures e in EnsureHashes(s, o).session.log ==> e in s.log
  {
    hide HashUpsert, Record, TransientNotReady;
    RecordRunsNothing(s, ByHashes, HashUpsert(s, o), e);
    WritesRunNothing(s, o, ERR_CLIENT_K8S, e);
  }

  lemma DatabaseRunsNothing(s: Session, o: Oracle, e: Event)
    requires e.Executed?
    ensures e in CheckDatabase(s, o).session.log ==> e in s.log
  {
  }

  // ------------------------------------------------------------------ the update

  lemma RollBackRunsNothing(s: Session, o: Oracle, e: Event)
    requires e.Executed?
    ensures e in RollBack(s, o).log ==> e in s.log
  {
    hide UpsertRelease;
  }

  lemma CachesRun(w: World, o: Oracle, t: Session, e: Event)
    requires Basis(w, o, t) && e.Executed? && e in ClearCaches(t, o).log && e !in t.log
    ensures e.command == ClearCache && (Ran(w, o.cache1, e) || (Answer(w, o.cache1).None? && Ran(w, o.cache2, e)))
  {
    hide Ran, Answer, Basis, ExecOutput, Execute;
    Executes(w, o, t, ClearCache, o.cache1, e);
    AnswerIsOutput(w, o, t, o.cache1);
    var u := Execute(t, ClearCache, o.cache1);
    assert Basis(w, o, u) by {
      BasisUnwritten(w, o, t);
      ExecuteEmits(t, ClearCache, o.cache1);
      EmitKeeps(w, o, t, u);
    }
    Executes(w, o, u, ClearCache, o.cache2, e);
  }

  lemma RolloutRuns(w: World, o: Oracle, t: Session, e: Event)
    requires Basis(w, o, t) && Due(w, o) && e.Executed?
    ensures e in FinishRollout(t, o).session.log && e !in t.log ==> CommandRun(w, o, e)
  {
    hide RollBack, RollbackRefused, ClearCaches, CacheOutput, CheckRollout, FailCode, Ran, Answer, Basis, Due,
      Pods.RunningPods, Transient, WriteStatus;
    var f, c := t.(site := FailCode(t.site, ERR_DEPLOYMENT_UPDATE_FAILED)), ClearCaches(t, o);
    BasisAsks(w, o, t);
    Pods.RolloutFromPods(o.rolloutPods, Rel(t));
    RollBackRunsNothing(f, o, e);
    RollBackRunsNothing(c, o, e);
    WritesRunNothing(t, o, "", e);
    WritesRunNothing(c, o, "", e);
    WritesRunNothing(RollBack(f, o), o, "", e);
    WritesRunNothing(RollBack(c, o).(site := FailCode(RollBack(c, o).site, ERR_CACHE)), o, "", e);
    if e in c.log && e !in t.log {
      CachesRun(w, o, t, e);
    }
  }

  lemma UpdateRuns(w: World, o: Oracle, t: Session, e: Event)
    requires Basis(w, o, t) && (t.codeNeeded ==> Due(w, o)) && e.Executed?
    ensures e in UpdateVersion(t, o).session.log && e !in t.log ==> CommandRun(w, o, e)
  {
    hide FinishRollout, UpsertRelease, ConfigOf, CommandRun, Basis, Due, Record, Transient;
    RecordRunsNothing(t, ByUpdate, UpsertRelease(t, Rel(t), ConfigOf(t, o), o.updateCall), e);
    WritesRunNothing(t, o, "", e);
    if RunsCodeUpdate(t) {
      RolloutRuns(w, o, t, e);
    }
  }

  lemma SchemaRuns(w: World, o: Oracle, t: Session, e: Event)
    requires Basis(w, o, t) && (RunsSchemaUpdate(t) ==> SchemaDue(w, o)) && e.Executed?
    ensures e in UpdateSchema(t, o).session.log && e !in t.log ==> CommandRun(w, o, e)
  {
    hide Execute, ExecOutput, RunsSchemaUpdate, SchemaDue, Ran, Answer, Basis, WithCondition, WriteStatus, Due;
    var a := Execute(t, TakeBackup, o.backup);
    var b := Execute(a, RunUpdb, o.runUpdb);
    Executes(w, o, t, TakeBackup, o.backup, e);
    AnswerIsOutput(w, o, t, o.backup);
    assert Basis(w, o, a) by {
      BasisUnwritten(w, o, t);
      ExecuteEmits(t, TakeBackup, o.backup);
      EmitKeeps(w, o, t, a);
    }
    Executes(w, o, a, RunUpdb, o.runUpdb, e);
    WritesRunNothing(FailSchema(a, ERR_POD_EXEC), o, "", e);
    WritesRunNothing(FailSchema(b, ERR_DB_UPDATE_FAILED), o, "", e);
    WritesRunNothing(
      b.(site := WithCondition(WithCondition(b.site, DBUpdatesPending, Absent), DBUpdatesFailed, Absent)), o, "", e);
  }

  lemma AdvanceRunsNothing(s: Session, o: Oracle, e: Event)
    requires e.Executed?
    ensures e in AdvanceFailsafe(s, o).session.log ==> e in s.log
  {
    hide Advanced, AdvancesFailsafe;
  }

  lemma PerformRuns(w: World, o: Oracle, t: Session, e: Event)
    requires Basis(w, o, t) && (t.codeNeeded ==> Due(w, o)) && (RunsSchemaUpdate(t) ==> SchemaDue(w, o)) && e.Executed?
    ensures e in Perform(t, o).session.log && e !in t.log ==> CommandRun(w, o, e)
  {
    hide UpdateVersion, UpdateSchema, AdvanceFailsafe, CommandRun, Basis, Due, SchemaDue, RunsSchemaUpdate;
    UpdateRuns(w, o, t, e);
    UpdateVersionCharts(w, o, t);
    if UpdateVersion(t, o).Go? {
      var u := UpdateVersion(t, o).session;
      UpdateGoesSame(t, o);
      SchemaRuns(w, o, u, e);
      if UpdateSchema(u, o).Go? {
        AdvanceRunsNothing(UpdateSchema(u, o).session, o, e);
      }
    }
  }

  lemma UpdateGoesSame(t: Session, o: Oracle)
    requires UpdateVersion(t, o).Go?
    ensures RunsSchemaUpdate(UpdateVersion(t, o).session) <==> RunsSchemaUpdate(t)
  {
    hide UpsertRelease, ConfigOf, ReleaseId, ExecPod, ExecOutput, CheckRollout, RollBack, CacheOutput, RunsCodeUpdate;
  }

  /**
   * Whatever the API answers, every pod command of a reconcile runs in the first pod of the release of the spec, which
   * is running, gives the answer of that pod, and is issued for the reason listed.
   */
  lemma CommandsAreListed(w: World, o: Oracle, e: Event)
    requires e in Log(w, o) && e.Executed?
    ensures CommandRun(w, o, e)
  {
    hide ToAssess, Assess, Ensure, Perform, CommandRun, Basis, Due, SchemaDue, Decided, Observed;
    if ToAssess(w, o).Go? {
      var s := ToAssess(w, o).session;
      ToAssessCharts(w, o);
      ToAssessFacts(w, o);
      assert s.world.deploy == w.deploy by { ObservedDeploy(w, o, s); }
      if e in s.log {
        ToAssessRuns(w, o, e);
      } else {
        AssessRuns(w, o, s, e);
        EnsureRunsNothing(Assessment(w, o), o, e);
        if ToPerform(w, o).Go? {
          EquippedRuns(w, o, e);
        }
      }
    } else {
      ToAssessRuns(w, o, e);
    }
  }

  lemma ObservedDeploy(w: World, o: Oracle, s: Session)
    requires Observed(w, o, s)
    ensures s.world.deploy == w.deploy
  {
    hide Coherent, FoundReady, MergeClone;
  }

  lemma EquippedRuns(w: World, o: Oracle, e: Event)
    requires ToPerform(w, o).Go? && e in Log(w, o) && e.Executed?
    ensures e in Equipped(w, o).log || CommandRun(w, o, e)
  {
    hide ToPerform, ToEnsure, Perform, CommandRun, Basis, Decided, Ensured, RunsSchemaUpdate, SchemaDue, Due;
    EquippedBasis(w, o);
    ToEnsureFacts(w, o);
    ToPerformFacts(w, o);
    EquippedNeeds(w, o, Assessment(w, o), Equipped(w, o));
    PerformRuns(w, o, Equipped(w, o), e);
  }

  lemma EquippedNeeds(w: World, o: Oracle, s: Session, t: Session)
    requires Decided(w, o, s) && Basis(w, o, s) && Ensured(w, o, s, t)
    ensures t.codeNeeded ==> Due(w, o)
    ensures RunsSchemaUpdate(t) ==> SchemaDue(w, o)
  {
    hide Coherent, InStep, Middle, EnsureUpsert, Ensured1, MergeClone, Repo, Primary, ExecOutput, Answer, Replicas,
      ReleaseId;
    DecidedUid(w, o, s);
    AnswerIsOutput(w, o, s, o.checkUpdb);
    NeedsBasis(w, o, s);
  }
}
