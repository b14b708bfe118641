// Everything a reconcile can do, event by event, in terms of what is stored and answered.
module Effects {
  import opened Kube
  import opened DrupalSites
  import opened Deployments
  import opened DeploymentLaws
  import opened Servers
  import opened Workflow
  import Pods
  import opened ReconcileFacts
  import opened EnsureFacts
  import opened PerformFacts
  import opened Safety
  import Endings

  // ------------------------------------------------------------------ what a reconcile sees

  /** The configuration repository of the site, or the one its clone source has. */
  function Repo(w: World, o: Oracle): string {
    if w.site.spec.extraConfigurationRepo == "" && w.site.spec.cloneFrom != "" && o.clone.SourceFound? then
      o.clone.extraConfigurationRepo
    else w.site.spec.extraConfigurationRepo
  }

  /** The release the spec asks for. */
  function Asked(w: World): string {
    w.site.spec.versionName + "-" + w.site.spec.releaseSpec
  }

  /** The site is the only one of a project whose config names no primary site. */
  predicate MayClaim(w: World, o: Oracle) {
    !o.configReadFails && w.primary == Some("") && o.sitesInProject.Some? && o.sitesInProject.value <= 1
  }

  /** Whether the site takes itself for the primary one, once it had the chance to claim the place. */
  predicate Primary(w: World, o: Oracle) {
    w.site.status.isPrimary || MayClaim(w, o)
  }

  /** The server has ready replicas and the database is there, as far as they could be read. */
  predicate SeenReady(w: World, o: Oracle) {
    !o.readyReadFails && w.deploy.Some? && w.readyReplicas > 0 && w.dbod && !o.dbod0Fails
  }

  /** The pod, the clone job or the easystart task says that the site is filled. */
  ghost predicate SeenFilled(w: World, o: Oracle) {
    || (!o.installedReadFails && w.deploy.Some? && w.readyReplicas > 0
        && Pods.HasRunner(o.checkInstalled, Asked(w)) && o.checkInstalled.output.Some?)
    || o.cloneJobDone || o.easystartDone
  }

  /** The replicas a project may have: none while it is blocked, and no answer while it is blocked by halves. */
  predicate Allows(o: Oracle, spec: Spec, n: nat) {
    || (o.namespace == NamespaceFound(true, true) && n == 0)
    || (o.namespace == NamespaceFound(false, false) && n == (if spec.qos == Critical then 3 else 1))
  }

  predicate HalfBlocked(o: Oracle) {
    o.namespace == NamespaceFound(true, false) || o.namespace == NamespaceFound(false, true)
  }

  lemma ReplicasAllowed(w: World, s: Session, o: Oracle, n: nat)
    requires s.site.spec.qos == w.site.spec.qos
    ensures Replicas(s, o) == Some(n) <==> Allows(o, w.site.spec, n)
    ensures Replicas(s, o) == Some(n) ==> ConfigOf(s, o) == o.resources.(replicas := n)
    ensures HalfBlocked(o) ==> Replicas(s, o).None?
  {
  }

  // ------------------------------------------------------------------ status writes

  /** The status after the observations of a reconcile. */
  ghost function Seen(w: World, o: Oracle): Status {
    var st, c := w.site.status, w.site.status.conditions;
    var restored := st.failsafe == Asked(w);
    st.(current := Asked(w),
        conditions := c.(
          ready := Present(if SeenReady(w, o) then True else False, ""),
          initialized :=
            if c.initialized.Present? && c.initialized.truth == True then c.initialized
            else Present(if SeenFilled(w, o) then True else False, ""),
          codeUpdateFailed :=
            if restored && c.codeUpdateFailed.Present? && c.codeUpdateFailed.truth == True then Absent
            else c.codeUpdateFailed,
          dbUpdatesFailed :=
            if restored && c.dbUpdatesFailed.Present? && c.dbUpdatesFailed.truth == True then Absent
            else c.dbUpdatesFailed),
        webhookURL := if Repo(w, o) != "" then o.webhookURL else st.webhookURL,
        isPrimary := if w.primary.Some? && !o.configReadFails then w.primary == Some(w.site.name) else st.isPrimary)
  }

  /** The status of the site once its release is recorded as the failsafe one, with the image that runs it. */
  function Recorded(w: World, o: Oracle, b: Status): Status {
    b.(failsafe := Asked(w),
       servingPodImage := ImageName(
         w.site.(spec := w.site.spec.(extraConfigurationRepo := Repo(w, o))), Asked(w), o.resources.flags))
  }

  /** What a command answered, if the first pod of the release was there to run it. */
  ghost function Answer(w: World, x: Exec): Option<string> {
    if Pods.HasRunner(x, Asked(w)) then x.output else None
  }

  /** The answer to the cache clear, which is tried a second time when the first try fails. */
  ghost function CacheAnswer(w: World, o: Oracle): Option<string> {
    if Answer(w, o.cache1).Some? then Answer(w, o.cache1) else Answer(w, o.cache2)
  }

  /** The new value a reconcile can give to a condition, and what must have happened. */
  ghost predicate Listed(w: World, o: Oracle, t: ConditionType, c: Condition) {
    match t
    case Error =>
      || (c == Present(True, "InvalidSpec")
          && ((w.site.spec.cloneFrom != "" && o.clone.SourceMissing?) || !o.specValid))
      || (c == Present(True, "k8sAPIClientError") && w.site.spec.cloneFrom != "" && o.clone.SourceFailed?)
    case Ready =>
      || c == Present(False, "k8sAPIClientError")
      || (c == Present(False, "DBODError") && (!w.dbod || o.dbod3Fails))
    case Initialized => false
    case DBUpdatesPending =>
      || (c == Present(True, "") && Answer(w, o.checkUpdb).Some? && Answer(w, o.checkUpdb) != Some(""))
      || (c == Absent && !w.site.Is(CodeUpdateFailed))
      || (c == Present(Unknown, "") && w.site.Is(CodeUpdateFailed))
    case CodeUpdateFailed =>
      || (c == Present(True, "DeploymentUpdateError") && Pods.BrokenPods(o.rolloutPods, Asked(w)))
      || (c == Present(True, "Error clearing cache") && Pods.RunningPods(o.rolloutPods, Asked(w))
          && CacheAnswer(w, o).Some? && CacheAnswer(w, o) != Some(""))
    case DBUpdatesFailed =>
      || (c == Present(True, "ExecInPodError") && Answer(w, o.backup).None?)
      || (c == Present(True, "DBUpdateError") && Answer(w, o.backup).Some? && Answer(w, o.runUpdb).None?)
  }

  /** The status with one condition set. */
  function WithOne(b: Status, t: ConditionType, c: Condition): Status {
    match t
    case Ready => b.(conditions := b.conditions.(ready := c))
    case Initialized => b.(conditions := b.conditions.(initialized := c))
    case Error => b.(conditions := b.conditions.(error := c))
    case CodeUpdateFailed => b.(conditions := b.conditions.(codeUpdateFailed := c))
    case DBUpdatesPending => b.(conditions := b.conditions.(dbUpdatesPending := c))
    case DBUpdatesFailed => b.(conditions := b.conditions.(dbUpdatesFailed := c))
  }

  /** One of the ways in which a reconcile can write the status: at most one aspect of it changes. */
  ghost predicate StatusChange(w: World, o: Oracle, st: Status) {
    var b := w.site.status.(isPrimary := st.isPrimary);
    || st == Seen(w, o)
    || ((st.isPrimary == w.site.status.isPrimary || st.isPrimary == Primary(w, o))
        && (|| st == b
            || (exists t, c :: Listed(w, o, t, c) && st == WithOne(b, t, c))
            || (o.backups.Some? && |o.backups.value| != |b.backups| && st == b.(backups := o.backups.value))
            || (exists n: nat :: Allows(o, w.site.spec, n) && st == b.(expectedReplicas := Some(n)))
            || (Answer(w, o.backup).Some? && Answer(w, o.runUpdb).Some?
                && st == WithOne(WithOne(b, DBUpdatesPending, Absent), DBUpdatesFailed, Absent))
            || (b.current != b.failsafe && !w.site.Is(CodeUpdateFailed) && !w.site.Is(DBUpdatesFailed)
                && st == Recorded(w, o, b))))
  }

  ghost predicate Charted(w: World, o: Oracle, log: seq<Event>) {
    forall e :: e in log && e.StatusWritten? ==> StatusChange(w, o, e.status)
  }

  ghost predicate NoStatus(log: seq<Event>) {
    forall e :: e in log ==> !e.StatusWritten?
  }

  /** What a session in progress still shares with the stored site. */
  ghost predicate StatusKept(w: World, o: Oracle, st: Status) {
    && st == w.site.status.(isPrimary := st.isPrimary)
    && (st.isPrimary == w.site.status.isPrimary || st.isPrimary == Primary(w, o))
  }

  ghost predicate Basis(w: World, o: Oracle, s: Session) {
    && StatusKept(w, o, s.site.status)
    && s.site.name == w.site.name && s.site.namespace == w.site.namespace
    && s.site.spec == w.site.spec.(extraConfigurationRepo := Repo(w, o))
    && NoStatus(s.log)
  }

  lemma BasisAsks(w: World, o: Oracle, s: Session)
    requires Basis(w, o, s)
    ensures Rel(s) == Asked(w) == ReleaseId(w.site.spec) && s.site.spec.qos == w.site.spec.qos
  {
  }

  lemma NoStatusIsCharted(w: World, o: Oracle, log: seq<Event>)
    requires NoStatus(log)
    ensures Charted(w, o, log)
  {
    hide StatusChange;
  }

  lemma WriteStatusCharts(w: World, o: Oracle, s: Session)
    requires NoStatus(s.log) && StatusChange(w, o, s.site.status)
    ensures Charted(w, o, WriteStatus(s, o).session.log) && Charted(w, o, Transient(s, o).session.log)
  {
    hide StatusChange;
  }

  lemma WriteSiteCharts(w: World, o: Oracle, s: Session)
    requires NoStatus(s.log)
    ensures Charted(w, o, WriteSite(s, o).session.log)
  {
    hide StatusChange;
  }

  lemma ConditionCharts(w: World, o: Oracle, s: Session, t: ConditionType, c: Condition)
    requires StatusKept(w, o, s.site.status) && Listed(w, o, t, c)
    ensures StatusChange(w, o, WithCondition(s.site, t, c).status)
  {
    hide Seen, Recorded, Allows, MayClaim, Listed, Answer;
    assert WithCondition(s.site, t, c).status == WithOne(s.site.status, t, c);
  }

  lemma PlainCharts(w: World, o: Oracle, s: Session)
    requires StatusKept(w, o, s.site.status)
    ensures StatusChange(w, o, s.site.status)
    ensures o.backups.Some? && |o.backups.value| != |s.site.status.backups| ==>
      StatusChange(w, o, s.site.status.(backups := o.backups.value))
    ensures forall n: nat :: Allows(o, w.site.spec, n) ==>
      StatusChange(w, o, s.site.status.(expectedReplicas := Some(n)))
  {
    hide Seen, Recorded, Allows, MayClaim, Listed, Answer;
  }

  lemma DoneCharts(w: World, o: Oracle, s: Session)
    requires Basis(w, o, s) && Answer(w, o.backup).Some? && Answer(w, o.runUpdb).Some?
    ensures
      var done := WithCondition(WithCondition(s.site, DBUpdatesPending, Absent), DBUpdatesFailed, Absent);
      StatusChange(w, o, done.status)
  {
    hide Seen, Recorded, Allows, MayClaim, Listed, Answer, Repo;
    assert WithCondition(s.site, DBUpdatesPending, Absent).status == WithOne(s.site.status, DBUpdatesPending, Absent);
  }

  lemma AdvancedCharts(w: World, o: Oracle, s: Session)
    requires Basis(w, o, s) && AdvancesFailsafe(s.site)
    ensures StatusChange(w, o, Advanced(s.site, o.resources.flags).status)
  {
    hide Seen, Allows, MayClaim, ReleaseId, Repo, Listed, Answer;
    BasisAsks(w, o, s);
  }

  lemma AnswerIsOutput(w: World, o: Oracle, s: Session, x: Exec)
    requires Basis(w, o, s)
    ensures ExecOutput(x, Rel(s)) == Answer(w, x)
  {
    hide ExecOutput, Basis, Pods.HasRunner;
    BasisAsks(w, o, s);
    Pods.CommandRuns(x, Rel(s));
  }

  lemma FailuresKept(w: World, o: Oracle, s: Session)
    requires Basis(w, o, s)
    ensures s.site.status.conditions == w.site.status.conditions
  {
    hide Repo, Primary;
  }

  lemma RepoIsMerged(w: World, o: Oracle)
    ensures MergeClone(w.site.spec, o.clone) == w.site.spec.(extraConfigurationRepo := Repo(w, o))
  {
  }

  lemma InitSpecCharts(w: World, o: Oracle)
    ensures Charted(w, o, InitSpec(Begin(w), o).session.log)
    ensures InitSpec(Begin(w), o).Go? ==> Basis(w, o, InitSpec(Begin(w), o).session)
  {
    hide CompleteSpec, WriteSite, WriteStatus, SpecIncomplete, WithCondition, StatusChange, Repo, MergeClone, Charted;
    var s := Begin(w);
    var t := s.(site := CompleteSpec(s.site, o));
    CompleteSpecFacts(s.site, o);
    RepoIsMerged(w, o);
    WriteSiteCharts(w, o, t);
    if w.site.spec.cloneFrom != "" && o.clone.SourceMissing? {
      ConditionCharts(w, o, s, Error, Present(True, "InvalidSpec"));
      WriteStatusCharts(w, o, s.(site := WithCondition(s.site, Error, Present(True, "InvalidSpec"))));
    }
    if w.site.spec.cloneFrom != "" && o.clone.SourceFailed? {
      ConditionCharts(w, o, s, Error, Present(True, "k8sAPIClientError"));
      WriteStatusCharts(w, o, s.(site := WithCondition(s.site, Error, Present(True, "k8sAPIClientError"))));
    }
    if !o.specValid {
      ConditionCharts(w, o, t, Error, Present(True, "InvalidSpec"));
      WriteStatusCharts(w, o, t.(site := WithCondition(t.site, Error, Present(True, "InvalidSpec"))));
    }
    NoStatusIsCharted(w, o, []);
  }

  lemma AskKeeps(w: World, o: Oracle, s: Session)
    requires Basis(w, o, s)
    ensures Basis(w, o, AskInstalled(s, o)) && AskInstalled(s, o) == s.(log := AskInstalled(s, o).log)
  {
    hide ExecPod, ReleaseId, Repo, MayClaim;
  }

  /** The status observed is the one that can be seen. */
  lemma NewStatusIsSeen(w: World, o: Oracle, s: Session)
    requires Basis(w, o, s) && s.world == w && s.site.status == w.site.status
    ensures NewStatus(s, o) == Seen(w, o)
  {
    hide ExecPod, ExecOutput, Repo, Pods.HasRunner;
    BasisAsks(w, o, s);
    Pods.CommandRuns(o.checkInstalled, Rel(s));
  }

  lemma SyncStatusCharts(w: World, o: Oracle, s: Session)
    requires Basis(w, o, s) && s.world == w && s.site.status == w.site.status
    ensures Charted(w, o, SyncStatus(s, o).session.log)
    ensures SyncStatus(s, o).Go? ==> Basis(w, o, SyncStatus(s, o).session)
  {
    hide AskInstalled, NewStatus, WriteStatus, Charted, Seen, Repo, Primary;
    AskKeeps(w, o, s);
    NewStatusIsSeen(w, o, s);
    assert StatusChange(w, o, Seen(w, o)) by { SeenIsListed(w, o); }
    WriteStatusCharts(w, o, AskInstalled(s, o).(site := s.site.(status := NewStatus(s, o))));
    NoStatusIsCharted(w, o, AskInstalled(s, o).log);
  }

  lemma SeenIsListed(w: World, o: Oracle)
    ensures StatusChange(w, o, Seen(w, o))
  {
    hide Seen, Recorded, Allows, Primary;
  }

  lemma ProclaimKeeps(w: World, o: Oracle, s: Session)
    requires Basis(w, o, s) && s.world.primary == w.primary
    ensures NoStatus(Proclaim(s, o).session.log)
    ensures Proclaim(s, o).Go? ==> Basis(w, o, Proclaim(s, o).session)
  {
    hide Repo;
  }

  lemma SyncBackupsCharts(w: World, o: Oracle, s: Session)
    requires Basis(w, o, s)
    ensures Charted(w, o, SyncBackups(s, o).session.log)
    ensures SyncBackups(s, o).Go? ==> SyncBackups(s, o).session == s
  {
    hide WriteStatus, StatusChange, Repo, Primary, Charted;
    PlainCharts(w, o, s);
    NoStatusIsCharted(w, o, s.log);
    if o.backups.Some? && |o.backups.value| != |s.site.status.backups| {
      WriteStatusCharts(w, o, s.(site := s.site.(status := s.site.status.(backups := o.backups.value))));
    }
  }

  lemma CleanupCharts(w: World, o: Oracle)
    ensures Charted(w, o, Cleanup(Begin(w), o).session.log)
  {
    hide StatusChange;
  }

  lemma ToAssessCharts(w: World, o: Oracle)
    ensures Charted(w, o, ToAssess(w, o).session.log)
    ensures ToAssess(w, o).Go? ==> Basis(w, o, ToAssess(w, o).session)
  {
    hide InitSpec, SyncStatus, Proclaim, SyncBackups, Charted, Cleanup, Basis, MergeClone, SpecIncomplete;
    NoStatusIsCharted(w, o, []);
    CleanupCharts(w, o);
    InitSpecCharts(w, o);
    InitSpecFacts(w, o);
    if InitSpec(Begin(w), o).Go? {
      var s1 := InitSpec(Begin(w), o).session;
      SyncStatusCharts(w, o, s1);
      if SyncStatus(s1, o).Go? {
        var s2 := SyncStatus(s1, o).session;
        assert s2.world == w by { SyncKeepsWorld(w, o, s1); }
        ProclaimKeeps(w, o, s2);
        NoStatusIsCharted(w, o, Proclaim(s2, o).session.log);
        if Proclaim(s2, o).Go? {
          SyncBackupsCharts(w, o, Proclaim(s2, o).session);
        }
      }
    }
  }

  lemma SyncKeepsWorld(w: World, o: Oracle, s: Session)
    requires s.world == w && SyncStatus(s, o).Go?
    ensures SyncStatus(s, o).session.world == w
  {
    hide NewStatus, ExecPod, ReleaseId;
  }

  lemma SyncAnnotationCharts(w: World, o: Oracle, s: Session)
    requires Basis(w, o, s)
    ensures Charted(w, o, SyncAnnotation(s, o).session.log)
    ensures SyncAnnotation(s, o).Go? ==> SyncAnnotation(s, o).session == s
  {
    hide WriteSite, WithUpdateInProgress, Updatable, Charted, Repo, Primary, StatusKept;
    NoStatusIsCharted(w, o, s.log);
    forall v { WriteSiteCharts(w, o, s.(site := WithUpdateInProgress(s.site, v))); }
  }

  /** The needs are those that the commands and the deployment say. */
  ghost predicate NeedsSeen(w: World, o: Oracle, s: Session) {
    && (s.dbNeeded ==> Answer(w, o.checkUpdb).Some? && Answer(w, o.checkUpdb) != Some(""))
    && (s.codeNeeded || s.dbNeeded ==> !w.site.Is(CodeUpdateFailed))
  }

  lemma PendingCharts(w: World, o: Oracle, s: Session, c: Condition)
    requires Basis(w, o, s) && Listed(w, o, DBUpdatesPending, c)
    ensures Charted(w, o, WriteStatus(s.(site := WithCondition(s.site, DBUpdatesPending, c)), o).session.log)
  {
    hide WriteStatus, WithCondition, Charted, StatusChange, Repo, Primary, Listed;
    ConditionCharts(w, o, s, DBUpdatesPending, c);
    WriteStatusCharts(w, o, s.(site := WithCondition(s.site, DBUpdatesPending, c)));
  }

  lemma SyncPendingCharts(w: World, o: Oracle, s: Session)
    requires Basis(w, o, s) && NeedsSeen(w, o, s)
    ensures Charted(w, o, SyncPending(s, o).session.log)
    ensures SyncPending(s, o).Go? ==> SyncPending(s, o).session == s
  {
    hide WriteStatus, WithCondition, Charted, Basis, Answer;
    FailuresKept(w, o, s);
    assert NoStatus(s.log) by { BasisUnwritten(w, o, s); }
    NoStatusIsCharted(w, o, s.log);
    if Listed(w, o, DBUpdatesPending, Present(True, "")) {
      PendingCharts(w, o, s, Present(True, ""));
    }
    if Listed(w, o, DBUpdatesPending, Absent) {
      PendingCharts(w, o, s, Absent);
    }
  }

  lemma BasisUnwritten(w: World, o: Oracle, s: Session)
    requires Basis(w, o, s)
    ensures NoStatus(s.log)
  {
  }

  lemma CloseFailedCharts(w: World, o: Oracle, s: Session)
    requires Basis(w, o, s)
    ensures Charted(w, o, CloseFailed(s, o).session.log)
    ensures CloseFailed(s, o).Go? ==> CloseFailed(s, o).session == s
  {
    hide WriteStatus, WriteSite, WithCondition, WithUpdateInProgress, Charted, Basis, Answer;
    FailuresKept(w, o, s);
    assert NoStatus(s.log) by { BasisUnwritten(w, o, s); }
    NoStatusIsCharted(w, o, s.log);
    WriteSiteCharts(w, o, s.(site := WithUpdateInProgress(s.site, None)));
    if Listed(w, o, DBUpdatesPending, Present(Unknown, "")) {
      PendingCharts(w, o, s, Present(Unknown, ""));
    }
  }

  lemma NeedsAreSeen(w: World, o: Oracle, s: Session)
    requires Basis(w, o, s) && !s.codeNeeded && !s.dbNeeded
    ensures NeedsSeen(w, o, ComputeNeeds(s, o))
  {
    hide ExecOutput, Execute, Basis, Answer, CodeBehind, CodeReadable, ReleaseId;
    FailuresKept(w, o, s);
    AnswerIsOutput(w, o, s, o.checkUpdb);
  }

  lemma NeedsKeepBasis(w: World, o: Oracle, s: Session)
    requires Basis(w, o, s)
    ensures Basis(w, o, ComputeNeeds(s, o))
  {
    hide ExecPod, ReleaseId, Repo, Primary, CodeBehind, CodeReadable, Updatable;
  }

  lemma AssessCharts(w: World, o: Oracle, s: Session)
    requires Basis(w, o, s) && !s.codeNeeded && !s.dbNeeded
    ensures Charted(w, o, Assess(s, o).session.log)
    ensures Assess(s, o).Go? ==> Basis(w, o, Assess(s, o).session)
  {
    hide ComputeNeeds, SyncAnnotation, SyncPending, CloseFailed, Charted, Basis, NeedsSeen;
    var t := ComputeNeeds(s, o);
    NeedsKeepBasis(w, o, s);
    NeedsAreSeen(w, o, s);
    SyncAnnotationCharts(w, o, t);
    SyncPendingCharts(w, o, t);
    CloseFailedCharts(w, o, t);
  }

  // ------------------------------------------------------------------ status writes of the resources and the update

  lemma TransientNotReadyCharts(w: World, o: Oracle, s: Session)
    requires Basis(w, o, s)
    ensures Charted(w, o, TransientNotReady(s, "k8sAPIClientError", o).session.log)
  {
    hide Transient, WithCondition, StatusChange, Charted, Repo, Primary;
    ConditionCharts(w, o, s, Ready, Present(False, "k8sAPIClientError"));
    WriteStatusCharts(w, o, s.(site := WithCondition(s.site, Ready, Present(False, "k8sAPIClientError"))));
  }

  lemma SyncReplicasCharts(w: World, o: Oracle, s: Session)
    requires Basis(w, o, s)
    ensures Charted(w, o, SyncReplicas(s, o).session.log)
    ensures SyncReplicas(s, o).Go? ==> SyncReplicas(s, o).session == s
  {
    hide WriteStatus, Transient, Replicas, StatusChange, Charted, Repo, Primary, Allows;
    BasisAsks(w, o, s);
    PlainCharts(w, o, s);
    NoStatusIsCharted(w, o, s.log);
    WriteStatusCharts(w, o, s);
    if Replicas(s, o).Some? {
      var n := Replicas(s, o).value;
      ReplicasAllowed(w, s, o, n);
      WriteStatusCharts(w, o, s.(site := s.site.(status := s.site.status.(expectedReplicas := Some(n)))));
    }
  }

  /** Events other than status writes keep the basis. */
  lemma EmitKeeps(w: World, o: Oracle, s: Session, t: Session)
    requires Basis(w, o, s) && t.site == s.site && NoStatus(t.log)
    ensures Basis(w, o, t)
  {
    hide Repo, Primary;
  }

  lemma ResourcesEmit(s: Session, o: Oracle)
    requires NoStatus(s.log)
    ensures
      var s1 := Record(s, ByResources, EnsureUpsert(s, o));
      var s2 := EnsureJob(s1, o);
      var s3 := EnsureSchedule(s2, o);
      s3.site == s.site && NoStatus(s3.log)
  {
    hide EnsureUpsert, WantsJob, WantsSchedule, CallSucceeds, JobFor;
  }

  lemma EnsureResourcesCharts(w: World, o: Oracle, s: Session)
    requires Basis(w, o, s)
    ensures Charted(w, o, EnsureResources(s, o).session.log)
    ensures EnsureResources(s, o).Go? ==> Basis(w, o, EnsureResources(s, o).session)
  {
    hide EnsureUpsert, Record, EnsureJob, EnsureSchedule, JobFails, ScheduleFails, TransientNotReady, Charted, Repo,
      Primary, StatusKept;
    ResourcesEmit(s, o);
    var s3 := EnsureSchedule(EnsureJob(Record(s, ByResources, EnsureUpsert(s, o)), o), o);
    EmitKeeps(w, o, s, s3);
    TransientNotReadyCharts(w, o, s3);
    NoStatusIsCharted(w, o, s3.log);
  }

  lemma EnsureHashesCharts(w: World, o: Oracle, s: Session)
    requires Basis(w, o, s)
    ensures Charted(w, o, EnsureHashes(s, o).session.log)
    ensures EnsureHashes(s, o).Go? ==> Basis(w, o, EnsureHashes(s, o).session)
  {
    hide HashUpsert, TransientNotReady, Charted, Repo, Primary, StatusKept;
    TransientNotReadyCharts(w, o, s);
    NoStatusIsCharted(w, o, s.log);
    NoStatusIsCharted(w, o, Record(s, ByHashes, HashUpsert(s, o)).log);
    EmitKeeps(w, o, s, Record(s, ByHashes, HashUpsert(s, o)));
  }

  lemma CheckDatabaseCharts(w: World, o: Oracle, s: Session)
    requires Basis(w, o, s) && s.world.dbod == w.dbod
    ensures Charted(w, o, CheckDatabase(s, o).session.log)
    ensures CheckDatabase(s, o).Go? ==> CheckDatabase(s, o).session == s
  {
    hide WriteStatus, WithCondition, StatusChange, Charted, Repo, Primary;
    NoStatusIsCharted(w, o, s.log);
    if !w.dbod || o.dbod3Fails {
      ConditionCharts(w, o, s, Ready, Present(False, "DBODError"));
      WriteStatusCharts(w, o, s.(site := WithCondition(s.site, Ready, Present(False, "DBODError"))));
    }
  }

  /** Ensuring resources does not touch the database. */
  lemma ResourcesKeepDatabase(s: Session, o: Oracle)
    ensures EnsureResources(s, o).Go? ==> EnsureResources(s, o).session.world.dbod == s.world.dbod
  {
    hide Ensure, EnsureResources, Endings.ResourcesEnsured;
    Endings.ResourcesGo(s, o);
  }

  lemma HashesKeepDatabase(s: Session, o: Oracle)
    ensures EnsureHashes(s, o).Go? ==> EnsureHashes(s, o).session.world.dbod == s.world.dbod
  {
    hide HashUpsert, Record, Result, TransientNotReady;
    Endings.RecordKeeps(s, ByHashes, HashUpsert(s, o));
  }

  lemma EnsureCharts(w: World, o: Oracle, s: Session)
    requires Basis(w, o, s) && s.world.dbod == w.dbod
    ensures Charted(w, o, Ensure(s, o).session.log)
    ensures Ensure(s, o).Go? ==> Basis(w, o, Ensure(s, o).session)
  {
    hide SyncReplicas, EnsureResources, EnsureHashes, CheckDatabase, Charted, Basis;
    SyncReplicasCharts(w, o, s);
    if SyncReplicas(s, o).Go? {
      EnsureResourcesCharts(w, o, s);
      ResourcesKeepDatabase(s, o);
      HashesKeepDatabase(EnsureResources(s, o).session, o);
      if EnsureResources(s, o).Go? {
        var t := EnsureResources(s, o).session;
        EnsureHashesCharts(w, o, t);
        if EnsureHashes(t, o).Go? {
          CheckDatabaseCharts(w, o, EnsureHashes(t, o).session);
        }
      }
    }
  }

  lemma RollBackEmits(s: Session, o: Oracle)
    requires NoStatus(s.log)
    ensures RollBack(s, o).site == s.site && NoStatus(RollBack(s, o).log)
    ensures ClearCaches(s, o).site == s.site && NoStatus(ClearCaches(s, o).log)
  {
    hide UpsertRelease, ExecPod, ExecOutput, ReleaseId;
  }

  lemma ExecuteEmits(s: Session, c: Command, x: Exec)
    requires NoStatus(s.log)
    ensures Execute(s, c, x).site == s.site && NoStatus(Execute(s, c, x).log)
  {
    hide ExecPod, ReleaseId;
  }

  lemma CacheAnswered(w: World, o: Oracle, t: Session)
    requires Basis(w, o, t)
    ensures CacheOutput(t, o) == CacheAnswer(w, o)
  {
    hide ExecOutput, Answer, Basis, ReleaseId;
    AnswerIsOutput(w, o, t, o.cache1);
    AnswerIsOutput(w, o, t, o.cache2);
  }

  lemma FinishRolloutCharts(w: World, o: Oracle, t: Session)
    requires Basis(w, o, t)
    ensures Charted(w, o, FinishRollout(t, o).session.log)
    ensures FinishRollout(t, o).Go? ==> Basis(w, o, FinishRollout(t, o).session)
  {
    hide CheckRollout, RollBack, RollbackRefused, ClearCaches, CacheOutput, Transient, WriteStatus, WithCondition,
      StatusChange, Charted, Repo, Primary, ReleaseId, StatusKept, Pods.BrokenPods, Pods.RunningPods, Pods.WaitingPods,
      CacheAnswer, Answer;
    var f := t.(site := FailCode(t.site, ERR_DEPLOYMENT_UPDATE_FAILED));
    var c := ClearCaches(t, o);
    BasisAsks(w, o, t);
    Pods.RolloutFromPods(o.rolloutPods, Rel(t));
    AnswerIsOutput(w, o, t, o.cache1);
    AnswerIsOutput(w, o, t, o.cache2);
    assert CacheOutput(t, o) == CacheAnswer(w, o) by { CacheAnswered(w, o, t); }
    PlainCharts(w, o, t);
    RollBackEmits(t, o);
    RollBackEmits(f, o);
    RollBackEmits(c, o);
    WriteStatusCharts(w, o, t);
    WriteStatusCharts(w, o, c);
    if Listed(w, o, CodeUpdateFailed, Present(True, "DeploymentUpdateError")) {
      ConditionCharts(w, o, t, CodeUpdateFailed, Present(True, "DeploymentUpdateError"));
      WriteStatusCharts(w, o, RollBack(f, o));
    }
    if Listed(w, o, CodeUpdateFailed, Present(True, "Error clearing cache")) {
      ConditionCharts(w, o, t, CodeUpdateFailed, Present(True, "Error clearing cache"));
      WriteStatusCharts(w, o, RollBack(c, o).(site := FailCode(RollBack(c, o).site, ERR_CACHE)));
    }
    NoStatusIsCharted(w, o, c.log);
    EmitKeeps(w, o, t, c);
  }

  lemma UpdateVersionCharts(w: World, o: Oracle, t: Session)
    requires Basis(w, o, t)
    ensures Charted(w, o, UpdateVersion(t, o).session.log)
    ensures UpdateVersion(t, o).Go? ==> Basis(w, o, UpdateVersion(t, o).session)
  {
    hide FinishRollout, UpsertRelease, Transient, StatusChange, Charted, Repo, Primary, ReleaseId, RunsCodeUpdate,
      StatusKept;
    FinishRolloutCharts(w, o, t);
    PlainCharts(w, o, t);
    WriteStatusCharts(w, o, t);
    NoStatusIsCharted(w, o, t.log);
    NoStatusIsCharted(w, o, Record(t, ByUpdate, UpsertRelease(t, Rel(t), ConfigOf(t, o), o.updateCall)).log);
  }

  lemma UpdateSchemaCharts(w: World, o: Oracle, t: Session)
    requires Basis(w, o, t)
    ensures Charted(w, o, UpdateSchema(t, o).session.log)
    ensures UpdateSchema(t, o).Go? ==> Basis(w, o, UpdateSchema(t, o).session)
  {
    hide ExecOutput, Execute, WriteStatus, WithCondition, StatusChange, Charted, Repo, Primary, ReleaseId,
      RunsSchemaUpdate, StatusKept, Answer;
    var a := Execute(t, TakeBackup, o.backup);
    var b := Execute(a, RunUpdb, o.runUpdb);
    ExecuteEmits(t, TakeBackup, o.backup);
    ExecuteEmits(a, RunUpdb, o.runUpdb);
    EmitKeeps(w, o, t, a);
    EmitKeeps(w, o, t, b);
    AnswerIsOutput(w, o, t, o.backup);
    AnswerIsOutput(w, o, t, o.runUpdb);
    if Answer(w, o.backup).None? {
      ConditionCharts(w, o, a, DBUpdatesFailed, Present(True, "ExecInPodError"));
      WriteStatusCharts(w, o, FailSchema(a, ERR_POD_EXEC));
    } else if Answer(w, o.runUpdb).None? {
      ConditionCharts(w, o, b, DBUpdatesFailed, Present(True, "DBUpdateError"));
      WriteStatusCharts(w, o, FailSchema(b, ERR_DB_UPDATE_FAILED));
    } else {
      DoneCharts(w, o, b);
      WriteStatusCharts(
        w, o, b.(site := WithCondition(WithCondition(b.site, DBUpdatesPending, Absent), DBUpdatesFailed, Absent)));
    }
    NoStatusIsCharted(w, o, t.log);
    NoStatusIsCharted(w, o, b.log);
    SchemaGoes(w, o, b);
  }

  lemma SchemaGoes(w: World, o: Oracle, b: Session)
    requires Basis(w, o, b)
    ensures
      var v := b.(site := WithCondition(WithCondition(b.site, DBUpdatesPending, Absent), DBUpdatesFailed, Absent));
      v.site == b.site ==> Basis(w, o, v)
  {
    hide WithCondition, Repo, Primary;
  }

  lemma AdvanceCharts(w: World, o: Oracle, u: Session)
    requires Basis(w, o, u)
    ensures Charted(w, o, AdvanceFailsafe(u, o).session.log)
  {
    hide Advanced, AdvancesFailsafe, WriteStatus, StatusChange, Charted, Repo, Primary, StatusKept;
    if AdvancesFailsafe(u.site) {
      AdvancedCharts(w, o, u);
      WriteStatusCharts(w, o, u.(site := Advanced(u.site, o.resources.flags)));
    }
    NoStatusIsCharted(w, o, u.log);
  }

  lemma PerformCharts(w: World, o: Oracle, t: Session)
    requires Basis(w, o, t)
    ensures Charted(w, o, Perform(t, o).session.log)
  {
    hide UpdateVersion, UpdateSchema, AdvanceFailsafe, Charted, Basis;
    UpdateVersionCharts(w, o, t);
    if UpdateVersion(t, o).Go? {
      UpdateSchemaCharts(w, o, UpdateVersion(t, o).session);
      if UpdateSchema(UpdateVersion(t, o).session, o).Go? {
        AdvanceCharts(w, o, UpdateSchema(UpdateVersion(t, o).session, o).session);
      }
    }
  }

  lemma ToAssessUnneeded(w: World, o: Oracle)
    requires ToAssess(w, o).Go?
    ensures !ToAssess(w, o).session.codeNeeded && !ToAssess(w, o).session.dbNeeded
    ensures ToEnsure(w, o).Go? ==> ToEnsure(w, o).session.world.dbod == w.dbod
  {
    hide ToAssess, Assess, Coherent, FoundReady, MergeClone, ReleaseId, SpecIncomplete, InStep, Assessed;
    ToAssessFacts(w, o);
    ToEnsureFacts(w, o);
  }

  lemma EquippedBasis(w: World, o: Oracle)
    ensures ToPerform(w, o).Go? ==> Basis(w, o, Equipped(w, o))
    ensures ToEnsure(w, o).Go? ==> Basis(w, o, Assessment(w, o))
    ensures Charted(w, o, ToPerform(w, o).session.log)
  {
    hide ToAssess, Assess, Ensure, Charted, Basis;
    ToAssessCharts(w, o);
    if ToAssess(w, o).Go? {
      ToAssessUnneeded(w, o);
      AssessCharts(w, o, ToAssess(w, o).session);
      if ToEnsure(w, o).Go? {
        EnsureCharts(w, o, ToEnsure(w, o).session);
      }
    }
  }

  /**
   * Whatever the API answers, every status a reconcile writes is the stored one with at most one aspect changed: what
   * was observed, an error, the backups, the expected replicas, a failed resource, the state of an update with its
   * reason, or the failsafe release with the image that runs it.
   */
  lemma StatusWritesAreListed(w: World, o: Oracle, e: Event)
    requires e in Log(w, o) && e.StatusWritten?
    ensures StatusChange(w, o, e.status)
  {
    hide ToPerform, Perform, StatusChange, Basis;
    EquippedBasis(w, o);
    if ToPerform(w, o).Go? {
      PerformCharts(w, o, ToPerform(w, o).session);
    }
  }

  // ------------------------------------------------------------------ deployments, jobs and schedules

  /** The events by which resources come and go. */
  predicate OfResources(e: Event) {
    e.DeploymentWritten? || e.JobCreated? || e.ScheduleCreated? || e.ScheduleDeleted? || e.RollbackStarted?
  }

  lemma EarlyHasNoResources(w: World, e: Event)
    requires Early(w, e)
    ensures OfResources(e) ==> w.site.meta.deleting
  {
  }

  /**
   * A reconcile that goes no further than the replicas touches no resource, except that a deletion ends the schedule.
   */
  lemma ResourcesNeedReplicas(w: World, o: Oracle, e: Event)
    requires e in Log(w, o) && OfResources(e) && !w.site.meta.deleting
    ensures ToEnsure(w, o).Go? && SyncReplicas(Assessment(w, o), o).Go?
    ensures SyncReplicas(Assessment(w, o), o).session == Assessment(w, o)
  {
    hide ToEnsure, SyncReplicas, Perform, Decided, EnsureResources, EnsureHashes, CheckDatabase;
    ToEnsureFacts(w, o);
    if ToEnsure(w, o).Stop? {
      EarlyHasNoResources(w, e);
    } else {
      ReplicasStop(w, o, Assessment(w, o));
    }
  }

  lemma ReplicasStop(w: World, o: Oracle, s: Session)
    requires Decided(w, o, s)
    ensures SyncReplicas(s, o).Stop? ==> forall e :: e in SyncReplicas(s, o).session.log ==> !OfResources(e)
    ensures SyncReplicas(s, o).Go? ==> SyncReplicas(s, o).session == s && Replicas(s, o).Some?
  {
    hide Replicas, Coherent, Assessed, InStep, MergeClone;
  }

  /** The session whose needs were assessed takes itself for the primary site if it could. */
  lemma AssessedPrimary(w: World, o: Oracle)
    requires ToEnsure(w, o).Go?
    ensures Assessment(w, o).site.status.isPrimary == Primary(w, o)
  {
    hide InitSpec, SyncStatus, SyncBackups, Assess, NewStatus, SpecIncomplete, MergeClone, ComputeNeeds, AskInstalled;
    InitSpecFacts(w, o);
    var s1 := InitSpec(Begin(w), o).session;
    SyncKeepsWorld(w, o, s1);
    SyncGoesSame(s1, o);
    var s2 := SyncStatus(s1, o).session;
    BackupsGoSame(Proclaim(s2, o).session, o);
    AssessGoesSame(SyncBackups(Proclaim(s2, o).session, o).session, o);
  }

  lemma SyncGoesSame(s: Session, o: Oracle)
    ensures SyncStatus(s, o).Go? ==> SyncStatus(s, o).session.site == s.site
  {
    hide NewStatus, ExecPod, ReleaseId;
  }

  lemma BackupsGoSame(s: Session, o: Oracle)
    ensures SyncBackups(s, o).Go? ==> SyncBackups(s, o).session == s
  {
  }

  lemma AssessGoesSame(s: Session, o: Oracle)
    ensures Assess(s, o).Go? ==> Assess(s, o).session.site == s.site
  {
    hide ExecPod, ExecOutput, ReleaseId, CodeReadable, CodeBehind, Updatable;
  }

  /** The backup schedule is wanted for an initialized site that is the primary one or asks for backups. */
  predicate SeenSchedule(w: World, o: Oracle) {
    w.site.Is(Initialized) && (Primary(w, o) || w.site.spec.scheduledBackups == "enabled")
  }

  predicate Goes(call: Call) {
    !call.readFails && call.write == Accepted
  }

  /** Why a job or a schedule is created, or a schedule deleted. */
  predicate HelperChange(w: World, o: Oracle, e: Event) {
    match e
    case JobCreated(j) =>
      && w.dbod && !o.dbod2Fails && !w.site.Is(Initialized) && j !in w.jobs && Goes(o.jobCall)
      && j == (if w.site.spec.cloneFrom != "" then CloneJob
               else if w.site.spec.easystart == "enable" then EasystartTask else InstallJob)
    case ScheduleCreated => !w.schedule && SeenSchedule(w, o) && Goes(o.scheduleCall)
    case ScheduleDeleted => w.schedule && (w.site.meta.deleting || !SeenSchedule(w, o)) && Goes(o.scheduleCall)
    case _ => true
  }

  lemma JobEmits(s: Session, o: Oracle, e: Event)
    ensures e in EnsureJob(s, o).log && e !in s.log ==>
      && e == JobCreated(JobFor(s.site.spec)) && WantsJob(s, o) && JobFor(s.site.spec) !in s.world.jobs
      && Goes(o.jobCall)
  {
    hide JobFor, WantsJob;
  }

  lemma ScheduleEmits(s: Session, o: Oracle, e: Event)
    ensures e in EnsureSchedule(s, o).log && e !in s.log ==>
      || (e == ScheduleCreated && WantsSchedule(s.site) && !s.world.schedule && Goes(o.scheduleCall))
      || (e == ScheduleDeleted && !WantsSchedule(s.site) && s.world.schedule && Goes(o.scheduleCall))
  {
    hide WantsSchedule;
  }

  lemma RecordEmits(s: Session, author: Author, r: Upsert<Deployment>, e: Event)
    ensures e in Record(s, author, r).log && e !in s.log ==> e.DeploymentWritten?
  {
  }

  /** The jobs and the schedule, while resources are ensured. */
  lemma HelpersEmit(s: Session, o: Oracle, e: Event)
    ensures
      var s1 := Record(s, ByResources, EnsureUpsert(s, o));
      var s2 := EnsureJob(s1, o);
      var s3 := EnsureSchedule(s2, o);
      e in s3.log && e !in s.log ==>
        || e.DeploymentWritten?
        || (e == JobCreated(JobFor(s.site.spec)) && WantsJob(s, o) && JobFor(s.site.spec) !in s.world.jobs
            && Goes(o.jobCall))
        || (e == ScheduleCreated && WantsSchedule(s.site) && !s.world.schedule && Goes(o.scheduleCall))
        || (e == ScheduleDeleted && !WantsSchedule(s.site) && s.world.schedule && Goes(o.scheduleCall))
  {
    hide EnsureUpsert, JobFor, WantsSchedule, Record, EnsureJob, EnsureSchedule, Goes, Result;
    var s1 := Record(s, ByResources, EnsureUpsert(s, o));
    RecordEmits(s, ByResources, EnsureUpsert(s, o), e);
    Endings.RecordKeeps(s, ByResources, EnsureUpsert(s, o));
    JobEmits(s1, o, e);
    Endings.JobKeeps(s1, o);
    ScheduleEmits(EnsureJob(s1, o), o, e);
  }

  /** A job or schedule event after the assessment comes from ensuring resources. */
  lemma HelperOfResources(w: World, o: Oracle, e: Event)
    requires ToEnsure(w, o).Go? && SyncReplicas(Assessment(w, o), o) == Go(Assessment(w, o)) && e in Log(w, o)
    requires e.JobCreated? || e.ScheduleCreated? || e.ScheduleDeleted?
    ensures
      var s := Assessment(w, o);
      e in EnsureSchedule(EnsureJob(Record(s, ByResources, EnsureUpsert(s, o)), o), o).log || e in s.log
  {
    hide ToEnsure, SyncReplicas, EnsureUpsert, Record, EnsureJob, EnsureSchedule, JobFails, ScheduleFails, EnsureHashes,
      CheckDatabase, Perform, TransientNotReady;
    var s := Assessment(w, o);
    var s3 := EnsureSchedule(EnsureJob(Record(s, ByResources, EnsureUpsert(s, o)), o), o);
    NotReadyAdds(s3, ERR_CLIENT_K8S, o, e);
    if EnsureResources(s, o).Go? {
      assert EnsureResources(s, o) == Go(s3);
      HashesAdd(s3, o, e);
      if EnsureHashes(s3, o).Go? {
        DatabaseAdds(EnsureHashes(s3, o).session, o, e);
        PerformAdds(EnsureHashes(s3, o).session, o, e);
      }
    }
  }

  predicate IsHelper(e: Event) {
    e.JobCreated? || e.ScheduleCreated? || e.ScheduleDeleted? || e.ConfigWritten?
  }

  lemma NotReadyAdds(s: Session, reason: string, o: Oracle, e: Event)
    requires IsHelper(e)
    ensures e in TransientNotReady(s, reason, o).session.log ==> e in s.log
  {
  }

  lemma HashesAdd(s: Session, o: Oracle, e: Event)
    requires IsHelper(e)
    ensures e in EnsureHashes(s, o).session.log ==> e in s.log
  {
    hide HashUpsert, TransientNotReady;
    NotReadyAdds(s, ERR_CLIENT_K8S, o, e);
  }

  lemma DatabaseAdds(s: Session, o: Oracle, e: Event)
    requires IsHelper(e)
    ensures e in CheckDatabase(s, o).session.log ==> e in s.log
    ensures CheckDatabase(s, o).Go? ==> CheckDatabase(s, o).session == s
  {
  }

  lemma PerformAdds(s: Session, o: Oracle, e: Event)
    requires IsHelper(e)
    ensures e in Perform(s, o).session.log ==> e in s.log
  {
    hide UpdateVersion, UpdateSchema, AdvanceFailsafe;
    UpdateAdds(s, o, e);
    if UpdateVersion(s, o).Go? {
      SchemaAdds(UpdateVersion(s, o).session, o, e);
      if UpdateSchema(UpdateVersion(s, o).session, o).Go? {
        AdvanceAdds(UpdateSchema(UpdateVersion(s, o).session, o).session, o, e);
      }
    }
  }

  lemma UpdateAdds(s: Session, o: Oracle, e: Event)
    requires IsHelper(e)
    ensures e in UpdateVersion(s, o).session.log ==> e in s.log
  {
    hide UpsertRelease, FinishRollout, ReleaseId, ConfigOf, RunsCodeUpdate;
    FinishAdds(s, o, e);
  }

  lemma RollBackAdds(s: Session, o: Oracle, e: Event)
    requires IsHelper(e)
    ensures e in RollBack(s, o).log ==> e in s.log
    ensures e in ClearCaches(s, o).log ==> e in s.log
  {
    hide UpsertRelease, ExecPod, ExecOutput, ReleaseId, ConfigOf;
  }

  lemma FinishAdds(s: Session, o: Oracle, e: Event)
    requires IsHelper(e)
    ensures e in FinishRollout(s, o).session.log ==> e in s.log
  {
    hide RollBack, RollbackRefused, ClearCaches, CacheOutput, CheckRollout, FailCode;
    RollBackAdds(s, o, e);
    RollBackAdds(s.(site := FailCode(s.site, ERR_DEPLOYMENT_UPDATE_FAILED)), o, e);
    RollBackAdds(ClearCaches(s, o), o, e);
  }

  lemma SchemaAdds(s: Session, o: Oracle, e: Event)
    requires IsHelper(e)
    ensures e in UpdateSchema(s, o).session.log ==> e in s.log
  {
    hide Execute, ExecOutput, ReleaseId, RunsSchemaUpdate, WithCondition;
    ExecuteAdds(s, TakeBackup, o.backup, e);
    ExecuteAdds(Execute(s, TakeBackup, o.backup), RunUpdb, o.runUpdb, e);
  }

  lemma ExecuteAdds(s: Session, c: Command, x: Exec, e: Event)
    requires IsHelper(e)
    ensures e in Execute(s, c, x).log ==> e in s.log
  {
    hide ExecPod, ReleaseId;
  }

  lemma AdvanceAdds(s: Session, o: Oracle, e: Event)
    requires IsHelper(e)
    ensures e in AdvanceFailsafe(s, o).session.log ==> e in s.log
  {
    hide Advanced, AdvancesFailsafe;
  }

  /** Whatever the API answers, jobs and schedules come and go for the reasons listed. */
  lemma HelperChangesAreListed(w: World, o: Oracle, e: Event)
    requires e in Log(w, o) && !w.site.meta.deleting
    requires e.JobCreated? || e.ScheduleCreated? || e.ScheduleDeleted?
    ensures HelperChange(w, o, e)
  {
    hide Log, ToEnsure, SyncReplicas, EnsureUpsert, Record, EnsureJob, EnsureSchedule, Primary, MergeClone, Coherent,
      InStep, Assessed;
    ResourcesNeedReplicas(w, o, e);
    HelperOfResources(w, o, e);
    var s := Assessment(w, o);
    ToEnsureFacts(w, o);
    LightNoHelper(s, e);
    HelpersEmit(s, o, e);
    AssessedPrimary(w, o);
    MergeLeavesHelpers(w.site.spec, o.clone);
  }

  lemma LightNoHelper(s: Session, e: Event)
    requires (forall x :: x in s.log ==> Light(x)) && IsHelper(e) && !e.ConfigWritten?
    ensures e !in s.log
  {
  }

  lemma MergeLeavesHelpers(spec: Spec, clone: CloneSource)
    ensures
      var m := MergeClone(spec, clone);
      m.cloneFrom == spec.cloneFrom && m.easystart == spec.easystart && m.scheduledBackups == spec.scheduledBackups
  {
  }

  // ------------------------------------------------------------------ deployments

  /** The deployment was brought to the release, with the replicas the project may have. */
  ghost predicate Brought(w: World, o: Oracle, d: Deployment, release: string) {
    exists b: Deployment, x: Site, n: nat ::
      && Allows(o, w.site.spec, n)
      && x.name == w.site.name && x.namespace == w.site.namespace && x.uid == w.site.uid
      && x.status.failsafe == w.site.status.failsafe
      && x.spec == w.site.spec.(extraConfigurationRepo := Repo(w, o))
      && (d == Apply(b, x, release, o.resources.(replicas := n))
          || d == Stored(Apply(b, x, release, o.resources.(replicas := n))))
  }

  /** The ordinary update stands back while an update runs or has failed, if it can read the deployment. */
  predicate Held(w: World, o: Oracle) {
    && !o.ensureReadFails && w.deploy.Some?
    && (w.site.meta.updateInProgress == Some("true") || w.site.Is(CodeUpdateFailed) || w.site.Is(DBUpdatesFailed))
  }

  /** A code update is due on a site that can be checked. */
  predicate Due(w: World, o: Oracle) {
    && w.site.Is(Ready) && w.site.Is(Initialized) && !w.site.Is(CodeUpdateFailed)
    && !o.codeReadFails && w.deploy.Some?
    && (w.deploy.value.ReleaseOf() != Asked(w)
        || (w.site.status.failsafe != "" && w.site.status.failsafe != w.site.status.current))
  }

  /** Who writes the deployment, why, and what. */
  ghost predicate DeploymentChange(w: World, o: Oracle, author: Author, d: Deployment) {
    match author
    case ByResources => w.dbod && !o.dbod1Fails && !Held(w, o) && Brought(w, o, d, Asked(w))
    case ByHashes =>
      && o.configmaps.ConfigmapsFound?
      && exists b :: d == SetHashes(b, o.configmaps.hashes)
    case ByUpdate => w.dbod && !o.dbod3Fails && Due(w, o) && Brought(w, o, d, Asked(w))
    case ByRollback => w.dbod && !o.dbod3Fails && Due(w, o) && Brought(w, o, d, w.site.status.failsafe)
  }

  lemma UpsertBrings(w: World, o: Oracle, s: Session, d: Deployment, release: string, call: Call)
    requires Basis(w, o, s) && s.site.uid == w.site.uid && Replicas(s, o).Some?
    requires
      var r := UpsertRelease(s, release, ConfigOf(s, o), call);
      r == Created(d) || r == Updated(d)
    ensures Brought(w, o, d, release)
  {
    hide Apply, Replicas, ConfigOf, Repo, Primary, Allows;
    BasisAsks(w, o, s);
    var n := Replicas(s, o).value;
    ReplicasAllowed(w, s, o, n);
    var b := Base(s.world.deploy);
    assert d == Apply(b, s.site, release, o.resources.(replicas := n))
      || d == Stored(Apply(b, s.site, release, o.resources.(replicas := n)));
  }

  lemma DecidedUid(w: World, o: Oracle, s: Session)
    requires Decided(w, o, s)
    ensures
      && s.site.uid == w.site.uid && s.site.meta == w.site.meta && s.world.deploy == w.deploy && s.world.dbod == w.dbod
    ensures s.codeNeeded ==> Due(w, o)
    ensures s.site.status.conditions == w.site.status.conditions && s.site.status.failsafe == w.site.status.failsafe
  {
    hide Coherent, InStep;
    MergeKeepsRelease(w.site.spec, o.clone);
  }

  lemma HeldStandsBack(w: World, o: Oracle, s: Session)
    requires s.world.deploy == w.deploy && s.site.meta == w.site.meta
    requires s.site.status.conditions == w.site.status.conditions
    ensures StandsBack(s, o) <==> Held(w, o)
  {
  }

  lemma ResourcesWrite(w: World, o: Oracle, s: Session, d: Deployment)
    requires Decided(w, o, s) && Basis(w, o, s) && Replicas(s, o).Some?
    requires EnsureUpsert(s, o) == Created(d) || EnsureUpsert(s, o) == Updated(d)
    ensures DeploymentChange(w, o, ByResources, d)
  {
    hide UpsertRelease, StandsBack, Basis, Decided, Replicas, ConfigOf, Brought, Held;
    DecidedUid(w, o, s);
    HeldStandsBack(w, o, s);
    BasisAsks(w, o, s);
    UpsertBrings(w, o, s, d, Rel(s), o.ensureCall);
  }

  lemma MiddleWrites(w: World, o: Oracle, s: Session, e: Event)
    requires Decided(w, o, s) && Basis(w, o, s) && Replicas(s, o).Some?
    requires Middle(w, o, s, e) && e.DeploymentWritten?
    ensures DeploymentChange(w, o, e.author, e.deployment)
  {
    hide EnsureUpsert, SetHashes, Ensured1, Decided, Basis, Replicas, Brought;
    if e.author == ByResources {
      ResourcesWrite(w, o, s, e.deployment);
    }
  }

  lemma EquippedKeeps(w: World, o: Oracle, s: Session, t: Session)
    requires Ensured(w, o, s, t) && Decided(w, o, s)
    ensures t.site == s.site && t.codeNeeded == s.codeNeeded && w.dbod && !o.dbod3Fails && Replicas(t, o).Some?
  {
    hide Middle, Coherent, EnsureUpsert, SetHashes, Ensured1, Assessed, InStep, MergeClone;
  }

  lemma LateWrites(w: World, o: Oracle, s: Session, t: Session, e: Event)
    requires Decided(w, o, s) && Basis(w, o, s) && Ensured(w, o, s, t) && Basis(w, o, t) && Replicas(s, o).Some?
    requires Late(w, o, s, t, e) && e.DeploymentWritten?
    ensures DeploymentChange(w, o, e.author, e.deployment)
  {
    hide UpsertRelease, Decided, Basis, Middle, Ensured, Replicas, ConfigOf, Brought, Due, DeploymentChange;
    if Middle(w, o, s, e) {
      MiddleWrites(w, o, s, e);
    } else {
      DecidedUid(w, o, s);
      EquippedKeeps(w, o, s, t);
      UpdateWrites(w, o, t, e);
    }
  }

  lemma UpdateWrites(w: World, o: Oracle, t: Session, e: Event)
    requires Basis(w, o, t) && t.site.uid == w.site.uid && Replicas(t, o).Some? && w.dbod && !o.dbod3Fails
    requires t.codeNeeded ==> Due(w, o)
    requires t.site.status.failsafe == w.site.status.failsafe && e.DeploymentWritten?
    requires
      var d := e.deployment;
      || (e.author == ByUpdate && RunsCodeUpdate(t)
          && (UpdateUpsert(t, o) == Created(d) || UpdateUpsert(t, o) == Updated(d)))
      || (e.author == ByRollback && Rolled(t, o)
          && (RollbackUpsert(t, o) == Created(d) || RollbackUpsert(t, o) == Updated(d)))
    ensures DeploymentChange(w, o, e.author, e.deployment)
  {
    hide UpsertRelease, Basis, Replicas, ConfigOf, Brought, Due;
    BasisAsks(w, o, t);
    if e.author == ByUpdate {
      UpsertBrings(w, o, t, e.deployment, Rel(t), o.updateCall);
    } else {
      UpsertBrings(w, o, t, e.deployment, t.site.status.failsafe, o.rollbackCall);
    }
  }

  lemma LateOf(w: World, o: Oracle, s: Session, t: Session, f: Session, e: Event)
    requires StoppedLate(w, o, s, t, f) || Moves(w, o, s, t, f)
    requires e in f.log && e.DeploymentWritten?
    ensures Late(w, o, s, t, e)
  {
    hide Coherent, Late, UpdateVersion, RunsCodeUpdate, Advanced, AdvancesFailsafe;
  }

  lemma MiddleOf(w: World, o: Oracle, s: Session, f: Session, e: Event)
    requires StoppedMiddle(w, o, s, f) && e in f.log
    ensures Middle(w, o, s, e)
  {
    hide Coherent, Middle;
  }

  lemma EarlyOf(w: World, f: Session, e: Event)
    requires StoppedEarly(w, f) && e in f.log
    ensures !e.DeploymentWritten?
  {
    hide Coherent;
  }

  lemma ObservedLives(w: World, o: Oracle)
    requires Observed(w, o, ToAssess(w, o).session)
    ensures !w.site.meta.deleting
  {
    hide Coherent, MergeClone, FoundReady, SpecIncomplete, ToAssess;
  }

  lemma DeploymentOfMiddle(w: World, o: Oracle, e: Event)
    requires e in Log(w, o) && e.DeploymentWritten? && ToEnsure(w, o).Go?
    requires Replicas(Assessment(w, o), o).Some?
    ensures DeploymentChange(w, o, e.author, e.deployment)
  {
    hide ToEnsure, Ensure, Decided, Ensured, Perform, Observed, Middle, Late, Moves, StoppedLate, StoppedMiddle, Basis,
      DeploymentChange, Charted, Replicas, ToAssess;
    EquippedBasis(w, o);
    ToEnsureFacts(w, o);
    ToPerformFacts(w, o);
    var s := Assessment(w, o);
    if ToPerform(w, o).Go? {
      var t := Equipped(w, o);
      EnsuredIsMiddle(w, o, s, t);
      PerformEvents(w, o, s, t);
      LateOf(w, o, s, t, Perform(t, o).session, e);
      LateWrites(w, o, s, t, e);
    } else {
      MiddleOf(w, o, s, ToPerform(w, o).session, e);
      MiddleWrites(w, o, s, e);
    }
  }

  lemma DeploymentNeedsLife(w: World, o: Oracle, e: Event)
    requires e in Log(w, o) && e.DeploymentWritten?
    ensures !w.site.meta.deleting
  {
    hide ToEnsure, Ensure, Perform, Observed, StoppedEarly, ToAssess;
    ToEnsureFacts(w, o);
    if ToEnsure(w, o).Stop? {
      EarlyOf(w, ToEnsure(w, o).session, e);
    } else {
      ObservedLives(w, o);
    }
  }

  /** Whatever the API answers, the deployment is written by the resources, the hashes, an update or its rollback. */
  lemma DeploymentWritesAreListed(w: World, o: Oracle, e: Event)
    requires e in Log(w, o) && e.DeploymentWritten?
    ensures !w.site.meta.deleting && !HalfBlocked(o) && DeploymentChange(w, o, e.author, e.deployment)
  {
    hide Log, ToEnsure, Decided, Basis, SyncReplicas, DeploymentChange, Charted, Replicas;
    DeploymentNeedsLife(w, o, e);
    ResourcesNeedReplicas(w, o, e);
    EquippedBasis(w, o);
    ToEnsureFacts(w, o);
    var s := Assessment(w, o);
    ReplicasStop(w, o, s);
    BasisAsks(w, o, s);
    ReplicasAllowed(w, s, o, 0);
    DeploymentOfMiddle(w, o, e);
  }

  // ------------------------------------------------------------------ blocked projects

  /** A deployment brought to a release is marked with it and has the replicas the project may have. */
  lemma BroughtIsScaled(w: World, o: Oracle, d: Deployment, release: string)
    requires Brought(w, o, d, release) && !d.Debugging()
    ensures Allows(o, w.site.spec, d.replicas) && d.ReleaseOf() == release
  {
    hide Apply, Allows, Repo;
    var b: Deployment, x: Site, n: nat :|
      && Allows(o, w.site.spec, n)
      && x.name == w.site.name && x.namespace == w.site.namespace && x.uid == w.site.uid
      && x.status.failsafe == w.site.status.failsafe
      && x.spec == w.site.spec.(extraConfigurationRepo := Repo(w, o))
      && (d == Apply(b, x, release, o.resources.(replicas := n))
          || d == Stored(Apply(b, x, release, o.resources.(replicas := n))));
    ApplyMarksRelease(b, x, release, o.resources.(replicas := n));
  }

  /**
   * A blocked project is scaled down: every reconcile that writes the expected replicas writes none, and every one that
   * brings the deployment to a release gives it none, unless somebody is debugging it.
   */
  lemma BlockedIsScaledDown(w: World, o: Oracle, e: Event)
    requires e in Log(w, o) && o.namespace == NamespaceFound(true, true)
    ensures e.StatusWritten? && e.status.expectedReplicas != w.site.status.expectedReplicas ==>
      e.status.expectedReplicas == Some(0)
    ensures e.DeploymentWritten? && e.author != ByHashes && !e.deployment.Debugging() ==> e.deployment.replicas == 0
  {
    hide Log, Seen, Listed, Brought, Answer;
    ReplicasWritten(w, o, e);
  }

  /** The same of any project: the replicas written are those it may have. */
  lemma ReplicasWritten(w: World, o: Oracle, e: Event)
    requires e in Log(w, o)
    ensures e.StatusWritten? && e.status.expectedReplicas != w.site.status.expectedReplicas ==>
      e.status.expectedReplicas.Some? && Allows(o, w.site.spec, e.status.expectedReplicas.value)
    ensures e.DeploymentWritten? && e.author != ByHashes && !e.deployment.Debugging() ==>
      Allows(o, w.site.spec, e.deployment.replicas)
  {
    hide Log, StatusChange, Brought, Allows, Held, Due;
    if e.StatusWritten? {
      StatusWritesAreListed(w, o, e);
      if e.status.expectedReplicas != w.site.status.expectedReplicas {
        ChangeOfReplicas(w, o, e.status);
      }
    }
    if e.DeploymentWritten? {
      DeploymentWritesAreListed(w, o, e);
      if e.author != ByHashes && !e.deployment.Debugging() {
        BroughtIsScaled(w, o, e.deployment, if e.author == ByRollback then w.site.status.failsafe else Asked(w));
      }
    }
  }

  lemma ChangeOfReplicas(w: World, o: Oracle, st: Status)
    requires StatusChange(w, o, st) && st.expectedReplicas != w.site.status.expectedReplicas
    ensures st.expectedReplicas.Some? && Allows(o, w.site.spec, st.expectedReplicas.value)
  {
    hide Allows, Listed, Answer, SeenReady, SeenFilled, Repo, Primary;
  }

  /** An unblocked project has three replicas for a critical site and one for any other. */
  lemma UnblockedIsScaledUp(w: World, o: Oracle, e: Event)
    requires e in Log(w, o) && o.namespace == NamespaceFound(false, false)
    ensures e.StatusWritten? && e.status.expectedReplicas != w.site.status.expectedReplicas ==>
      e.status.expectedReplicas == Some(if w.site.spec.qos == Critical then 3 else 1)
    ensures e.DeploymentWritten? && e.author != ByHashes && !e.deployment.Debugging() ==>
      e.deployment.replicas == if w.site.spec.qos == Critical then 3 else 1
  {
    hide Log, Seen, Listed, Brought, Answer;
    ReplicasWritten(w, o, e);
  }

  /** A project with one of the two annotations is left alone: no resource comes, goes or changes its scale. */
  lemma HalfBlockedIsLeftAlone(w: World, o: Oracle, e: Event)
    requires e in Log(w, o)
    requires o.namespace == NamespaceFound(true, false) || o.namespace == NamespaceFound(false, true)
    ensures !e.DeploymentWritten? && !e.JobCreated? && !e.ScheduleCreated?
    ensures e.ScheduleDeleted? ==> w.site.meta.deleting
    ensures e.StatusWritten? ==> e.status.expectedReplicas == w.site.status.expectedReplicas
  {
    hide Log, ToEnsure, SyncReplicas, Replicas, Decided, Basis;
    ReplicasWritten(w, o, e);
    if OfResources(e) && !w.site.meta.deleting {
      ResourcesNeedReplicas(w, o, e);
      EquippedBasis(w, o);
      ToEnsureFacts(w, o);
      BasisAsks(w, o, Assessment(w, o));
      ReplicasStop(w, o, Assessment(w, o));
      ReplicasAllowed(w, Assessment(w, o), o, 0);
    }
    if w.site.meta.deleting && (e.DeploymentWritten? || e.JobCreated? || e.ScheduleCreated?) {
      DeletionCreatesNothing(w, o, e);
    }
  }

  lemma DeletionCreatesNothing(w: World, o: Oracle, e: Event)
    requires w.site.meta.deleting && e in Log(w, o)
    ensures !e.DeploymentWritten? && !e.JobCreated? && !e.ScheduleCreated?
  {
    hide InitSpec, SyncStatus, Proclaim, SyncBackups, Assess, Ensure, Perform;
  }

  // ------------------------------------------------------------------ the project config

  lemma SettingsAdd(w: World, s: Session, o: Oracle, p: string)
    requires ConfigWritten(p) !in s.log
    ensures ConfigWritten(p) !in SyncStatus(s, o).session.log && ConfigWritten(p) !in SyncBackups(s, o).session.log
  {
    hide NewStatus, ExecPod, ReleaseId;
  }

  lemma AssessAddsNoConfig(s: Session, o: Oracle, p: string)
    requires ConfigWritten(p) !in s.log
    ensures ConfigWritten(p) !in Assess(s, o).session.log
  {
    hide ComputeNeeds, Updatable, WithCondition, WithUpdateInProgress, WriteSite, WriteStatus;
    NeedsAddNoConfig(s, o, p);
    var t := ComputeNeeds(s, o);
    forall x ensures ConfigWritten(p) !in WriteSite(t.(site := x),
      o).session.log { WritesAddNoConfig(t.(site := x), o, p); }
    forall x ensures ConfigWritten(p) !in WriteStatus(t.(site := x),
      o).session.log { WritesAddNoConfig(t.(site := x), o, p); }
  }

  lemma WritesAddNoConfig(s: Session, o: Oracle, p: string)
    requires ConfigWritten(p) !in s.log
    ensures ConfigWritten(p) !in WriteSite(s, o).session.log && ConfigWritten(p) !in WriteStatus(s, o).session.log
  {
  }

  lemma NeedsAddNoConfig(s: Session, o: Oracle, p: string)
    requires ConfigWritten(p) !in s.log
    ensures ConfigWritten(p) !in ComputeNeeds(s, o).log
  {
    hide ExecPod, ExecOutput, ReleaseId, CodeReadable, CodeBehind, Updatable;
  }

  lemma ProclaimAdds(s: Session, o: Oracle, p: string)
    requires ConfigWritten(p) !in s.log
    ensures ConfigWritten(p) in Proclaim(s, o).session.log ==>
      && p == s.site.name && o.configWrite == Accepted && !o.configReadFails && s.world.primary == Some("")
      && o.sitesInProject.Some? && o.sitesInProject.value <= 1
  {
    hide CheckPrimary;
  }

  lemma InitSpecAddsNoConfig(w: World, o: Oracle, p: string)
    ensures ConfigWritten(p) !in InitSpec(Begin(w), o).session.log
  {
    hide CompleteSpec, SpecIncomplete;
  }

  lemma AssessedConfig(w: World, o: Oracle, p: string)
    requires ConfigWritten(p) in ToEnsure(w, o).session.log && !w.site.meta.deleting
    ensures p == w.site.name && o.configWrite == Accepted && MayClaim(w, o)
  {
    hide InitSpec, SyncStatus, Proclaim, SyncBackups, Assess, SpecIncomplete, MergeClone;
    InitSpecAddsNoConfig(w, o, p);
    InitSpecFacts(w, o);
    if InitSpec(Begin(w), o).Go? {
      var s1 := InitSpec(Begin(w), o).session;
      SettingsAdd(w, s1, o, p);
      if SyncStatus(s1, o).Go? {
        SyncGoesSame(s1, o);
        SyncKeepsWorld(w, o, s1);
        var s2 := SyncStatus(s1, o).session;
        ProclaimAdds(s2, o, p);
        if ConfigWritten(p) !in Proclaim(s2, o).session.log && Proclaim(s2, o).Go? {
          SettingsAdd(w, Proclaim(s2, o).session, o, p);
          AssessAddsNoConfig(SyncBackups(Proclaim(s2, o).session, o).session, o, p);
        }
      }
    }
  }

  lemma ResourcesAddNoConfig(s: Session, o: Oracle, p: string)
    ensures ConfigWritten(p) in EnsureResources(s, o).session.log ==> ConfigWritten(p) in s.log
  {
    hide EnsureUpsert, Record, EnsureJob, EnsureSchedule, JobFails, ScheduleFails, TransientNotReady, JobFor,
      WantsSchedule;
    var e := ConfigWritten(p);
    HelpersEmit(s, o, e);
    NotReadyAdds(EnsureSchedule(EnsureJob(Record(s, ByResources, EnsureUpsert(s, o)), o), o), ERR_CLIENT_K8S, o, e);
  }

  lemma ReplicasAddNoConfig(s: Session, o: Oracle, p: string)
    ensures ConfigWritten(p) in SyncReplicas(s, o).session.log ==> ConfigWritten(p) in s.log
    ensures SyncReplicas(s, o).Go? ==> SyncReplicas(s, o).session == s
  {
    hide Replicas;
  }

  lemma LaterConfig(w: World, o: Oracle, p: string)
    requires ConfigWritten(p) in Log(w, o)
    ensures ConfigWritten(p) in ToEnsure(w, o).session.log
  {
    hide ToEnsure, SyncReplicas, EnsureResources, EnsureHashes, CheckDatabase, Perform;
    if ToEnsure(w, o).Go? {
      var s := ToEnsure(w, o).session;
      var e := ConfigWritten(p);
      ReplicasAddNoConfig(s, o, p);
      ResourcesAddNoConfig(s, o, p);
      var t := EnsureResources(s, o).session;
      HashesAdd(t, o, e);
      DatabaseAdds(EnsureHashes(t, o).session, o, e);
      PerformAdds(EnsureHashes(t, o).session, o, e);
    }
  }

  /**
   * The project config is written for two reasons only: the site claims the open place of the only site of its project,
   * or a site that is being deleted gives its own place up.
   */
  lemma ConfigWritesAreListed(w: World, o: Oracle, p: string)
    requires ConfigWritten(p) in Log(w, o)
    ensures o.configWrite == Accepted && !o.configReadFails
    ensures
      || (!w.site.meta.deleting && p == w.site.name && w.primary == Some("")
          && o.sitesInProject.Some? && o.sitesInProject.value <= 1)
      || (w.site.meta.deleting && p == "" && w.primary == Some(w.site.name))
  {
    hide Log, ToEnsure;
    LaterConfig(w, o, p);
    if w.site.meta.deleting {
      DeletedConfig(w, o, p);
    } else {
      AssessedConfig(w, o, p);
    }
  }

  lemma DeletedConfig(w: World, o: Oracle, p: string)
    requires ConfigWritten(p) in ToEnsure(w, o).session.log && w.site.meta.deleting
    ensures p == "" && o.configWrite == Accepted && !o.configReadFails && w.primary == Some(w.site.name)
  {
    hide InitSpec, SyncStatus, Proclaim, SyncBackups, Assess;
  }

  // ------------------------------------------------------------------ deletion

  /** The place in the config is given up, if it is known to be the site's. */
  function GivesUp(w: World, o: Oracle): seq<Event> {
    if !o.configReadFails && w.primary == Some(w.site.name) && o.configWrite == Accepted then [ConfigWritten("")]
      else []
  }

  predicate KeepsPlace(w: World, o: Oracle) {
    !o.configReadFails && w.primary == Some(w.site.name) && o.configWrite != Accepted
  }

  predicate ScheduleStuck(w: World, o: Oracle) {
    o.scheduleCall.readFails || (w.schedule && o.scheduleCall.write != Accepted)
  }

  /**
   * The deletion path, event by event: the place in the config, then the schedule, then the finalizer, each only after
   * the ones before have gone; nothing else is touched.
   */
  lemma DeletionInOrder(w: World, o: Oracle)
    requires !o.siteReadFails && !w.gone && w.site.meta.deleting
    ensures !w.site.meta.finalizer ==> Log(w, o) == []
    ensures w.site.meta.finalizer && KeepsPlace(w, o) ==> Log(w, o) == []
    ensures w.site.meta.finalizer && !KeepsPlace(w, o) && ScheduleStuck(w, o) ==> Log(w, o) == GivesUp(w, o)
    ensures w.site.meta.finalizer && !KeepsPlace(w, o) && !ScheduleStuck(w, o) ==>
      Log(w, o) == GivesUp(w, o) + (if w.schedule then [ScheduleDeleted] else [])
        + (if o.siteWrite == Accepted then [SiteWritten(w.site.(meta := w.site.meta.(finalizer := false)))] else [])
  {
    hide InitSpec, SyncStatus, Proclaim, SyncBackups, Assess, Ensure, Perform;
  }

  /** A site that cannot be read, is gone, or is paused is left alone. */
  lemma NothingToDo(w: World, o: Oracle)
    requires o.siteReadFails || w.gone || (!w.site.meta.deleting && w.site.meta.paused)
    ensures Log(w, o) == []
  {
    hide InitSpec, SyncStatus, Proclaim, SyncBackups, Assess, Ensure, Perform, Cleanup;
  }

  // ------------------------------------------------------------------ failures that are remembered, or shown

  /** The failures that do not end a reconcile at once but make it end in an error. */
  ghost predicate Remembered(w: World, o: Oracle) {
    var checked := w.site.Is(Ready) && w.site.Is(Initialized) && !w.site.Is(CodeUpdateFailed);
    || (MayClaim(w, o) && o.configWrite != Accepted)
    || (checked && (o.codeReadFails || w.deploy.None?))
    || (checked && !Due(w, o) && Answer(w, o.checkUpdb).None?)
  }

  lemma ProclaimFlags(w: World, s: Session, o: Oracle)
    requires !s.flagged && s.world.primary == w.primary && Proclaim(s, o).Go?
    ensures Proclaim(s, o).session.flagged <==> MayClaim(w, o) && o.configWrite != Accepted
    ensures Proclaim(s, o).session.world.deploy == s.world.deploy
    ensures Proclaim(s, o).session.codeNeeded == s.codeNeeded && Proclaim(s, o).session.dbNeeded == s.dbNeeded
  {
    hide CheckPrimary;
  }

  lemma NeedsFlag(w: World, s: Session, o: Oracle)
    requires Basis(w, o, s) && s.world.deploy == w.deploy
    ensures
      var checked := w.site.Is(Ready) && w.site.Is(Initialized) && !w.site.Is(CodeUpdateFailed);
      ComputeNeeds(s, o).flagged <==>
        || s.flagged || (checked && (o.codeReadFails || w.deploy.None?))
        || (checked && !Due(w, o) && Answer(w, o.checkUpdb).None?)
  {
    hide ExecOutput, Execute, Answer, Repo, Primary;
    AnswerIsOutput(w, o, s, o.checkUpdb);
    BasisAsks(w, o, s);
  }

  lemma AssessFlags(s: Session, o: Oracle)
    ensures Assess(s, o).Go? ==> Assess(s, o).session.flagged == ComputeNeeds(s, o).flagged
  {
    hide ComputeNeeds, Updatable;
  }

  lemma AskedFlags(s: Session, o: Oracle)
    ensures SyncStatus(s, o).Go? ==> SyncStatus(s, o).session.flagged == s.flagged
    ensures InitSpec(s, o).Go? ==> InitSpec(s, o).session.flagged == s.flagged
  {
    hide NewStatus, ExecPod, ReleaseId, CompleteSpec, SpecIncomplete;
  }

  /** At the end of a reconcile exactly these failures are remembered. */
  lemma FlaggedExactlyWhen(w: World, o: Oracle)
    requires ToPerform(w, o).Go?
    ensures Equipped(w, o).flagged <==> Remembered(w, o)
  {
    hide InitSpec, SyncStatus, SyncBackups, Proclaim, Assess, Ensure, SpecIncomplete, MergeClone, Basis, ComputeNeeds,
      MayClaim, Due, Answer, Endings.Equips;
    InitSpecFacts(w, o);
    AskedFlags(Begin(w), o);
    var s1 := InitSpec(Begin(w), o).session;
    SyncKeepsWorld(w, o, s1);
    AskedFlags(s1, o);
    var s2 := SyncStatus(s1, o).session;
    ProclaimFlags(w, s2, o);
    var s3 := Proclaim(s2, o).session;
    BackupsGoSame(s3, o);
    assert ToAssess(w, o).session == s3;
    ToAssessCharts(w, o);
    NeedsFlag(w, s3, o);
    AssessFlags(s3, o);
    Endings.EnsureEnds(Assessment(w, o), o);
  }

  /** A status write as the last thing a reconcile tries. */
  function Tried(o: Oracle, st: Status): seq<Event> {
    if o.siteWrite == Accepted then [StatusWritten(st)] else []
  }

  /**
   * A clone source that is missing or cannot be read, and a spec that is not valid, are shown and nothing else done.
   */
  lemma SpecErrorsAreShown(w: World, o: Oracle)
    requires !o.siteReadFails && !w.gone && !w.site.meta.deleting && !w.site.meta.paused
    ensures w.site.spec.cloneFrom != "" && o.clone.SourceMissing? ==>
      Log(w, o) == Tried(o, WithOne(w.site.status, Error, Present(True, "InvalidSpec")))
    ensures w.site.spec.cloneFrom != "" && o.clone.SourceFailed? ==>
      Log(w, o) == Tried(o, WithOne(w.site.status, Error, Present(True, "k8sAPIClientError")))
    ensures
      ((w.site.spec.cloneFrom == "" || o.clone.SourceFound?) && !o.specValid && w.site.meta.finalizer
       && w.site.spec.webDAVPassword != "" && w.site.spec.releaseSpec != "") ==>
      Log(w, o) == Tried(o, WithOne(w.site.status, Error, Present(True, "InvalidSpec")))
  {
    hide MergeClone, SyncStatus, Proclaim, SyncBackups, Assess, Ensure, Perform, Cleanup;
  }

  /**
   * The expected replicas are recorded when they change, and whenever the override of the resources cannot be read; a
   * project blocked by halves and a namespace that cannot be read leave the status as it is, written once more.
   */
  lemma ReplicasAreRecorded(w: World, o: Oracle)
    requires ToEnsure(w, o).Go?
    ensures
      var before, st := Assessment(w, o).log, w.site.status.(isPrimary := Primary(w, o));
      && (o.namespace.NamespaceMissing? ==> Log(w, o) == before)
      && (HalfBlocked(o) || o.namespace.NamespaceFailed? ==> Log(w, o) == before + Tried(o, st))
      && forall n: nat ::
           Allows(o, w.site.spec, n) && (o.overrideReadFails || w.site.status.expectedReplicas != Some(n)) ==>
           Log(w, o) == before + Tried(o, st.(expectedReplicas := Some(n)))
  {
    hide ToEnsure, EnsureResources, EnsureHashes, CheckDatabase, Perform, Allows, Primary, Replicas, Basis;
    var s := Assessment(w, o);
    EquippedBasis(w, o);
    AssessedPrimary(w, o);
    BasisAsks(w, o, s);
    assert s.site.status == w.site.status.(isPrimary := Primary(w, o)) by { BasisStatus(w, o, s); }
    ReplicasAllowed(w, s, o, 0);
    SyncReplicasTries(s, o);
    forall n: nat | Allows(o, w.site.spec, n) ensures Replicas(s, o) == Some(n) {
      ReplicasAllowed(w, s, o, n);
    }
  }

  lemma BasisStatus(w: World, o: Oracle, s: Session)
    requires Basis(w, o, s) && s.site.status.isPrimary == Primary(w, o)
    ensures s.site.status == w.site.status.(isPrimary := Primary(w, o))
  {
    hide Primary, Repo;
  }

  lemma SyncReplicasTries(s: Session, o: Oracle)
    ensures
      var f := SyncReplicas(s, o);
      && (o.namespace.NamespaceMissing? ==> f.Stop? && f.session.log == s.log)
      && (Replicas(s, o).None? && !o.namespace.NamespaceMissing? ==>
            f.Stop? && f.session.log == s.log + Tried(o, s.site.status))
      && (Replicas(s, o).Some? && (o.overrideReadFails || s.site.status.expectedReplicas != Replicas(s, o)) ==>
            f.Stop? && f.session.log == s.log + Tried(o, s.site.status.(expectedReplicas := Replicas(s, o))))
  {
    hide ExpectedReplicas;
  }

  /**
   * A resource or a configmap hash that could not be ensured is shown on the site, which is no longer ready, once the
   * status is written; only a conflict of the hash writer comes back without a word.
   */
  lemma FailedResourceIsShown(w: World, o: Oracle)
    requires ToEnsure(w, o).Go? && Endings.Configured(Assessment(w, o), o) && o.siteWrite == Accepted
    requires
      || !Endings.ResourcesEnsured(Assessment(w, o), o)
      || (!Endings.HashesEnsured(Assessment(w, o), o)
          && (o.configmaps.ConfigmapFailed? || Endings.HashResult(Assessment(w, o), o) != Refused(true)))
    ensures Reconciled(w, o).session.world.site.status.conditions.ready == Present(False, "k8sAPIClientError")
    ensures Reconciled(w, o).outcome == Finished
  {
    hide ToEnsure, Endings.Configured, Endings.ResourcesEnsured, Endings.HashesEnsured, Endings.HashResult,
      SyncReplicas, EnsureHashes, CheckDatabase, Perform, EnsureResources;
    var s := Assessment(w, o);
    Endings.ConfiguredGoes(s, o);
    Endings.ResourcesGo(s, o);
    if Endings.ResourcesEnsured(s, o) {
      HashesShown(s, EnsureResources(s, o).session, o);
    } else {
      NotReadyShown(s, o);
    }
  }

  lemma NotReadyShown(s: Session, o: Oracle)
    requires EnsureResources(s, o).Stop? && o.siteWrite == Accepted
    ensures EnsureResources(s, o).session.world.site.status.conditions.ready == Present(False, "k8sAPIClientError")
  {
    hide EnsureUpsert, Record, EnsureJob, EnsureSchedule, JobFails, ScheduleFails;
  }

  lemma HashesShown(s: Session, t: Session, o: Oracle)
    requires t.world.deploy == Ensured1(s, o) && !Endings.HashesEnsured(s, o) && o.siteWrite == Accepted
    requires o.configmaps.ConfigmapFailed? || Endings.HashResult(s, o) != Refused(true)
    ensures
      var f := EnsureHashes(t, o);
      && f.Stop? && f.outcome == Finished
      && f.session.world.site.status.conditions.ready == Present(False, "k8sAPIClientError")
  {
    hide Ensured1, HashUpsert, Endings.HashResult, Record;
    Endings.HashUpsertReads(s, t, o);
  }

  /** A database that is missing or cannot be read is shown on the site, and the reconcile comes back. */
  lemma MissingDatabaseIsShown(w: World, o: Oracle)
    requires ToEnsure(w, o).Go? && o.siteWrite == Accepted && (!w.dbod || o.dbod3Fails)
    requires Endings.Configured(Assessment(w, o), o) && Endings.ResourcesEnsured(Assessment(w, o), o)
    requires Endings.HashesEnsured(Assessment(w, o), o)
    ensures Reconciled(w, o).session.world.site.status.conditions.ready == Present(False, "DBODError")
    ensures Reconciled(w, o).outcome == Requeued
  {
    hide ToEnsure, Endings.Configured, Endings.ResourcesEnsured, Endings.HashesEnsured, SyncReplicas, EnsureHashes,
      CheckDatabase, Perform, EnsureResources, Assessed, InStep, Coherent, MergeClone;
    var s := Assessment(w, o);
    Endings.ConfiguredGoes(s, o);
    Endings.ResourcesGo(s, o);
    var t := EnsureResources(s, o).session;
    Endings.HashesGo(s, t, o);
    ToEnsureFacts(w, o);
    StoredSiteKept(s, t, o);
    DatabaseShown(EnsureHashes(t, o).session, o);
  }

  lemma StoredSiteKept(s: Session, t: Session, o: Oracle)
    ensures EnsureResources(s, o).Go? ==> EnsureResources(s, o).session.world.site == s.world.site
    ensures EnsureHashes(t, o).Go? ==> EnsureHashes(t, o).session.world.site == t.world.site
  {
    hide EnsureUpsert, Record, Result, JobFails, ScheduleFails, EnsureJob, EnsureSchedule, TransientNotReady,
      HashUpsert;
    var s1 := Record(s, ByResources, EnsureUpsert(s, o));
    Endings.RecordKeeps(s, ByResources, EnsureUpsert(s, o));
    Endings.JobKeeps(s1, o);
    Endings.ScheduleKeeps(EnsureJob(s1, o), o);
    Endings.RecordKeeps(t, ByHashes, HashUpsert(t, o));
  }

  lemma DatabaseShown(s: Session, o: Oracle)
    requires (!s.world.dbod || o.dbod3Fails) && o.siteWrite == Accepted
    requires s.world.site.status.conditions == s.site.status.conditions
    ensures CheckDatabase(s, o).Stop? && CheckDatabase(s, o).outcome == Requeued
    ensures CheckDatabase(s, o).session.world.site.status.conditions.ready == Present(False, "DBODError")
  {
  }

  /**
   * The temporary failures of an update leave the site as it is, written once more: a refused write, a pod that is not
   * up yet, and a cache clear that failed twice.
   */
  lemma TemporaryFailuresAreWritten(w: World, o: Oracle)
    requires ToPerform(w, o).Go? && RunsCodeUpdate(Equipped(w, o))
    ensures
      var t := Equipped(w, o);
      var r, tried := UpsertRelease(t, Rel(t), ConfigOf(t, o), o.updateCall), Tried(o, t.site.status);
      && (r.Refused? ==> Log(w, o) == t.log + tried)
      && (r.Unchanged? && Pods.WaitingPods(o.rolloutPods, Asked(w)) ==> Log(w, o) == t.log + tried)
      && (r.Unchanged? && Pods.RunningPods(o.rolloutPods, Asked(w)) && CacheAnswer(w, o).None? ==>
            Log(w, o) == ClearCaches(t, o).log + tried)
  {
    hide ToPerform, UpsertRelease, ConfigOf, RunsCodeUpdate, CheckRollout, ClearCaches, CacheOutput, Basis,
      UpdateSchema, AdvanceFailsafe, RollBack, Pods.WaitingPods, Pods.RunningPods, CacheAnswer;
    var t := Equipped(w, o);
    EquippedBasis(w, o);
    BasisAsks(w, o, t);
    Pods.RolloutFromPods(o.rolloutPods, Asked(w));
    CacheAnswered(w, o, t);
    BasisUnwritten(w, o, t);
    RollBackEmits(t, o);
  }
}
