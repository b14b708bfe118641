// One reconcile of a DrupalSite as a function: the world it starts from and the answers it gets from the API decide
// the API writes and pod commands it issues, in order.
module Workflow {
  import opened Kube
  import opened DrupalSites
  import opened Deployments

  // ------------------------------------------------------------------ the world

  datatype Phase = Pending | Running | Succeeded | Failed | PhaseUnknown

  /** A server pod: the release annotated on it, its phase, and its age in seconds. */
  datatype Pod = Pod(release: string, phase: Phase, age: nat)

  /** What runs once to fill a new site. */
  datatype Job = InstallJob | CloneJob | EasystartTask

  /** What the API server holds about one site. */
  datatype World = World(
    gone: bool,
    site: Site,
    primary: Option<string>,        // the site named by the project config, if the project has a config
    deploy: Option<Deployment>,
    readyReplicas: nat,
    dbod: bool,                     // the database instance has been provisioned
    jobs: set<Job>,
    schedule: bool)                 // the backup schedule of the site exists

  datatype Command = CheckInstalled | CheckUpdb | ClearCache | TakeBackup | RunUpdb

  datatype Author = ByResources | ByHashes | ByUpdate | ByRollback

  /** What a reconcile does to the world, in order; `RollbackStarted` marks the call of the rollback. */
  datatype Event =
    | SiteWritten(site: Site)
    | StatusWritten(status: Status)
    | ConfigWritten(primary: string)
    | DeploymentWritten(author: Author, deployment: Deployment)
    | JobCreated(job: Job)
    | ScheduleCreated
    | ScheduleDeleted
    | RollbackStarted(target: string)
    | Executed(command: Command, pod: Pod, output: Option<string>)

  /** A site that is being deleted disappears with its last finalizer. */
  function After1(w: World, e: Event): World {
    match e
    case SiteWritten(s) =>
      w.(site := w.site.(meta := s.meta, spec := s.spec), gone := w.gone || (s.meta.deleting && !s.meta.finalizer))
    case StatusWritten(st) => w.(site := w.site.(status := st))
    case ConfigWritten(p) => w.(primary := Some(p))
    case DeploymentWritten(_, d) => w.(deploy := Some(d))
    case JobCreated(j) => w.(jobs := w.jobs + {j})
    case ScheduleCreated => w.(schedule := true)
    case ScheduleDeleted => w.(schedule := false)
    case RollbackStarted(_) => w
    case Executed(_, _, _) => w
  }

  /** The world after a sequence of events, in particular after the part of a reconcile before a crash. */
  function After(w: World, log: seq<Event>): World
    decreases |log|
  {
    if log == [] then w else After1(After(w, log[..|log| - 1]), log[|log| - 1])
  }

  // ------------------------------------------------------------------ answers of the API

  /** A pod command: the pod list it finds its pod in (if the list succeeds), and what the command answers. */
  datatype Exec = Exec(pods: Option<seq<Pod>>, output: Option<string>)

  datatype CloneSource = SourceFound(extraConfigurationRepo: string) | SourceMissing | SourceFailed

  /** The namespace, with the two annotations that block a project. */
  datatype Namespace = NamespaceFound(timestamp: bool, reason: bool) | NamespaceMissing | NamespaceFailed

  /** The deployment and the configmaps of the site: the hashes, or why something could not be read. */
  datatype Configmaps = ConfigmapsFound(hashes: Hashes) | ConfigmapMissing | ConfigmapFailed

  /** What one reconcile reads from outside the world, and which of its calls fail. */
  datatype Oracle = Oracle(
    siteReadFails: bool,
    configReadFails: bool,
    clone: CloneSource,
    randomPassword: string,
    defaultRelease: string,          // the default the operator was started with for this version name, possibly empty
    specValid: bool,
    readyReadFails: bool,
    dbod0Fails: bool,
    installedReadFails: bool,
    checkInstalled: Exec,
    cloneJobDone: bool,
    easystartDone: bool,
    webhookURL: string,
    sitesInProject: Option<nat>,     // none when the list fails
    configWrite: Write,
    backups: Option<seq<string>>,    // none when the list fails
    codeReadFails: bool,
    checkUpdb: Exec,
    namespace: Namespace,
    overrideReadFails: bool,
    resources: Config,               // every field but the replicas
    otherResourcesFail: bool,
    dbod1Fails: bool,
    ensureReadFails: bool,
    ensureCall: Call,
    dbod2Fails: bool,
    jobCall: Call,
    scheduleCall: Call,
    configmaps: Configmaps,
    hashCall: Call,
    dbod3Fails: bool,
    updateCall: Call,
    rolloutPods: Option<seq<Pod>>,   // none when the list fails
    cache1: Exec,
    cache2: Exec,
    rollbackCall: Call,
    backup: Exec,
    runUpdb: Exec,
    siteWrite: Write)

  /** How a reconcile ends; only `Requeued` and `Errored` make the controller come back by itself. */
  datatype Outcome = Finished | Requeued | Errored | Panicked

  // ------------------------------------------------------------------ a reconcile in progress

  /** The world as changed so far, the in-memory site, the events so far, and the local flags of the source. */
  datatype Session = Session(
    world: World,
    site: Site,
    log: seq<Event>,
    flagged: bool,                   // a nonfatal error was recorded
    codeNeeded: bool,
    dbNeeded: bool)

  datatype Flow = Stop(session: Session, outcome: Outcome) | Go(session: Session)

  function Emit(s: Session, e: Event): Session {
    s.(world := After1(s.world, e), log := s.log + [e])
  }

  function Begin(w: World): Session {
    Session(w, w.site, [], false, false, false)
  }

  function WriteOutcome(write: Write): Outcome {
    match write
    case Accepted => Finished
    case Conflict => Requeued
    case Rejected => Errored
  }

  /** Persists spec and metadata and ends the reconcile. */
  function WriteSite(s: Session, o: Oracle): (f: Flow)
    ensures f.Stop?
  {
    Stop(if o.siteWrite == Accepted then Emit(s, SiteWritten(s.site)) else s, WriteOutcome(o.siteWrite))
  }

  /** Persists the status and ends the reconcile. */
  function WriteStatus(s: Session, o: Oracle): (f: Flow)
    ensures f.Stop?
  {
    Stop(if o.siteWrite == Accepted then Emit(s, StatusWritten(s.site.status)) else s, WriteOutcome(o.siteWrite))
  }

  /** The transient-error exit: the status is written, and the error that would requeue is lost. */
  function Transient(s: Session, o: Oracle): (f: Flow)
    ensures f.Stop?
  {
    Stop(WriteStatus(s, o).session, Finished)
  }

  function TransientNotReady(s: Session, reason: string, o: Oracle): (f: Flow)
    ensures f.Stop?
  {
    Transient(s.(site := WithCondition(s.site, Ready, Present(False, reason))), o)
  }

  /** The site release of the session. */
  function Rel(s: Session): string { ReleaseId(s.site.spec) }

  // ------------------------------------------------------------------ pods

  /** The first pod of the list with the given release annotation. */
  function PodFor(pods: seq<Pod>, release: string): Option<Pod>
    decreases |pods|
  {
    if pods == [] then None
    else if pods[0].release == release then Some(pods[0])
    else PodFor(pods[1..], release)
  }

  /** The pod a command runs in: the first of the release, if it is running. */
  function ExecPod(x: Exec, release: string): Option<Pod> {
    match x.pods
    case None => None
    case Some(pods) =>
      match PodFor(pods, release)
      case None => None
      case Some(p) => if p.phase == Running then Some(p) else None
  }

  /** The output of a command, or none when it failed or had no pod to run in. */
  function ExecOutput(x: Exec, release: string): Option<string> {
    if ExecPod(x, release).None? then None else x.output
  }

  function Execute(s: Session, c: Command, x: Exec): Session {
    match ExecPod(x, Rel(s))
    case None => s
    case Some(p) => Emit(s, Executed(c, p, x.output))
  }

  // ------------------------------------------------------------------ create-or-update

  function UpsertDeployment(current: Option<Deployment>, wanted: Deployment, call: Call): Upsert<Deployment> {
    if call.readFails then Refused(false)
    else if current == Some(wanted) then Unchanged
    else if call.write != Accepted then Refused(call.write == Conflict)
    else if current.None? then Created(Stored(wanted))
    else Updated(wanted)
  }

  /** The object a create-or-update edits. */
  function Base(current: Option<Deployment>): Deployment {
    match current case None => BLANK case Some(d) => d
  }

  function UpsertRelease(s: Session, release: string, config: Config, call: Call): Upsert<Deployment> {
    UpsertDeployment(s.world.deploy, Apply(Base(s.world.deploy), s.site, release, config), call)
  }

  /** The deployment after a create-or-update. */
  function Result(current: Option<Deployment>, r: Upsert<Deployment>): Option<Deployment> {
    match r
    case Created(d) => Some(d)
    case Updated(d) => Some(d)
    case _ => current
  }

  function Record(s: Session, author: Author, r: Upsert<Deployment>): Session {
    match r
    case Created(d) => Emit(s, DeploymentWritten(author, d))
    case Updated(d) => Emit(s, DeploymentWritten(author, d))
    case _ => s
  }

  // ------------------------------------------------------------------ 1. finalizer and spec

  /** What the source site of a clone changes in the in-memory spec. */
  function MergeClone(spec: Spec, clone: CloneSource): Spec {
    if spec.cloneFrom != "" && clone.SourceFound? && clone.extraConfigurationRepo != ""
      && spec.extraConfigurationRepo == "" then
      spec.(extraConfigurationRepo := clone.extraConfigurationRepo)
    else spec
  }

  predicate SpecIncomplete(site: Site) {
    !site.meta.finalizer || site.spec.webDAVPassword == "" || site.spec.releaseSpec == ""
  }

  /** Finalizer, password, clone source and default release, all in memory. */
  function CompleteSpec(site: Site, o: Oracle): Site {
    var password := if site.spec.webDAVPassword == "" then o.randomPassword else site.spec.webDAVPassword;
    var spec := MergeClone(site.spec.(webDAVPassword := password), o.clone);
    site.(meta := site.meta.(finalizer := true),
          spec := if spec.releaseSpec == "" then spec.(releaseSpec := o.defaultRelease) else spec)
  }

  function InitSpec(s: Session, o: Oracle): Flow {
    if s.site.spec.cloneFrom != "" && o.clone.SourceMissing? then
      WriteStatus(s.(site := WithCondition(s.site, Error, Present(True, ERR_INVALID_SPEC))), o)
    else if s.site.spec.cloneFrom != "" && o.clone.SourceFailed? then
      WriteStatus(s.(site := WithCondition(s.site, Error, Present(True, ERR_CLIENT_K8S))), o)
    else
      var t := s.(site := CompleteSpec(s.site, o));
      if SpecIncomplete(s.site) then WriteSite(t, o)
      else if !o.specValid then
        WriteStatus(t.(site := WithCondition(t.site, Error, Present(True, ERR_INVALID_SPEC))), o)
      else Go(t)
  }

  // ------------------------------------------------------------------ 2. conditions

  predicate ServerReady(w: World, readFails: bool) {
    !readFails && w.deploy.Some? && w.readyReplicas != 0
  }

  /** Asks the pod whether the site is installed, unless it is known to be initialized. */
  function AskInstalled(s: Session, o: Oracle): Session {
    if s.site.Is(Initialized) || !ServerReady(s.world, o.installedReadFails) then s
    else Execute(s, CheckInstalled, o.checkInstalled)
  }

  predicate FoundInitialized(s: Session, o: Oracle) {
    || (ServerReady(s.world, o.installedReadFails) && ExecOutput(o.checkInstalled, Rel(s)).Some?)
    || o.cloneJobDone
    || o.easystartDone
  }

  predicate FoundReady(w: World, o: Oracle) {
    ServerReady(w, o.readyReadFails) && w.dbod && !o.dbod0Fails
  }

  function Lift(c: Condition): Condition {
    if c.Holds() then Absent else c
  }

  function TruthOf(b: bool): Condition {
    Present(if b then True else False, "")
  }

  /**
   * The conditions of a site observed ready and initialized or not; back at the failsafe release, failures are lifted.
   */
  function ObservedConditions(c: Conditions, ready: bool, initialized: bool, restored: bool): Conditions {
    c.(ready := TruthOf(ready),
       initialized := if c.initialized.Holds() then c.initialized else TruthOf(initialized),
       codeUpdateFailed := if restored then Lift(c.codeUpdateFailed) else c.codeUpdateFailed,
       dbUpdatesFailed := if restored then Lift(c.dbUpdatesFailed) else c.dbUpdatesFailed)
  }

  /** The status of a site as the second section of a reconcile observes it. */
  function ObservedStatus(site: Site, o: Oracle, ready: bool, initialized: bool, primary: Option<string>): Status {
    var release := ReleaseId(site.spec);
    site.status.(
      current := release,
      conditions := ObservedConditions(site.status.conditions, ready, initialized, site.status.failsafe == release),
      webhookURL := if |site.spec.extraConfigurationRepo| > 0 then o.webhookURL else site.status.webhookURL,
      isPrimary := if primary.Some? then site.name == primary.value else site.status.isPrimary)
  }

  function CheckPrimary(site: Site, primary: Option<string>): Site {
    match primary
    case None => site
    case Some(p) => site.(status := site.status.(isPrimary := site.name == p))
  }

  /** The project config as this reconcile read it. */
  function ConfigRead(w: World, o: Oracle): Option<string> {
    if o.configReadFails then None else w.primary
  }

  function NewStatus(s: Session, o: Oracle): Status {
    ObservedStatus(s.site, o, FoundReady(s.world, o), FoundInitialized(s, o), ConfigRead(s.world, o))
  }

  function SyncStatus(s: Session, o: Oracle): Flow {
    var t := AskInstalled(s, o);
    if NewStatus(s, o) != s.site.status then WriteStatus(t.(site := s.site.(status := NewStatus(s, o))), o) else Go(t)
  }

  /**
   * The only site of a project with no primary site proclaims itself; a failed config read ends in a nil dereference.
   */
  function Proclaim(s: Session, o: Oracle): Flow {
    if o.configReadFails then Stop(s, Panicked)
    else if s.world.primary == Some("") && o.sitesInProject.Some? && o.sitesInProject.value <= 1 then
      var t := s.(site := CheckPrimary(s.site, Some(s.site.name)));
      if o.configWrite == Accepted then Go(Emit(t, ConfigWritten(s.site.name))) else Go(t.(flagged := true))
    else Go(s)
  }

  function SyncBackups(s: Session, o: Oracle): Flow {
    match o.backups
    case None =>
      // the error message unwraps the result of the list before, which is nil unless that list failed too
      Stop(s, if s.world.primary.Some? && o.sitesInProject.None? then Errored else Panicked)
    case Some(bs) =>
      if |bs| != |s.site.status.backups| then
        WriteStatus(s.(site := s.site.(status := s.site.status.(backups := bs))), o)
      else Go(s)
  }

  // ------------------------------------------------------------------ 2.1 is an update needed?

  /** The checks run only on a site that is ready, initialized, and not stuck in a failed update. */
  predicate Updatable(site: Site) {
    site.Is(Ready) && site.Is(Initialized) && !site.Is(CodeUpdateFailed)
  }

  predicate CodeReadable(w: World, o: Oracle) {
    !o.codeReadFails && w.deploy.Some?
  }

  /** The release has not been rolled out, or not been verified. */
  predicate CodeBehind(w: World, site: Site) {
    w.deploy.Some? &&
    (w.deploy.value.ReleaseOf() != ReleaseId(site.spec)
     || (|site.status.failsafe| > 0 && site.status.failsafe != site.status.current))
  }

  function ComputeNeeds(s: Session, o: Oracle): Session {
    if !Updatable(s.site) then s
    else
      var code := CodeReadable(s.world, o) && CodeBehind(s.world, s.site);
      var t := s.(codeNeeded := code, flagged := s.flagged || !CodeReadable(s.world, o));
      if code then t
      else
        var out := ExecOutput(o.checkUpdb, Rel(t));
        Execute(t, CheckUpdb, o.checkUpdb).(
          dbNeeded := out.Some? && out.value != "",
          flagged := t.flagged || out.None?)
  }

  /** The annotation follows the need, one write at a time. */
  function SyncAnnotation(s: Session, o: Oracle): Flow {
    var wanted :=
      if Updatable(s.site) then (if s.codeNeeded || s.dbNeeded then IN_PROGRESS else None)
      else s.site.meta.updateInProgress;
    if s.site.meta.updateInProgress != wanted then WriteSite(s.(site := WithUpdateInProgress(s.site, wanted)), o)
      else Go(s)
  }

  function SyncPending(s: Session, o: Oracle): Flow {
    var wanted :=
      if Updatable(s.site) then (if s.dbNeeded then Present(True, "") else Absent)
      else s.site.status.conditions.dbUpdatesPending;
    if s.site.status.conditions.dbUpdatesPending != wanted then
      WriteStatus(s.(site := WithCondition(s.site, DBUpdatesPending, wanted)), o)
    else Go(s)
  }

  /** A failed code update closes the workflow: no annotation, and pending database updates unknown. */
  function CloseFailed(s: Session, o: Oracle): Flow {
    if !s.site.Is(CodeUpdateFailed) then Go(s)
    else if s.site.meta.updateInProgress.Some? then WriteSite(s.(site := WithUpdateInProgress(s.site, None)), o)
    else if s.site.status.conditions.dbUpdatesPending != Present(Unknown, "") then
      WriteStatus(s.(site := WithCondition(s.site, DBUpdatesPending, Present(Unknown, ""))), o)
    else Go(s)
  }

  // ------------------------------------------------------------------ 3. resources

  /** Blocked projects run nothing; half-blocked ones are an error. */
  function ExpectedReplicas(timestamp: bool, reason: bool, qos: QoS): Option<nat> {
    if timestamp != reason then None
    else if timestamp then Some(0)
    else if qos == Critical then Some(3) else Some(1)
  }

  function Replicas(s: Session, o: Oracle): Option<nat> {
    match o.namespace
    case NamespaceFound(t, r) => ExpectedReplicas(t, r, s.site.spec.qos)
    case _ => None
  }

  /** The configuration every deployment write of the reconcile uses. */
  function ConfigOf(s: Session, o: Oracle): Config {
    match Replicas(s, o)
    case Some(n) => o.resources.(replicas := n)
    case None => o.resources
  }

  function SyncReplicas(s: Session, o: Oracle): Flow {
    match o.namespace
    case NamespaceMissing => Stop(s, Requeued)
    case NamespaceFailed => Transient(s, o)
    case NamespaceFound(_, _) =>
      match Replicas(s, o)
      case None => WriteStatus(s, o)
      case Some(n) =>
        var t := s.(site := s.site.(status := s.site.status.(expectedReplicas := Some(n))));
        if o.overrideReadFails then Transient(t, o)
        else if s.site.status.expectedReplicas != Some(n) then WriteStatus(t, o)
        else Go(s)
  }

  /** The ordinary deployment update stands back while an update runs or has failed, if the deployment is there. */
  predicate StandsBack(s: Session, o: Oracle) {
    && !o.ensureReadFails && s.world.deploy.Some?
    && (s.site.meta.updateInProgress == IN_PROGRESS || s.site.Is(CodeUpdateFailed) || s.site.Is(DBUpdatesFailed))
  }

  function EnsureUpsert(s: Session, o: Oracle): Upsert<Deployment> {
    if !s.world.dbod || o.dbod1Fails || StandsBack(s, o) then Unchanged
    else UpsertRelease(s, Rel(s), ConfigOf(s, o), o.ensureCall)
  }

  function JobFor(spec: Spec): Job {
    if spec.cloneFrom != "" then CloneJob else if spec.easystart == "enable" then EasystartTask else InstallJob
  }

  predicate WantsJob(s: Session, o: Oracle) {
    s.world.dbod && !o.dbod2Fails && !s.site.Is(Initialized)
  }

  predicate WantsSchedule(site: Site) {
    site.Is(Initialized) && (site.status.isPrimary || site.spec.scheduledBackups == "enabled")
  }

  predicate CallSucceeds(call: Call, writes: bool) {
    !call.readFails && (writes ==> call.write == Accepted)
  }

  function EnsureJob(s: Session, o: Oracle): Session {
    var job := JobFor(s.site.spec);
    if WantsJob(s, o) && job !in s.world.jobs && CallSucceeds(o.jobCall, true) then Emit(s, JobCreated(job)) else s
  }

  predicate JobFails(s: Session, o: Oracle) {
    WantsJob(s, o) && !CallSucceeds(o.jobCall, JobFor(s.site.spec) !in s.world.jobs)
  }

  function EnsureSchedule(s: Session, o: Oracle): Session {
    if !CallSucceeds(o.scheduleCall, true) || s.world.schedule == WantsSchedule(s.site) then s
    else Emit(s, if WantsSchedule(s.site) then ScheduleCreated else ScheduleDeleted)
  }

  predicate ScheduleFails(s: Session, o: Oracle) {
    !CallSucceeds(o.scheduleCall, s.world.schedule != WantsSchedule(s.site))
  }

  /** Every resource is attempted even after one failed; the failures are reported together. */
  function EnsureResources(s: Session, o: Oracle): Flow {
    var r := EnsureUpsert(s, o);
    var s1 := Record(s, ByResources, r);
    var s2 := EnsureJob(s1, o);
    var s3 := EnsureSchedule(s2, o);
    if o.otherResourcesFail || r.Refused? || JobFails(s1, o) || ScheduleFails(s2, o) then
      TransientNotReady(s3, ERR_CLIENT_K8S, o)
    else Go(s3)
  }

  function HashUpsert(s: Session, o: Oracle): Upsert<Deployment> {
    if s.world.deploy.None? || !o.configmaps.ConfigmapsFound? then Unchanged
    else UpsertDeployment(s.world.deploy, SetHashes(s.world.deploy.value, o.configmaps.hashes), o.hashCall)
  }

  function EnsureHashes(s: Session, o: Oracle): Flow {
    if o.configmaps.ConfigmapFailed? then TransientNotReady(s, ERR_CLIENT_K8S, o)
    else
      var r := HashUpsert(s, o);
      if r == Refused(true) then Stop(s, Requeued)
      else if r.Refused? then TransientNotReady(s, ERR_CLIENT_K8S, o)
      else Go(Record(s, ByHashes, r))
  }

  // ------------------------------------------------------------------ 4. database

  function CheckDatabase(s: Session, o: Oracle): Flow {
    if s.world.dbod && !o.dbod3Fails then Go(s)
    else
      var t := s.(site := WithCondition(s.site, Ready, Present(False, ERR_DBOD)));
      Stop(if t.site != s.site then WriteStatus(t, o).session else s, Requeued)
  }

  // ------------------------------------------------------------------ 5. updates

  /** Seconds a new pod may stay pending during an upgrade. */
  const GRACE_SECONDS := 600

  datatype Rollout = RolledOut | Waiting | Broken

  /** Whether the first pod of the release came up; without such a pod the answer is to wait. */
  function CheckRollout(pods: Option<seq<Pod>>, release: string): Rollout {
    match pods
    case None => Waiting
    case Some(ps) =>
      match PodFor(ps, release)
      case None => Waiting
      case Some(p) =>
        if p.phase == Failed || p.phase == PhaseUnknown then Broken
        else if p.phase == Pending then (if p.age < GRACE_SECONDS then Waiting else Broken)
        else RolledOut
  }

  function FailCode(site: Site, reason: string): Site {
    WithCondition(site, CodeUpdateFailed, Present(True, reason))
  }

  function RollBack(s: Session, o: Oracle): Session {
    var t := Emit(s, RollbackStarted(s.site.status.failsafe));
    Record(t, ByRollback, UpsertRelease(t, s.site.status.failsafe, ConfigOf(s, o), o.rollbackCall))
  }

  predicate RollbackRefused(s: Session, o: Oracle) {
    UpsertRelease(s, s.site.status.failsafe, ConfigOf(s, o), o.rollbackCall).Refused?
  }

  /** The two tries of the cache clear. */
  function ClearCaches(s: Session, o: Oracle): Session {
    var t := Execute(s, ClearCache, o.cache1);
    if ExecOutput(o.cache1, Rel(s)).Some? then t else Execute(t, ClearCache, o.cache2)
  }

  function CacheOutput(s: Session, o: Oracle): Option<string> {
    var first := ExecOutput(o.cache1, Rel(s));
    if first.Some? then first else ExecOutput(o.cache2, Rel(s))
  }

  predicate RunsCodeUpdate(s: Session) {
    s.site.meta.updateInProgress.Some? && s.codeNeeded && !s.site.Is(CodeUpdateFailed)
  }

  function UpdateVersion(s: Session, o: Oracle): Flow {
    if !RunsCodeUpdate(s) then Go(s)
    else
      var r := UpsertRelease(s, Rel(s), ConfigOf(s, o), o.updateCall);
      match r
      case Refused(_) => Transient(s, o)
      case Created(_) => Stop(Record(s, ByUpdate, r), Requeued)
      case Updated(_) => Stop(Record(s, ByUpdate, r), Requeued)
      case Unchanged => FinishRollout(s, o)
  }

  /** The deployment is at the release: check the pods, then the caches. */
  function FinishRollout(s: Session, o: Oracle): Flow {
    match CheckRollout(o.rolloutPods, Rel(s))
    case Waiting => Transient(s, o)
    case Broken =>
      var t := RollBack(s.(site := FailCode(s.site, ERR_DEPLOYMENT_UPDATE_FAILED)), o);
      if RollbackRefused(s.(site := FailCode(s.site, ERR_DEPLOYMENT_UPDATE_FAILED)), o) then Transient(t, o)
        else WriteStatus(t, o)
    case RolledOut =>
      var t := ClearCaches(s, o);
      match CacheOutput(s, o)
      case None => WriteStatus(t, o)
      case Some(out) =>
        if out == "" then Go(t)
        else
          var u := RollBack(t, o);
          WriteStatus(u.(site := FailCode(u.site, ERR_CACHE)), o)
  }

  predicate RunsSchemaUpdate(s: Session) {
    s.site.meta.updateInProgress.Some? && s.dbNeeded && !s.site.Is(DBUpdatesFailed) && !s.site.Is(CodeUpdateFailed)
  }

  function FailSchema(s: Session, reason: string): Session {
    s.(site := WithCondition(s.site, DBUpdatesFailed, Present(True, reason)))
  }

  function UpdateSchema(s: Session, o: Oracle): Flow {
    if !RunsSchemaUpdate(s) then Go(s)
    else
      var t := Execute(s, TakeBackup, o.backup);
      if ExecOutput(o.backup, Rel(s)).None? then WriteStatus(FailSchema(t, ERR_POD_EXEC), o)
      else
        var u := Execute(t, RunUpdb, o.runUpdb);
        if ExecOutput(o.runUpdb, Rel(s)).None? then WriteStatus(FailSchema(u, ERR_DB_UPDATE_FAILED), o)
        else
          var v := u.(site := WithCondition(WithCondition(u.site, DBUpdatesPending, Absent), DBUpdatesFailed, Absent));
          if v.site != u.site then WriteStatus(v, o) else Go(v)
  }

  predicate AdvancesFailsafe(site: Site) {
    site.status.current != site.status.failsafe && !site.Is(DBUpdatesFailed) && !site.Is(CodeUpdateFailed)
  }

  function Advanced(site: Site, flags: Flags): Site {
    var release := ReleaseId(site.spec);
    site.(status := site.status.(failsafe := release, servingPodImage := SiteImage(flags, site, release)))
  }

  function AdvanceFailsafe(s: Session, o: Oracle): (f: Flow)
    ensures f.Stop?
  {
    if AdvancesFailsafe(s.site) then WriteStatus(s.(site := Advanced(s.site, o.resources.flags)), o)
    else Stop(s, if s.flagged then Errored else Finished)
  }

  // ------------------------------------------------------------------ deletion

  function Cleanup(s: Session, o: Oracle): (f: Flow)
    ensures f.Stop?
  {
    var named := ConfigRead(s.world, o) == Some(s.site.name);
    if named && o.configWrite != Accepted then Stop(s, Errored)
    else
      var t := if named then Emit(s, ConfigWritten("")) else s;
      if o.scheduleCall.readFails || (t.world.schedule && o.scheduleCall.write != Accepted) then Stop(t, Errored)
      else
        var u := if t.world.schedule then Emit(t, ScheduleDeleted) else t;
        WriteSite(u.(site := u.site.(meta := u.site.meta.(finalizer := false))), o)
  }

  // ------------------------------------------------------------------ the whole reconcile

  /** Up to the point where the status is known to be in step with the observed site. */
  function ToAssess(w: World, o: Oracle): Flow {
    var s := Begin(w);
    if o.siteReadFails then Stop(s, Errored)
    else if w.gone then Stop(s, Finished)
    else if w.site.meta.deleting then (if w.site.meta.finalizer then Cleanup(s, o) else Stop(s, Finished))
    else if w.site.meta.paused then Stop(s, Finished)
    else
      match InitSpec(s, o) case Stop(t, r) => Stop(t, r) case Go(s1) =>
      match SyncStatus(s1, o) case Stop(t, r) => Stop(t, r) case Go(s2) =>
      match Proclaim(s2, o) case Stop(t, r) => Stop(t, r) case Go(s3) =>
      SyncBackups(s3, o)
  }

  /** Up to the point where the update annotation and conditions are in step with the needs. */
  function Assess(s: Session, o: Oracle): Flow {
    match SyncAnnotation(ComputeNeeds(s, o), o) case Stop(t, r) => Stop(t, r) case Go(s1) =>
    match SyncPending(s1, o) case Stop(t, r) => Stop(t, r) case Go(s2) =>
    CloseFailed(s2, o)
  }

  function ToEnsure(w: World, o: Oracle): Flow {
    match ToAssess(w, o) case Stop(t, r) => Stop(t, r) case Go(s) => Assess(s, o)
  }

  /** Up to the point where every resource is ensured. */
  function Ensure(s: Session, o: Oracle): Flow {
    match SyncReplicas(s, o) case Stop(t, r) => Stop(t, r) case Go(s1) =>
    match EnsureResources(s1, o) case Stop(t, r) => Stop(t, r) case Go(s2) =>
    match EnsureHashes(s2, o) case Stop(t, r) => Stop(t, r) case Go(s3) =>
    CheckDatabase(s3, o)
  }

  function ToPerform(w: World, o: Oracle): Flow {
    match ToEnsure(w, o) case Stop(t, r) => Stop(t, r) case Go(s) => Ensure(s, o)
  }

  function Perform(s: Session, o: Oracle): (f: Flow)
    ensures f.Stop?
  {
    match UpdateVersion(s, o) case Stop(t, r) => Stop(t, r) case Go(s1) =>
    match UpdateSchema(s1, o) case Stop(t, r) => Stop(t, r) case Go(s2) =>
    AdvanceFailsafe(s2, o)
  }

  function Reconciled(w: World, o: Oracle): (f: Flow)
    ensures f.Stop?
  {
    match ToPerform(w, o) case Stop(t, r) => Stop(t, r) case Go(s) => Perform(s, o)
  }

  /** The events of a whole reconcile. */
  function Log(w: World, o: Oracle): seq<Event> {
    Reconciled(w, o).session.log
  }
}
