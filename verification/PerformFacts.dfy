// What the update section of a reconcile can do to the world, event by event.
module PerformFacts {
  import opened Kube
  import opened DrupalSites
  import opened Deployments
  import opened DeploymentLaws
  import opened Workflow
  import opened ReconcileFacts
  import opened EnsureFacts

  /** A cache clear that verifies a release: accepted, with nothing to say, by a running pod of that release. */
  predicate Verifies(e: Event, release: string) {
    e.Executed? && e.command == ClearCache && e.output == Some("") && e.pod.phase == Running && e.pod.release == release
  }

  function UpdateUpsert(t: Session, o: Oracle): Upsert<Deployment> {
    UpsertRelease(t, Rel(t), ConfigOf(t, o), o.updateCall)
  }

  function RollbackUpsert(t: Session, o: Oracle): Upsert<Deployment> {
    UpsertRelease(t, t.site.status.failsafe, ConfigOf(t, o), o.rollbackCall)
  }

  /** The deployment is at the release without a write, in a session that updates the code. */
  ghost predicate Rolled(t: Session, o: Oracle) {
    RunsCodeUpdate(t) && UpdateUpsert(t, o) == Unchanged
  }

  /** Events possible in a reconcile whose resources are ensured in `t`. */
  ghost predicate Late(w: World, o: Oracle, s: Session, t: Session, e: Event) {
    match e
    case StatusWritten(st) => Keeps(w.site, st)
    case DeploymentWritten(author, d) =>
      || Middle(w, o, s, e)
      || (author == ByUpdate && RunsCodeUpdate(t)
        && (UpdateUpsert(t, o) == Created(d) || UpdateUpsert(t, o) == Updated(d)))
      || (author == ByRollback && Rolled(t, o)
        && (RollbackUpsert(t, o) == Created(d) || RollbackUpsert(t, o) == Updated(d)))
    case RollbackStarted(target) => Rolled(t, o) && target == t.site.status.failsafe
    case Executed(c, p, _) =>
      || Light(e)
      || (c == ClearCache && Rolled(t, o) && p.phase == Running && p.release == Rel(t))
      || ((c == TakeBackup || c == RunUpdb) && RunsSchemaUpdate(t) && p.phase == Running && p.release == Rel(t))
    case _ => Middle(w, o, s, e)
  }

  /** A session of the update section that has changed nothing but the log. */
  ghost predicate InLate(w: World, o: Oracle, s: Session, t: Session, u: Session) {
    Coherent(w, u) && u == t.(log := u.log) && t.log <= u.log && Unwritten(u.log) && forall e :: e in u.log ==>
      Late(w, o, s, t, e)
  }

  ghost predicate StoppedLate(w: World, o: Oracle, s: Session, t: Session, u: Session) {
    Coherent(w, u) && t.log <= u.log && forall e :: e in u.log ==> Late(w, o, s, t, e)
  }

  lemma EnsuredInLate(w: World, o: Oracle, s: Session, t: Session)
    requires InMiddle(w, o, s, t)
    ensures InLate(w, o, s, t, t)
  {
    hide Coherent;
  }

  lemma {:induction false} PodForRelease(pods: seq<Pod>, release: string)
    ensures PodFor(pods, release).Some? ==>
      PodFor(pods, release).value.release == release && PodFor(pods, release).value in pods
    decreases |pods|
  {
    if pods != [] {
      PodForRelease(pods[1..], release);
    }
  }

  /** A command runs in a running pod of the release of the site. */
  lemma ExecPodRuns(x: Exec, release: string)
    ensures ExecPod(x, release).Some? ==>
      ExecPod(x, release).value.phase == Running && ExecPod(x, release).value.release == release
  {
    if x.pods.Some? {
      PodForRelease(x.pods.value, release);
    }
  }

  lemma EmitLate(w: World, o: Oracle, s: Session, t: Session, u: Session, e: Event)
    requires StoppedLate(w, o, s, t, u) && Late(w, o, s, t, e)
    ensures StoppedLate(w, o, s, t, Emit(u, e))
  {
    hide Late, Coherent;
    EmitCoherent(w, u, e);
  }

  /** A cache clear or a schema command extends the log and nothing else. */
  lemma ExecuteLate(w: World, o: Oracle, s: Session, t: Session, u: Session, c: Command, x: Exec)
    requires InLate(w, o, s, t, u)
    requires (c == ClearCache && Rolled(t, o)) || ((c == TakeBackup || c == RunUpdb) && RunsSchemaUpdate(t))
    ensures
      var v := Execute(u, c, x);
      InLate(w, o, s, t, v) && u.log <= v.log
    ensures ExecOutput(x, Rel(u)).Some? ==>
      var v := Execute(u, c, x);
      var p := ExecPod(x, Rel(u)).value;
      v.log == u.log + [Executed(c, p, ExecOutput(x, Rel(u)))] && p.phase == Running && p.release == Rel(t)
  {
    hide Rolled, RunsSchemaUpdate, Coherent, ReleaseId, Middle, PodFor;
    ExecPodRuns(x, Rel(u));
    match ExecPod(x, Rel(u)) {
      case None =>
      case Some(p) =>
        var e := Executed(c, p, x.output);
        EmitCoherent(w, u, e);
        assert After1(u.world, e) == u.world;
    }
  }

  lemma StopStatusLate(w: World, o: Oracle, s: Session, t: Session, u: Session)
    requires StoppedLate(w, o, s, t, u) && Late(w, o, s, t, StatusWritten(u.site.status))
    ensures StoppedLate(w, o, s, t, WriteStatus(u, o).session) && StoppedLate(w, o, s, t, Transient(u, o).session)
  {
    hide Late;
    EmitLate(w, o, s, t, u, StatusWritten(u.site.status));
  }

  /** The rollback writes at most the deployment at the failsafe release. */
  lemma RollBackLate(w: World, o: Oracle, s: Session, t: Session, u: Session)
    requires StoppedLate(w, o, s, t, u) && Rolled(t, o) && u.world == t.world
    requires u.site == t.site || u.site == FailCode(t.site, ERR_DEPLOYMENT_UPDATE_FAILED)
    ensures StoppedLate(w, o, s, t, RollBack(u, o)) && RollBack(u, o).site == u.site
  {
    hide StoppedLate, UpsertRelease;
    var e := RollbackStarted(u.site.status.failsafe);
    EmitLate(w, o, s, t, u, e);
    var v := Emit(u, e);
    RollbackIgnoresConditions(t, u, v, o);
    match UpsertRelease(v, u.site.status.failsafe, ConfigOf(u, o), o.rollbackCall) {
      case Created(d) => EmitLate(w, o, s, t, v, DeploymentWritten(ByRollback, d));
      case Updated(d) => EmitLate(w, o, s, t, v, DeploymentWritten(ByRollback, d));
      case _ =>
    }
  }

  lemma RollbackIgnoresConditions(t: Session, u: Session, v: Session, o: Oracle)
    requires u.world == t.world == v.world && v.site == u.site
    requires u.site == t.site || u.site == FailCode(t.site, ERR_DEPLOYMENT_UPDATE_FAILED)
    ensures UpsertRelease(v, u.site.status.failsafe, ConfigOf(u, o), o.rollbackCall) == RollbackUpsert(t, o)
  {
    ApplyReadsLittle(Base(t.world.deploy), t.site, u.site, t.site.status.failsafe, ConfigOf(t, o));
  }

  /** The cache clears of a session that goes on end with the one that was accepted. */
  lemma ClearCachesFacts(w: World, o: Oracle, s: Session, t: Session)
    requires InLate(w, o, s, t, t) && Rolled(t, o)
    ensures
      var u := ClearCaches(t, o);
      && InLate(w, o, s, t, u)
      && (CacheOutput(t, o) == Some("") ==> u.log != [] && Verifies(u.log[|u.log| - 1], Rel(t)))
  {
    hide InLate, Rolled, ReleaseId, ExecPod;
    ExecuteLate(w, o, s, t, t, ClearCache, o.cache1);
    var u := Execute(t, ClearCache, o.cache1);
    assert Rel(u) == Rel(t) by { assert InLate(w, o, s, t, u); InLateSite(w, o, s, t, u); }
    ExecuteLate(w, o, s, t, u, ClearCache, o.cache2);
  }

  lemma InLateSite(w: World, o: Oracle, s: Session, t: Session, u: Session)
    requires InLate(w, o, s, t, u)
    ensures u.site == t.site && u.world == t.world && StoppedLate(w, o, s, t, u)
  {
  }

  lemma FinishRolloutFacts(w: World, o: Oracle, s: Session, t: Session)
    requires InLate(w, o, s, t, t) && Rolled(t, o) && t.site == s.site && Keeps(w.site, s.site.status)
    ensures
      match FinishRollout(t, o)
      case Stop(u, _) => StoppedLate(w, o, s, t, u)
      case Go(u) => InLate(w, o, s, t, u) && u.log != [] && Verifies(u.log[|u.log| - 1], Rel(t))
  {
    hide InLate, StoppedLate, Rolled, RollBack, WriteStatus, Transient, ClearCaches, CacheOutput, CheckRollout,
      ReleaseId, RollbackRefused;
    InLateSite(w, o, s, t, t);
    match CheckRollout(o.rolloutPods, Rel(t)) {
      case Waiting => StopStatusLate(w, o, s, t, t);
      case Broken =>
        var f := t.(site := FailCode(t.site, ERR_DEPLOYMENT_UPDATE_FAILED));
        assert StoppedLate(w, o, s, t, f) by { StoppedSite(w, o, s, t, t, f); }
        RollBackLate(w, o, s, t, f);
        StopStatusLate(w, o, s, t, RollBack(f, o));
      case RolledOut =>
        var u := ClearCaches(t, o);
        ClearCachesFacts(w, o, s, t);
        InLateSite(w, o, s, t, u);
        StopStatusLate(w, o, s, t, u);
        RollBackLate(w, o, s, t, u);
        var v := RollBack(u, o);
        var f := v.(site := FailCode(v.site, ERR_CACHE));
        StoppedSite(w, o, s, t, v, f);
        StopStatusLate(w, o, s, t, f);
    }
  }

  lemma StoppedSite(w: World, o: Oracle, s: Session, t: Session, u: Session, v: Session)
    requires StoppedLate(w, o, s, t, u) && v == u.(site := v.site)
    ensures StoppedLate(w, o, s, t, v)
  {
    hide Late;
  }

  lemma UpdateVersionFacts(w: World, o: Oracle, s: Session, t: Session)
    requires InLate(w, o, s, t, t) && t.site == s.site && Keeps(w.site, s.site.status)
    ensures
      match UpdateVersion(t, o)
      case Stop(u, _) => StoppedLate(w, o, s, t, u)
      case Go(u) => InLate(w, o, s, t, u) && (RunsCodeUpdate(t) ==> u.log != [] && Verifies(u.log[|u.log| - 1], Rel(t)))
  {
    hide InLate, StoppedLate, UpsertRelease, FinishRollout, Transient, ReleaseId, RunsCodeUpdate;
    InLateSite(w, o, s, t, t);
    if RunsCodeUpdate(t) {
      match UpdateUpsert(t, o) {
        case Refused(_) => StopStatusLate(w, o, s, t, t);
        case Created(d) => EmitLate(w, o, s, t, t, DeploymentWritten(ByUpdate, d));
        case Updated(d) => EmitLate(w, o, s, t, t, DeploymentWritten(ByUpdate, d));
        case Unchanged => FinishRolloutFacts(w, o, s, t);
      }
    }
  }

  lemma BackupLogged(u: Session, o: Oracle)
    requires ExecOutput(o.backup, Rel(u)).Some?
    ensures
      var log := Execute(u, TakeBackup, o.backup).log;
      |log| == |u.log| + 1 && log[|u.log|].Executed? && log[|u.log|].output.Some?
  {
  }

  lemma UpdateSchemaEvents(w: World, o: Oracle, s: Session, t: Session, u: Session)
    requires InLate(w, o, s, t, u) && t.site == s.site && Keeps(w.site, s.site.status)
    ensures StoppedLate(w, o, s, t, UpdateSchema(u, o).session)
  {
    hide InLate, StoppedLate, WriteStatus, ReleaseId, Execute, ExecPod, RunsSchemaUpdate;
    InLateSite(w, o, s, t, u);
    RunsSchemaSame(w, o, s, t, u);
    RunsUnfailed(u);
    if RunsSchemaUpdate(u) {
      ExecuteLate(w, o, s, t, u, TakeBackup, o.backup);
      var a := Execute(u, TakeBackup, o.backup);
      InLateSite(w, o, s, t, a);
      FailSchemaLate(w, o, s, t, a, ERR_POD_EXEC);
      if ExecOutput(o.backup, Rel(u)).Some? {
        ExecuteLate(w, o, s, t, a, RunUpdb, o.runUpdb);
        var b := Execute(a, RunUpdb, o.runUpdb);
        InLateSite(w, o, s, t, b);
        FailSchemaLate(w, o, s, t, b, ERR_DB_UPDATE_FAILED);
        var c := b.(site := WithCondition(WithCondition(b.site, DBUpdatesPending, Absent), DBUpdatesFailed, Absent));
        StoppedSite(w, o, s, t, b, c);
        StopStatusLate(w, o, s, t, c);
      }
    }
  }

  lemma FailSchemaLate(w: World, o: Oracle, s: Session, t: Session, u: Session, reason: string)
    requires StoppedLate(w, o, s, t, u) && u.site == s.site && Keeps(w.site, s.site.status)
    ensures StoppedLate(w, o, s, t, WriteStatus(FailSchema(u, reason), o).session)
  {
    hide StoppedLate, WriteStatus;
    StoppedSite(w, o, s, t, u, FailSchema(u, reason));
    StopStatusLate(w, o, s, t, FailSchema(u, reason));
  }

  /** A schema update that lets the reconcile go on has cleared its two conditions and nothing else. */
  lemma UpdateSchemaGoes(u: Session, o: Oracle)
    requires UpdateSchema(u, o).Go?
    ensures
      var v := UpdateSchema(u, o).session;
      && v.site == u.site && v.world == u.world
      && (RunsSchemaUpdate(u) ==> !u.site.Is(DBUpdatesPending))
      && (!RunsSchemaUpdate(u) ==> v == u)
  {
    hide WriteStatus, ReleaseId, ExecPod;
  }

  lemma RunsUnfailed(u: Session)
    ensures RunsSchemaUpdate(u) ==> !u.site.Is(DBUpdatesFailed) && !u.site.Is(CodeUpdateFailed)
  {
  }

  lemma RunsSchemaSame(w: World, o: Oracle, s: Session, t: Session, u: Session)
    requires InLate(w, o, s, t, u)
    ensures RunsSchemaUpdate(u) == RunsSchemaUpdate(t) && RunsCodeUpdate(u) == RunsCodeUpdate(t)
  {
  }

  /** A command adds at most itself to the log. */
  lemma ExecuteLog(s: Session, c: Command, x: Exec)
    ensures
      var t := Execute(s, c, x);
      t.log == s.log || (|t.log| == |s.log| + 1 && t.log[..|s.log|] == s.log && t.log[|s.log|].Executed?
        && t.log[|s.log|].command == c)
  {
  }

  lemma WriteStatusLog(s: Session, o: Oracle)
    ensures
      var t := WriteStatus(s, o).session;
      t.log == s.log || t.log == s.log + [StatusWritten(s.site.status)]
  {
  }
}
