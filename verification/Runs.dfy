// Runs: reconciles, each possibly cut short by a crash after any event, interleaved with everyone else's changes.
module Runs {
  import opened Kube
  import opened DrupalSites
  import opened Deployments
  import opened Workflow
  import opened ReconcileFacts
  import opened EnsureFacts
  import opened PerformFacts
  import opened Safety

  /** A reconcile that gets as far as `cut` events, or a change by anyone else. */
  datatype Step = Reconcile(o: Oracle, cut: nat) | Environment

  /** Others edit the spec and the metadata and change the rest of the world; the status belongs to the operator. */
  ghost predicate Follows(w: World, step: Step, next: World) {
    match step
    case Reconcile(o, cut) => cut <= |Log(w, o)| && next == After(w, Log(w, o)[..cut])
    case Environment => next.site == w.site.(meta := next.site.meta, spec := next.site.spec)
  }

  ghost predicate IsRun(ws: seq<World>, steps: seq<Step>) {
    |ws| == |steps| + 1 && forall i :: 0 <= i < |steps| ==> Follows(ws[i], steps[i], ws[i + 1])
  }

  /** A status comes from the start or from a logged write. */
  lemma {:induction false} StatusHistory(w: World, log: seq<Event>)
    ensures
      var st := After(w, log).site.status;
      st == w.site.status || exists e :: e in log && e.StatusWritten? && e.status == st
    decreases |log|
  {
    if log != [] {
      var before := log[..|log| - 1];
      StatusHistory(w, before);
      assert log[|log| - 1] in log;
      assert forall e :: e in before ==> e in log;
    }
  }

  // ------------------------------------------------------------------ what every status write keeps

  /** Initialized stays, and a failed update stays failed unless the spec is at the failsafe release. */
  ghost predicate KeepsLatches(site: Site, st: Status) {
    && (site.Is(Initialized) ==> st.conditions.initialized.Holds())
    && (site.status.failsafe != ReleaseId(site.spec) ==>
          && (site.Is(CodeUpdateFailed) ==>
            st.conditions.codeUpdateFailed.Holds() && st.failsafe == site.status.failsafe)
          && (site.Is(DBUpdatesFailed) ==>
            st.conditions.dbUpdatesFailed.Holds() && st.failsafe == site.status.failsafe))
  }

  lemma EveryStatusKeepsLatches(w: World, o: Oracle, e: Event)
    requires e in Log(w, o) && e.StatusWritten?
    ensures KeepsLatches(w.site, e.status)
  {
    hide Log, Assessment, Equipped, Reconciled, ReleaseId, Decided, Ensured, Coherent, Perform, Observed, ToAssess;
    LogCases(w, o);
    if e.status.failsafe != w.site.status.failsafe {
      var i :| 0 <= i < |Log(w, o)| && Log(w, o)[i] == e;
      OnlyMoves(w, o, i);
      AdvancedKeeps(w, o, Assessment(w, o), Equipped(w, o), e);
    } else if EndsLate(w, o) {
      LateStatusKeeps(w, o, Assessment(w, o), Equipped(w, o), e);
    }
  }

  /** The write that moves the failsafe release changes no condition. */
  lemma AdvancedKeeps(w: World, o: Oracle, s: Session, t: Session, e: Event)
    requires Decided(w, o, s) && Moves(w, o, s, t, Reconciled(w, o).session)
    requires e in Log(w, o) && e.StatusWritten?
    ensures KeepsLatches(w.site, e.status)
  {
    hide Reconciled, ReleaseId, MergeClone, Coherent, Assessed, InStep, UpdateVersion, Late, RunsCodeUpdate, SiteImage;
    DecidedConditions(w, o, s);
    var i :| 0 <= i < |Log(w, o)| && Log(w, o)[i] == e;
    MovesLast(w, o, s, t, Reconciled(w, o).session, i);
  }

  lemma DecidedConditions(w: World, o: Oracle, s: Session)
    requires Decided(w, o, s)
    ensures s.site.status.conditions == w.site.status.conditions && s.site.status.failsafe == w.site.status.failsafe
  {
    hide Coherent, MergeClone, InStep, Assessed;
  }

  lemma LateStatusKeeps(w: World, o: Oracle, s: Session, t: Session, e: Event)
    requires Decided(w, o, s)
    requires StoppedLate(w, o, s, t, Reconciled(w, o).session) || Moves(w, o, s, t, Reconciled(w, o).session)
    requires e in Log(w, o) && e.StatusWritten?
    ensures KeepsLatches(w.site, e.status)
  {
    hide Reconciled, ReleaseId, Coherent, Decided, Moves;
    if Moves(w, o, s, t, Reconciled(w, o).session) {
      AdvancedKeeps(w, o, s, t, e);
    }
  }

  /** One step of a run, whole or cut short, keeps the latches. */
  lemma StepKeepsLatches(w: World, step: Step, next: World)
    requires Follows(w, step, next)
    ensures KeepsLatches(w.site, next.site.status)
  {
    hide Log, ReleaseId;
    match step {
      case Environment =>
      case Reconcile(o, cut) =>
        var log := Log(w, o)[..cut];
        StatusHistory(w, log);
        if next.site.status != w.site.status {
          var e :| e in log && e.StatusWritten? && e.status == next.site.status;
          EveryStatusKeepsLatches(w, o, e);
        }
    }
  }

  // ------------------------------------------------------------------ CodeUpdateFailed is a latch

  /** The reconciles of a run that start while the spec asks for the failsafe release. */
  ghost predicate Restoring(w: World, step: Step) {
    step.Reconcile? && w.site.status.failsafe == ReleaseId(w.site.spec)
  }

  /**
   * CodeUpdateFailed is a latch: once persisted, every world of every run keeps it, and keeps the failsafe release,
   * until a reconcile starts with the spec back at that release.
   */
  lemma {:induction false} CodeUpdateFailedLatches(ws: seq<World>, steps: seq<Step>, i: nat)
    requires IsRun(ws, steps) && i < |ws|
    requires ws[0].site.Is(CodeUpdateFailed)
    requires forall k :: 0 <= k < i ==> !Restoring(ws[k], steps[k])
    ensures ws[i].site.Is(CodeUpdateFailed) && ws[i].site.status.failsafe == ws[0].site.status.failsafe
    decreases i
  {
    hide Log, ReleaseId;
    if i > 0 {
      CodeUpdateFailedLatches(ws, steps, i - 1);
      StepKeepsLatches(ws[i - 1], steps[i - 1], ws[i]);
    }
  }

  /**
   * DBUpdatesFailed is a latch as well: once persisted while the failsafe release is another one, or none, every world
   * of every run keeps it and that release, until a reconcile starts with the spec at it.
   */
  lemma {:induction false} DBUpdatesFailedLatches(ws: seq<World>, steps: seq<Step>, i: nat)
    requires IsRun(ws, steps) && i < |ws|
    requires ws[0].site.Is(DBUpdatesFailed)
    requires forall k :: 0 <= k < i ==> !Restoring(ws[k], steps[k])
    ensures ws[i].site.Is(DBUpdatesFailed) && ws[i].site.status.failsafe == ws[0].site.status.failsafe
    decreases i
  {
    hide Log, ReleaseId;
    if i > 0 {
      DBUpdatesFailedLatches(ws, steps, i - 1);
      StepKeepsLatches(ws[i - 1], steps[i - 1], ws[i]);
    }
  }

  /**
   * Without a failsafe release the failure is for ever: no spec asks for the empty release, so no run lifts it, and
   * none records a failsafe release.
   */
  lemma {:induction false} FirstSchemaFailureIsForEver(ws: seq<World>, steps: seq<Step>, i: nat)
    requires IsRun(ws, steps) && i < |ws|
    requires ws[0].site.Is(DBUpdatesFailed) && ws[0].site.status.failsafe == ""
    ensures ws[i].site.Is(DBUpdatesFailed) && ws[i].site.status.failsafe == ""
    decreases i
  {
    hide Log, ReleaseId;
    if i > 0 {
      FirstSchemaFailureIsForEver(ws, steps, i - 1);
      NoReleaseIsEmpty(ws[i - 1].site.spec);
      StepKeepsLatches(ws[i - 1], steps[i - 1], ws[i]);
    }
  }

  lemma NoReleaseIsEmpty(spec: Spec)
    ensures ReleaseId(spec) != ""
  {
    assert |ReleaseId(spec)| > 0;
  }

  /** What users see of a server: its release, its replicas, its containers with their images. */
  ghost predicate SameServer(d: Deployment, e: Deployment) {
    e.ReleaseOf() == d.ReleaseOf() && e.replicas == d.replicas && e.containers == d.containers
  }

  /** While the failure is latched, resource updates stand back from an existing and readable deployment. */
  lemma LatchedStandsBack(w: World, o: Oracle, s: Session)
    requires Decided(w, o, s) && w.site.Is(CodeUpdateFailed)
    ensures s.site.Is(CodeUpdateFailed) && !s.codeNeeded
    ensures w.deploy.Some? && !o.ensureReadFails ==> Ensured1(s, o) == w.deploy && EnsureUpsert(s, o) == Unchanged
  {
    hide MergeClone, Coherent, InStep, ReleaseId, CodeBehind, UpsertRelease;
  }

  /** A latched failure freezes the server: the only write left to the operator is the configmap annotations. */
  lemma LatchFreezesServer(w: World, o: Oracle, e: Event)
    requires w.site.Is(CodeUpdateFailed) && w.deploy.Some? && !o.ensureReadFails
    requires w.site.status.failsafe != ReleaseId(w.site.spec)
    requires e in Log(w, o) && e.DeploymentWritten?
    ensures e.author == ByHashes && SameServer(w.deploy.value, e.deployment)
  {
    hide Log, Assessment, Equipped, Reconciled, ReleaseId, Decided, Ensured, Coherent, Perform, Observed, ToAssess,
      Middle, RunsCodeUpdate, EnsureUpsert, Ensured1, Moves, StoppedLate;
    LogCases(w, o);
    var s, t := Assessment(w, o), Equipped(w, o);
    if EndsInMiddle(w, o) {
      LatchedStandsBack(w, o, s);
      FrozenMiddle(w, o, s, e);
    } else if EndsLate(w, o) {
      LatchedStandsBack(w, o, s);
      EnsuredIsMiddle(w, o, s, t);
      MiddleSite(w, o, s, t);
      var i :| 0 <= i < |Log(w, o)| && Log(w, o)[i] == e;
      LateEvent(w, o, s, t, i);
      FrozenLate(w, o, s, t, e);
      FrozenMiddle(w, o, s, e);
    }
  }

  /** A deployment comes from the start or from a logged write. */
  lemma {:induction false} DeploymentHistory(w: World, log: seq<Event>)
    ensures
      var d := After(w, log).deploy;
      d == w.deploy || exists e :: e in log && e.DeploymentWritten? && Some(e.deployment) == d
    decreases |log|
  {
    if log != [] {
      var before := log[..|log| - 1];
      DeploymentHistory(w, before);
      assert log[|log| - 1] in log;
      assert forall e :: e in before ==> e in log;
    }
  }

  /** Hence a latched reconcile, whole or cut short, leaves the server it found. */
  lemma LatchedReconcileKeepsServer(w: World, o: Oracle, cut: nat)
    requires w.site.Is(CodeUpdateFailed) && w.deploy.Some? && !o.ensureReadFails
    requires w.site.status.failsafe != ReleaseId(w.site.spec)
    requires cut <= |Log(w, o)|
    ensures
      var d := After(w, Log(w, o)[..cut]).deploy;
      d.Some? && SameServer(w.deploy.value, d.value)
  {
    hide Log, ReleaseId;
    var log := Log(w, o)[..cut];
    DeploymentHistory(w, log);
    if After(w, log).deploy != w.deploy {
      var e :| e in log && e.DeploymentWritten? && Some(e.deployment) == After(w, log).deploy;
      LatchFreezesServer(w, o, e);
    }
  }

  lemma FrozenMiddle(w: World, o: Oracle, s: Session, e: Event)
    requires w.deploy.Some? && Ensured1(s, o) == w.deploy && EnsureUpsert(s, o) == Unchanged
    requires Middle(w, o, s, e) && e.DeploymentWritten?
    ensures e.author == ByHashes && SameServer(w.deploy.value, e.deployment)
  {
    hide EnsureUpsert, SetHashes;
    if o.configmaps.ConfigmapsFound? {
      HashesKeepRelease(w.deploy.value, o.configmaps.hashes);
    }
  }

  lemma FrozenLate(w: World, o: Oracle, s: Session, t: Session, e: Event)
    requires t.site.Is(CodeUpdateFailed) && Late(w, o, s, t, e) && e.DeploymentWritten?
    ensures Middle(w, o, s, e)
  {
    hide Middle, UpsertRelease;
  }

  // ------------------------------------------------------------------ a site is initialized once

  /** Initialized never returns to false. */
  lemma {:induction false} InitializedStays(ws: seq<World>, steps: seq<Step>, i: nat, j: nat)
    requires IsRun(ws, steps) && i <= j < |ws|
    requires ws[i].site.Is(Initialized)
    ensures ws[j].site.Is(Initialized)
    decreases j
  {
    hide Log, ReleaseId;
    if i < j {
      InitializedStays(ws, steps, i, j - 1);
      StepKeepsLatches(ws[j - 1], steps[j - 1], ws[j]);
    }
  }

  /** A reconcile fills only a site that is not initialized, only in the way the spec asks for, and only once. */
  lemma JobsFillNewSites(w: World, o: Oracle, e: Event)
    requires e in Log(w, o) && e.JobCreated?
    ensures !w.site.Is(Initialized) && e.job == JobFor(w.site.spec) && e.job !in w.jobs
  {
    hide Log, Assessment, Equipped, Reconciled, ReleaseId, Decided, Ensured, Coherent, Perform, Observed, ToAssess,
      Middle, Moves, StoppedLate;
    LogCases(w, o);
    var s, t := Assessment(w, o), Equipped(w, o);
    if EndsInMiddle(w, o) {
      JobInMiddle(w, o, s, e);
    } else if EndsLate(w, o) {
      var i :| 0 <= i < |Log(w, o)| && Log(w, o)[i] == e;
      LateEvent(w, o, s, t, i);
      JobInMiddle(w, o, s, e);
    }
  }

  lemma JobInMiddle(w: World, o: Oracle, s: Session, e: Event)
    requires Decided(w, o, s) && Middle(w, o, s, e) && e.JobCreated?
    ensures !w.site.Is(Initialized) && e.job == JobFor(w.site.spec) && e.job !in w.jobs
  {
    hide Coherent, InStep, Assessed, ReleaseId;
  }

  /**
   * Initialization happens once: after it is persisted, no run creates an install job, a clone job or an easystart
   * task.
   */
  lemma InitializedOnce(ws: seq<World>, steps: seq<Step>, i: nat, j: nat, e: Event)
    requires IsRun(ws, steps) && i <= j < |steps| && steps[j].Reconcile?
    requires ws[i].site.Is(Initialized)
    requires e in Log(ws[j], steps[j].o)
    ensures !e.JobCreated?
  {
    hide Log;
    InitializedStays(ws, steps, i, j);
    if e.JobCreated? {
      JobsFillNewSites(ws[j], steps[j].o, e);
    }
  }

  lemma {:induction false} JobHistory(w: World, log: seq<Event>, job: Job)
    requires forall e :: e in log && e.JobCreated? ==> e.job == job
    ensures After(w, log).jobs <= w.jobs + {job}
    decreases |log|
  {
    if log != [] {
      var before := log[..|log| - 1];
      assert forall e :: e in before ==> e in log;
      JobHistory(w, before, job);
      assert log[|log| - 1] in log;
    }
  }

  /** With a fixed way to initialize, and nobody else creating these jobs, at most one of the three ever exists. */
  lemma {:induction false} OneWayToInitialize(ws: seq<World>, steps: seq<Step>, job: Job, i: nat)
    requires IsRun(ws, steps) && i < |ws| && ws[0].jobs == {}
    requires forall k :: 0 <= k < |ws| ==> JobFor(ws[k].site.spec) == job
    requires forall k :: 0 <= k < |steps| && steps[k].Environment? ==> ws[k + 1].jobs <= ws[k].jobs
    ensures ws[i].jobs <= {job}
    decreases i
  {
    hide Log, JobFor;
    if i > 0 {
      OneWayToInitialize(ws, steps, job, i - 1);
      var w := ws[i - 1];
      assert Follows(w, steps[i - 1], ws[i]);
      match steps[i - 1] {
        case Environment =>
        case Reconcile(o, cut) =>
          var log := Log(w, o)[..cut];
          forall e | e in log && e.JobCreated? ensures e.job == job {
            JobsFillNewSites(w, o, e);
          }
          JobHistory(w, log, job);
      }
    }
  }

  // ------------------------------------------------------------------ deletion

  /** Removing the finalizer is the last thing a reconcile of a deleted site does. */
  lemma OnlyCleanupRemovesFinalizer(w: World, o: Oracle, e: Event)
    requires e in Log(w, o) && e.SiteWritten? && !e.site.meta.finalizer
    ensures w.site.meta.deleting && Reconciled(w, o) == Cleanup(Begin(w), o)
  {
    hide Assessment, Equipped, ReleaseId, Decided, Ensured, Coherent, Perform, Observed, Middle, Moves, StoppedLate,
      Cleanup, InitSpec;
    LogCases(w, o);
    var s, t := Assessment(w, o), Equipped(w, o);
    if EndsInMiddle(w, o) {
      MiddleWritesNoSite(w, o, s, e);
    } else if EndsLate(w, o) {
      var i :| 0 <= i < |Log(w, o)| && Log(w, o)[i] == e;
      LateEvent(w, o, s, t, i);
      MiddleWritesNoSite(w, o, s, e);
    }
  }

  lemma MiddleWritesNoSite(w: World, o: Oracle, s: Session, e: Event)
    requires Middle(w, o, s, e)
    ensures !e.SiteWritten?
  {
    hide EnsureUpsert, SetHashes, Ensured1;
  }

  /**
   * Deletion leaves nothing behind: when a reconcile persists the removal of the finalizer, the site is gone, its
   * backup schedule is gone, and the project config does not name it, unless that config could not be read.
   */
  lemma FinalizerGoesLast(w: World, o: Oracle, i: nat)
    requires w.site.name != ""
    requires i < |Log(w, o)| && Log(w, o)[i].SiteWritten? && !Log(w, o)[i].site.meta.finalizer
    ensures
      var after := After(w, Log(w, o)[..i + 1]);
      after.gone && !after.schedule && (!o.configReadFails ==> after.primary != Some(w.site.name))
  {
    hide Reconciled, Cleanup;
    var e := Log(w, o)[i];
    OnlyCleanupRemovesFinalizer(w, o, e);
    CleanupEnds(w, o, i);
  }

  lemma CleanupEnds(w: World, o: Oracle, i: nat)
    requires w.site.meta.deleting && w.site.name != ""
    requires
      var log := Cleanup(Begin(w), o).session.log;
      i < |log| && log[i].SiteWritten?
    ensures
      var after := After(w, Cleanup(Begin(w), o).session.log[..i + 1]);
      after.gone && !after.schedule && (!o.configReadFails ==> after.primary != Some(w.site.name))
  {
    hide Coherent, Cleanup, After;
    var f := Cleanup(Begin(w), o).session;
    CleanupShape(w, o);
    var u := CleanedUp(w, o);
    forall k | 0 <= k < |f.log| && k < |u.log| && f.log[..|u.log|] == u.log ensures !f.log[k].SiteWritten? {
      assert f.log[k] == u.log[k];
    }
    assert f.log[..i + 1] == f.log;
    CleanupFacts(w, o);
    assert f.world == After(w, f.log) by { CoherentMeans(w, f); }
  }

  lemma CoherentMeans(w: World, s: Session)
    requires Coherent(w, s)
    ensures s.world == After(w, s.log)
  {
  }

  /** The session of a cleanup just before the finalizer goes. */
  function CleanedUp(w: World, o: Oracle): Session {
    var s := Begin(w);
    var t := if ConfigRead(w, o) == Some(w.site.name) then Emit(s, ConfigWritten("")) else s;
    if t.world.schedule then Emit(t, ScheduleDeleted) else t
  }

  lemma CleanedUpShape(w: World, o: Oracle)
    requires w.site.name != ""
    ensures
      var u := CleanedUp(w, o);
      && (forall k :: 0 <= k < |u.log| ==> !u.log[k].SiteWritten?)
      && u.site == w.site && !u.world.schedule && (!o.configReadFails ==> u.world.primary != Some(w.site.name))
  {
  }

  /** A cleanup stops on its way, or ends with the write that drops the finalizer. */
  lemma CleanupWriteShape(w: World, o: Oracle)
    ensures
      var u, f := CleanedUp(w, o), Cleanup(Begin(w), o).session;
      || (forall k :: 0 <= k < |f.log| ==> !f.log[k].SiteWritten?)
      || f == WriteSite(u.(site := u.site.(meta := u.site.meta.(finalizer := false))), o).session
  {
    hide WriteSite;
  }

  lemma CleanupShape(w: World, o: Oracle)
    requires w.site.meta.deleting && w.site.name != ""
    ensures forall k :: 0 <= k < |CleanedUp(w, o).log| ==> !CleanedUp(w, o).log[k].SiteWritten?
    ensures
      var u, f := CleanedUp(w, o), Cleanup(Begin(w), o).session;
      || (forall k :: 0 <= k < |f.log| ==> !f.log[k].SiteWritten?)
      || (|f.log| == |u.log| + 1 && f.log[..|u.log|] == u.log
          && f.world.gone && !f.world.schedule && (!o.configReadFails ==> f.world.primary != Some(w.site.name)))
  {
    hide CleanedUp, Cleanup;
    CleanedUpShape(w, o);
    CleanupWriteShape(w, o);
  }
}
