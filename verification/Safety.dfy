// What a reconcile never does, whatever the API answers and wherever it is cut short.
module Safety {
  import opened DrupalSites
  import opened Deployments
  import opened DeploymentLaws
  import opened Workflow
  import opened ReconcileFacts
  import opened EnsureFacts
  import opened PerformFacts

  lemma DecidedKeeps(w: World, o: Oracle, s: Session)
    requires Decided(w, o, s)
    ensures
      && Keeps(w.site, s.site.status) && ReleaseId(s.site.spec) == ReleaseId(w.site.spec) && s.world.deploy == w.deploy
  {
    MergeKeepsRelease(w.site.spec, o.clone);
  }

  lemma MiddleSite(w: World, o: Oracle, s: Session, t: Session)
    requires InMiddle(w, o, s, t)
    ensures
      && t.site == s.site && t.codeNeeded == s.codeNeeded && t.dbNeeded == s.dbNeeded && Coherent(w, t)
      && Unwritten(t.log)
  {
  }

  /** The reconcile ends by moving the failsafe release, directly after a code update that went on or was not due. */
  ghost predicate Moves(w: World, o: Oracle, s: Session, t: Session, f: Session) {
    && UpdateVersion(t, o).Go?
    && InLate(w, o, s, t, UpdateVersion(t, o).session)
    && (RunsCodeUpdate(t) ==>
          var log := UpdateVersion(t, o).session.log;
          log != [] && Verifies(log[|log| - 1], Rel(t)))
    && AdvancesFailsafe(s.site)
    && Coherent(w, f)
    && f.log == UpdateVersion(t, o).session.log + [StatusWritten(Advanced(s.site, o.resources.flags).status)]
  }

  lemma AdvanceFacts(w: World, o: Oracle, s: Session, t: Session, u: Session)
    requires InLate(w, o, s, t, u) && t.site == s.site
    ensures
      var f := AdvanceFailsafe(u, o).session;
      || StoppedLate(w, o, s, t, f)
      || (AdvancesFailsafe(s.site) && Coherent(w, f)
        && f.log == u.log + [StatusWritten(Advanced(s.site, o.resources.flags).status)])
  {
    hide Late, Advanced;
    EmitCoherent(w, u.(site := Advanced(u.site, o.resources.flags)),
      StatusWritten(Advanced(u.site, o.resources.flags).status));
  }

  /** A needed schema update is announced as pending, so it never lets the reconcile go on. */
  lemma SchemaUpdateStops(s: Session, t: Session, u: Session, o: Oracle)
    requires InStep(s) && u.site == t.site == s.site && u.dbNeeded == t.dbNeeded == s.dbNeeded
    requires s.dbNeeded ==> Updatable(s.site)
    requires UpdateSchema(u, o).Go?
    ensures UpdateSchema(u, o).session == u
  {
    hide UpdateSchema;
    UpdateSchemaGoes(u, o);
  }

  /** The update section as a whole. */
  lemma PerformEvents(w: World, o: Oracle, s: Session, t: Session)
    requires Decided(w, o, s) && InMiddle(w, o, s, t)
    ensures StoppedLate(w, o, s, t, Perform(t, o).session) || Moves(w, o, s, t, Perform(t, o).session)
  {
    hide InMiddle, InLate, StoppedLate, UpdateVersion, UpdateSchema, AdvanceFailsafe, MergeClone, ReleaseId,
      RunsCodeUpdate, Coherent, Advanced, AdvancesFailsafe;
    DecidedKeeps(w, o, s);
    EnsuredInLate(w, o, s, t);
    MiddleSite(w, o, s, t);
    UpdateVersionFacts(w, o, s, t);
    match UpdateVersion(t, o) {
      case Stop(_, _) =>
      case Go(u) =>
        InLateSite(w, o, s, t, u);
        InLateFlags(w, o, s, t, u);
        UpdateSchemaEvents(w, o, s, t, u);
        if UpdateSchema(u, o).Go? {
          SchemaUpdateStops(s, t, u, o);
          AdvanceFacts(w, o, s, t, u);
        }
    }
  }

  lemma InLateFlags(w: World, o: Oracle, s: Session, t: Session, u: Session)
    requires InLate(w, o, s, t, u)
    ensures u.dbNeeded == t.dbNeeded && u.codeNeeded == t.codeNeeded
  {
  }

  /** The session whose needs were assessed, if the reconcile got there. */
  function Assessment(w: World, o: Oracle): Session { ToEnsure(w, o).session }

  /** The session whose resources were ensured, if the reconcile got there. */
  function Equipped(w: World, o: Oracle): Session { ToPerform(w, o).session }

  ghost predicate EndsEarly(w: World, o: Oracle) {
    forall e :: e in Log(w, o) ==> Early(w, e)
  }

  ghost predicate EndsInMiddle(w: World, o: Oracle) {
    && Observed(w, o, ToAssess(w, o).session)
    && Decided(w, o, Assessment(w, o))
    && forall e :: e in Log(w, o) ==> Middle(w, o, Assessment(w, o), e)
  }

  ghost predicate EndsLate(w: World, o: Oracle) {
    && Observed(w, o, ToAssess(w, o).session)
    && Decided(w, o, Assessment(w, o)) && Ensured(w, o, Assessment(w, o), Equipped(w, o))
    && Reconciled(w, o) == Perform(Equipped(w, o), o)
    && (StoppedLate(w, o, Assessment(w, o), Equipped(w, o), Reconciled(w, o).session)
        || Moves(w, o, Assessment(w, o), Equipped(w, o), Reconciled(w, o).session))
  }

  /** Every event of every reconcile is one its stage allows, and the log is the history of the world. */
  lemma LogCases(w: World, o: Oracle)
    ensures Coherent(w, Reconciled(w, o).session)
    ensures EndsEarly(w, o) || EndsInMiddle(w, o) || EndsLate(w, o)
  {
    hide ToEnsure, ToAssess, ToPerform, Perform, Early, Middle, Late, Decided, Observed, InMiddle, Coherent;
    ToEnsureFacts(w, o);
    ToPerformFacts(w, o);
    if ToPerform(w, o).Go? {
      PerformEvents(w, o, Assessment(w, o), Equipped(w, o));
    }
  }

  // ------------------------------------------------------------------ the failsafe release is verified

  ghost predicate MovesFailsafe(w: World, e: Event) {
    e.StatusWritten? && e.status.failsafe != w.site.status.failsafe
  }

  /** Only the last write of the update section moves the failsafe release. */
  lemma OnlyMoves(w: World, o: Oracle, i: nat)
    requires i < |Log(w, o)| && MovesFailsafe(w, Log(w, o)[i])
    ensures
      var s, t := Assessment(w, o), Equipped(w, o);
      EndsLate(w, o) && Moves(w, o, s, t, Reconciled(w, o).session) && i == |Log(w, o)| - 1
  {
    hide Reconciled, Decided, Moves, Coherent, Ensured, UpdateVersion;
    LogCases(w, o);
    var log := Log(w, o);
    assert log[i] in log;
    var s, t := Assessment(w, o), Equipped(w, o);
    if EndsLate(w, o) && Moves(w, o, s, t, Reconciled(w, o).session) {
      MovesLast(w, o, s, t, Reconciled(w, o).session, i);
    }
  }

  lemma MovesLast(w: World, o: Oracle, s: Session, t: Session, f: Session, i: nat)
    requires Moves(w, o, s, t, f) && i < |f.log| && f.log[i].StatusWritten?
    ensures i == |f.log| - 1
  {
    hide Late, UpdateVersion, Advanced, RunsCodeUpdate;
    var u := UpdateVersion(t, o).session;
    forall j | 0 <= j < |u.log| ensures !f.log[j].StatusWritten? {
      assert f.log[j] == u.log[j] && u.log[j] in u.log;
    }
  }

  /** A code update runs exactly on a site that can be checked and whose readable deployment is behind. */
  lemma RunsWhenBehind(w: World, o: Oracle, s: Session, t: Session)
    requires Decided(w, o, s) && InMiddle(w, o, s, t)
    ensures RunsCodeUpdate(t) <==> Updatable(w.site) && CodeReadable(w, o) && CodeBehind(w, w.site)
  {
    hide ReleaseId, MergeClone, Middle, Coherent, CodeReadable;
    MiddleSite(w, o, s, t);
    DecidedKeeps(w, o, s);
    assert CodeBehind(w, s.site) == CodeBehind(w, w.site);
  }

  /** No cache is cleared in a reconcile that runs no code update. */
  lemma ClearsOnlyInUpdate(w: World, o: Oracle, s: Session, t: Session, u: Session, release: string)
    requires InLate(w, o, s, t, u) && !RunsCodeUpdate(t)
    ensures forall e :: e in u.log ==> !Verifies(e, release)
  {
    hide RunsCodeUpdate, RunsSchemaUpdate, UpsertRelease, Coherent;
    forall e | e in u.log ensures !Verifies(e, release) {
      assert Late(w, o, s, t, e);
    }
  }

  /**
   * A reconcile moves the failsafe release, the first one or a later one, only to the release of the spec; and a
   * running pod of that release has accepted a cache clear before exactly when the site was ready, initialized and
   * without a failed code update, and its deployment was read and found behind.
   */
  lemma FailsafeVerifiedExactlyWhen(w: World, o: Oracle, i: nat)
    requires i < |Log(w, o)| && MovesFailsafe(w, Log(w, o)[i])
    ensures Log(w, o)[i].status.failsafe == ReleaseId(w.site.spec)
    ensures
      (exists j :: 0 <= j < i && Verifies(Log(w, o)[j], ReleaseId(w.site.spec)))
      <==> Updatable(w.site) && CodeReadable(w, o) && CodeBehind(w, w.site)
  {
    hide Reconciled, Decided, Coherent, Ensured, InLate, InMiddle, UpdateVersion, RunsCodeUpdate, AdvancesFailsafe,
      CodeReadable, CodeBehind, Updatable, Observed, ToAssess, ToEnsure, ReleaseId;
    OnlyMoves(w, o, i);
    var s, t := Assessment(w, o), Equipped(w, o);
    var u := UpdateVersion(t, o).session;
    DecidedKeeps(w, o, s);
    EnsuredIsMiddle(w, o, s, t);
    MiddleSite(w, o, s, t);
    InLateSite(w, o, s, t, u);
    RunsWhenBehind(w, o, s, t);
    if RunsCodeUpdate(t) {
      assert Log(w, o)[|u.log| - 1] == u.log[|u.log| - 1];
    } else {
      ClearsOnlyInUpdate(w, o, s, t, u, ReleaseId(w.site.spec));
      forall j | 0 <= j < i ensures !Verifies(Log(w, o)[j], ReleaseId(w.site.spec)) {
        assert Log(w, o)[j] == u.log[j] && u.log[j] in u.log;
      }
    }
  }

  /** A site whose failsafe release moves has no failed code update, and is recorded at another release. */
  lemma MovesUnfailed(w: World, o: Oracle, i: nat)
    requires i < |Log(w, o)| && MovesFailsafe(w, Log(w, o)[i])
    ensures !w.site.Is(CodeUpdateFailed) && w.site.status.failsafe != w.site.status.current
  {
    hide Reconciled, Coherent, Ensured, InLate, InMiddle, UpdateVersion, RunsCodeUpdate, MergeClone, ReleaseId,
      Assessed, InStep;
    OnlyMoves(w, o, i);
  }

  /**
   * A failsafe release that is replaced by the release of the spec was verified before exactly when the site was ready,
   * initialized, and its deployment readable.
   */
  lemma FailsafeIsVerified(w: World, o: Oracle, i: nat)
    requires i < |Log(w, o)| && MovesFailsafe(w, Log(w, o)[i]) && w.site.status.failsafe != ""
    ensures Log(w, o)[i].status.failsafe == ReleaseId(w.site.spec)
    ensures
      (exists j :: 0 <= j < i && Verifies(Log(w, o)[j], ReleaseId(w.site.spec)))
      <==> w.site.Is(Ready) && w.site.Is(Initialized) && CodeReadable(w, o)
  {
    hide Log, ReleaseId, MovesFailsafe;
    FailsafeVerifiedExactlyWhen(w, o, i);
    MovesUnfailed(w, o, i);
  }

  lemma EnsuredIsMiddle(w: World, o: Oracle, s: Session, t: Session)
    requires Ensured(w, o, s, t)
    ensures InMiddle(w, o, s, t)
  {
  }

  // ------------------------------------------------------------------ only the workflow moves a live site

  /** The reads of the deployment that decide about updates succeed. */
  ghost predicate DeploymentReads(w: World, o: Oracle) {
    CodeReadable(w, o) && !o.ensureReadFails
  }

  /**
   * While resources are ensured, an existing and readable deployment of a site that can be checked keeps its release.
   */
  lemma EnsureKeepsRelease(w: World, o: Oracle, s: Session)
    requires Decided(w, o, s) && DeploymentReads(w, o) && w.deploy.value.created
    requires w.site.Is(Ready) && w.site.Is(Initialized)
    ensures Ensured1(s, o).Some? && Ensured1(s, o).value.created
    ensures Ensured1(s, o).value.ReleaseOf() == w.deploy.value.ReleaseOf()
    ensures Ensured1(s, o).value.Debugging() == w.deploy.value.Debugging()
    ensures s.codeNeeded || w.site.Is(CodeUpdateFailed) ==> Ensured1(s, o) == w.deploy
  {
    hide MergeClone, ReleaseId, Coherent, ConfigOf, Apply, ExecOutput;
    var d := w.deploy.value;
    ApplyMarksRelease(d, s.site, Rel(s), ConfigOf(s, o));
  }

  lemma HashesKeepRelease(d: Deployment, h: Hashes)
    ensures SetHashes(d, h).ReleaseOf() == d.ReleaseOf() && SetHashes(d, h).Debugging() == d.Debugging()
    ensures
      && SetHashes(d, h).created == d.created && SetHashes(d, h).containers == d.containers
      && SetHashes(d, h).replicas == d.replicas
  {
  }

  /** Ordinary resource updates and the hash writer leave the release of a live site alone. */
  lemma MiddleKeepsRelease(w: World, o: Oracle, s: Session, e: Event)
    requires Decided(w, o, s) && DeploymentReads(w, o) && w.deploy.value.created
    requires w.site.Is(Ready) && w.site.Is(Initialized)
    requires Middle(w, o, s, e) && e.DeploymentWritten?
    ensures e.deployment.ReleaseOf() == w.deploy.value.ReleaseOf() && (e.author == ByResources || e.author == ByHashes)
  {
    hide Decided, EnsureUpsert, SetHashes;
    EnsureKeepsRelease(w, o, s);
    if o.configmaps.ConfigmapsFound? {
      HashesKeepRelease(Ensured1(s, o).value, o.configmaps.hashes);
    }
  }

  /**
   * Release changes go through the workflow: in a reconcile that sees a ready and initialized site and whose
   * deployment reads succeed, a deployment write that changes the release annotation comes from the code update,
   * and then it carries the release of the spec, or from its rollback, and then it carries the failsafe release.
   */
  lemma ReleaseMovesThroughWorkflow(w: World, o: Oracle, i: nat)
    requires DeploymentReads(w, o) && w.deploy.value.created
    requires w.site.Is(Ready) && w.site.Is(Initialized)
    requires i < |Log(w, o)| && Log(w, o)[i].DeploymentWritten?
    requires Log(w, o)[i].deployment.ReleaseOf() != w.deploy.value.ReleaseOf()
    ensures
      var e := Log(w, o)[i];
      || (e.author == ByUpdate && e.deployment.ReleaseOf() == ReleaseId(w.site.spec))
      || (e.author == ByRollback && e.deployment.ReleaseOf() == w.site.status.failsafe)
  {
    hide Reconciled, Decided, Coherent, Ensured, Middle, RunsCodeUpdate, Rolled, ReleaseId, UpdateUpsert,
      RollbackUpsert, Perform, Moves, Equipped, Assessment;
    LogCases(w, o);
    var e := Log(w, o)[i];
    assert e in Log(w, o);
    var s, t := Assessment(w, o), Equipped(w, o);
    if !EndsEarly(w, o) {
      DecidedKeeps(w, o, s);
      if Middle(w, o, s, e) {
        MiddleKeepsRelease(w, o, s, e);
      } else {
        assert EndsLate(w, o);
        LateDeploymentWrite(w, o, s, t, i);
      }
    }
  }

  /** The release a write of the update section carries. */
  lemma LateWriteRelease(w: World, o: Oracle, s: Session, t: Session, e: Event)
    requires Late(w, o, s, t, e) && e.DeploymentWritten? && !Middle(w, o, s, e)
    requires t.world.deploy.Some? && t.world.deploy.value.created
    ensures
      || e.deployment.ReleaseOf() == t.world.deploy.value.ReleaseOf()
      || (e.author == ByUpdate && e.deployment.ReleaseOf() == Rel(t))
      || (e.author == ByRollback && e.deployment.ReleaseOf() == t.site.status.failsafe)
  {
    hide Middle, RunsCodeUpdate, ReleaseId, Apply, ConfigOf;
    var d := t.world.deploy.value;
    ApplyMarksRelease(d, t.site, Rel(t), ConfigOf(t, o));
    ApplyMarksRelease(d, t.site, t.site.status.failsafe, ConfigOf(t, o));
  }

  lemma LateDeploymentWrite(w: World, o: Oracle, s: Session, t: Session, i: nat)
    requires EndsLate(w, o) && s == Assessment(w, o) && t == Equipped(w, o)
    requires DeploymentReads(w, o) && w.deploy.value.created && w.site.Is(Ready) && w.site.Is(Initialized)
    requires i < |Log(w, o)| && Log(w, o)[i].DeploymentWritten? && !Middle(w, o, s, Log(w, o)[i])
    requires Log(w, o)[i].deployment.ReleaseOf() != w.deploy.value.ReleaseOf()
    ensures
      var e := Log(w, o)[i];
      || (e.author == ByUpdate && e.deployment.ReleaseOf() == ReleaseId(w.site.spec))
      || (e.author == ByRollback && e.deployment.ReleaseOf() == w.site.status.failsafe)
  {
    hide Log, Assessment, Equipped, Decided, Middle, ReleaseId, InMiddle, Late, Ensured1, CodeReadable, Moves,
      StoppedLate;
    LateEvent(w, o, s, t, i);
    EnsureKeepsRelease(w, o, s);
    EquippedDeployment(w, o, s, t);
    DecidedKeeps(w, o, s);
    EnsuredIsMiddle(w, o, s, t);
    MiddleSite(w, o, s, t);
    LateWriteRelease(w, o, s, t, Log(w, o)[i]);
  }

  /** An event of a late reconcile other than its status writes is one the update section allows. */
  lemma LateEvent(w: World, o: Oracle, s: Session, t: Session, i: nat)
    requires EndsLate(w, o) && s == Assessment(w, o) && t == Equipped(w, o)
    requires i < |Log(w, o)| && !Log(w, o)[i].StatusWritten?
    ensures Late(w, o, s, t, Log(w, o)[i])
  {
    hide Reconciled, Decided, Coherent, Late, Perform, Ensured, UpdateVersion, RunsCodeUpdate, Advanced;
    var log := Log(w, o);
    assert log[i] in log;
    if Moves(w, o, s, t, Reconciled(w, o).session) {
      var u := UpdateVersion(t, o).session;
      assert log[i] == u.log[i] && u.log[i] in u.log;
    }
  }

  /** The deployment the update section works on has the release and the debugging state it had before. */
  lemma EquippedDeployment(w: World, o: Oracle, s: Session, t: Session)
    requires Ensured(w, o, s, t) && Ensured1(s, o).Some?
    ensures
      && t.world.deploy.Some?
      && t.world.deploy.value.ReleaseOf() == Ensured1(s, o).value.ReleaseOf()
      && t.world.deploy.value.Debugging() == Ensured1(s, o).value.Debugging()
      && t.world.deploy.value.created == Ensured1(s, o).value.created
  {
    hide Ensured1, SetHashes, InMiddle;
    if o.configmaps.ConfigmapsFound? {
      HashesKeepRelease(Ensured1(s, o).value, o.configmaps.hashes);
    }
  }

  // ------------------------------------------------------------------ the rollback target is sound

  /** What an update that found the deployment unchanged says about the world the reconcile started from. */
  lemma RolledFacts(w: World, o: Oracle, s: Session, t: Session)
    requires Decided(w, o, s) && Ensured(w, o, s, t) && Rolled(t, o) && t.world.deploy.Some?
    requires !o.ensureReadFails && w.deploy.Some? && w.deploy.value.created && !w.deploy.value.Debugging()
    ensures w.deploy.value.ReleaseOf() == ReleaseId(w.site.spec)
    ensures w.site.status.failsafe != "" && w.site.status.failsafe != w.site.status.current
  {
    hide Decided, Ensured1, InMiddle, ReleaseId, CodeBehind, ConfigOf, Apply;
    DecidedKeeps(w, o, s);
    EnsuredIsMiddle(w, o, s, t);
    MiddleSite(w, o, s, t);
    NeededMeansBehind(w, o, s);
    EnsureKeepsRelease(w, o, s);
    EquippedDeployment(w, o, s, t);
    UnchangedMeansReleased(t.world.deploy.value, t.site, Rel(t), ConfigOf(t, o));
    BehindAtRelease(w, s);
  }

  lemma NeededMeansBehind(w: World, o: Oracle, s: Session)
    requires Decided(w, o, s) && s.codeNeeded
    ensures w.site.Is(Ready) && w.site.Is(Initialized) && CodeReadable(w, o) && CodeBehind(w, s.site)
    ensures s.site.status.failsafe == w.site.status.failsafe && s.site.status.current == w.site.status.current
  {
    hide Coherent, MergeClone, ReleaseId, InStep;
  }

  /** At the release of the spec, being behind means an unverified release over a known one. */
  lemma BehindAtRelease(w: World, s: Session)
    requires CodeBehind(w, s.site) && w.deploy.value.ReleaseOf() == Rel(s)
    ensures s.site.status.failsafe != "" && s.site.status.failsafe != s.site.status.current
  {
    hide ReleaseId;
  }

  /**
   * The rollback target is sound: with successful deployment reads and no debugging, a rollback starts only from
   * the release of the spec, and its target is a recorded release other than that.
   */
  lemma RollbackTargetIsSound(w: World, o: Oracle, i: nat)
    requires !o.ensureReadFails && (w.deploy.Some? ==> w.deploy.value.created && !w.deploy.value.Debugging())
    requires i < |Log(w, o)| && Log(w, o)[i].RollbackStarted?
    ensures
      var target := Log(w, o)[i].target;
      target == w.site.status.failsafe && target != "" && target != ReleaseId(w.site.spec)
    ensures w.deploy.Some? && w.deploy.value.ReleaseOf() == ReleaseId(w.site.spec)
  {
    hide Log, Decided, Ensured, Middle, Rolled, ReleaseId, Perform, Moves, Equipped, Assessment, Reconciled,
      StoppedLate, Observed, ToAssess, RunsCodeUpdate, RunsSchemaUpdate;
    LogCases(w, o);
    var e := Log(w, o)[i];
    assert e in Log(w, o);
    var s, t := Assessment(w, o), Equipped(w, o);
    MiddleStartsNoRollback(w, o, s, e);
    LateEvent(w, o, s, t, i);
    RollbackNeedsDeployment(w, o, s, t);
    RolledFacts(w, o, s, t);
    EnsuredIsMiddle(w, o, s, t);
    MiddleSite(w, o, s, t);
    DecidedKeeps(w, o, s);
    ObservedCurrent(w, o, ToAssess(w, o).session);
    NeededMeansBehind(w, o, s);
  }

  lemma MiddleStartsNoRollback(w: World, o: Oracle, s: Session, e: Event)
    requires e.RollbackStarted?
    ensures !Early(w, e) && !Middle(w, o, s, e)
  {
  }

  lemma RollbackNeedsDeployment(w: World, o: Oracle, s: Session, t: Session)
    requires Decided(w, o, s) && Ensured(w, o, s, t) && Rolled(t, o)
    ensures s.codeNeeded && w.deploy.Some?
    ensures !o.ensureReadFails && w.deploy.value.created ==> t.world.deploy.Some?
  {
    hide MergeClone, ReleaseId, Coherent, UpsertRelease, Middle, SetHashes, EnsureUpsert, Apply;
    MiddleSite(w, o, s, t);
    if !o.ensureReadFails && w.deploy.value.created {
      NeededMeansBehind(w, o, s);
      EnsureKeepsRelease(w, o, s);
      EquippedDeployment(w, o, s, t);
    }
  }

  /** A reconcile that assessed its needs had found the current release in step with the spec. */
  lemma ObservedCurrent(w: World, o: Oracle, s: Session)
    requires Observed(w, o, s)
    ensures w.site.status.current == ReleaseId(w.site.spec)
    ensures w.site.status.failsafe == w.site.status.current ==>
      !w.site.Is(CodeUpdateFailed) && !w.site.Is(DBUpdatesFailed)
    ensures !w.site.meta.deleting && !w.site.meta.paused && !SpecIncomplete(w.site)
  {
    hide Coherent, MergeClone;
  }

  // ------------------------------------------------------------------ the schema update is ordered

  predicate IsUpdb(e: Event) { e.Executed? && e.command == RunUpdb }

  predicate IsBackup(e: Event) { e.Executed? && e.command == TakeBackup }

  predicate RollsCode(e: Event) {
    e.RollbackStarted? || (e.DeploymentWritten? && (e.author == ByUpdate || e.author == ByRollback))
  }

  /** A session that runs the schema update does nothing else, and runs updb right after an accepted backup. */
  lemma SchemaShape(t: Session, o: Oracle, i: nat)
    requires RunsSchemaUpdate(t) && !RunsCodeUpdate(t) && t.site.Is(DBUpdatesPending)
    requires forall e :: e in t.log ==> !IsUpdb(e)
    requires i < |Perform(t, o).session.log| && IsUpdb(Perform(t, o).session.log[i])
    ensures
      var log := Perform(t, o).session.log;
      log[..i] == Execute(t, TakeBackup, o.backup).log && |t.log| < i && IsBackup(log[i - 1]) && log[i - 1].output.Some?
  {
    hide ReleaseId, ExecPod, RunsSchemaUpdate, RunsCodeUpdate, WithCondition, Execute, WriteStatus;
    if UpdateSchema(t, o).Go? {
      UpdateSchemaGoes(t, o);
    }
    var a := Execute(t, TakeBackup, o.backup);
    ExecuteLog(t, TakeBackup, o.backup);
    NotYet(t, a, i);
    WriteStatusLog(FailSchema(a, ERR_POD_EXEC), o);
    if ExecOutput(o.backup, Rel(t)).Some? {
      BackupLogged(t, o);
      var b := Execute(a, RunUpdb, o.runUpdb);
      ExecuteLog(a, RunUpdb, o.runUpdb);
      WriteStatusLog(FailSchema(b, ERR_DB_UPDATE_FAILED), o);
      WriteStatusLog(
        b.(site := WithCondition(WithCondition(b.site, DBUpdatesPending, Absent), DBUpdatesFailed, Absent)), o);
    }
  }

  lemma NotYet(t: Session, a: Session, i: nat)
    requires forall e :: e in t.log ==> !IsUpdb(e)
    requires a.log == t.log || (|a.log| == |t.log| + 1 && a.log[..|t.log|] == t.log && IsBackup(a.log[|t.log|]))
    ensures i < |a.log| ==> !IsUpdb(a.log[i])
  {
    if i < |t.log| {
      assert a.log[i] == t.log[i] && t.log[i] in t.log;
    }
  }

  lemma MiddleIsQuiet(w: World, o: Oracle, s: Session, e: Event)
    requires Middle(w, o, s, e)
    ensures !IsUpdb(e) && !RollsCode(e)
  {
    hide EnsureUpsert, SetHashes, Ensured1;
  }

  lemma EarlyIsQuiet(w: World, e: Event)
    requires Early(w, e)
    ensures !IsUpdb(e) && !RollsCode(e)
  {
  }

  /** What the persisted site looked like when a schema update runs. */
  lemma SchemaNeeds(w: World, o: Oracle, s: Session, t: Session)
    requires Decided(w, o, s) && Ensured(w, o, s, t) && RunsSchemaUpdate(t)
    ensures w.site.meta.updateInProgress == IN_PROGRESS && w.site.Is(DBUpdatesPending)
    ensures w.site.Is(Ready) && w.site.Is(Initialized) && !w.site.Is(CodeUpdateFailed) && !w.site.Is(DBUpdatesFailed)
    ensures t.site.Is(DBUpdatesPending) && !RunsCodeUpdate(t)
    ensures CodeReadable(w, o) ==> !CodeBehind(w, s.site)
  {
    hide MergeClone, ReleaseId, Coherent, CodeBehind, ExecOutput, Middle, EnsureUpsert, SetHashes, Ensured1;
    MiddleSite(w, o, s, t);
  }

  /** A deployment at the release of the spec stays there while resources are ensured. */
  lemma EnsureKeepsSpecRelease(w: World, o: Oracle, s: Session, t: Session)
    requires Decided(w, o, s) && Ensured(w, o, s, t)
    requires w.deploy.Some? && w.deploy.value.created && w.deploy.value.ReleaseOf() == Rel(s)
    ensures t.world.deploy.Some? && t.world.deploy.value.ReleaseOf() == Rel(s)
  {
    hide MergeClone, ReleaseId, Coherent, ConfigOf, Apply, ExecOutput, InMiddle, SetHashes, InStep, Assessed;
    ApplyMarksRelease(w.deploy.value, s.site, Rel(s), ConfigOf(s, o));
    assert Ensured1(s, o).Some? && Ensured1(s, o).value.ReleaseOf() == Rel(s);
    EquippedDeployment(w, o, s, t);
  }

  lemma NotBehind(w: World, s: Session)
    requires w.deploy.Some? && !CodeBehind(w, s.site)
    ensures w.deploy.value.ReleaseOf() == Rel(s)
    ensures s.site.status.failsafe == "" || s.site.status.failsafe == s.site.status.current
  {
    hide ReleaseId;
  }

  /** A late reconcile that runs updb is one that runs the schema update. */
  lemma UpdbMeansSchemaUpdate(w: World, o: Oracle, s: Session, t: Session, i: nat)
    requires EndsLate(w, o) && s == Assessment(w, o) && t == Equipped(w, o)
    requires i < |Log(w, o)| && IsUpdb(Log(w, o)[i])
    ensures RunsSchemaUpdate(t) && Log(w, o)[i].pod.phase == Running && Log(w, o)[i].pod.release == Rel(t)
  {
    hide Log, Assessment, Equipped, Reconciled, ReleaseId, RunsSchemaUpdate, EndsLate, Rolled;
    LateEvent(w, o, s, t, i);
  }

  lemma NoUpdbBefore(w: World, o: Oracle, s: Session, t: Session)
    requires InMiddle(w, o, s, t)
    ensures forall e :: e in t.log ==> !IsUpdb(e) && !RollsCode(e)
  {
    hide Middle;
    forall e | e in t.log ensures !IsUpdb(e) && !RollsCode(e) {
      MiddleIsQuiet(w, o, s, e);
    }
  }

  /**
   * The schema update is ordered: run-updb happens only on a ready and initialized site without failures, whose
   * update annotation and pending condition are already persisted, in a running pod of the release of the spec,
   * directly after an accepted backup, and in a reconcile that does not touch the code rollout.
   */
  lemma SchemaUpdateIsOrdered(w: World, o: Oracle, i: nat)
    requires i < |Log(w, o)| && IsUpdb(Log(w, o)[i])
    ensures w.site.meta.updateInProgress == IN_PROGRESS && w.site.Is(DBUpdatesPending)
    ensures w.site.Is(Ready) && w.site.Is(Initialized) && !w.site.Is(CodeUpdateFailed) && !w.site.Is(DBUpdatesFailed)
    ensures Log(w, o)[i].pod.phase == Running && Log(w, o)[i].pod.release == ReleaseId(w.site.spec)
    ensures i > 0 && IsBackup(Log(w, o)[i - 1]) && Log(w, o)[i - 1].output.Some?
    ensures forall e :: e in Log(w, o) ==> !RollsCode(e)
  {
    hide Log, Assessment, Equipped, Reconciled, ReleaseId, RunsSchemaUpdate, RunsCodeUpdate, Decided, Ensured, Perform,
      Middle, Early, Late, InMiddle, Moves, Observed, ToAssess;
    SchemaReconcile(w, o, i);
    var s, t := Assessment(w, o), Equipped(w, o);
    SchemaNeeds(w, o, s, t);
    UpdbMeansSchemaUpdate(w, o, s, t, i);
    EnsuredIsMiddle(w, o, s, t);
    NoUpdbBefore(w, o, s, t);
    MiddleSite(w, o, s, t);
    DecidedKeeps(w, o, s);
    LogOfPerform(w, o);
    SchemaShape(t, o, i);
    forall e | e in Log(w, o) ensures !RollsCode(e) {
      SchemaRollsNoCode(w, o, s, t, e);
    }
  }

  lemma LogOfPerform(w: World, o: Oracle)
    requires EndsLate(w, o)
    ensures Log(w, o) == Perform(Equipped(w, o), o).session.log
  {
    hide Decided, Ensured, Perform, Reconciled, Moves, StoppedLate, Observed;
  }

  /** A reconcile that runs updb reaches the update section and runs the schema update there. */
  lemma SchemaReconcile(w: World, o: Oracle, i: nat)
    requires i < |Log(w, o)| && IsUpdb(Log(w, o)[i])
    ensures EndsLate(w, o) && RunsSchemaUpdate(Equipped(w, o))
  {
    hide Log, Assessment, Equipped, Reconciled, EndsLate, RunsSchemaUpdate, Decided, Middle, Early, ReleaseId, Coherent;
    LogCases(w, o);
    var e := Log(w, o)[i];
    assert e in Log(w, o);
    if EndsEarly(w, o) {
      EarlyIsQuiet(w, e);
    } else if EndsInMiddle(w, o) {
      MiddleIsQuiet(w, o, Assessment(w, o), e);
    } else {
      UpdbMeansSchemaUpdate(w, o, Assessment(w, o), Equipped(w, o), i);
    }
  }

  /** A session that runs the schema update and not the code update rolls no code. */
  lemma SchemaRollsNoCode(w: World, o: Oracle, s: Session, t: Session, e: Event)
    requires EndsLate(w, o) && s == Assessment(w, o) && t == Equipped(w, o) && !RunsCodeUpdate(t)
    requires e in Log(w, o)
    ensures !RollsCode(e)
  {
    hide Log, Assessment, Equipped, Reconciled, ReleaseId, RunsSchemaUpdate, EndsLate, RunsCodeUpdate, UpsertRelease,
      Middle;
    var i :| 0 <= i < |Log(w, o)| && Log(w, o)[i] == e;
    if !e.StatusWritten? {
      LateEvent(w, o, s, t, i);
      if Middle(w, o, s, e) {
        MiddleIsQuiet(w, o, s, e);
      }
    }
  }

  /** At the time of run-updb, a readable deployment is at the release of the spec, and that release is not in doubt. */
  lemma SchemaUpdateAtRelease(w: World, o: Oracle, i: nat)
    requires i < |Log(w, o)| && IsUpdb(Log(w, o)[i])
    requires CodeReadable(w, o) && w.deploy.value.created
    ensures w.site.status.failsafe == "" || w.site.status.failsafe == w.site.status.current
    ensures
      var before := After(w, Log(w, o)[..i]).deploy;
      before.Some? && before.value.ReleaseOf() == ReleaseId(w.site.spec)
  {
    hide Log, Assessment, Equipped, Reconciled, ReleaseId, RunsSchemaUpdate, RunsCodeUpdate, Decided, Ensured, Perform,
      Middle, Early, Late, InMiddle, InLate, Moves, Observed, ToAssess, CodeBehind, After, Execute, StoppedLate;
    SchemaReconcile(w, o, i);
    var s, t := Assessment(w, o), Equipped(w, o);
    SchemaNeeds(w, o, s, t);
    EnsuredIsMiddle(w, o, s, t);
    NoUpdbBefore(w, o, s, t);
    MiddleSite(w, o, s, t);
    DecidedKeeps(w, o, s);
    LogOfPerform(w, o);
    SchemaShape(t, o, i);
    NotBehind(w, s);
    EnsureKeepsSpecRelease(w, o, s, t);
    EnsuredInLate(w, o, s, t);
    ExecuteLate(w, o, s, t, t, TakeBackup, o.backup);
    var a := Execute(t, TakeBackup, o.backup);
    InLateSite(w, o, s, t, a);
    assert Coherent(w, a) by { InLateCoherent(w, o, s, t, a); }
    NeededKeepsFailsafe(w, o, s);
  }

  lemma InLateCoherent(w: World, o: Oracle, s: Session, t: Session, u: Session)
    requires InLate(w, o, s, t, u)
    ensures Coherent(w, u)
  {
  }

  lemma NeededKeepsFailsafe(w: World, o: Oracle, s: Session)
    requires Decided(w, o, s)
    ensures s.site.status.failsafe == w.site.status.failsafe && s.site.status.current == w.site.status.current
  {
    hide Coherent, MergeClone, ReleaseId, InStep, Assessed;
  }
}
