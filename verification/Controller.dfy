// The reconciler: the sections of a reconcile in the order of the source, each proved against its function.
module Controller {
  import opened Kube
  import opened DrupalSites
  import opened Deployments
  import opened DeploymentLaws
  import opened Workflow
  import opened Pods
  import opened Clusters

  /** Asking the pod changes nothing but the log. */
  lemma AskInstalledKeeps(s: Session, o: Oracle)
    ensures AskInstalled(s, o) == s.(log := AskInstalled(s, o).log)
  {
    hide ReleaseId, ExecPod;
  }

  /** A status whose fields are the observed ones is the observed status. */
  lemma StatusObserved(site: Site, st: Status, o: Oracle, ready: bool, initialized: bool, primary: Option<string>)
    requires st == site.status.(current := st.current, conditions := st.conditions, webhookURL := st.webhookURL,
      isPrimary := st.isPrimary)
    requires st.current == ReleaseId(site.spec)
    requires st.conditions == ObservedConditions(site.status.conditions, ready, initialized,
      site.status.failsafe == ReleaseId(site.spec))
    requires st.webhookURL == if |site.spec.extraConfigurationRepo| > 0 then o.webhookURL else site.status.webhookURL
    requires st.isPrimary == if primary.Some? then site.name == primary.value else site.status.isPrimary
    ensures st == ObservedStatus(site, o, ready, initialized, primary)
  {
    hide ReleaseId, ObservedConditions;
  }

  /** The configuration depends on the spec only. */
  lemma ConfigReadsSpec(s: Session, t: Session, o: Oracle)
    requires s.site.spec == t.site.spec
    ensures ConfigOf(s, o) == ConfigOf(t, o)
  {
  }

  lemma NoReplicas(s: Session, o: Oracle)
    ensures !o.namespace.NamespaceFound? ==> Replicas(s, o).None?
  {
  }

  /** The replicas section by its four outcomes. */
  lemma SyncReplicasCases(s: Session, o: Oracle)
    ensures
      var t := s.(site := s.site.(status :=
        if Replicas(s, o).Some? then s.site.status.(expectedReplicas := Replicas(s, o)) else s.site.status));
      Workflow.SyncReplicas(s, o) ==
        if o.namespace.NamespaceMissing? then Stop(s, Requeued)
        else if o.namespace.NamespaceFailed? || (Replicas(s, o).Some? && o.overrideReadFails) then Transient(t, o)
        else if Replicas(s, o).None? || s.site.status.expectedReplicas != Replicas(s, o) then WriteStatus(t, o)
        else Go(t)
  {
    hide Transient, WriteStatus, ExpectedReplicas;
  }

  lemma NoVersionUpdate(s: Session, o: Oracle)
    ensures !RunsCodeUpdate(s) ==> Workflow.UpdateVersion(s, o) == Go(s)
  {
  }

  lemma NoSchemaUpdate(s: Session, o: Oracle)
    ensures !RunsSchemaUpdate(s) ==> Workflow.UpdateSchema(s, o) == Go(s)
  {
  }

  /** The first sections of a reconcile of a live site. */
  function ObservedFlow(s: Session, o: Oracle): Flow {
    match InitSpec(s, o) case Stop(t, r) => Stop(t, r) case Go(s1) =>
    match SyncStatus(s1, o) case Stop(t, r) => Stop(t, r) case Go(s2) =>
    match Proclaim(s2, o) case Stop(t, r) => Stop(t, r) case Go(s3) =>
    SyncBackups(s3, o)
  }

  /** The other sections. */
  function ActedFlow(s: Session, o: Oracle): Flow {
    match Assess(s, o) case Stop(t, r) => Stop(t, r) case Go(s1) =>
    match Ensure(s1, o) case Stop(t, r) => Stop(t, r) case Go(s2) =>
    Perform(s2, o)
  }

  /** All sections of a reconcile of a live site. */
  function LiveFlow(s: Session, o: Oracle): Flow {
    match ObservedFlow(s, o) case Stop(t, r) => Stop(t, r) case Go(s1) => ActedFlow(s1, o)
  }

  /** A reconcile is its sections one after the other, unless it ends before the first. */
  lemma ReconciledBySections(w: World, o: Oracle)
    ensures
      var f := Reconciled(w, o);
      if o.siteReadFails then f == Stop(Begin(w), Errored)
      else if w.gone then f == Stop(Begin(w), Finished)
      else if w.site.meta.deleting then f == if w.site.meta.finalizer then Cleanup(Begin(w), o)
        else Stop(Begin(w), Finished)
      else if w.site.meta.paused then f == Stop(Begin(w), Finished)
      else f == LiveFlow(Begin(w), o)
  {
    hide InitSpec, SyncStatus, Proclaim, SyncBackups, Assess, Ensure, Perform, Cleanup;
  }

  /** A cleanup by its three ends: the primary site is kept, the schedule is kept, or the finalizer goes. */
  lemma CleanupByEnds(s: Session, o: Oracle)
    ensures
      var named := ConfigRead(s.world, o) == Some(s.site.name);
      named && o.configWrite != Accepted ==> Workflow.Cleanup(s, o) == Stop(s, Errored)
    ensures
      var named := ConfigRead(s.world, o) == Some(s.site.name);
      var t := if named then Emit(s, ConfigWritten("")) else s;
      !(named && o.configWrite != Accepted)
        && (o.scheduleCall.readFails || (t.world.schedule && o.scheduleCall.write != Accepted)) ==>
        Workflow.Cleanup(s, o) == Stop(t, Errored)
    ensures
      var named := ConfigRead(s.world, o) == Some(s.site.name);
      var t := if named then Emit(s, ConfigWritten("")) else s;
      var u := if t.world.schedule then Emit(t, ScheduleDeleted) else t;
      !(named && o.configWrite != Accepted)
        && !(o.scheduleCall.readFails || (t.world.schedule && o.scheduleCall.write != Accepted)) ==>
        Workflow.Cleanup(s, o) == WriteSite(u.(site := u.site.(meta := u.site.meta.(finalizer := false))), o)
  {
    hide WriteSite, ConfigRead, Emit;
  }

  class DrupalSiteReconciler {
    const client: Cluster

    constructor (client: Cluster)
      ensures this.client == client
    {
      this.client := client;
    }

    /** The reconcile in progress: the stored objects, the site in memory, the events, and the local flags. */
    ghost function Now(d: DrupalSite, flagged: bool, code: bool, db: bool): Session
      reads client, d
    {
      Session(client.world, d.View(), client.log, flagged, code, db)
    }

    /** The reconcile has come as far as `f`: it goes on in the same state, or ends with the same writes. */
    ghost predicate Reached(f: Flow, done: Option<Outcome>, d: DrupalSite, flagged: bool, code: bool, db: bool)
      reads client, d
    {
      match f
      case Stop(t, outcome) => done == Some(outcome) && client.world == t.world && client.log == t.log
      case Go(t) => done == None && Now(d, flagged, code, db) == t
    }

    // ---------------------------------------------------------------- 1. finalizer and spec

    /**
     * Finalizer, password, clone source and default release; reports whether the spec must be written, or the error.
     */
    method EnsureSpecFinalizer(d: DrupalSite, o: Oracle) returns (update: bool, error: Option<string>)
      modifies d
      ensures error == if old(d.spec).cloneFrom == "" || o.clone.SourceFound? then None
                       else if o.clone.SourceMissing? then Some(ERR_INVALID_SPEC) else Some(ERR_CLIENT_K8S)
      ensures d.status == old(d.status)
      ensures error.None? ==> d.View() == CompleteSpec(old(d.View()), o) && (update <==> SpecIncomplete(old(d.View())))
    {
      update := false;
      if !d.meta.finalizer {
        d.meta := d.meta.(finalizer := true);
        update := true;
      }
      if d.spec.webDAVPassword == "" {
        d.spec := d.spec.(webDAVPassword := o.randomPassword);
        update := true;
      }
      if d.spec.cloneFrom != "" {
        match o.clone {
          case SourceMissing => return false, Some(ERR_INVALID_SPEC);
          case SourceFailed => return false, Some(ERR_CLIENT_K8S);
          case SourceFound(repo) =>
            if repo != "" && d.spec.extraConfigurationRepo == "" {
              d.spec := d.spec.(extraConfigurationRepo := repo);
            }
        }
      }
      if |d.spec.releaseSpec| == 0 {
        d.spec := d.spec.(releaseSpec := o.defaultRelease);
        update := true;
      }
      return update, None;
    }

    method InitSpec(d: DrupalSite, o: Oracle, ghost flagged: bool, ghost code: bool, ghost db: bool)
      returns (done: Option<Outcome>)
      modifies client, d
      ensures client.past == old(client.past) && (done.None? ==> client.world == old(client.world))
      ensures Reached(Workflow.InitSpec(old(Now(d, flagged, code, db)), o), done, d, flagged, code, db)
    {
      hide CompleteSpec, SpecIncomplete;
      var update, error := EnsureSpecFinalizer(d, o);
      var outcome;
      if error.Some? {
        var _ := d.SetCondition(Error, True, error.value);
        outcome := client.UpdateStatus(d, o.siteWrite);
        return Some(outcome);
      } else if update {
        outcome := client.Update(d, o.siteWrite);
        return Some(outcome);
      }
      if !o.specValid {
        var _ := d.SetCondition(Error, True, ERR_INVALID_SPEC);
        outcome := client.UpdateStatus(d, o.siteWrite);
        return Some(outcome);
      }
      return None;
    }

    // ---------------------------------------------------------------- 2. conditions

    method IsDrupalSiteReady(readFails: bool) returns (ready: bool)
      ensures ready == ServerReady(client.world, readFails)
    {
      ready := false;
      if !readFails && client.world.deploy.Some? {
        if client.world.readyReplicas != 0 {
          ready := true;
        }
      }
    }

    method IsDBODProvisioned(readFails: bool) returns (provisioned: bool)
      ensures provisioned == (client.world.dbod && !readFails)
    {
      if readFails {
        return false;
      }
      return client.world.dbod;
    }

    /** Asks the pod whether the site is installed. */
    method IsDrupalSiteInstalled(d: DrupalSite, o: Oracle) returns (installed: bool)
      modifies client`log
      ensures installed == (ServerReady(client.world, o.installedReadFails)
        && ExecOutput(o.checkInstalled, ReleaseId(d.spec)).Some?)
      ensures client.log == old(client.log)
        + if ServerReady(client.world, o.installedReadFails) && ExecPod(o.checkInstalled, ReleaseId(d.spec)).Some? then
            [Executed(CheckInstalled, ExecPod(o.checkInstalled, ReleaseId(d.spec)).value, o.checkInstalled.output)]
              else []
    {
      hide ReleaseId, ExecPod;
      var ready := IsDrupalSiteReady(o.installedReadFails);
      if !ready {
        return false;
      }
      var output := client.ExecToServerPod(CheckInstalled, o.checkInstalled, ReleaseId(d.spec));
      return output.Some?;
    }

    method ObserveReady(d: DrupalSite, o: Oracle) returns (update: bool)
      modifies d`status
      ensures d.status == old(d.status).(
        conditions := old(d.status).conditions.(ready := TruthOf(FoundReady(client.world, o))))
      ensures update <==> d.status.conditions.ready != old(d.status).conditions.ready
    {
      var ready := IsDrupalSiteReady(o.readyReadFails);
      var provisioned := IsDBODProvisioned(o.dbod0Fails);
      if ready && provisioned {
        update := d.SetCondition(Ready, True, "");
      } else {
        update := d.SetCondition(Ready, False, "");
      }
    }

    /** A site found installed, cloned or restored is initialized for good. */
    method ObserveInitialized(d: DrupalSite, o: Oracle, ghost s: Session) returns (update: bool)
      requires s.world == client.world && s.log == client.log && s.site.spec == d.spec
      requires s.site.status.conditions.initialized == d.status.conditions.initialized
      modifies client`log, d`status
      ensures client.log == AskInstalled(s, o).log
      ensures d.status == old(d.status).(conditions := old(d.status).conditions.(initialized :=
        if s.site.Is(Initialized) then old(d.status).conditions.initialized else TruthOf(FoundInitialized(s, o))))
      ensures update <==> d.status.conditions.initialized != old(d.status).conditions.initialized
    {
      hide ReleaseId, ExecPod, ExecOutput, ServerReady;
      update := false;
      if !d.ConditionTrue(Initialized) {
        var installed := IsDrupalSiteInstalled(d, o);
        if installed || o.cloneJobDone || o.easystartDone {
          update := d.SetCondition(Initialized, True, "");
        } else {
          update := d.SetCondition(Initialized, False, "");
        }
      }
    }

    /** Back at the failsafe release, failures are lifted. */
    method LiftFailures(d: DrupalSite) returns (update: bool)
      modifies d`status
      ensures
        var c := old(d.status).conditions;
        var restored := old(d.status).failsafe == ReleaseId(d.spec);
        d.status == old(d.status).(conditions := c.(
          codeUpdateFailed := if restored then Lift(c.codeUpdateFailed) else c.codeUpdateFailed,
          dbUpdatesFailed := if restored then Lift(c.dbUpdatesFailed) else c.dbUpdatesFailed))
      ensures update <==>
        || d.status.conditions.codeUpdateFailed != old(d.status).conditions.codeUpdateFailed
        || d.status.conditions.dbUpdatesFailed != old(d.status).conditions.dbUpdatesFailed
    {
      hide ReleaseId;
      update := false;
      if d.status.failsafe == ReleaseId(d.spec) {
        if d.ConditionTrue(CodeUpdateFailed) {
          update := d.RemoveCondition(CodeUpdateFailed);
        }
        if d.ConditionTrue(DBUpdatesFailed) {
          var changed := d.RemoveCondition(DBUpdatesFailed);
          update := changed || update;
        }
      }
    }

    /** Whether the project config names this site. */
    method CheckIfPrimary(d: DrupalSite, primary: Option<string>) returns (update: bool)
      modifies d`status
      ensures d.status == old(d.status).(isPrimary := if primary.Some? then d.name == primary.value
        else old(d.status).isPrimary)
      ensures update <==> d.status.isPrimary != old(d.status).isPrimary
    {
      update := false;
      if primary.Some? {
        if (d.name == primary.value) != d.status.isPrimary {
          d.status := d.status.(isPrimary := d.name == primary.value);
          update := true;
        }
      }
    }

    /** A site with extra configuration has a webhook, whose address is recorded. */
    method ObserveWebhook(d: DrupalSite, url: string) returns (update: bool)
      modifies d`status
      ensures d.status == old(d.status).(webhookURL := if |d.spec.extraConfigurationRepo| > 0 then url
        else old(d.status).webhookURL)
      ensures update <==> d.status.webhookURL != old(d.status).webhookURL
    {
      update := false;
      if |d.spec.extraConfigurationRepo| > 0 {
        if d.status.webhookURL != url {
          d.status := d.status.(webhookURL := url);
          update := true;
        }
      }
    }

    /** The release and the conditions, as observed. */
    method ObserveConditions(d: DrupalSite, o: Oracle, ghost s: Session) returns (update: bool)
      requires s.world == client.world && s.log == client.log && s.site == d.View()
      modifies client`log, d`status
      ensures client.log == AskInstalled(s, o).log
      ensures d.status == old(d.status).(
        current := ReleaseId(d.spec),
        conditions := ObservedConditions(old(d.status).conditions, FoundReady(s.world, o), FoundInitialized(s, o),
          old(d.status).failsafe == ReleaseId(d.spec)))
      ensures update <==> d.status != old(d.status)
    {
      hide ReleaseId, AskInstalled, FoundInitialized, FoundReady, Lift;
      update := false;
      if d.status.current != ReleaseId(d.spec) {
        d.status := d.status.(current := ReleaseId(d.spec));
        update := true;
      }
      var changed := ObserveReady(d, o);
      update := changed || update;
      changed := ObserveInitialized(d, o, s);
      update := changed || update;
      changed := LiftFailures(d);
      update := changed || update;
    }

    /** The status as observed, and whether it differs from the recorded one. */
    method ObserveStatus(d: DrupalSite, primary: Option<string>, o: Oracle, ghost s: Session) returns (update: bool)
      requires s.world == client.world && s.log == client.log && s.site == d.View()
      requires primary == ConfigRead(client.world, o)
      modifies client`log, d`status
      ensures client.log == AskInstalled(s, o).log
      ensures d.status == NewStatus(s, o)
      ensures update <==> NewStatus(s, o) != s.site.status
    {
      hide ReleaseId, AskInstalled, FoundInitialized, FoundReady, ConfigRead, ObservedConditions, ObservedStatus;
      update := ObserveConditions(d, o, s);
      var changed := ObserveWebhook(d, o.webhookURL);
      update := changed || update;
      changed := CheckIfPrimary(d, primary);
      update := changed || update;
      StatusObserved(s.site, d.status, o, FoundReady(s.world, o), FoundInitialized(s, o), primary);
    }

    method SyncStatus(d: DrupalSite, primary: Option<string>, o: Oracle, ghost flagged: bool, ghost code: bool,
        ghost db: bool)
      returns (done: Option<Outcome>)
      requires primary == ConfigRead(client.world, o)
      modifies client, d
      ensures client.past == old(client.past) && (done.None? ==> client.world == old(client.world))
      ensures Reached(Workflow.SyncStatus(old(Now(d, flagged, code, db)), o), done, d, flagged, code, db)
    {
      hide NewStatus, AskInstalled;
      ghost var s := Now(d, flagged, code, db);
      AskInstalledKeeps(s, o);
      var update := ObserveStatus(d, primary, o, s);
      if update {
        var outcome := client.UpdateStatus(d, o.siteWrite);
        return Some(outcome);
      }
      return None;
    }

    /** The only site of a project without a primary site proclaims itself. */
    method ProclaimPrimarySite(d: DrupalSite, primary: Option<string>, o: Oracle, raised: bool, ghost code: bool,
        ghost db: bool)
      returns (done: Option<Outcome>, flagged: bool)
      requires primary == ConfigRead(client.world, o)
      modifies client, d
      ensures client.past == old(client.past)
      ensures Reached(Workflow.Proclaim(old(Now(d, raised, code, db)), o), done, d, flagged, code, db)
    {
      if o.configReadFails {
        return Some(Panicked), raised;
      }
      flagged := raised;
      if primary.Some? && o.sitesInProject.Some? && o.sitesInProject.value <= 1 && primary.value == "" {
        var _ := CheckIfPrimary(d, Some(d.name));
        var ok := client.UpdateProjectConfig(d.name, o.configWrite);
        if !ok {
          flagged := true;
        }
      }
      return None, flagged;
    }

    method CheckNewBackups(d: DrupalSite, o: Oracle, ghost flagged: bool, ghost code: bool, ghost db: bool)
      returns (done: Option<Outcome>)
      modifies client, d
      ensures client.past == old(client.past)
      ensures Reached(Workflow.SyncBackups(old(Now(d, flagged, code, db)), o), done, d, flagged, code, db)
    {
      if o.backups.None? {
        return Some(if client.world.primary.Some? && o.sitesInProject.None? then Errored else Panicked);
      }
      if |o.backups.value| != |d.status.backups| {
        d.status := d.status.(backups := o.backups.value);
        var outcome := client.UpdateStatus(d, o.siteWrite);
        return Some(outcome);
      }
      return None;
    }

    // ---------------------------------------------------------------- 2.1 is an update needed?

    method CodeUpdateNeeded(d: DrupalSite, o: Oracle) returns (needed: bool, failed: bool)
      ensures failed <==> !CodeReadable(client.world, o)
      ensures needed <==> CodeReadable(client.world, o) && CodeBehind(client.world, d.View())
    {
      hide ReleaseId;
      if o.codeReadFails || client.world.deploy.None? {
        return false, true;
      }
      var deployment := client.world.deploy.value;
      if deployment.ReleaseOf() != ReleaseId(d.spec)
        || (|d.status.failsafe| > 0 && d.status.failsafe != d.status.current) {
        return true, false;
      }
      return false, false;
    }

    method DbUpdateNeeded(d: DrupalSite, x: Exec) returns (needed: bool, failed: bool)
      modifies client`log
      ensures
        var out := ExecOutput(x, ReleaseId(d.spec));
        (needed <==> out.Some? && out.value != "") && (failed <==> out.None?)
      ensures if ExecPod(x, ReleaseId(d.spec)).Some? then
        client.Does(Executed(CheckUpdb, ExecPod(x, ReleaseId(d.spec)).value, x.output)) else client.Idle()
    {
      hide ReleaseId, ExecPod;
      var output := client.ExecToServerPod(CheckUpdb, x, ReleaseId(d.spec));
      if output.None? {
        return false, true;
      }
      return output.value != "", false;
    }

    /** Schema updates are looked for only when the code update is over. */
    method ComputeNeeds(d: DrupalSite, o: Oracle, raised: bool) returns (flagged: bool, code: bool, db: bool)
      modifies client`log
      ensures client.past == old(client.past)
      ensures Now(d, flagged, code, db) == Workflow.ComputeNeeds(old(Now(d, raised, false, false)), o)
    {
      hide ReleaseId, ExecPod, CodeReadable, CodeBehind;
      flagged, code, db := raised, false, false;
      if d.ConditionTrue(Ready) && d.ConditionTrue(Initialized) && !d.ConditionTrue(CodeUpdateFailed) {
        var failed;
        code, failed := CodeUpdateNeeded(d, o);
        flagged := flagged || failed;
        if !code {
          db, failed := DbUpdateNeeded(d, o.checkUpdb);
          flagged := flagged || failed;
        }
      }
    }

    /** The annotation follows the need. */
    method SyncAnnotation(d: DrupalSite, o: Oracle, ghost flagged: bool, code: bool, db: bool)
      returns (done: Option<Outcome>)
      modifies client, d
      ensures client.past == old(client.past)
      ensures Reached(Workflow.SyncAnnotation(old(Now(d, flagged, code, db)), o), done, d, flagged, code, db)
    {
      if d.ConditionTrue(Ready) && d.ConditionTrue(Initialized) && !d.ConditionTrue(CodeUpdateFailed) {
        var changed;
        if code || db {
          changed := d.SetUpdateInProgress();
        } else {
          changed := d.UnsetUpdateInProgress();
        }
        if changed {
          var outcome := client.Update(d, o.siteWrite);
          return Some(outcome);
        }
      }
      return None;
    }

    method SyncPending(d: DrupalSite, o: Oracle, ghost flagged: bool, ghost code: bool, db: bool)
      returns (done: Option<Outcome>)
      modifies client, d
      ensures client.past == old(client.past)
      ensures Reached(Workflow.SyncPending(old(Now(d, flagged, code, db)), o), done, d, flagged, code, db)
    {
      if d.ConditionTrue(Ready) && d.ConditionTrue(Initialized) && !d.ConditionTrue(CodeUpdateFailed) {
        var changed;
        if db {
          changed := d.SetCondition(DBUpdatesPending, True, "");
        } else {
          changed := d.RemoveCondition(DBUpdatesPending);
        }
        if changed {
          var outcome := client.UpdateStatus(d, o.siteWrite);
          return Some(outcome);
        }
      }
      return None;
    }

    method CloseFailed(d: DrupalSite, o: Oracle, ghost flagged: bool, ghost code: bool, ghost db: bool)
      returns (done: Option<Outcome>)
      modifies client, d
      ensures client.past == old(client.past)
      ensures Reached(Workflow.CloseFailed(old(Now(d, flagged, code, db)), o), done, d, flagged, code, db)
    {
      if d.ConditionTrue(CodeUpdateFailed) {
        var changed := d.UnsetUpdateInProgress();
        var outcome;
        if changed {
          outcome := client.Update(d, o.siteWrite);
          return Some(outcome);
        }
        changed := d.SetCondition(DBUpdatesPending, Unknown, "");
        if changed {
          outcome := client.UpdateStatus(d, o.siteWrite);
          return Some(outcome);
        }
      }
      return None;
    }

    method AssessUpdate(d: DrupalSite, o: Oracle, raised: bool)
      returns (done: Option<Outcome>, flagged: bool, code: bool, db: bool)
      modifies client, d
      ensures client.past == old(client.past)
      ensures Reached(Workflow.Assess(old(Now(d, raised, false, false)), o), done, d, flagged, code, db)
    {
      hide Workflow.ComputeNeeds, Workflow.SyncAnnotation, Workflow.SyncPending, Workflow.CloseFailed;
      flagged, code, db := ComputeNeeds(d, o, raised);
      done := SyncAnnotation(d, o, flagged, code, db);
      if done.Some? {
        return;
      }
      done := SyncPending(d, o, flagged, code, db);
      if done.Some? {
        return;
      }
      done := CloseFailed(d, o, flagged, code, db);
    }

    // ---------------------------------------------------------------- 3. resources

    /** Writes the status; the error that should bring the controller back is lost. */
    method HandleTransientErr(d: DrupalSite, notReady: Option<string>, o: Oracle) returns (outcome: Outcome)
      modifies client, d
      ensures d.View() == if notReady.Some? then WithCondition(old(d.View()), Ready, Present(False, notReady.value))
        else old(d.View())
      ensures if o.siteWrite == Accepted then client.Does(StatusWritten(d.status)) else client.Idle()
      ensures outcome == Finished
    {
      if notReady.Some? {
        var _ := d.SetCondition(Ready, False, notReady.value);
      }
      var _ := client.UpdateStatus(d, o.siteWrite);
      return Finished;
    }

    /** Replicas and resources of the server; an error is temporary or permanent. */
    method GetDeploymentConfiguration(d: DrupalSite, o: Oracle, ghost s: Session)
      returns (config: Config, requeue: bool, updateStatus: bool, temporary: Option<bool>)
      requires s.site == d.View()
      modifies d`status
      ensures requeue <==> o.namespace.NamespaceMissing?
      ensures temporary ==
        if o.namespace.NamespaceFailed? then Some(true)
        else if o.namespace.NamespaceMissing? then None
        else if Replicas(s, o).None? then Some(false)
        else if o.overrideReadFails then Some(true) else None
      ensures d.status == if Replicas(s, o).Some? then s.site.status.(expectedReplicas := Replicas(s, o))
        else s.site.status
      ensures temporary.None? && !requeue ==>
        config == ConfigOf(s, o) && (updateStatus <==> s.site.status.expectedReplicas != Replicas(s, o))
    {
      config, requeue, updateStatus, temporary := o.resources, false, false, None;
      match o.namespace {
        case NamespaceMissing => requeue := true;
        case NamespaceFailed => temporary := Some(true);
        case NamespaceFound(timestamp, reason) =>
          var replicas := ExpectedReplicas(timestamp, reason, d.spec.qos);
          if replicas.None? {
            temporary := Some(false);
            return;
          }
          if d.status.expectedReplicas != replicas {
            d.status := d.status.(expectedReplicas := replicas);
            updateStatus := true;
          }
          if o.overrideReadFails {
            temporary := Some(true);
            return;
          }
          config := config.(replicas := replicas.value);
      }
    }

    method EnsureConfiguration(d: DrupalSite, o: Oracle, ghost flagged: bool, ghost code: bool, ghost db: bool)
      returns (done: Option<Outcome>, config: Config)
      modifies client, d
      ensures client.past == old(client.past) && d.spec == old(d.spec)
      ensures Reached(Workflow.SyncReplicas(old(Now(d, flagged, code, db)), o), done, d, flagged, code, db)
      ensures done.None? ==> config == ConfigOf(Now(d, flagged, code, db), o)
    {
      hide ConfigOf, Replicas, Workflow.SyncReplicas;
      ghost var s := Now(d, flagged, code, db);
      SyncReplicasCases(s, o);
      NoReplicas(s, o);
      var requeue, updateStatus, temporary;
      config, requeue, updateStatus, temporary := GetDeploymentConfiguration(d, o, s);
      done := None;
      if temporary == Some(true) {
        var outcome := HandleTransientErr(d, None, o);
        done := Some(outcome);
      } else if temporary.Some? {
        var outcome := client.UpdateStatus(d, o.siteWrite);
        done := Some(outcome);
      } else if requeue {
        done := Some(Requeued);
      } else if updateStatus {
        var outcome := client.UpdateStatus(d, o.siteWrite);
        done := Some(outcome);
      }
      ConfigReadsSpec(s, Now(d, flagged, code, db), o);
    }

    /** The ordinary update of the server, which stands back during updates and after failures. */
    method EnsureDrupalDeployment(d: DrupalSite, config: Config, o: Oracle, ghost flagged: bool, ghost code: bool,
        ghost db: bool)
      returns (failed: bool)
      requires client.world.dbod && !o.dbod1Fails && config == ConfigOf(Now(d, flagged, code, db), o)
      modifies client
      ensures client.past == old(client.past)
      ensures
        var r := EnsureUpsert(old(Now(d, flagged, code, db)), o);
        failed == r.Refused? && Now(d, flagged, code, db) == Record(old(Now(d, flagged, code, db)), ByResources, r)
    {
      hide Apply, ReleaseId, ConfigOf;
      if !o.ensureReadFails && client.world.deploy.Some?
        && (d.meta.updateInProgress == IN_PROGRESS || d.ConditionTrue(CodeUpdateFailed)
          || d.ConditionTrue(DBUpdatesFailed))
      {
        return false;
      }
      var r := client.UpsertSiteDeployment(d.View(), ReleaseId(d.spec), config, o.ensureCall, ByResources);
      return r.Refused?;
    }

    method EnsureServer(d: DrupalSite, config: Config, o: Oracle, ghost flagged: bool, ghost code: bool, ghost db: bool)
      returns (failed: bool)
      requires config == ConfigOf(Now(d, flagged, code, db), o)
      modifies client
      ensures client.past == old(client.past)
      ensures
        var r := EnsureUpsert(old(Now(d, flagged, code, db)), o);
        failed == r.Refused? && Now(d, flagged, code, db) == Record(old(Now(d, flagged, code, db)), ByResources, r)
    {
      hide UpsertRelease, StandsBack, ConfigOf;
      var provisioned := IsDBODProvisioned(o.dbod1Fails);
      failed := false;
      if provisioned {
        failed := EnsureDrupalDeployment(d, config, o, flagged, code, db);
      }
    }

    /** A new site is filled in one of three ways. */
    method EnsureInitialization(d: DrupalSite, o: Oracle, ghost flagged: bool, ghost code: bool, ghost db: bool)
      returns (failed: bool)
      modifies client
      ensures client.past == old(client.past)
      ensures failed == JobFails(old(Now(d, flagged, code, db)), o)
      ensures Now(d, flagged, code, db) == Workflow.EnsureJob(old(Now(d, flagged, code, db)), o)
    {
      var provisioned := IsDBODProvisioned(o.dbod2Fails);
      failed := false;
      if provisioned && !d.ConditionTrue(Initialized) {
        if d.spec.cloneFrom != "" {
          failed := client.EnsureJob(CloneJob, o.jobCall);
        } else if d.spec.easystart == "enable" {
          failed := client.EnsureJob(EasystartTask, o.jobCall);
        } else {
          failed := client.EnsureJob(InstallJob, o.jobCall);
        }
      }
    }

    method EnsureSchedule(d: DrupalSite, o: Oracle, ghost flagged: bool, ghost code: bool, ghost db: bool)
      returns (failed: bool)
      modifies client
      ensures client.past == old(client.past)
      ensures failed == ScheduleFails(old(Now(d, flagged, code, db)), o)
      ensures Now(d, flagged, code, db) == Workflow.EnsureSchedule(old(Now(d, flagged, code, db)), o)
    {
      if d.ConditionTrue(Initialized) && (d.status.isPrimary || d.spec.scheduledBackups == "enabled") {
        failed := client.EnsureBackupSchedule(o.scheduleCall);
      } else {
        failed := client.EnsureNoBackupSchedule(o.scheduleCall);
      }
    }

    method EnsureResources(d: DrupalSite, config: Config, o: Oracle, ghost flagged: bool, ghost code: bool,
        ghost db: bool)
      returns (done: Option<Outcome>)
      requires config == ConfigOf(Now(d, flagged, code, db), o)
      modifies client, d
      ensures client.past == old(client.past) && d.spec == old(d.spec)
      ensures Reached(Workflow.EnsureResources(old(Now(d, flagged, code, db)), o), done, d, flagged, code, db)
    {
      hide EnsureUpsert, Record, Workflow.EnsureJob, JobFails, Workflow.EnsureSchedule, ScheduleFails, ConfigOf;
      var failed := o.otherResourcesFail;
      var serverFailed := EnsureServer(d, config, o, flagged, code, db);
      var jobFailed := EnsureInitialization(d, o, flagged, code, db);
      var scheduleFailed := EnsureSchedule(d, o, flagged, code, db);
      if failed || serverFailed || jobFailed || scheduleFailed {
        var outcome := HandleTransientErr(d, Some(ERR_CLIENT_K8S), o);
        return Some(outcome);
      }
      return None;
    }

    method EnsureDeploymentConfigmapHash(d: DrupalSite, o: Oracle, ghost flagged: bool, ghost code: bool,
        ghost db: bool)
      returns (done: Option<Outcome>)
      modifies client, d
      ensures client.past == old(client.past) && d.spec == old(d.spec)
      ensures Reached(Workflow.EnsureHashes(old(Now(d, flagged, code, db)), o), done, d, flagged, code, db)
    {
      hide SetHashes;
      match o.configmaps {
        case ConfigmapMissing => return None;
        case ConfigmapFailed =>
          var outcome := HandleTransientErr(d, Some(ERR_CLIENT_K8S), o);
          return Some(outcome);
        case ConfigmapsFound(hashes) =>
          if client.world.deploy.None? {
            return None;
          }
          var r := client.UpsertHashes(hashes, o.hashCall);
          if r == Refused(true) {
            return Some(Requeued);
          } else if r.Refused? {
            var outcome := HandleTransientErr(d, Some(ERR_CLIENT_K8S), o);
            return Some(outcome);
          }
          return None;
      }
    }

    // ---------------------------------------------------------------- 4. database

    method CheckDatabase(d: DrupalSite, o: Oracle, ghost flagged: bool, ghost code: bool, ghost db: bool)
      returns (done: Option<Outcome>)
      modifies client, d
      ensures client.past == old(client.past) && d.spec == old(d.spec)
      ensures Reached(Workflow.CheckDatabase(old(Now(d, flagged, code, db)), o), done, d, flagged, code, db)
    {
      var provisioned := IsDBODProvisioned(o.dbod3Fails);
      if !provisioned {
        var changed := d.SetCondition(Ready, False, ERR_DBOD);
        if changed {
          var _ := client.UpdateStatus(d, o.siteWrite);
        }
        return Some(Requeued);
      }
      return None;
    }

    method EnsureAll(d: DrupalSite, o: Oracle, ghost flagged: bool, ghost code: bool, ghost db: bool)
      returns (done: Option<Outcome>, config: Config)
      modifies client, d
      ensures client.past == old(client.past)
      ensures Reached(Workflow.Ensure(old(Now(d, flagged, code, db)), o), done, d, flagged, code, db)
      ensures done.None? ==> config == ConfigOf(Now(d, flagged, code, db), o)
    {
      hide Workflow.SyncReplicas, Workflow.EnsureResources, Workflow.EnsureHashes, Workflow.CheckDatabase, ConfigOf;
      done, config := EnsureConfiguration(d, o, flagged, code, db);
      if done.Some? {
        return;
      }
      ghost var s := Now(d, flagged, code, db);
      done := EnsureResources(d, config, o, flagged, code, db);
      if done.Some? {
        return;
      }
      done := EnsureDeploymentConfigmapHash(d, o, flagged, code, db);
      if done.Some? {
        return;
      }
      done := CheckDatabase(d, o, flagged, code, db);
      ConfigReadsSpec(s, Now(d, flagged, code, db), o);
    }

    // ---------------------------------------------------------------- 5. updates

    method DidVersionRollOutSucceed(pods: Option<seq<Pod>>, release: string) returns (rollout: Rollout)
      ensures rollout == Broken <==>
        && pods.Some?
        && exists p :: FirstOf(pods.value, release, p)
             && (p.phase == Failed || p.phase == PhaseUnknown || (p.phase == Pending && p.age >= 600))
      ensures rollout == Waiting <==>
        || pods.None? || NoneOf(pods.value, release)
        || exists p :: FirstOf(pods.value, release, p) && p.phase == Pending && p.age < 600
      ensures rollout == RolledOut <==>
        pods.Some? && exists p :: FirstOf(pods.value, release, p) && (p.phase == Running || p.phase == Succeeded)
      ensures rollout == CheckRollout(pods, release)
    {
      RolloutFromPods(pods, release);
      if pods.None? {
        return Waiting;
      }
      var pod := Cluster.GetPodForVersion(pods.value, release);
      if pod.None? {
        return Waiting;
      }
      if pod.value.phase == Failed || pod.value.phase == PhaseUnknown {
        return Broken;
      }
      if pod.value.phase == Pending {
        if pod.value.age < GRACE_SECONDS {
          return Waiting;
        }
        return Broken;
      }
      return RolledOut;
    }

    /** Brings the deployment back to the failsafe release. */
    method RollBackCodeUpdate(d: DrupalSite, config: Config, o: Oracle, ghost flagged: bool, ghost code: bool,
        ghost db: bool)
      returns (refused: bool)
      requires config == ConfigOf(Now(d, flagged, code, db), o)
      modifies client
      ensures client.past == old(client.past)
      ensures refused == RollbackRefused(old(Now(d, flagged, code, db)), o)
      ensures Now(d, flagged, code, db) == RollBack(old(Now(d, flagged, code, db)), o)
    {
      hide Apply, ConfigOf, ReleaseId;
      ghost var s := Now(d, flagged, code, db);
      client.Note(RollbackStarted(d.status.failsafe));
      ConfigReadsSpec(s, Now(d, flagged, code, db), o);
      var r := client.UpsertSiteDeployment(d.View(), d.status.failsafe, config, o.rollbackCall, ByRollback);
      return r.Refused?;
    }

    /** Clears the caches, trying twice. */
    method ReloadCache(d: DrupalSite, o: Oracle, ghost flagged: bool, ghost code: bool, ghost db: bool)
      returns (output: Option<string>)
      modifies client`log
      ensures output == CacheOutput(old(Now(d, flagged, code, db)), o)
      ensures Now(d, flagged, code, db) == ClearCaches(old(Now(d, flagged, code, db)), o)
    {
      hide ReleaseId, ExecPod;
      output := client.ExecToServerPod(ClearCache, o.cache1, ReleaseId(d.spec));
      if output.None? {
        output := client.ExecToServerPod(ClearCache, o.cache2, ReleaseId(d.spec));
      }
    }

    /** What the caller of an update has to do about it. */
    ghost predicate Asks(f: Flow, update: bool, failed: bool, s: Session, o: Oracle) {
      f == if failed then Transient(s, o) else if update then WriteStatus(s, o) else Go(s)
    }

    /** The new pods run: the release is verified by clearing its caches. */
    method VerifyRollout(d: DrupalSite, config: Config, o: Oracle, ghost flagged: bool, ghost code: bool,
        ghost db: bool)
      returns (update: bool)
      requires
        && config == ConfigOf(Now(d, flagged, code, db), o)
        && CheckRollout(o.rolloutPods, ReleaseId(d.spec)) == RolledOut
      modifies client, d
      ensures client.past == old(client.past)
      ensures Asks(Workflow.FinishRollout(old(Now(d, flagged, code, db)), o), update, false,
        Now(d, flagged, code, db), o)
    {
      hide ConfigOf, ReleaseId, CheckRollout, RollBack, RollbackRefused, ClearCaches, CacheOutput, Transient,
        WriteStatus;
      ghost var s := Now(d, flagged, code, db);
      var output := ReloadCache(d, o, flagged, code, db);
      if output.None? {
        return true;
      }
      if output.value != "" {
        ConfigReadsSpec(s, Now(d, flagged, code, db), o);
        var _ := RollBackCodeUpdate(d, config, o, flagged, code, db);
        var _ := d.SetCondition(CodeUpdateFailed, True, ERR_CACHE);
        return true;
      }
      return false;
    }

    /** The new pods did not come up: the update has failed. */
    method AbandonRollout(d: DrupalSite, config: Config, o: Oracle, ghost flagged: bool, ghost code: bool,
        ghost db: bool)
      returns (update: bool, failed: bool)
      requires
        && config == ConfigOf(Now(d, flagged, code, db), o) && CheckRollout(o.rolloutPods, ReleaseId(d.spec)) == Broken
      modifies client, d
      ensures client.past == old(client.past)
      ensures Asks(Workflow.FinishRollout(old(Now(d, flagged, code, db)), o), update, failed,
        Now(d, flagged, code, db), o)
    {
      hide ConfigOf, ReleaseId, CheckRollout, RollBack, RollbackRefused, ClearCaches, CacheOutput, Transient,
        WriteStatus;
      ghost var s := Now(d, flagged, code, db);
      var _ := d.SetCondition(CodeUpdateFailed, True, ERR_DEPLOYMENT_UPDATE_FAILED);
      ConfigReadsSpec(s, Now(d, flagged, code, db), o);
      var refused := RollBackCodeUpdate(d, config, o, flagged, code, db);
      return !refused, refused;
    }

    /** The deployment is settled: its pods and caches decide between success, patience and rollback. */
    method FinishRollout(d: DrupalSite, config: Config, o: Oracle, ghost flagged: bool, ghost code: bool,
        ghost db: bool)
      returns (update: bool, failed: bool)
      requires config == ConfigOf(Now(d, flagged, code, db), o)
      modifies client, d
      ensures client.past == old(client.past)
      ensures Asks(Workflow.FinishRollout(old(Now(d, flagged, code, db)), o), update, failed,
        Now(d, flagged, code, db), o)
    {
      hide ConfigOf, ReleaseId, CheckRollout, RollBack, RollbackRefused, ClearCaches, CacheOutput, Transient,
        WriteStatus;
      var rollout := DidVersionRollOutSucceed(o.rolloutPods, ReleaseId(d.spec));
      match rollout {
        case Waiting => update, failed := false, true;
        case Broken => update, failed := AbandonRollout(d, config, o, flagged, code, db);
        case RolledOut =>
          update := VerifyRollout(d, config, o, flagged, code, db);
          failed := false;
      }
    }

    method UpdateDrupalVersion(d: DrupalSite, config: Config, o: Oracle, ghost flagged: bool, ghost code: bool,
        ghost db: bool)
      returns (update: bool, requeue: bool, failed: bool)
      requires config == ConfigOf(Now(d, flagged, code, db), o) && RunsCodeUpdate(Now(d, flagged, code, db))
      modifies client, d
      ensures client.past == old(client.past)
      ensures
        var f := Workflow.UpdateVersion(old(Now(d, flagged, code, db)), o);
        if requeue then f == Stop(Now(d, flagged, code, db), Requeued)
          else Asks(f, update, failed, Now(d, flagged, code, db), o)
    {
      hide ConfigOf, ReleaseId, Apply, Workflow.FinishRollout, Transient, WriteStatus;
      var r := client.UpsertSiteDeployment(d.View(), ReleaseId(d.spec), config, o.updateCall, ByUpdate);
      match r {
        case Refused(_) => return false, false, true;
        case Created(_) => return false, true, false;
        case Updated(_) => return false, true, false;
        case Unchanged =>
          requeue := false;
          update, failed := FinishRollout(d, config, o, flagged, code, db);
      }
    }

    method PerformCodeUpdate(d: DrupalSite, config: Config, o: Oracle, ghost flagged: bool, code: bool, ghost db: bool)
      returns (done: Option<Outcome>)
      requires config == ConfigOf(Now(d, flagged, code, db), o)
      modifies client, d
      ensures client.past == old(client.past)
      ensures Reached(Workflow.UpdateVersion(old(Now(d, flagged, code, db)), o), done, d, flagged, code, db)
    {
      hide ConfigOf, Workflow.UpdateVersion;
      NoVersionUpdate(Now(d, flagged, code, db), o);
      if d.meta.updateInProgress.Some? && code && !d.ConditionTrue(CodeUpdateFailed) {
        var update, requeue, failed := UpdateDrupalVersion(d, config, o, flagged, code, db);
        if requeue {
          return Some(Requeued);
        } else if failed {
          var outcome := HandleTransientErr(d, None, o);
          return Some(outcome);
        } else if update {
          var outcome := client.UpdateStatus(d, o.siteWrite);
          return Some(outcome);
        }
      }
      return None;
    }

    /** Runs a command for the release of the site. */
    method Exec(d: DrupalSite, c: Command, x: Exec, ghost flagged: bool, ghost code: bool, ghost db: bool)
      returns (output: Option<string>)
      modifies client`log
      ensures output == ExecOutput(x, ReleaseId(d.spec))
      ensures Now(d, flagged, code, db) == Execute(old(Now(d, flagged, code, db)), c, x)
    {
      hide ReleaseId, ExecPod;
      output := client.ExecToServerPod(c, x, ReleaseId(d.spec));
    }

    /** After a successful schema update its conditions go. */
    method CloseSchemaUpdate(d: DrupalSite) returns (update: bool)
      modifies d`status
      ensures d.View() == WithCondition(WithCondition(old(d.View()), DBUpdatesPending, Absent), DBUpdatesFailed, Absent)
      ensures update <==> d.View() != old(d.View())
    {
      update := d.RemoveCondition(DBUpdatesPending);
      var changed := d.RemoveCondition(DBUpdatesFailed);
      update := changed || update;
    }

    /** A backup, then the schema update; success removes the two conditions. */
    method UpdateDBSchema(d: DrupalSite, o: Oracle, ghost flagged: bool, ghost code: bool, ghost db: bool)
      returns (update: bool)
      requires RunsSchemaUpdate(Now(d, flagged, code, db))
      modifies client, d
      ensures client.past == old(client.past)
      ensures Asks(Workflow.UpdateSchema(old(Now(d, flagged, code, db)), o), update, false,
        Now(d, flagged, code, db), o)
    {
      hide ReleaseId, Execute, ExecOutput, WriteStatus, Transient;
      var output := Exec(d, TakeBackup, o.backup, flagged, code, db);
      if output.None? {
        var _ := d.SetCondition(DBUpdatesFailed, True, ERR_POD_EXEC);
        return true;
      }
      output := Exec(d, RunUpdb, o.runUpdb, flagged, code, db);
      if output.None? {
        var _ := d.SetCondition(DBUpdatesFailed, True, ERR_DB_UPDATE_FAILED);
        return true;
      }
      update := CloseSchemaUpdate(d);
    }

    method PerformSchemaUpdate(d: DrupalSite, o: Oracle, ghost flagged: bool, ghost code: bool, db: bool)
      returns (done: Option<Outcome>)
      modifies client, d
      ensures client.past == old(client.past)
      ensures Reached(Workflow.UpdateSchema(old(Now(d, flagged, code, db)), o), done, d, flagged, code, db)
    {
      hide Workflow.UpdateSchema;
      NoSchemaUpdate(Now(d, flagged, code, db), o);
      if d.meta.updateInProgress.Some? && db && !d.ConditionTrue(DBUpdatesFailed)
        && !d.ConditionTrue(CodeUpdateFailed) {
        var update := UpdateDBSchema(d, o, flagged, code, db);
        if update {
          var outcome := client.UpdateStatus(d, o.siteWrite);
          return Some(outcome);
        }
      }
      return None;
    }

    /** Records the release as the failsafe one, at first and after every successful update. */
    method UpdateFailsafe(d: DrupalSite, o: Oracle, flagged: bool, ghost code: bool, ghost db: bool)
      returns (outcome: Outcome)
      modifies client, d
      ensures client.past == old(client.past)
      ensures Reached(Workflow.AdvanceFailsafe(old(Now(d, flagged, code, db)), o), Some(outcome), d, flagged, code, db)
    {
      hide ReleaseId, SiteImage;
      if d.status.current != d.status.failsafe && !d.ConditionTrue(DBUpdatesFailed)
        && !d.ConditionTrue(CodeUpdateFailed) {
        ghost var before := d.View();
        d.status := d.status.(failsafe := ReleaseId(d.spec));
        ImageSame(before, d.View(), ReleaseId(d.spec), o.resources.flags);
        d.status := d.status.(servingPodImage := SiteImage(o.resources.flags, d.View(), ReleaseId(d.spec)));
        outcome := client.UpdateStatus(d, o.siteWrite);
        return;
      }
      return if flagged then Errored else Finished;
    }

    method PerformUpdates(d: DrupalSite, config: Config, o: Oracle, flagged: bool, code: bool, db: bool)
      returns (outcome: Outcome)
      requires config == ConfigOf(Now(d, flagged, code, db), o)
      modifies client, d
      ensures client.past == old(client.past)
      ensures Reached(Workflow.Perform(old(Now(d, flagged, code, db)), o), Some(outcome), d, flagged, code, db)
    {
      hide ConfigOf, Workflow.UpdateVersion, Workflow.UpdateSchema, Workflow.AdvanceFailsafe;
      var done := PerformCodeUpdate(d, config, o, flagged, code, db);
      if done.Some? {
        return done.value;
      }
      done := PerformSchemaUpdate(d, o, flagged, code, db);
      if done.Some? {
        return done.value;
      }
      outcome := UpdateFailsafe(d, o, flagged, code, db);
    }

    // ---------------------------------------------------------------- deletion

    /** A deleted primary site gives up its place. */
    method ResignPrimary(d: DrupalSite, primary: Option<string>, o: Oracle, ghost flagged: bool, ghost code: bool,
        ghost db: bool)
      returns (failed: bool)
      modifies client
      ensures client.past == old(client.past)
      ensures
        var s := old(Now(d, flagged, code, db));
        var named := primary == Some(d.name);
        && failed == (named && o.configWrite != Accepted)
        && Now(d, flagged, code, db) == if named && !failed then Emit(s, ConfigWritten("")) else s
    {
      failed := false;
      if primary.Some? && primary.value == d.name {
        var ok := client.UpdateProjectConfig("", o.configWrite);
        failed := !ok;
      }
    }

    method DropSchedule(d: DrupalSite, o: Oracle, ghost flagged: bool, ghost code: bool, ghost db: bool)
      returns (failed: bool)
      modifies client
      ensures client.past == old(client.past)
      ensures
        var s := old(Now(d, flagged, code, db));
        && failed == (o.scheduleCall.readFails || (s.world.schedule && o.scheduleCall.write != Accepted))
        && Now(d, flagged, code, db) == if s.world.schedule && !failed then Emit(s, ScheduleDeleted) else s
    {
      failed := client.EnsureNoBackupSchedule(o.scheduleCall);
    }

    /** Persists the in-memory site as the last step of a session. */
    method PersistSite(d: DrupalSite, o: Oracle, ghost u: Session) returns (outcome: Outcome)
      requires u.world == client.world && u.log == client.log
      modifies client
      ensures client.past == old(client.past)
      ensures
        var f := WriteSite(u.(site := old(d.View())), o);
        client.world == f.session.world && client.log == f.session.log && outcome == f.outcome
    {
      outcome := client.Update(d, o.siteWrite);
    }

    /** Gives up the primary site and the backup schedule, and lets the site go. */
    method CleanupDrupalSite(d: DrupalSite, primary: Option<string>, o: Oracle, ghost flagged: bool, ghost code: bool,
        ghost db: bool)
      returns (outcome: Outcome)
      requires primary == ConfigRead(client.world, o)
      modifies client, d
      ensures client.past == old(client.past)
      ensures Reached(Workflow.Cleanup(old(Now(d, flagged, code, db)), o), Some(outcome), d, flagged, code, db)
    {
      hide ConfigRead, Workflow.Cleanup, Emit;
      ghost var s := Now(d, flagged, code, db);
      CleanupByEnds(s, o);
      var failed := ResignPrimary(d, primary, o, flagged, code, db);
      if failed {
        return Errored;
      }
      failed := DropSchedule(d, o, flagged, code, db);
      if failed {
        return Errored;
      }
      ghost var u := Now(d, flagged, code, db);
      d.meta := d.meta.(finalizer := false);
      outcome := PersistSite(d, o, u);
    }

    // ---------------------------------------------------------------- the whole reconcile

    /** Sections 1 and 2, up to the question whether an update is needed. */
    method Observe(d: DrupalSite, primary: Option<string>, o: Oracle) returns (done: Option<Outcome>, flagged: bool)
      requires primary == ConfigRead(client.world, o)
      modifies client, d
      ensures client.past == old(client.past)
      ensures Reached(ObservedFlow(old(Now(d, false, false, false)), o), done, d, flagged, false, false)
    {
      hide Workflow.InitSpec, Workflow.SyncStatus, Workflow.Proclaim, Workflow.SyncBackups;
      flagged := false;
      done := InitSpec(d, o, false, false, false);
      if done.Some? {
        return;
      }
      done := SyncStatus(d, primary, o, false, false, false);
      if done.Some? {
        return;
      }
      done, flagged := ProclaimPrimarySite(d, primary, o, false, false, false);
      if done.Some? {
        return;
      }
      done := CheckNewBackups(d, o, flagged, false, false);
    }

    /** Sections 2.1 to 5. */
    method Act(d: DrupalSite, o: Oracle, raised: bool) returns (outcome: Outcome)
      modifies client, d
      ensures client.past == old(client.past)
      ensures Reached(ActedFlow(old(Now(d, raised, false, false)), o), Some(outcome), d, raised, false, false)
    {
      hide Assess, Ensure, Perform, ConfigOf;
      var done, flagged, code, db := AssessUpdate(d, o, raised);
      if done.Some? {
        return done.value;
      }
      var config;
      done, config := EnsureAll(d, o, flagged, code, db);
      if done.Some? {
        return done.value;
      }
      outcome := PerformUpdates(d, config, o, flagged, code, db);
    }

    method ReconcileLive(d: DrupalSite, primary: Option<string>, o: Oracle) returns (outcome: Outcome)
      requires primary == ConfigRead(client.world, o)
      modifies client, d
      ensures client.past == old(client.past)
      ensures Reached(LiveFlow(old(Now(d, false, false, false)), o), Some(outcome), d, false, false, false)
    {
      hide ObservedFlow, ActedFlow;
      var done, flagged := Observe(d, primary, o);
      if done.Some? {
        return done.value;
      }
      outcome := Act(d, o, flagged);
    }

    /**
     * One reconcile. Whatever the API answers, it changes the stored objects and issues commands exactly as the
     * workflow function of this model says, event by event, and ends as it says.
     */
    method Reconcile(o: Oracle) returns (outcome: Outcome)
      modifies client
      ensures client.world == Reconciled(old(client.world), o).session.world
      ensures client.Trace() == old(client.Trace()) + Log(old(client.world), o)
      ensures outcome == Reconciled(old(client.world), o).outcome
    {
      hide ToAssess, ToEnsure, ToPerform, Cleanup, LiveFlow, Perform, Reconciled;
      ghost var w := client.world;
      ReconciledBySections(w, o);
      client.Begin();
      if o.siteReadFails {
        return Errored;
      }
      if client.world.gone {
        return Finished;
      }
      var d := new DrupalSite(client.world.site);
      var primary := if o.configReadFails then None else client.world.primary;
      if d.meta.deleting {
        if d.meta.finalizer {
          outcome := CleanupDrupalSite(d, primary, o, false, false, false);
          return;
        }
        return Finished;
      }
      if d.meta.paused {
        return Finished;
      }
      outcome := ReconcileLive(d, primary, o);
    }
  }
}
