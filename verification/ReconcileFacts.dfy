// What each stage of a reconcile has done, and cannot have done, when the next one begins.
module ReconcileFacts {
  import opened Kube
  import opened DrupalSites
  import opened Workflow

  /** The world of a session is the initial world after the events logged so far. */
  ghost predicate Coherent(w: World, s: Session) {
    s.world == After(w, s.log)
  }

  lemma EmitCoherent(w: World, s: Session, e: Event)
    requires Coherent(w, s)
    ensures Coherent(w, Emit(s, e))
  {
    assert (s.log + [e])[..|s.log|] == s.log;
  }

  /** The status promises that every write but the last one of a successful update keeps. */
  ghost predicate Keeps(site: Site, st: Status) {
    && st.failsafe == site.status.failsafe
    && (site.Is(Initialized) ==> st.conditions.initialized.Holds())
    && (site.status.failsafe != ReleaseId(site.spec) ==>
          && (site.Is(CodeUpdateFailed) ==> st.conditions.codeUpdateFailed.Holds())
          && (site.Is(DBUpdatesFailed) ==> st.conditions.dbUpdatesFailed.Holds()))
  }

  /** Events possible before any need is assessed. */
  ghost predicate Early(w: World, e: Event) {
    match e
    case SiteWritten(x) => x.meta.finalizer || w.site.meta.deleting
    case StatusWritten(st) => Keeps(w.site, st)
    case ConfigWritten(_) => true
    case ScheduleDeleted => w.site.meta.deleting
    case Executed(c, _, _) => c == CheckInstalled || c == CheckUpdb
    case _ => false
  }

  /** Events possible before resources are ensured, on a reconcile that goes on. */
  ghost predicate Light(e: Event) {
    e.ConfigWritten? || (e.Executed? && (e.command == CheckInstalled || e.command == CheckUpdb))
  }

  /** Nothing has been written to the site or its status: those writes end a reconcile. */
  ghost predicate Unwritten(log: seq<Event>) {
    forall e :: e in log ==> !e.SiteWritten? && !e.StatusWritten?
  }

  /** The release of a site is not affected by what a clone source adds to the spec. */
  lemma MergeKeepsRelease(spec: Spec, clone: CloneSource)
    ensures ReleaseId(MergeClone(spec, clone)) == ReleaseId(spec)
  {
  }

  // ------------------------------------------------------------------ observing

  ghost predicate Observed(w: World, o: Oracle, s: Session) {
    && Coherent(w, s)
    && s.world == w.(primary := s.world.primary)
    && s.site == w.site.(spec := MergeClone(w.site.spec, o.clone),
                         status := w.site.status.(isPrimary := s.site.status.isPrimary))
    && !w.gone && !w.site.meta.deleting && !w.site.meta.paused && !SpecIncomplete(w.site) && w.site.meta.finalizer
    && !o.configReadFails
    && w.site.status.current == ReleaseId(w.site.spec)
    && (w.site.status.failsafe == w.site.status.current ==> !w.site.Is(CodeUpdateFailed) && !w.site.Is(DBUpdatesFailed))
    && (w.site.Is(Ready) <==> FoundReady(w, o))
    && !s.codeNeeded && !s.dbNeeded
    && (forall e :: e in s.log ==> Light(e))
  }

  /** A stopped early stage. */
  ghost predicate StoppedEarly(w: World, s: Session) {
    Coherent(w, s) && forall e :: e in s.log ==> Early(w, e)
  }

  lemma StopWithStatus(w: World, s: Session, o: Oracle)
    requires StoppedEarly(w, s) && Keeps(w.site, s.site.status)
    ensures StoppedEarly(w, WriteStatus(s, o).session)
  {
    EmitCoherent(w, s, StatusWritten(s.site.status));
  }

  lemma StopWithSite(w: World, s: Session, o: Oracle)
    requires StoppedEarly(w, s) && (s.site.meta.finalizer || w.site.meta.deleting)
    ensures StoppedEarly(w, WriteSite(s, o).session)
  {
    EmitCoherent(w, s, SiteWritten(s.site));
  }

  lemma CleanupFacts(w: World, o: Oracle)
    requires w.site.meta.deleting
    ensures Cleanup(Begin(w), o).Stop? && StoppedEarly(w, Cleanup(Begin(w), o).session)
  {
    hide WriteSite;
    var s := Begin(w);
    var named := ConfigRead(s.world, o) == Some(s.site.name);
    if !(named && o.configWrite != Accepted) {
      EmitCoherent(w, s, ConfigWritten(""));
      var t := if named then Emit(s, ConfigWritten("")) else s;
      EmitCoherent(w, t, ScheduleDeleted);
      var u := if t.world.schedule then Emit(t, ScheduleDeleted) else t;
      StopWithSite(w, u.(site := u.site.(meta := u.site.meta.(finalizer := false))), o);
    }
  }

  lemma CompleteSpecFacts(site: Site, o: Oracle)
    ensures CompleteSpec(site, o).status == site.status && CompleteSpec(site, o).meta.finalizer
    ensures !SpecIncomplete(site) ==> CompleteSpec(site, o) == site.(spec := MergeClone(site.spec, o.clone))
  {
  }

  lemma IncompleteWithoutFinalizer(site: Site)
    ensures !SpecIncomplete(site) ==> site.meta.finalizer
  {
  }

  lemma InitSpecFacts(w: World, o: Oracle)
    ensures
      match InitSpec(Begin(w), o)
      case Stop(s, _) => StoppedEarly(w, s)
      case Go(s) =>
        && !SpecIncomplete(w.site) && w.site.meta.finalizer
        && s == Begin(w).(site := w.site.(spec := MergeClone(w.site.spec, o.clone)))
  {
    hide CompleteSpec, WriteStatus, WriteSite, SpecIncomplete, MergeClone;
    var s := Begin(w);
    assert !SpecIncomplete(w.site) ==> w.site.meta.finalizer by { IncompleteWithoutFinalizer(w.site); }
    CompleteSpecFacts(w.site, o);
    StopWithStatus(w, s.(site := WithCondition(s.site, Error, Present(True, ERR_INVALID_SPEC))), o);
    StopWithStatus(w, s.(site := WithCondition(s.site, Error, Present(True, ERR_CLIENT_K8S))), o);
    var t := s.(site := CompleteSpec(s.site, o));
    StopWithSite(w, t, o);
    StopWithStatus(w, t.(site := WithCondition(t.site, Error, Present(True, ERR_INVALID_SPEC))), o);
  }

  /** A command changes nothing but the log. */
  lemma ExecuteFacts(w: World, s: Session, c: Command, x: Exec)
    requires Coherent(w, s)
    ensures
      var t := Execute(s, c, x);
      && Coherent(w, t)
      && t == s.(log := t.log)
      && forall e :: e in t.log ==> e in s.log || (e.Executed? && e.command == c)
  {
    hide ReleaseId, ExecPod;
    match ExecPod(x, Rel(s)) {
      case None =>
      case Some(p) => EmitCoherent(w, s, Executed(c, p, x.output));
    }
  }

  /** Asking the pod changes nothing but the log. */
  lemma AskInstalledFacts(w: World, s: Session, o: Oracle)
    requires Coherent(w, s)
    ensures
      var t := AskInstalled(s, o);
      && Coherent(w, t)
      && t == s.(log := t.log)
      && forall e :: e in t.log ==> e in s.log || (e.Executed? && e.command == CheckInstalled)
  {
    ExecuteFacts(w, s, CheckInstalled, o.checkInstalled);
  }

  lemma NewStatusKeeps(w: World, s: Session, o: Oracle)
    requires s.world == w && s.site.status == w.site.status && ReleaseId(s.site.spec) == ReleaseId(w.site.spec)
    ensures Keeps(w.site, NewStatus(s, o))
    ensures NewStatus(s, o) == s.site.status ==>
      && w.site.status.current == ReleaseId(w.site.spec)
      && (w.site.status.failsafe == w.site.status.current ==>
        !w.site.Is(CodeUpdateFailed) && !w.site.Is(DBUpdatesFailed))
      && (w.site.Is(Ready) <==> FoundReady(w, o))
  {
    hide ReleaseId, FoundReady, FoundInitialized;
  }

  lemma SyncStatusFacts(w: World, s: Session, o: Oracle)
    requires s.world == w && s.log == [] && s.site == w.site.(spec := MergeClone(w.site.spec, o.clone))
    ensures
      match SyncStatus(s, o)
      case Stop(t, _) => StoppedEarly(w, t)
      case Go(t) =>
        && Coherent(w, t) && t == s.(log := t.log) && NewStatus(s, o) == s.site.status
        && forall e :: e in t.log ==> e.Executed? && e.command == CheckInstalled
  {
    hide ReleaseId, MergeClone, NewStatus, AskInstalled, WriteStatus;
    MergeKeepsRelease(w.site.spec, o.clone);
    AskInstalledFacts(w, s, o);
    NewStatusKeeps(w, s, o);
    StopWithStatus(w, AskInstalled(s, o).(site := s.site.(status := NewStatus(s, o))), o);
  }

  lemma ProclaimFacts(w: World, s: Session, o: Oracle)
    requires Coherent(w, s) && forall e :: e in s.log ==> Light(e)
    ensures
      match Proclaim(s, o)
      case Stop(t, _) => t == s
      case Go(t) =>
        && !o.configReadFails && Coherent(w, t)
        && t == s.(log := t.log, flagged := t.flagged, world := t.world, site := t.site)
        && t.world == s.world.(primary := t.world.primary)
        && t.site == s.site.(status := s.site.status.(isPrimary := t.site.status.isPrimary))
        && forall e :: e in t.log ==> Light(e)
  {
    hide Coherent;
    CheckPrimaryFacts(s.site, Some(s.site.name));
    var t := s.(site := CheckPrimary(s.site, Some(s.site.name)));
    CoherentIgnoresFlags(w, s, t);
    CoherentIgnoresFlags(w, s, t.(flagged := true));
    EmitCoherent(w, t, ConfigWritten(s.site.name));
  }

  lemma CheckPrimaryFacts(site: Site, primary: Option<string>)
    ensures
      var t := CheckPrimary(site, primary);
      t == site.(status := site.status.(isPrimary := t.status.isPrimary))
  {
  }

  lemma SyncBackupsFacts(w: World, s: Session, o: Oracle)
    requires Coherent(w, s) && Keeps(w.site, s.site.status) && forall e :: e in s.log ==> Light(e)
    ensures
      match SyncBackups(s, o)
      case Stop(t, _) => StoppedEarly(w, t)
      case Go(t) => t == s
  {
    hide WriteStatus;
    if o.backups.Some? {
      StopWithStatus(w, s.(site := s.site.(status := s.site.status.(backups := o.backups.value))), o);
    }
  }

  lemma ToAssessFacts(w: World, o: Oracle)
    ensures
      match ToAssess(w, o)
      case Stop(s, _) => StoppedEarly(w, s)
      case Go(s) => Observed(w, o, s)
  {
    hide ReleaseId, Cleanup, InitSpec, MergeClone, SyncStatus, Proclaim, SyncBackups, NewStatus, FoundReady,
      SpecIncomplete;
    if w.site.meta.deleting {
      CleanupFacts(w, o);
    }
    InitSpecFacts(w, o);
    MergeKeepsRelease(w.site.spec, o.clone);
    match InitSpec(Begin(w), o) {
      case Stop(_, _) =>
      case Go(s1) =>
        SyncStatusFacts(w, s1, o);
        match SyncStatus(s1, o) {
          case Stop(_, _) =>
          case Go(s2) =>
            NewStatusKeeps(w, s1, o);
            ProclaimFacts(w, s2, o);
            match Proclaim(s2, o) {
              case Stop(_, _) =>
              case Go(s3) => SyncBackupsFacts(w, s3, o);
            }
        }
    }
  }

  // ------------------------------------------------------------------ assessing

  /** The annotation and the pending-updates condition agree with the needs, or the failed update is closed. */
  ghost predicate InStep(s: Session) {
    && (Updatable(s.site) ==>
          && s.site.meta.updateInProgress == (if s.codeNeeded || s.dbNeeded then IN_PROGRESS else None)
          && s.site.status.conditions.dbUpdatesPending == (if s.dbNeeded then Present(True, "") else Absent))
    && (s.site.Is(CodeUpdateFailed) ==>
          s.site.meta.updateInProgress.None? && s.site.status.conditions.dbUpdatesPending == Present(Unknown, ""))
  }

  /** The needs are what the deployment and the pod said. */
  ghost predicate Assessed(w: World, o: Oracle, s: Session) {
    && (s.codeNeeded <==> Updatable(s.site) && CodeReadable(w, o) && CodeBehind(w, s.site))
    && (s.dbNeeded <==>
          Updatable(s.site) && !s.codeNeeded && ExecOutput(o.checkUpdb, Rel(s)).Some?
            && ExecOutput(o.checkUpdb, Rel(s)) != Some(""))
  }

  ghost predicate Decided(w: World, o: Oracle, s: Session) {
    && Coherent(w, s)
    && s.world == w.(primary := s.world.primary)
    && s.site == w.site.(spec := MergeClone(w.site.spec, o.clone),
                         status := w.site.status.(isPrimary := s.site.status.isPrimary))
    && (forall e :: e in s.log ==> Light(e))
    && Assessed(w, o, s)
    && InStep(s)
  }

  lemma ComputeNeedsFacts(w: World, o: Oracle, s: Session)
    requires Coherent(w, s) && s.world == w.(primary := s.world.primary) && !s.codeNeeded && !s.dbNeeded
    requires forall e :: e in s.log ==> Light(e)
    ensures
      var t := ComputeNeeds(s, o);
      && Coherent(w, t) && t.world == s.world && t.site == s.site && Assessed(w, o, t)
      && forall e :: e in t.log ==> Light(e)
  {
    hide ReleaseId, Execute, ExecOutput, Coherent, CodeReadable, CodeBehind, Updatable;
    NeedsReadWorld(w, s, o);
    var code := CodeReadable(s.world, o) && CodeBehind(s.world, s.site);
    var t := s.(codeNeeded := code, flagged := s.flagged || !CodeReadable(s.world, o));
    CoherentIgnoresFlags(w, s, t);
    ExecuteFacts(w, t, CheckUpdb, o.checkUpdb);
    CoherentIgnoresFlags(w, Execute(t, CheckUpdb, o.checkUpdb), ComputeNeeds(s, o));
  }

  lemma CoherentIgnoresFlags(w: World, s: Session, t: Session)
    requires Coherent(w, s)
    ensures t.world == s.world && t.log == s.log ==> Coherent(w, t)
  {
  }

  /** The needs depend on the deployment only. */
  lemma NeedsReadWorld(w: World, s: Session, o: Oracle)
    requires s.world.deploy == w.deploy
    ensures CodeReadable(s.world, o) == CodeReadable(w, o) && CodeBehind(s.world, s.site) == CodeBehind(w, s.site)
  {
  }

  lemma SyncFacts(w: World, o: Oracle, s: Session)
    requires StoppedEarly(w, s) && Keeps(w.site, s.site.status) && s.site.meta.finalizer
    ensures
      match SyncAnnotation(s, o)
      case Stop(t, _) => StoppedEarly(w, t)
      case Go(t) => t == s
    ensures
      match SyncPending(s, o)
      case Stop(t, _) => StoppedEarly(w, t)
      case Go(t) => t == s
    ensures
      match CloseFailed(s, o)
      case Stop(t, _) => StoppedEarly(w, t)
      case Go(t) => t == s
    ensures SyncAnnotation(s, o).Go? && SyncPending(s, o).Go? && CloseFailed(s, o).Go? ==> InStep(s)
  {
    hide WriteStatus, WriteSite, StoppedEarly;
    forall v { StopWithSite2(w, s, o, v); }
    forall c { StopWithPending(w, s, o, c); }
  }

  lemma StopWithSite2(w: World, s: Session, o: Oracle, v: Option<string>)
    requires StoppedEarly(w, s) && s.site.meta.finalizer
    ensures StoppedEarly(w, WriteSite(s.(site := WithUpdateInProgress(s.site, v)), o).session)
  {
    StopWithSite(w, s.(site := WithUpdateInProgress(s.site, v)), o);
  }

  lemma StopWithPending(w: World, s: Session, o: Oracle, c: Condition)
    requires StoppedEarly(w, s) && Keeps(w.site, s.site.status)
    ensures StoppedEarly(w, WriteStatus(s.(site := WithCondition(s.site, DBUpdatesPending, c)), o).session)
  {
    StopWithStatus(w, s.(site := WithCondition(s.site, DBUpdatesPending, c)), o);
  }

  lemma LightIsEarly(w: World, s: Session)
    requires Coherent(w, s) && forall e :: e in s.log ==> Light(e)
    ensures StoppedEarly(w, s)
  {
  }

  lemma AssessFacts(w: World, o: Oracle, s: Session)
    requires Observed(w, o, s)
    ensures
      match Assess(s, o)
      case Stop(t, _) => StoppedEarly(w, t)
      case Go(t) => Decided(w, o, t) && t == ComputeNeeds(s, o)
  {
    hide ReleaseId, MergeClone, SyncAnnotation, SyncPending, CloseFailed, ComputeNeeds, InStep, StoppedEarly, Assessed,
      FoundReady, SpecIncomplete;
    var t := ComputeNeeds(s, o);
    ComputeNeedsFacts(w, o, s);
    LightIsEarly(w, t);
    MergeKeepsRelease(w.site.spec, o.clone);
    SyncFacts(w, o, t);
  }

  lemma ToEnsureFacts(w: World, o: Oracle)
    ensures
      match ToEnsure(w, o)
      case Stop(s, _) => StoppedEarly(w, s)
      case Go(s) => ToAssess(w, o).Go? && Observed(w, o, ToAssess(w, o).session) && Decided(w, o, s)
  {
    hide ToAssess, Assess, StoppedEarly, Observed, Decided;
    ToAssessFacts(w, o);
    match ToAssess(w, o) {
      case Stop(_, _) =>
      case Go(s) => AssessFacts(w, o, s);
    }
  }
}
