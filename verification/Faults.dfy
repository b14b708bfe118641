// Faults and crashes: what they cannot take from a live site, and how it comes to rest once they are over.
module Faults {
  import opened Kube
  import opened DrupalSites
  import opened Deployments
  import opened DeploymentLaws
  import opened Workflow
  import opened ReconcileFacts
  import opened EnsureFacts
  import opened PerformFacts
  import opened Safety
  import opened Runs
  import opened Calm
  import opened Housekeeping
  import opened Convergence

  // ------------------------------------------------------------------ what a reconcile writes to the site

  /** A site as a reconcile may write it: with its spec completed, the finalizer, and another mark. */
  ghost predicate Rewritten(w: World, o: Oracle, site: Site) {
    var c := CompleteSpec(w.site, o);
    site.spec == c.spec && site.meta == c.meta.(updateInProgress := site.meta.updateInProgress)
  }

  ghost predicate OnlyRewrites(w: World, o: Oracle, log: seq<Event>) {
    forall e :: e in log && e.SiteWritten? ==> Rewritten(w, o, e.site)
  }

  lemma WriteSiteRewrites(w: World, o: Oracle, s: Session)
    requires OnlyRewrites(w, o, s.log) && Rewritten(w, o, s.site)
    ensures OnlyRewrites(w, o, WriteSite(s, o).session.log)
  {
    hide CompleteSpec;
  }

  lemma WriteStatusRewrites(w: World, o: Oracle, s: Session)
    requires OnlyRewrites(w, o, s.log)
    ensures OnlyRewrites(w, o, WriteStatus(s, o).session.log)
  {
    hide Rewritten;
  }

  lemma UnwrittenRewrites(w: World, o: Oracle, log: seq<Event>)
    requires forall e :: e in log ==> !e.SiteWritten?
    ensures OnlyRewrites(w, o, log)
  {
  }

  lemma InitSpecRewrites(w: World, o: Oracle)
    ensures OnlyRewrites(w, o, InitSpec(Begin(w), o).session.log)
  {
    hide CompleteSpec, WriteSite, WriteStatus, SpecIncomplete, WithCondition;
    var s := Begin(w);
    var t := s.(site := CompleteSpec(s.site, o));
    WriteSiteRewrites(w, o, t);
    WriteStatusRewrites(w, o, s.(site := WithCondition(s.site, Error, Present(True, ERR_INVALID_SPEC))));
    WriteStatusRewrites(w, o, s.(site := WithCondition(s.site, Error, Present(True, ERR_CLIENT_K8S))));
    WriteStatusRewrites(w, o, t.(site := WithCondition(t.site, Error, Present(True, ERR_INVALID_SPEC))));
  }

  lemma SyncStatusRewrites(w: World, o: Oracle, s: Session)
    requires s.world == w && s.log == [] && s.site == w.site.(spec := MergeClone(w.site.spec, o.clone))
    ensures OnlyRewrites(w, o, SyncStatus(s, o).session.log)
  {
    hide AskInstalled, NewStatus, WriteStatus, MergeClone, Rewritten, Coherent;
    assert Coherent(w, s) by { BeginCoherent(w, s); }
    AskInstalledFacts(w, s, o);
    UnwrittenRewrites(w, o, AskInstalled(s, o).log);
    WriteStatusRewrites(w, o, AskInstalled(s, o).(site := s.site.(status := NewStatus(s, o))));
  }

  lemma BeginCoherent(w: World, s: Session)
    requires s.world == w && s.log == []
    ensures Coherent(w, s)
  {
  }

  lemma ProjectRewrites(w: World, o: Oracle, s: Session)
    requires OnlyRewrites(w, o, s.log)
    ensures OnlyRewrites(w, o, Proclaim(s, o).session.log) && OnlyRewrites(w, o, SyncBackups(s, o).session.log)
  {
    hide CheckPrimary, WriteStatus, Rewritten;
    forall st { WriteStatusRewrites(w, o, s.(site := s.site.(status := st))); }
  }

  lemma ToAssessRewrites(w: World, o: Oracle)
    requires !w.site.meta.deleting
    ensures OnlyRewrites(w, o, ToAssess(w, o).session.log)
  {
    hide InitSpec, SyncStatus, Proclaim, SyncBackups, OnlyRewrites, MergeClone, SpecIncomplete;
    UnwrittenRewrites(w, o, []);
    InitSpecRewrites(w, o);
    InitSpecFacts(w, o);
    if InitSpec(Begin(w), o).Go? {
      var s1 := InitSpec(Begin(w), o).session;
      SyncStatusRewrites(w, o, s1);
      if SyncStatus(s1, o).Go? {
        var s2 := SyncStatus(s1, o).session;
        ProjectRewrites(w, o, s2);
        if Proclaim(s2, o).Go? {
          ProjectRewrites(w, o, Proclaim(s2, o).session);
        }
      }
    }
  }

  lemma AssessRewrites(w: World, o: Oracle, s: Session)
    requires Observed(w, o, s)
    ensures OnlyRewrites(w, o, Assess(s, o).session.log)
  {
    hide ReleaseId, MergeClone, ComputeNeeds, WriteSite, WriteStatus, Updatable, Coherent, SpecIncomplete, FoundReady,
      WithCondition, Light, CompleteSpec;
    ComputeNeedsFacts(w, o, s);
    var t := ComputeNeeds(s, o);
    LightRewrites(w, o, t.log);
    CompleteSpecFacts(w.site, o);
    forall v { MarkRewrites(w, o, t, v); }
    forall c { WriteStatusRewrites(w, o, t.(site := WithCondition(t.site, DBUpdatesPending, c))); }
  }

  lemma LightRewrites(w: World, o: Oracle, log: seq<Event>)
    requires forall e :: e in log ==> Light(e)
    ensures OnlyRewrites(w, o, log)
  {
  }

  lemma MarkRewrites(w: World, o: Oracle, t: Session, v: Option<string>)
    requires OnlyRewrites(w, o, t.log) && t.site.spec == CompleteSpec(w.site, o).spec && t.site.meta == w.site.meta
    requires CompleteSpec(w.site, o).meta == w.site.meta
    ensures OnlyRewrites(w, o, WriteSite(t.(site := WithUpdateInProgress(t.site, v)), o).session.log)
  {
    hide CompleteSpec;
    WriteSiteRewrites(w, o, t.(site := WithUpdateInProgress(t.site, v)));
  }

  /** Whatever fails, a reconcile of a site that is not being deleted writes its completed spec, or its own mark. */
  lemma SiteWritesComplete(w: World, o: Oracle, e: Event)
    requires !w.site.meta.deleting && e in Log(w, o) && e.SiteWritten?
    ensures Rewritten(w, o, e.site)
  {
    hide ToAssess, Assess, Ensure, Perform, Rewritten, Observed, Decided, Coherent, Moves, StoppedLate;
    ToAssessRewrites(w, o);
    ToAssessFacts(w, o);
    if ToAssess(w, o).Go? {
      AssessRewrites(w, o, ToAssess(w, o).session);
      if ToEnsure(w, o).Go? {
        NoSiteAfterAssess(w, o, e);
      }
    }
  }

  /**
   * Field by field: the finalizer is set, a missing password or release is filled in, a clone takes the configuration
   * of its source if it has none, and everything else but the update annotation is written as it was read.
   */
  lemma SiteWritesAreListed(w: World, o: Oracle, e: Event)
    requires !w.site.meta.deleting && e in Log(w, o) && e.SiteWritten?
    ensures
      var spec, x := w.site.spec, e.site;
      && x.meta == w.site.meta.(finalizer := true, updateInProgress := x.meta.updateInProgress)
      && x.spec == spec.(
           webDAVPassword := if spec.webDAVPassword == "" then o.randomPassword else spec.webDAVPassword,
           releaseSpec := if spec.releaseSpec == "" then o.defaultRelease else spec.releaseSpec,
           extraConfigurationRepo :=
             if spec.extraConfigurationRepo == "" && spec.cloneFrom != "" && o.clone.SourceFound? then
               o.clone.extraConfigurationRepo
             else spec.extraConfigurationRepo)
  {
    hide Log;
    SiteWritesComplete(w, o, e);
  }

  /** A site that lacks the finalizer, a password or a release gets them by the first write, which is the only one. */
  lemma IncompleteIsCompleted(w: World, o: Oracle)
    requires !o.siteReadFails && !w.gone && !w.site.meta.deleting && !w.site.meta.paused
    requires w.site.spec.cloneFrom == "" || o.clone.SourceFound?
    requires !w.site.meta.finalizer || w.site.spec.webDAVPassword == "" || w.site.spec.releaseSpec == ""
    ensures o.siteWrite == Accepted ==> |Log(w, o)| == 1 && Log(w, o)[0].SiteWritten?
    ensures o.siteWrite != Accepted ==> Log(w, o) == []
  {
    hide CompleteSpec;
  }

  lemma NoSiteAfterAssess(w: World, o: Oracle, e: Event)
    requires ToEnsure(w, o).Go? && e in Log(w, o)
    ensures !e.SiteWritten?
  {
    hide ToEnsure, Ensure, Perform, InMiddle, Decided, Coherent, Moves, StoppedLate, Middle, Log;
    ToPerformFacts(w, o);
    ToEnsureFacts(w, o);
    if ToPerform(w, o).Go? {
      EnsuredIsMiddle(w, o, Assessment(w, o), Equipped(w, o));
      PerformEvents(w, o, Assessment(w, o), Equipped(w, o));
      LateWritesNoSite(w, o, Assessment(w, o), Equipped(w, o), e);
    } else {
      StoppedWritesNoSite(w, o, Assessment(w, o), ToPerform(w, o).session, e);
    }
  }

  lemma StoppedWritesNoSite(w: World, o: Oracle, s: Session, t: Session, e: Event)
    requires ToPerform(w, o).Stop? && t == ToPerform(w, o).session && StoppedMiddle(w, o, s, t) && e in Log(w, o)
    ensures !e.SiteWritten?
  {
    hide ToPerform, Coherent, EnsureUpsert, Ensured1, SetHashes;
    assert Middle(w, o, s, e);
  }

  lemma LateWritesNoSite(w: World, o: Oracle, s: Session, t: Session, e: Event)
    requires ToPerform(w, o).Go? && t == Equipped(w, o) && e in Log(w, o)
    requires StoppedLate(w, o, s, t, Perform(t, o).session) || Moves(w, o, s, t, Perform(t, o).session)
    ensures !e.SiteWritten?
  {
    hide ToPerform, Perform, Coherent, UpdateVersion, RunsCodeUpdate, EnsureUpsert, Ensured1, SetHashes, Advanced,
      RunsSchemaUpdate, Rolled, UpdateUpsert, RollbackUpsert, AdvancesFailsafe;
    if e in UpdateVersion(t, o).session.log && Moves(w, o, s, t, Perform(t, o).session) {
      assert Late(w, o, s, t, e);
    }
  }

  // ------------------------------------------------------------------ what a reconcile writes to the deployment

  /** A deployment, if there is one, that exists on the server and that nobody is debugging. */
  predicate Fit(d: Option<Deployment>) {
    d.Some? ==> d.value.created && !d.value.Debugging()
  }

  lemma UpsertIsFit(s: Session, release: string, config: Config, call: Call)
    requires Fit(s.world.deploy)
    ensures
      var r := UpsertRelease(s, release, config, call);
      && Fit(Result(s.world.deploy, r))
      && forall d :: r == Created(d) || r == Updated(d) ==> Fit(Some(d))
  {
    hide Apply;
    var d := Base(s.world.deploy);
    ApplyMarksRelease(d, s.site, release, config);
    StoredIsFit(Apply(d, s.site, release, config));
  }

  lemma StoredIsFit(d: Deployment)
    requires !d.Debugging()
    ensures Fit(Some(Stored(d)))
  {
  }

  lemma HashedIsFit(d: Deployment, h: Hashes)
    requires Fit(Some(d))
    ensures Fit(Some(SetHashes(d, h)))
  {
    HashesKeepRelease(d, h);
  }

  lemma EnsuredIsFit(s: Session, o: Oracle)
    requires Fit(s.world.deploy)
    ensures Fit(Ensured1(s, o))
    ensures forall d :: EnsureUpsert(s, o) == Created(d) || EnsureUpsert(s, o) == Updated(d) ==> Fit(Some(d))
  {
    hide UpsertRelease, ReleaseId, ConfigOf;
    UpsertIsFit(s, Rel(s), ConfigOf(s, o), o.ensureCall);
  }

  lemma MiddleIsFit(w: World, o: Oracle, s: Session, e: Event)
    requires Fit(w.deploy) && s.world.deploy == w.deploy && Middle(w, o, s, e) && e.DeploymentWritten?
    ensures Fit(Some(e.deployment))
  {
    hide EnsureUpsert, SetHashes, Ensured1;
    EnsuredIsFit(s, o);
    if o.configmaps.ConfigmapsFound? && Ensured1(s, o).Some? {
      HashedIsFit(Ensured1(s, o).value, o.configmaps.hashes);
    }
  }

  lemma EquippedIsFit(w: World, o: Oracle, s: Session, t: Session)
    requires Fit(w.deploy) && s.world.deploy == w.deploy && Ensured(w, o, s, t)
    ensures Fit(t.world.deploy)
  {
    hide EnsureUpsert, SetHashes, Ensured1, InMiddle;
    EnsuredIsFit(s, o);
    if o.configmaps.ConfigmapsFound? && Ensured1(s, o).Some? {
      HashedIsFit(Ensured1(s, o).value, o.configmaps.hashes);
    }
  }

  lemma LateIsFit(w: World, o: Oracle, s: Session, t: Session, e: Event)
    requires Fit(w.deploy) && s.world.deploy == w.deploy && Ensured(w, o, s, t)
    requires Late(w, o, s, t, e) && e.DeploymentWritten?
    ensures Fit(Some(e.deployment))
  {
    hide UpsertRelease, Ensured, Middle, ReleaseId, ConfigOf, RunsCodeUpdate;
    EquippedIsFit(w, o, s, t);
    UpsertIsFit(t, Rel(t), ConfigOf(t, o), o.updateCall);
    UpsertIsFit(t, t.site.status.failsafe, ConfigOf(t, o), o.rollbackCall);
    if Middle(w, o, s, e) {
      MiddleIsFit(w, o, s, e);
    }
  }

  lemma EarlyWritesNoDeployment(w: World, e: Event)
    requires Early(w, e)
    ensures !e.DeploymentWritten?
  {
  }

  /** Whatever fails, a reconcile writes existing deployments, and puts none into debugging. */
  lemma DeploymentWritesFit(w: World, o: Oracle, e: Event)
    requires Fit(w.deploy) && e in Log(w, o) && e.DeploymentWritten?
    ensures Fit(Some(e.deployment))
  {
    hide Log, Assessment, Equipped, Reconciled, Decided, Ensured, Coherent, Perform, Observed, ToAssess, Middle, Early,
      Late, Moves, StoppedLate, Fit;
    LogCases(w, o);
    var s, t := Assessment(w, o), Equipped(w, o);
    if EndsEarly(w, o) {
      EarlyWritesNoDeployment(w, e);
    } else {
      DecidedKeeps(w, o, s);
      if EndsInMiddle(w, o) {
        MiddleIsFit(w, o, s, e);
      } else {
        LateOfDeployment(w, o, s, t, e);
        LateIsFit(w, o, s, t, e);
      }
    }
  }

  lemma LateOfDeployment(w: World, o: Oracle, s: Session, t: Session, e: Event)
    requires EndsLate(w, o) && s == Assessment(w, o) && t == Equipped(w, o) && e in Log(w, o) && e.DeploymentWritten?
    ensures Late(w, o, s, t, e)
  {
    hide Assessment, Equipped, Reconciled, Decided, Ensured, Coherent, Perform, Observed, ToAssess, Late, UpdateVersion,
      RunsCodeUpdate, Advanced, AdvancesFailsafe;
  }

  // ------------------------------------------------------------------ a live site stays alive

  /** The clone source, if it is read at all, is the one of the environment. */
  ghost predicate SameSource(env: Oracle, o: Oracle) {
    o.clone.SourceFound? ==> o.clone == env.clone
  }

  /** Nothing that keeps a site alive has been lost since `w`. */
  ghost predicate StillAlive(env: Oracle, w: World, v: World) {
    && Alive(env, v) && v.site.name == w.site.name && ReleaseId(v.site.spec) == ReleaseId(w.site.spec)
    && v.readyReplicas == w.readyReplicas && v.dbod == w.dbod
  }

  /** Completing a settled spec can add a password, and nothing else. */
  lemma CompletedStaysFixed(env: Oracle, site: Site, o: Oracle)
    requires FixedSpec(env, site.spec) && SameSource(env, o)
    ensures
      var c := CompleteSpec(site, o);
      && FixedSpec(env, c.spec) && ReleaseId(c.spec) == ReleaseId(site.spec)
      && c.meta == site.meta.(finalizer := true)
  {
  }

  /** What an event of a reconcile of `w` can do to a live site. */
  ghost predicate Harmless(env: Oracle, w: World, e: Event) {
    match e
    case SiteWritten(x) =>
      && FixedSpec(env, x.spec) && ReleaseId(x.spec) == ReleaseId(w.site.spec) && !x.meta.deleting && !x.meta.paused
    case StatusWritten(st) => st.conditions.initialized.Holds()
    case DeploymentWritten(_, d) => Fit(Some(d))
    case _ => true
  }

  lemma EventsAreHarmless(env: Oracle, w: World, o: Oracle, e: Event)
    requires Alive(env, w) && SameSource(env, o) && e in Log(w, o)
    ensures Harmless(env, w, e)
  {
    hide Log, ReleaseId, CompleteSpec, FixedSpec, SameSource;
    match e {
      case SiteWritten(_) =>
        SiteWritesComplete(w, o, e);
        CompletedStaysFixed(env, w.site, o);
      case StatusWritten(_) => EveryStatusKeepsLatches(w, o, e);
      case DeploymentWritten(_, _) => DeploymentWritesFit(w, o, e);
      case _ =>
    }
  }

  lemma HarmlessKeepsAlive(env: Oracle, w: World, v: World, e: Event)
    requires StillAlive(env, w, v) && Harmless(env, w, e)
    ensures StillAlive(env, w, After1(v, e))
  {
    hide ReleaseId, FixedSpec;
  }

  /** Faults and crashes do not make a live site anything else: any part of any reconcile leaves it alive. */
  lemma {:induction false} StaysAlive(env: Oracle, w: World, o: Oracle, cut: nat)
    requires Alive(env, w) && SameSource(env, o) && cut <= |Log(w, o)|
    ensures StillAlive(env, w, After(w, Log(w, o)[..cut]))
    decreases cut
  {
    hide Log, StillAlive, Alive, Harmless, SameSource;
    if cut == 0 {
      assert StillAlive(env, w, w) by { AliveIsStillAlive(env, w); }
    } else {
      StaysAlive(env, w, o, cut - 1);
      var e := Log(w, o)[cut - 1];
      EventsAreHarmless(env, w, o, e);
      HarmlessKeepsAlive(env, w, After(w, Log(w, o)[..cut - 1]), e);
      assert Log(w, o)[..cut][..cut - 1] == Log(w, o)[..cut - 1];
    }
  }

  lemma AliveIsStillAlive(env: Oracle, w: World)
    requires Alive(env, w)
    ensures StillAlive(env, w, w)
  {
  }

  // ------------------------------------------------------------------ runs with faults and crashes

  /** Reconciles with any faults, each cut after any of its events. */
  ghost predicate IsRoughRun(env: Oracle, ws: seq<World>, os: seq<Oracle>, cuts: seq<nat>) {
    && |ws| == |os| + 1 == |cuts| + 1
    && forall i :: 0 <= i < |os| ==>
         && cuts[i] <= |Log(ws[i], os[i])|
         && ws[i + 1] == After(ws[i], Log(ws[i], os[i])[..cuts[i]])
         && SameSource(env, os[i])
  }

  lemma {:induction false} RoughRunStaysAlive(env: Oracle, ws: seq<World>, os: seq<Oracle>, cuts: seq<nat>, i: nat)
    requires IsRoughRun(env, ws, os, cuts) && Alive(env, ws[0]) && i < |ws|
    ensures StillAlive(env, ws[0], ws[i])
    decreases i
  {
    hide Log, Alive, SameSource, ReleaseId;
    if i > 0 {
      RoughRunStaysAlive(env, ws, os, cuts, i - 1);
      assert SameSource(env, os[i - 1]);
      StaysAlive(env, ws[i - 1], os[i - 1], cuts[i - 1]);
    }
  }

  /** No failure is on record, or the spec is at the failsafe release, where it is lifted. */
  ghost predicate Forgiven(w: World) {
    Restored(w) || (!w.site.Is(CodeUpdateFailed) && !w.site.Is(DBUpdatesFailed))
  }

  /** After any faults and crashes a live site is where convergence starts exactly when no failure stays on record. */
  lemma CalmExactlyWhenForgiven(env: Oracle, ws: seq<World>, os: seq<Oracle>, cuts: seq<nat>, i: nat)
    requires IsRoughRun(env, ws, os, cuts) && Alive(env, ws[0]) && ws[0].site.name != "" && i < |ws|
    ensures CalmWorld(env, ws[i]) <==> Forgiven(ws[i])
  {
    hide Log, Alive, IsRoughRun, ReleaseId;
    RoughRunStaysAlive(env, ws, os, cuts, i);
  }

  /**
   * Convergence after faults: whatever failed in finitely many reconciles, and wherever they were cut short, once
   * reconciles go through, and unless a failed update stays on record, the site is at rest within 26 of them.
   */
  lemma ConvergesAfterFaults(
    env: Oracle, ws: seq<World>, os: seq<Oracle>, cuts: seq<nat>,
    calm: seq<World>, calmInputs: seq<Oracle>, pending: seq<bool>, i: nat)
    requires IsRoughRun(env, ws, os, cuts) && Alive(env, ws[0]) && ws[0].site.name != "" && Forgiven(ws[|os|])
    requires IsCalmRun(env, calm, calmInputs, pending) && calm[0] == ws[|os|] && 26 <= i < |calmInputs|
    ensures AtRest(calm[i]) && calm[i + 1] == calm[i] && forall e :: e in Log(calm[i], calmInputs[i]) ==> e.Executed?
    ensures RunsAsAllowed(env, calm[i])
  {
    hide Log, Alive, CalmWorld, CalmInputs, PendingFollows, AtRest, Forgiven, RunsAsAllowed;
    CalmExactlyWhenForgiven(env, ws, os, cuts, |os|);
    ConvergesWithin26(env, calm, calmInputs, pending, i);
  }

  // ------------------------------------------------------------------ any spec

  /** A served and initialized site without failures, whose spec is still to be completed. */
  ghost predicate Unspecified(env: Oracle, w: World) {
    && !w.gone && !w.site.meta.deleting && !w.site.meta.paused && w.site.name != ""
    && SpecIncomplete(w.site) && (w.site.spec.cloneFrom != "" ==> env.clone.SourceFound?)
    && w.site.Is(Initialized) && Serving(w) && w.deploy.value.created && !w.deploy.value.Debugging()
    && !w.site.Is(CodeUpdateFailed) && !w.site.Is(DBUpdatesFailed)
  }

  /**
   * One reconcile completes any spec, with what a clone source adds; convergence starts there exactly when the spec
   * named a release or the operator knows a default one.
   */
  lemma CalmExactlyWhenReleased(env: Oracle, w: World, o: Oracle)
    requires Unspecified(env, w) && FaultFree(o) && SameInputs(env, o)
    ensures CalmWorld(env, Reconciled(w, o).session.world)
      <==> w.site.spec.releaseSpec != "" || o.defaultRelease != ""
  {
    hide ReleaseId, CompleteSpec, MergeClone, Reconciled, SpecIncomplete, FaultFree, SameInputs;
    CompletesAny(env, w, o);
    CompletedIsMerged(env, w.site, o);
  }

  lemma CompletesAny(env: Oracle, w: World, o: Oracle)
    requires Unspecified(env, w) && FaultFree(o) && SameInputs(env, o)
    ensures Reconciled(w, o).session.world == Completed(w, o)
    ensures Log(w, o) == [SiteWritten(CompleteSpec(w.site, o))]
  {
    hide CompleteSpec, Serving, SpecIncomplete, MergeClone;
    CompletedIsMerged(env, w.site, o);
    assert InitSpec(Begin(w), o) == WriteSite(Begin(w).(site := CompleteSpec(w.site, o)), o);
  }

  /** A clone source that was merged once has nothing more to add. */
  lemma CompletedIsMerged(env: Oracle, site: Site, o: Oracle)
    requires SameInputs(env, o)
    ensures
      var c := CompleteSpec(site, o);
      && MergeClone(c.spec, env.clone) == c.spec && c.spec.cloneFrom == site.spec.cloneFrom
      && c == site.(spec := c.spec, meta := c.meta) && c.meta == site.meta.(finalizer := true)
      && (c.spec.releaseSpec != "" <==> site.spec.releaseSpec != "" || o.defaultRelease != "")
  {
  }

  /**
   * Without a release and without a default one there is no rest: every fault-free reconcile writes the spec again, and
   * gets no further.
   */
  lemma NoReleaseNoRest(env: Oracle, w: World, o: Oracle)
    requires Unspecified(env, w) && FaultFree(o) && SameInputs(env, o)
    requires w.site.spec.releaseSpec == "" && o.defaultRelease == ""
    ensures Log(w, o) == [SiteWritten(CompleteSpec(w.site, o))]
    ensures Unspecified(env, Reconciled(w, o).session.world)
    ensures Reconciled(w, o).session.world.site.spec.releaseSpec == ""
  {
    hide ReleaseId, CompleteSpec, MergeClone, Reconciled, FaultFree, SameInputs;
    CompletesAny(env, w, o);
    CompletedIsMerged(env, w.site, o);
  }
}
