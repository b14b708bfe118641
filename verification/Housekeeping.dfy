// The chores a reconcile does before it looks at the update: completing the spec, the status and the list of backups,
// and what the claim to the primary site leaves behind.
module Housekeeping {
  import opened DrupalSites
  import opened DeploymentLaws
  import opened Workflow
  import opened Calm

  // ------------------------------------------------------------------ chores

  function Weight(todo: bool, n: nat): nat {
    if todo then n else 0
  }

  /** The claim to the primary site and what depends on it; a claim can put the site out of step once more. */
  ghost function Standing(env: Oracle, w: World): nat {
    Weight(!Claimed(env, w), 4) + Weight(!Synced(env, w), 2) + Weight(!Scheduled(w), 1)
  }

  /** What is left to do on the site and in the project. */
  ghost function Chores(env: Oracle, w: World): nat {
    Weight(SpecIncomplete(w.site), 1) + Standing(env, w) + Weight(!Listed(env, w), 1) + Weight(!Scaled(env, w), 1)
  }

  // ------------------------------------------------------------------ the claim

  /** The rest of the world as the claim to the primary site leaves it. */
  ghost predicate AfterClaim(env: Oracle, w: World, next: World) {
    && next.primary == ClaimedSession(env, w).world.primary
    && next.site.name == w.site.name
    && next.site.spec == w.site.spec
    && next.site.meta.finalizer == w.site.meta.finalizer
    && next.site.status.current == w.site.status.current
    && next.site.status.conditions.ready == w.site.status.conditions.ready
    && next.site.status.conditions.initialized == w.site.status.conditions.initialized
    && Serving(next) == Serving(w)
    && next.site.status.webhookURL == w.site.status.webhookURL
    && (next.site.status.failsafe == ReleaseId(w.site.spec) ==>
      !next.site.Is(CodeUpdateFailed) && !next.site.Is(DBUpdatesFailed))
    && (next.site.status.isPrimary == w.site.status.isPrimary
      || next.site.status.isPrimary == ClaimedSession(env, w).site.status.isPrimary)
    && (next.schedule == w.schedule || next.schedule == WantsSchedule(ClaimedSession(env, w).site))
    && (!Scaled(env, w) || next.site.status.expectedReplicas == w.site.status.expectedReplicas)
    && (!Listed(env, w) || next.site.status.backups == w.site.status.backups)
  }

  /** A claim made is worth more than what it puts out of step. */
  lemma StandingAfterClaim(env: Oracle, w: World, next: World)
    requires Synced(env, w) && w.site.name != "" && AfterClaim(env, w, next)
    ensures Standing(env, next) <= Standing(env, w)
    ensures !Claimed(env, w) ==> Standing(env, next) < Standing(env, w)
    ensures !Scheduled(w) && next.schedule == WantsSchedule(ClaimedSession(env, w).site) ==>
      Standing(env, next) < Standing(env, w)
  {
    hide ReleaseId, Synced, WantsSchedule, Scaled, Listed;
    ClaimedFacts(env, w);
    if Claimed(env, w) {
      SyncedAfterClaim(env, w, next);
      ScheduledAfterClaim(env, w, next);
    } else {
      ClaimIsMade(env, w, next);
    }
  }

  lemma ClaimIsMade(env: Oracle, w: World, next: World)
    requires w.site.name != "" && AfterClaim(env, w, next)
    ensures Claimed(env, next)
  {
    hide Synced, WantsSchedule, Scaled, Listed;
  }

  lemma SyncedAfterClaim(env: Oracle, w: World, next: World)
    requires Synced(env, w) && Claimed(env, w) && AfterClaim(env, w, next)
    ensures Synced(env, next)
  {
    hide ReleaseId, WantsSchedule, Scaled, Listed;
  }

  lemma ScheduledAfterClaim(env: Oracle, w: World, next: World)
    requires Claimed(env, w) && AfterClaim(env, w, next)
    ensures Scheduled(w) || next.schedule == WantsSchedule(ClaimedSession(env, w).site) ==> Scheduled(next)
  {
    hide Scaled, Listed;
  }

  /** After the claim no chore is added. */
  lemma ChoresAfterClaim(env: Oracle, w: World, next: World)
    requires Synced(env, w) && w.site.name != "" && AfterClaim(env, w, next)
    ensures Chores(env, next) <= Chores(env, w)
    ensures !Claimed(env, w) ==> Chores(env, next) < Chores(env, w)
    ensures !Scaled(env, w) && Scaled(env, next) ==> Chores(env, next) < Chores(env, w)
    ensures !Listed(env, w) && Listed(env, next) ==> Chores(env, next) < Chores(env, w)
    ensures !Scheduled(w) && next.schedule == WantsSchedule(ClaimedSession(env, w).site) ==>
      Chores(env, next) < Chores(env, w)
  {
    hide ReleaseId, Standing, Synced, Scheduled, WantsSchedule, ClaimedSession, Claimed;
    StandingAfterClaim(env, w, next);
  }

  lemma SyncedUnfailed(env: Oracle, w: World)
    requires Synced(env, w)
    ensures w.site.status.failsafe == ReleaseId(w.site.spec) ==>
      !w.site.Is(CodeUpdateFailed) && !w.site.Is(DBUpdatesFailed)
  {
  }

  // ------------------------------------------------------------------ the steps before anything is assessed

  /** The spec is complete, the status in step with what is observed, and the backups listed. */
  ghost predicate Tidy(env: Oracle, w: World) {
    !SpecIncomplete(w.site) && Synced(env, w) && Listed(env, w)
  }

  /** The spec is at the failsafe release, where failures are lifted. */
  ghost predicate Restored(w: World) {
    w.site.status.failsafe == ReleaseId(w.site.spec)
  }

  /** Nothing that an update depends on differs; only failures of a restored site may have been lifted. */
  ghost predicate SameUpdate(w: World, next: World) {
    && next.deploy == w.deploy && SameShape(w.site, next.site) && ReleaseId(next.site.spec) == ReleaseId(w.site.spec)
    && next.site.status.failsafe == w.site.status.failsafe
    && next.site.meta.updateInProgress == w.site.meta.updateInProgress
    && next.site.status.conditions.dbUpdatesPending == w.site.status.conditions.dbUpdatesPending
    && (next.site.Is(CodeUpdateFailed) ==> w.site.Is(CodeUpdateFailed))
    && (next.site.Is(DBUpdatesFailed) ==> w.site.Is(DBUpdatesFailed))
    && (!Restored(w) ==>
          && next.site.status.conditions.codeUpdateFailed == w.site.status.conditions.codeUpdateFailed
          && next.site.status.conditions.dbUpdatesFailed == w.site.status.conditions.dbUpdatesFailed)
  }

  /** A chore is done, and the update is left alone. */
  ghost predicate Tidier(env: Oracle, w: World, next: World) {
    && Managed(env, next) && next.site.name == w.site.name && SameUpdate(w, next) && Chores(env, next) < Chores(env, w)
    && !SpecIncomplete(next.site)
    && next.readyReplicas == w.readyReplicas && next.dbod == w.dbod && next.jobs == w.jobs
    && (next.site.Is(Initialized) <==> w.site.Is(Initialized)) && JobFor(next.site.spec) == JobFor(w.site.spec)
  }

  lemma TidierIsAlive(env: Oracle, w: World, next: World)
    requires Alive(env, w) && Tidier(env, w, next)
    ensures Alive(env, next)
  {
    hide ReleaseId, FixedSpec, Chores;
  }

  /** The world after the spec is completed. */
  function Completed(w: World, o: Oracle): World {
    w.(site := w.site.(meta := CompleteSpec(w.site, o).meta, spec := CompleteSpec(w.site, o).spec))
  }

  lemma CompletesSpec(env: Oracle, w: World, o: Oracle)
    requires FaultFree(o) && SameInputs(env, o) && Managed(env, w) && NothingNew(w, o) && SpecIncomplete(w.site)
    ensures Reconciled(w, o).session.world == Completed(w, o)
  {
    hide InitSpec, CompleteSpec, SpecIncomplete, MergeClone, SameInputs, FixedSpec;
    InitSpecPath(env, w, o);
    CompletedSpec(env, w, o);
  }

  /** Completing a spec with a release and a settled clone source adds the finalizer and a password. */
  lemma CompletedSpec(env: Oracle, w: World, o: Oracle)
    requires SameInputs(env, o) && FixedSpec(env, w.site.spec)
    ensures
      var c := CompleteSpec(w.site, o);
      c == w.site.(spec := c.spec, meta := c.meta) && c.spec == w.site.spec.(webDAVPassword := c.spec.webDAVPassword)
        && c.meta == w.site.meta.(finalizer := true)
      && !SpecIncomplete(c) && FixedSpec(env, c.spec)
  {
  }

  /** The world after the status was brought in step. */
  function Resynced(w: World, o: Oracle): World {
    w.(site := w.site.(status := NewStatus(Begin(w), o)))
  }

  lemma SyncsStatus(env: Oracle, w: World, o: Oracle)
    requires
      && FaultFree(o) && SameInputs(env, o) && Managed(env, w) && NothingNew(w, o) && !SpecIncomplete(w.site)
      && !Synced(env, w)
    ensures Reconciled(w, o).session.world == Resynced(w, o)
  {
    hide ToAssess, NewStatus, SpecIncomplete, SameInputs, Alive, Synced, AskInstalled, NothingNew;
    ToAssessAsked(env, w, o);
    AskingIsQuiet(w, o);
  }

  lemma ResyncedStatus(env: Oracle, w: World, o: Oracle)
    requires FaultFree(o) && SameInputs(env, o) && Managed(env, w) && NothingNew(w, o)
    ensures
      var st := NewStatus(Begin(w), o);
      st == w.site.status.(current := st.current, conditions := st.conditions, webhookURL := st.webhookURL,
        isPrimary := st.isPrimary)
      && (st.conditions.initialized.Holds() <==> w.site.Is(Initialized))
      && st.conditions.dbUpdatesPending == w.site.status.conditions.dbUpdatesPending
      && (st.conditions.codeUpdateFailed.Holds() ==> w.site.Is(CodeUpdateFailed))
      && (st.conditions.dbUpdatesFailed.Holds() ==> w.site.Is(DBUpdatesFailed))
      && (w.site.status.failsafe != ReleaseId(w.site.spec) ==>
            st.conditions.codeUpdateFailed == w.site.status.conditions.codeUpdateFailed
            && st.conditions.dbUpdatesFailed == w.site.status.conditions.dbUpdatesFailed)
    ensures Synced(env, Resynced(w, o))
  {
    hide ReleaseId, FoundReady, FoundInitialized;
    FoundReadyCalm(w, o);
  }

  /** The world after the list of backups was recorded. */
  function Relisted(env: Oracle, w: World): World
    requires env.backups.Some?
  {
    var s := ClaimedSession(env, w);
    s.world.(site := s.world.site.(status := s.site.status.(backups := env.backups.value)))
  }

  lemma ListsBackups(env: Oracle, w: World, o: Oracle)
    requires
      && FaultFree(o) && SameInputs(env, o) && Managed(env, w) && NothingNew(w, o) && !SpecIncomplete(w.site)
      && Synced(env, w) && !Listed(env, w)
    ensures Reconciled(w, o).session.world == Relisted(env, w)
  {
    hide ToAssess, SpecIncomplete, Alive, Synced, ClaimedFrom, ClaimedSession, Listed, AskInstalled, NothingNew;
    ToAssessAsked(env, w, o);
    AskingIsQuiet(w, o);
    ClaimIgnoresLog(env, w, AskInstalled(Begin(w), o).log);
  }

  lemma StepCompletes(env: Oracle, w: World, o: Oracle)
    requires Managed(env, w) && NothingNew(w, o) && FaultFree(o) && SameInputs(env, o) && SpecIncomplete(w.site)
    ensures Tidier(env, w, Completed(w, o))
  {
    hide CompleteSpec, FaultFree, SameInputs, SpecIncomplete, FixedSpec;
    CompletedSpec(env, w, o);
  }

  lemma StepSyncs(env: Oracle, w: World, o: Oracle)
    requires Managed(env, w) && NothingNew(w, o) && FaultFree(o) && SameInputs(env, o)
    requires !SpecIncomplete(w.site) && !Synced(env, w)
    ensures Tidier(env, w, Resynced(w, o))
  {
    hide FaultFree, SameInputs, FixedSpec, NewStatus, ReleaseId, Synced, NothingNew;
    ResyncedStatus(env, w, o);
  }

  lemma StepLists(env: Oracle, w: World)
    requires Managed(env, w) && w.site.name != "" && env.backups.Some?
    requires !SpecIncomplete(w.site) && Synced(env, w) && !Listed(env, w)
    ensures Tidier(env, w, Relisted(env, w))
  {
    hide FixedSpec, ReleaseId, ClaimedSession, Chores, WantsSchedule;
    ClaimedFacts(env, w);
    ChoresAfterClaim(env, w, Relisted(env, w));
  }

  /** An untidy site is tidied, one chore at a time, before anything is said about its update. */
  lemma Housekeeps(env: Oracle, w: World, o: Oracle)
    requires
      && Managed(env, w) && NothingNew(w, o) && w.site.name != "" && FaultFree(o) && SameInputs(env, o) && !Tidy(env, w)
    ensures Tidier(env, w, Reconciled(w, o).session.world)
  {
    hide Reconciled, Synced, Listed, SpecIncomplete, FaultFree, Alive, Completed, Resynced, Relisted, Tidier;
    if SpecIncomplete(w.site) {
      CompletesSpec(env, w, o);
      StepCompletes(env, w, o);
    } else if !Synced(env, w) {
      SyncsStatus(env, w, o);
      StepSyncs(env, w, o);
    } else {
      ListsBackups(env, w, o);
      StepLists(env, w);
    }
  }
}
