// What ensuring the resources can do to the world, event by event.
module EnsureFacts {
  import opened Kube
  import opened DrupalSites
  import opened Deployments
  import opened Workflow
  import opened ReconcileFacts

  /** The deployment between the ordinary update and the hash writer. */
  function Ensured1(s: Session, o: Oracle): Option<Deployment> {
    Result(s.world.deploy, EnsureUpsert(s, o))
  }

  /** Events possible while the resources of session `s` are ensured. */
  ghost predicate Middle(w: World, o: Oracle, s: Session, e: Event) {
    match e
    case StatusWritten(st) => Keeps(w.site, st)
    case DeploymentWritten(author, d) =>
      || (author == ByResources && (EnsureUpsert(s, o) == Created(d) || EnsureUpsert(s, o) == Updated(d)))
      || (author == ByHashes && Ensured1(s, o).Some? && o.configmaps.ConfigmapsFound?
          && d == SetHashes(Ensured1(s, o).value, o.configmaps.hashes))
    case JobCreated(j) => WantsJob(s, o) && j == JobFor(s.site.spec) && j !in w.jobs
    case ScheduleCreated => WantsSchedule(s.site)
    case ScheduleDeleted => !WantsSchedule(s.site)
    case _ => Light(e)
  }

  /** A session somewhere between the start and the end of `Ensure(s, o)`. */
  ghost predicate InMiddle(w: World, o: Oracle, s: Session, t: Session) {
    && Coherent(w, t)
    && t.site == s.site && t.codeNeeded == s.codeNeeded && t.dbNeeded == s.dbNeeded && t.flagged == s.flagged
    && t.world == s.world.(deploy := t.world.deploy, jobs := t.world.jobs, schedule := t.world.schedule)
    && Unwritten(t.log)
    && forall e :: e in t.log ==> Middle(w, o, s, e)
  }

  /** A reconcile that ended while ensuring the resources of `s`. */
  ghost predicate StoppedMiddle(w: World, o: Oracle, s: Session, t: Session) {
    Coherent(w, t) && forall e :: e in t.log ==> Middle(w, o, s, e)
  }

  lemma DecidedInMiddle(w: World, o: Oracle, s: Session)
    requires Decided(w, o, s)
    ensures InMiddle(w, o, s, s)
  {
  }

  lemma EmitInMiddle(w: World, o: Oracle, s: Session, t: Session, e: Event)
    requires InMiddle(w, o, s, t) && Middle(w, o, s, e)
    requires e.DeploymentWritten? || e.JobCreated? || e.ScheduleCreated? || e.ScheduleDeleted?
    ensures InMiddle(w, o, s, Emit(t, e))
  {
    hide Middle;
    EmitCoherent(w, t, e);
  }

  lemma StopStatusMiddle(w: World, o: Oracle, s: Session, t: Session, st: Status)
    requires InMiddle(w, o, s, t) && Keeps(w.site, st)
    ensures
      var u := t.(site := t.site.(status := st));
      StoppedMiddle(w, o, s, WriteStatus(u, o).session) && StoppedMiddle(w, o, s, Transient(u, o).session)
  {
    EmitCoherent(w, t.(site := t.site.(status := st)), StatusWritten(st));
  }

  lemma SyncReplicasFacts(w: World, o: Oracle, s: Session)
    requires InMiddle(w, o, s, s) && Keeps(w.site, s.site.status)
    ensures
      match SyncReplicas(s, o)
      case Stop(t, _) => StoppedMiddle(w, o, s, t)
      case Go(t) => t == s && Replicas(s, o).Some? && s.site.status.expectedReplicas == Replicas(s, o)
  {
    hide WriteStatus, Transient, InMiddle, StoppedMiddle, Replicas;
    assert s == s.(site := s.site.(status := s.site.status));
    StopStatusMiddle(w, o, s, s, s.site.status);
    InMiddleStops(w, o, s, s);
    var n := Replicas(s, o);
    if n.Some? {
      StopStatusMiddle(w, o, s, s, s.site.status.(expectedReplicas := n));
    }
  }

  lemma StopNotReady(w: World, o: Oracle, s: Session, t: Session, reason: string)
    requires InMiddle(w, o, s, t) && Keeps(w.site, s.site.status)
    ensures StoppedMiddle(w, o, s, TransientNotReady(t, reason, o).session)
  {
    hide Middle;
    StopStatusMiddle(w, o, s, t, WithCondition(t.site, Ready, Present(False, reason)).status);
  }

  lemma EnsureResourcesFacts(w: World, o: Oracle, s: Session)
    requires InMiddle(w, o, s, s) && Keeps(w.site, s.site.status) && s.world.jobs == w.jobs
    ensures
      match EnsureResources(s, o)
      case Stop(t, _) => StoppedMiddle(w, o, s, t)
      case Go(t) => InMiddle(w, o, s, t) && t.world.deploy == Ensured1(s, o) && !EnsureUpsert(s, o).Refused?
  {
    hide InMiddle, StoppedMiddle, TransientNotReady, EnsureUpsert;
    var r := EnsureUpsert(s, o);
    var s1 := Record(s, ByResources, r);
    RecordFacts(w, o, s, s, ByResources, r);
    var s2 := EnsureJob(s1, o);
    JobFacts(w, o, s, s1);
    var s3 := EnsureSchedule(s2, o);
    ScheduleFacts(w, o, s, s2);
    StopNotReady(w, o, s, s3, ERR_CLIENT_K8S);
  }

  lemma RecordFacts(w: World, o: Oracle, s: Session, t: Session, author: Author, r: Upsert<Deployment>)
    requires InMiddle(w, o, s, t)
    requires forall d :: r == Created(d) || r == Updated(d) ==> Middle(w, o, s, DeploymentWritten(author, d))
    ensures
      var u := Record(t, author, r);
      InMiddle(w, o, s, u) && u.world == t.world.(deploy := Result(t.world.deploy, r))
  {
    hide InMiddle, Middle;
    match r {
      case Created(d) => EmitInMiddle(w, o, s, t, DeploymentWritten(author, d));
      case Updated(d) => EmitInMiddle(w, o, s, t, DeploymentWritten(author, d));
      case _ =>
    }
  }

  lemma JobFacts(w: World, o: Oracle, s: Session, t: Session)
    requires InMiddle(w, o, s, t) && t.world.jobs == w.jobs
    ensures InMiddle(w, o, s, EnsureJob(t, o)) && EnsureJob(t, o).world.deploy == t.world.deploy
  {
    var job := JobFor(t.site.spec);
    if EnsureJob(t, o) != t {
      EmitInMiddle(w, o, s, t, JobCreated(job));
    }
  }

  lemma ScheduleFacts(w: World, o: Oracle, s: Session, t: Session)
    requires InMiddle(w, o, s, t)
    ensures InMiddle(w, o, s, EnsureSchedule(t, o)) && EnsureSchedule(t, o).world.deploy == t.world.deploy
  {
    if EnsureSchedule(t, o) != t {
      EmitInMiddle(w, o, s, t, if WantsSchedule(t.site) then ScheduleCreated else ScheduleDeleted);
    }
  }

  lemma EnsureHashesFacts(w: World, o: Oracle, s: Session, t: Session)
    requires InMiddle(w, o, s, t) && Keeps(w.site, s.site.status) && t.world.deploy == Ensured1(s, o)
    ensures
      match EnsureHashes(t, o)
      case Stop(u, _) => StoppedMiddle(w, o, s, u)
      case Go(u) =>
        && InMiddle(w, o, s, u) && u.world.deploy == Result(t.world.deploy, HashUpsert(t, o))
        && !HashUpsert(t, o).Refused?
  {
    hide InMiddle, StoppedMiddle, TransientNotReady, Ensured1;
    StopNotReady(w, o, s, t, ERR_CLIENT_K8S);
    InMiddleStops(w, o, s, t);
    RecordFacts(w, o, s, t, ByHashes, HashUpsert(t, o));
  }

  lemma InMiddleStops(w: World, o: Oracle, s: Session, t: Session)
    requires InMiddle(w, o, s, t)
    ensures StoppedMiddle(w, o, s, t)
  {
  }

  lemma CheckDatabaseFacts(w: World, o: Oracle, s: Session, t: Session)
    requires InMiddle(w, o, s, t) && Keeps(w.site, s.site.status)
    ensures
      match CheckDatabase(t, o)
      case Stop(u, _) => StoppedMiddle(w, o, s, u)
      case Go(u) => u == t && t.world.dbod && !o.dbod3Fails
  {
    hide WriteStatus, Middle;
    StopStatusMiddle(w, o, s, t, WithCondition(t.site, Ready, Present(False, ERR_DBOD)).status);
    InMiddleStops(w, o, s, t);
  }

  /** The resources of `s` are ensured in `t`. */
  ghost predicate Ensured(w: World, o: Oracle, s: Session, t: Session) {
    && InMiddle(w, o, s, t)
    && Replicas(s, o).Some? && s.site.status.expectedReplicas == Replicas(s, o)
    && t.world.dbod && !o.dbod3Fails
    && !EnsureUpsert(s, o).Refused?
    && (t.world.deploy == Ensured1(s, o)
        || (Ensured1(s, o).Some? && o.configmaps.ConfigmapsFound?
            && t.world.deploy == Some(SetHashes(Ensured1(s, o).value, o.configmaps.hashes))))
  }

  lemma EnsuredFacts(w: World, o: Oracle, s: Session)
    requires Decided(w, o, s)
    ensures
      match Ensure(s, o)
      case Stop(t, _) => StoppedMiddle(w, o, s, t)
      case Go(t) => Ensured(w, o, s, t)
  {
    hide InMiddle, StoppedMiddle, SyncReplicas, EnsureResources, EnsureHashes, CheckDatabase, EnsureUpsert, Replicas,
      ReleaseId, MergeClone, InStep, Assessed;
    DecidedInMiddle(w, o, s);
    SyncReplicasFacts(w, o, s);
    match SyncReplicas(s, o) {
      case Stop(_, _) =>
      case Go(s1) =>
        EnsureResourcesFacts(w, o, s);
        match EnsureResources(s1, o) {
          case Stop(_, _) =>
          case Go(s2) =>
            EnsureHashesFacts(w, o, s, s2);
            match EnsureHashes(s2, o) {
              case Stop(_, _) =>
              case Go(s3) =>
                CheckDatabaseFacts(w, o, s, s3);
            }
        }
    }
  }

  lemma ToPerformFacts(w: World, o: Oracle)
    ensures
      match ToPerform(w, o)
      case Stop(t, _) =>
        || (ToEnsure(w, o).Stop? && StoppedEarly(w, t))
        || (ToEnsure(w, o).Go? && StoppedMiddle(w, o, ToEnsure(w, o).session, t))
      case Go(t) => ToEnsure(w, o).Go? && Ensured(w, o, ToEnsure(w, o).session, t)
  {
    hide ToEnsure, Ensure, StoppedEarly, StoppedMiddle, Ensured, Decided;
    ToEnsureFacts(w, o);
    if ToEnsure(w, o).Go? {
      EnsuredFacts(w, o, ToEnsure(w, o).session);
    }
  }
}
