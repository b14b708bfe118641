// The API server as the operator uses it: stored objects that are written one call at a time, and the events so far.
module Clusters {
  import opened Kube
  import opened DrupalSites
  import opened Deployments
  import opened DeploymentObjects
  import opened Workflow
  import opened Pods

  class Cluster {
    /** What is stored. */
    var world: World

    /** The events before the current reconcile, and those of the current reconcile. */
    ghost var past: seq<Event>
    ghost var log: seq<Event>

    constructor (w: World)
      ensures world == w && past == [] && log == []
    {
      world := w;
      past, log := [], [];
    }

    /** Everything that ever happened. */
    ghost function Trace(): seq<Event>
      reads this
    {
      past + log
    }

    /** One event, and nothing else. */
    twostate predicate Does(e: Event)
      reads this
    {
      world == After1(old(world), e) && log == old(log) + [e] && past == old(past)
    }

    twostate predicate Idle()
      reads this
    {
      world == old(world) && log == old(log) && past == old(past)
    }

    /** A new reconcile begins with an empty log. */
    ghost method Begin()
      modifies `past, `log
      ensures log == [] && Trace() == old(Trace())
    {
      past, log := past + log, [];
    }

    /** Marks a point of a reconcile. */
    ghost method Note(e: Event)
      modifies `log
      ensures log == old(log) + [e]
    {
      log := log + [e];
    }

    // ---------------------------------------------------------------- calls of the operator

    /** Persists spec and metadata of the in-memory site; the status is a subresource of its own. */
    method Update(d: DrupalSite, write: Write) returns (outcome: Outcome)
      modifies `world, `log
      ensures if write == Accepted then Does(SiteWritten(d.View())) else Idle()
      ensures write == Accepted ==>
        && world.site == old(world).site.(meta := d.meta, spec := d.spec)
        && (world.gone <==> old(world).gone || (d.meta.deleting && !d.meta.finalizer))
        && world == old(world).(site := world.site, gone := world.gone)
      ensures outcome == match write case Accepted => Finished case Conflict => Requeued case Rejected => Errored
    {
      if write == Accepted {
        world := world.(site := world.site.(meta := d.meta, spec := d.spec));
        if d.meta.deleting && !d.meta.finalizer {
          world := world.(gone := true);
        }
        log := log + [SiteWritten(d.View())];
      }
      outcome := WriteOutcome(write);
    }

    method UpdateStatus(d: DrupalSite, write: Write) returns (outcome: Outcome)
      modifies `world, `log
      ensures if write == Accepted then Does(StatusWritten(d.status)) else Idle()
      ensures write == Accepted ==> world == old(world).(site := old(world).site.(status := d.status))
      ensures outcome == match write case Accepted => Finished case Conflict => Requeued case Rejected => Errored
    {
      if write == Accepted {
        world := world.(site := world.site.(status := d.status));
        log := log + [StatusWritten(d.status)];
      }
      outcome := WriteOutcome(write);
    }

    method UpdateProjectConfig(name: string, write: Write) returns (ok: bool)
      modifies `world, `log
      ensures if ok then Does(ConfigWritten(name)) else Idle()
      ensures ok ==> world == old(world).(primary := Some(name))
      ensures ok <==> write == Accepted
    {
      ok := write == Accepted;
      if ok {
        world := world.(primary := Some(name));
        log := log + [ConfigWritten(name)];
      }
    }

    /** Create-or-update of a deployment for a release of a site. */
    static function Deploying(current: Option<Deployment>, d: Site, release: string, config: Config,
        call: Call): Upsert<Deployment>
    {
      UpsertDeployment(current, Apply(Base(current), d, release, config), call)
    }

    /** Create-or-update with the deployment transformer as its mutation. */
    method UpsertSiteDeployment(d: Site, release: string, config: Config, call: Call, ghost author: Author)
      returns (r: Upsert<Deployment>)
      modifies `world, `log
      ensures r == Deploying(old(world).deploy, d, release, config, call)
      ensures Recorded(author, r)
    {
      hide Apply;
      var object_ := new DeploymentObject(Base(world.deploy));
      object_.DeploymentForDrupalSite(d, release, config);
      r := Store(object_, call, author);
    }

    /** Create-or-update with the configmap-hash writer as its mutation. */
    method UpsertHashes(hashes: Hashes, call: Call) returns (r: Upsert<Deployment>)
      requires world.deploy.Some?
      modifies `world, `log
      ensures r == UpsertDeployment(old(world).deploy, SetHashes(old(world).deploy.value, hashes), call)
      ensures Recorded(ByHashes, r)
    {
      hide SetHashes;
      var object_ := new DeploymentObject(world.deploy.value);
      object_.UpdateDeploymentAnnotations(hashes);
      r := Store(object_, call, ByHashes);
    }

    /** The deployment and the log after a create-or-update. */
    twostate predicate Recorded(author: Author, r: Upsert<Deployment>)
      reads this
    {
      match r
      case Created(d) => Does(DeploymentWritten(author, d))
      case Updated(d) => Does(DeploymentWritten(author, d))
      case _ => Idle()
    }

    /** Writes an edited object if it differs from the stored one. */
    method Store(object_: DeploymentObject, call: Call, ghost author: Author) returns (r: Upsert<Deployment>)
      modifies `world, `log
      ensures r.Refused? <==> call.readFails || (old(world).deploy != Some(object_.View()) && call.write != Accepted)
      ensures r.Refused? ==> (r.conflict <==> !call.readFails && call.write == Conflict) && world == old(world)
      ensures !r.Refused? && old(world).deploy.Some? ==> world == old(world).(deploy := Some(object_.View()))
      ensures !r.Refused? && old(world).deploy.None? ==>
        world == old(world).(deploy := Some(object_.View().(created := true)))
      ensures r == UpsertDeployment(old(world).deploy, object_.View(), call)
      ensures Recorded(author, r)
    {
      var wanted := object_.View();
      if call.readFails {
        return Refused(false);
      }
      if world.deploy == Some(wanted) {
        return Unchanged;
      }
      if call.write != Accepted {
        return Refused(call.write == Conflict);
      }
      if world.deploy.None? {
        wanted := Stored(wanted);
        r := Created(wanted);
      } else {
        r := Updated(wanted);
      }
      world := world.(deploy := Some(wanted));
      log := log + [DeploymentWritten(author, wanted)];
    }

    /** Creates a job unless it is there. */
    method EnsureJob(job: Job, call: Call) returns (failed: bool)
      modifies `world, `log
      ensures failed <==> call.readFails || (job !in old(world).jobs && call.write != Accepted)
      ensures !failed ==> job in world.jobs
      ensures failed <==> !CallSucceeds(call, job !in old(world).jobs)
      ensures if job !in old(world).jobs && CallSucceeds(call, true) then Does(JobCreated(job)) else Idle()
    {
      if call.readFails {
        return true;
      }
      if job in world.jobs {
        return false;
      }
      if call.write != Accepted {
        return true;
      }
      world := world.(jobs := world.jobs + {job});
      log := log + [JobCreated(job)];
      return false;
    }

    method EnsureBackupSchedule(call: Call) returns (failed: bool)
      modifies `world, `log
      ensures failed <==> call.readFails || (!old(world).schedule && call.write != Accepted)
      ensures !failed ==> world.schedule
      ensures failed <==> !CallSucceeds(call, !old(world).schedule)
      ensures if !old(world).schedule && CallSucceeds(call, true) then Does(ScheduleCreated) else Idle()
    {
      if call.readFails {
        return true;
      }
      if world.schedule {
        return false;
      }
      if call.write != Accepted {
        return true;
      }
      world := world.(schedule := true);
      log := log + [ScheduleCreated];
      return false;
    }

    method EnsureNoBackupSchedule(call: Call) returns (failed: bool)
      modifies `world, `log
      ensures failed <==> call.readFails || (old(world).schedule && call.write != Accepted)
      ensures !failed ==> !world.schedule
      ensures failed <==> !CallSucceeds(call, old(world).schedule)
      ensures if old(world).schedule && CallSucceeds(call, true) then Does(ScheduleDeleted) else Idle()
    {
      if call.readFails {
        return true;
      }
      if !world.schedule {
        return false;
      }
      if call.write != Accepted {
        return true;
      }
      world := world.(schedule := false);
      log := log + [ScheduleDeleted];
      return false;
    }

    /** The first pod of a release. */
    static method GetPodForVersion(pods: seq<Pod>, release: string) returns (pod: Option<Pod>)
      ensures pod.None? ==> forall i :: 0 <= i < |pods| ==> pods[i].release != release
      ensures pod.Some? ==> exists i ::
        && 0 <= i < |pods| && pods[i] == pod.value && pods[i].release == release
        && forall j :: 0 <= j < i ==> pods[j].release != release
      ensures pod == PodFor(pods, release)
    {
      ChosenPod(pods, release);
      for i := 0 to |pods|
        invariant forall j :: 0 <= j < i ==> pods[j].release != release
      {
        if pods[i].release == release {
          assert FirstOf(pods, release, pods[i]);
          return Some(pods[i]);
        }
      }
      return None;
    }

    /** Runs a command in the first pod of the release, if that pod is running. */
    method ExecToServerPod(c: Command, x: Exec, release: string) returns (output: Option<string>)
      modifies `log
      ensures forall p :: RunsIn(x, release, p) ==> Does(Executed(c, p, x.output)) && output == x.output
      ensures !HasRunner(x, release) ==> Idle() && output.None?
      ensures output == ExecOutput(x, release)
      ensures if ExecPod(x, release).Some? then Does(Executed(c, ExecPod(x, release).value, x.output)) else Idle()
    {
      CommandRuns(x, release);
      if x.pods.None? {
        return None;
      }
      var pod := GetPodForVersion(x.pods.value, release);
      if pod.None? || pod.value.phase != Running {
        return None;
      }
      log := log + [Executed(c, pod.value, x.output)];
      return x.output;
    }
  }
}
