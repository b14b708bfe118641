// The DrupalSite custom resource and the setters of its status conditions.
module DrupalSites {
  import opened Kube

  // Condition reasons the operator writes.
  const ERR_INVALID_SPEC := "InvalidSpec"
  const ERR_CLIENT_K8S := "k8sAPIClientError"
  const ERR_POD_EXEC := "ExecInPodError"
  const ERR_DBOD := "DBODError"
  const ERR_DEPLOYMENT_UPDATE_FAILED := "DeploymentUpdateError"
  const ERR_DB_UPDATE_FAILED := "DBUpdateError"
  const ERR_CACHE := "Error clearing cache"

  datatype Truth = True | False | Unknown

  /** One entry of the condition list, or its absence. */
  datatype Condition = Absent | Present(truth: Truth, reason: string) {
    /** `ConditionTrue` of the source. */
    predicate Holds() { Present? && truth == True }
  }

  datatype ConditionType = Ready | Initialized | Error | CodeUpdateFailed | DBUpdatesPending | DBUpdatesFailed

  /** The condition list holds at most one entry per type, so it is a record of entries. */
  datatype Conditions = Conditions(
    ready: Condition,
    initialized: Condition,
    error: Condition,
    codeUpdateFailed: Condition,
    dbUpdatesPending: Condition,
    dbUpdatesFailed: Condition)
  {
    function Get(t: ConditionType): Condition {
      match t
      case Ready => ready
      case Initialized => initialized
      case Error => error
      case CodeUpdateFailed => codeUpdateFailed
      case DBUpdatesPending => dbUpdatesPending
      case DBUpdatesFailed => dbUpdatesFailed
    }

    function Put(t: ConditionType, c: Condition): Conditions {
      match t
      case Ready => this.(ready := c)
      case Initialized => this.(initialized := c)
      case Error => this.(error := c)
      case CodeUpdateFailed => this.(codeUpdateFailed := c)
      case DBUpdatesPending => this.(dbUpdatesPending := c)
      case DBUpdatesFailed => this.(dbUpdatesFailed := c)
    }
  }

  /** Setting one condition changes that one and no other. */
  lemma PutChangesOne(c: Conditions, t: ConditionType, v: Condition, u: ConditionType)
    ensures c.Put(t, v).Get(u) == if u == t then v else c.Get(u)
    ensures c.Get(Ready) == c.ready && c.Get(Initialized) == c.initialized && c.Get(Error) == c.error
    ensures c.Get(CodeUpdateFailed) == c.codeUpdateFailed && c.Get(DBUpdatesPending) == c.dbUpdatesPending
    ensures c.Get(DBUpdatesFailed) == c.dbUpdatesFailed
    ensures v.Holds() <==> exists reason :: v == Present(True, reason)
  {
    if v.Holds() {
      assert v == Present(True, v.reason);
    }
  }

  datatype QoS = Critical | Standard | Test

  datatype Spec = Spec(
    versionName: string,
    releaseSpec: string,
    extraConfigurationRepo: string,
    qos: QoS,
    cloneFrom: string,
    easystart: string,
    scheduledBackups: string,
    webDAVPassword: string)

  datatype Meta = Meta(
    finalizer: bool,
    deleting: bool,
    paused: bool,
    updateInProgress: Option<string>)

  datatype Status = Status(
    conditions: Conditions,
    current: string,
    failsafe: string,
    servingPodImage: string,
    backups: seq<string>,
    expectedReplicas: Option<nat>,
    webhookURL: string,
    isPrimary: bool)

  datatype Site = Site(name: string, namespace: string, uid: string, meta: Meta, spec: Spec, status: Status) {
    predicate Is(t: ConditionType) { status.conditions.Get(t).Holds() }
  }

  /** The image tag of the version the spec asks for. */
  function ReleaseId(spec: Spec): string {
    spec.versionName + "-" + spec.releaseSpec
  }

  function WithCondition(s: Site, t: ConditionType, c: Condition): Site {
    s.(status := s.status.(conditions := s.status.conditions.Put(t, c)))
  }

  /** The annotation value that stops the ordinary deployment updates. */
  const IN_PROGRESS := Some("true")

  function WithUpdateInProgress(s: Site, v: Option<string>): Site {
    s.(meta := s.meta.(updateInProgress := v))
  }

  /** The resource as the reconciler holds it in memory between a read and a write. */
  class DrupalSite {
    const name: string
    const namespace: string
    const uid: string
    var meta: Meta
    var spec: Spec
    var status: Status

    constructor (stored: Site)
      ensures View() == stored
    {
      name, namespace, uid := stored.name, stored.namespace, stored.uid;
      meta, spec, status := stored.meta, stored.spec, stored.status;
    }

    function View(): Site
      reads this
    {
      Site(name, namespace, uid, meta, spec, status)
    }

    predicate ConditionTrue(t: ConditionType)
      reads this
    {
      status.conditions.Get(t).Holds()
    }

    /** Adds or replaces a condition and reports whether anything changed. */
    method SetCondition(t: ConditionType, truth: Truth, reason: string) returns (update: bool)
      modifies this`status
      ensures status == old(status).(conditions := old(status).conditions.Put(t, Present(truth, reason)))
      ensures update <==> status != old(status)
      ensures update <==> old(status).conditions.Get(t) != Present(truth, reason)
    {
      var c := Present(truth, reason);
      update := status.conditions.Get(t) != c;
      status := status.(conditions := status.conditions.Put(t, c));
    }

    method RemoveCondition(t: ConditionType) returns (update: bool)
      modifies this`status
      ensures status == old(status).(conditions := old(status).conditions.Put(t, Absent))
      ensures update <==> status != old(status)
      ensures update <==> old(status).conditions.Get(t) != Absent
    {
      update := status.conditions.Get(t).Present?;
      status := status.(conditions := status.conditions.Put(t, Absent));
    }

    method SetUpdateInProgress() returns (update: bool)
      modifies this`meta
      ensures meta == old(meta).(updateInProgress := IN_PROGRESS)
      ensures update <==> meta != old(meta)
    {
      if meta.updateInProgress == IN_PROGRESS {
        return false;
      }
      meta := meta.(updateInProgress := IN_PROGRESS);
      return true;
    }

    method UnsetUpdateInProgress() returns (update: bool)
      modifies this`meta
      ensures meta == old(meta).(updateInProgress := None)
      ensures update <==> meta != old(meta)
    {
      if meta.updateInProgress.None? {
        return false;
      }
      meta := meta.(updateInProgress := None);
      return true;
    }
  }
}
