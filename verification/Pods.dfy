// Which pod of a list the operator looks at, when a command runs, and what the pod says about a rollout.
module Pods {
  import opened Kube
  import opened Workflow

  /** `p` is the first pod of the list with the release. */
  ghost predicate FirstOf(pods: seq<Pod>, release: string, p: Pod) {
    exists i :: 0 <= i < |pods| && pods[i] == p && p.release == release && forall j :: 0 <= j < i ==>
      pods[j].release != release
  }

  /** No pod of the list has the release. */
  ghost predicate NoneOf(pods: seq<Pod>, release: string) {
    forall i :: 0 <= i < |pods| ==> pods[i].release != release
  }

  /** The pod chosen for a release is the first one that has it, if any pod has. */
  lemma {:induction false} ChosenPod(pods: seq<Pod>, release: string)
    ensures PodFor(pods, release).None? <==> NoneOf(pods, release)
    ensures forall p :: PodFor(pods, release) == Some(p) <==> FirstOf(pods, release, p)
    decreases |pods|
  {
    if pods != [] {
      var rest := pods[1..];
      assert forall i :: 0 <= i < |rest| ==> rest[i] == pods[i + 1];
      ChosenPod(rest, release);
      if pods[0].release != release {
        forall p ensures FirstOf(pods, release, p) <==> FirstOf(rest, release, p) {
          FirstOfRest(pods, release, p);
        }
      } else {
        forall p ensures FirstOf(pods, release, p) <==> p == pods[0] {
          if FirstOf(pods, release, p) {
            var i :| 0 <= i < |pods| && pods[i] == p && forall j :: 0 <= j < i ==> pods[j].release != release;
          }
        }
      }
    }
  }

  lemma FirstOfRest(pods: seq<Pod>, release: string, p: Pod)
    requires pods != [] && pods[0].release != release
    ensures FirstOf(pods, release, p) <==> FirstOf(pods[1..], release, p)
  {
    var rest := pods[1..];
    if FirstOf(pods, release, p) {
      var i :| 0 <= i < |pods| && pods[i] == p && forall j :: 0 <= j < i ==> pods[j].release != release;
      assert rest[i - 1] == p && forall j :: 0 <= j < i - 1 ==> rest[j] == pods[j + 1];
    }
    if FirstOf(rest, release, p) {
      var i :| 0 <= i < |rest| && rest[i] == p && forall j :: 0 <= j < i ==> rest[j].release != release;
      forall j | 0 <= j < i + 1 ensures pods[j].release != release {
        assert j > 0 ==> pods[j] == rest[j - 1];
      }
      assert pods[i + 1] == p;
    }
  }

  // ------------------------------------------------------------------ commands

  /** The first pod of the release is running. */
  ghost predicate RunsIn(x: Exec, release: string, p: Pod) {
    x.pods.Some? && FirstOf(x.pods.value, release, p) && p.phase == Running
  }

  ghost predicate HasRunner(x: Exec, release: string) {
    exists p :: RunsIn(x, release, p)
  }

  /** A command runs in the first pod of the release exactly when that pod is running, and answers only then. */
  lemma CommandRuns(x: Exec, release: string)
    ensures forall p :: ExecPod(x, release) == Some(p) <==> RunsIn(x, release, p)
    ensures ExecPod(x, release).Some? <==> HasRunner(x, release)
    ensures ExecOutput(x, release) == if HasRunner(x, release) then x.output else None
  {
    if x.pods.Some? {
      ChosenPod(x.pods.value, release);
    }
    if ExecPod(x, release).Some? {
      assert RunsIn(x, release, ExecPod(x, release).value);
    }
  }

  // ------------------------------------------------------------------ rollouts

  /** A pod that will not come up: it failed, or is lost, or has been pending for ten minutes. */
  predicate Hopeless(p: Pod) {
    p.phase == Failed || p.phase == PhaseUnknown || (p.phase == Pending && p.age >= 600)
  }

  /** A pod that may still come up. */
  predicate Young(p: Pod) {
    p.phase == Pending && p.age < 600
  }

  predicate CameUp(p: Pod) {
    p.phase == Running || p.phase == Succeeded
  }

  ghost predicate BrokenPods(pods: Option<seq<Pod>>, release: string) {
    pods.Some? && exists p :: FirstOf(pods.value, release, p) && Hopeless(p)
  }

  ghost predicate WaitingPods(pods: Option<seq<Pod>>, release: string) {
    pods.None? || NoneOf(pods.value, release) || exists p :: FirstOf(pods.value, release, p) && Young(p)
  }

  ghost predicate RunningPods(pods: Option<seq<Pod>>, release: string) {
    pods.Some? && exists p :: FirstOf(pods.value, release, p) && CameUp(p)
  }

  /** The verdict on a rollout, from the pods. */
  lemma RolloutFromPods(pods: Option<seq<Pod>>, release: string)
    ensures CheckRollout(pods, release) == Broken <==> BrokenPods(pods, release)
    ensures CheckRollout(pods, release) == Waiting <==> WaitingPods(pods, release)
    ensures CheckRollout(pods, release) == RolledOut <==> RunningPods(pods, release)
  {
    if pods.Some? {
      ChosenPod(pods.value, release);
      if PodFor(pods.value, release).Some? {
        assert FirstOf(pods.value, release, PodFor(pods.value, release).value);
      }
    }
  }
}
