// The sites of a project share one configuration that names the primary site. Each site has at most one reconcile in
// progress; reads and writes are separate steps, and a write is accepted only if the object did not change since the
// read.
module ProjectConfig {
  import opened Kube

  /** A stored site: the version it was last written at, whether it is being deleted, whether the finalizer is on it. */
  datatype SiteObject = SiteObject(version: nat, deleting: bool, finalizer: bool)

  /** How far the reconcile of a site has come; a configuration read is the position of the version read. */
  datatype Worker =
    | Idle
    | SiteRead(copy: SiteObject)
    | Loaded(copy: SiteObject, read: Option<nat>)
    | Cleared(copy: SiteObject)

  /**
   * `history` holds every primary site name ever stored, the last one current; `seen` every site object ever stored.
   */
  datatype State = State(
    sites: map<string, SiteObject>,
    history: seq<string>,
    workers: map<string, Worker>,
    clock: nat,
    seen: set<(string, SiteObject)>)

  datatype Action =
    // users
    | CreateSite(name: string, finalizer: bool)
    | DeleteSite(name: string)
    | EditSite(name: string, finalizer: bool)
    | EditConfig(primary: string)
    // the operator
    | ReadSite(name: string, copy: SiteObject)
    | ReadConfig(name: string, read: Option<nat>)
    | AddFinalizer(name: string)
    | Proclaim(name: string)
    | Clear(name: string)
    | RemoveFinalizer(name: string)
    | GiveUp(name: string)

  predicate IsUser(a: Action) {
    a.CreateSite? || a.DeleteSite? || a.EditSite? || a.EditConfig?
  }

  /** The primary site, or the empty string. */
  function Primary(s: State): string {
    if s.history == [] then "" else s.history[|s.history| - 1]
  }

  function WorkerOf(s: State, name: string): Worker {
    if name in s.workers then s.workers[name] else Idle
  }

  function Working(s: State, name: string, w: Worker): State {
    s.(workers := s.workers[name := w])
  }

  /** Stores a site at a new version. */
  function StoreSite(s: State, name: string, deleting: bool, finalizer: bool): State {
    var x := SiteObject(s.clock, deleting, finalizer);
    s.(sites := s.sites[name := x], clock := s.clock + 1, seen := s.seen + {(name, x)})
  }

  /** A write of a site that is being deleted and has no finalizer left removes it. */
  function WriteSite(s: State, name: string, deleting: bool, finalizer: bool): State {
    if deleting && !finalizer then s.(sites := s.sites - {name}, clock := s.clock + 1)
      else StoreSite(s, name, deleting, finalizer)
  }

  function WriteConfig(s: State, primary: string): State {
    s.(history := s.history + [primary])
  }

  /** The optimistic lock on the configuration. */
  predicate Latest(s: State, read: Option<nat>) {
    read.Some? && read.value + 1 == |s.history|
  }

  /** What a configuration read says; no configuration, or a failed read, says nothing. */
  predicate ReadsAs(s: State, read: Option<nat>, primary: string) {
    read.Some? && read.value < |s.history| && s.history[read.value] == primary
  }

  ghost predicate Next(s: State, a: Action, t: State) {
    match a
    case CreateSite(n, finalizer) => n != "" && n !in s.sites && t == StoreSite(s, n, false, finalizer)
    case DeleteSite(n) => n in s.sites && t == WriteSite(s, n, true, s.sites[n].finalizer)
    case EditSite(n, finalizer) => n in s.sites && t == WriteSite(s, n, s.sites[n].deleting, finalizer)
    case EditConfig(p) => t == WriteConfig(s, p)
    case ReadSite(n, copy) => WorkerOf(s, n).Idle? && (n, copy) in s.seen && t == Working(s, n, SiteRead(copy))
    case ReadConfig(n, read) =>
      && WorkerOf(s, n).SiteRead? && (read.Some? ==> read.value < |s.history|)
      && t == Working(s, n, Loaded(WorkerOf(s, n).copy, read))
    case AddFinalizer(n) =>
      var w := WorkerOf(s, n);
      && w.Loaded? && !w.copy.deleting && !w.copy.finalizer
      && n in s.sites && s.sites[n] == w.copy && t == Working(WriteSite(s, n, false, true), n, Idle)
    case Proclaim(n) =>
      var w := WorkerOf(s, n);
      && w.Loaded? && !w.copy.deleting && w.copy.finalizer && ReadsAs(s, w.read, "")
      && Latest(s, w.read) && t == Working(WriteConfig(s, n), n, Idle)
    case Clear(n) =>
      var w := WorkerOf(s, n);
      && w.Loaded? && w.copy.deleting && w.copy.finalizer && ReadsAs(s, w.read, n)
      && Latest(s, w.read) && t == Working(WriteConfig(s, ""), n, Cleared(w.copy))
    case RemoveFinalizer(n) =>
      var w := WorkerOf(s, n);
      && (w.Cleared? || (w.Loaded? && w.copy.deleting && w.copy.finalizer && !ReadsAs(s, w.read, n)))
      && n in s.sites && s.sites[n] == w.copy && t == Working(WriteSite(s, n, true, false), n, Idle)
    case GiveUp(n) => t == Working(s, n, Idle)
  }

  ghost predicate IsRun(ss: seq<State>, acts: seq<Action>) {
    |ss| == |acts| + 1 && forall i :: 0 <= i < |acts| ==> Next(ss[i], acts[i], ss[i + 1])
  }

  /** No site, no reconcile, and a configuration that names no site, if there is one. */
  ghost predicate Initial(s: State) {
    s.sites == map[] && s.workers == map[] && s.seen == {} && (s.history == [] || s.history == [""])
  }

  // ------------------------------------------------------------------ a choice is never overwritten

  /** Every site object in hand was once stored. */
  ghost predicate Honest(s: State) {
    forall n :: n in s.workers && !s.workers[n].Idle? ==> (n, s.workers[n].copy) in s.seen
  }

  lemma StepKeepsHonest(s: State, a: Action, t: State)
    requires Honest(s) && Next(s, a, t)
    ensures Honest(t) && s.seen <= t.seen
  {
  }

  /** A site of this name has been marked for deletion. */
  ghost predicate WasDeleting(s: State, name: string) {
    exists x: SiteObject :: x.deleting && (name, x) in s.seen
  }

  /** A write of the operator claims an open place for its own site, or gives up the place of its own deleted site. */
  ghost predicate OwnPlace(s: State, name: string, t: State) {
    || (Primary(s) == "" && t.history == s.history + [name])
    || (Primary(s) == name && t.history == s.history + [""] && WasDeleting(s, name))
  }

  lemma StepRespectsChoice(s: State, a: Action, t: State)
    requires Honest(s) && Next(s, a, t) && !IsUser(a)
    ensures t.history == s.history || OwnPlace(s, a.name, t)
  {
    if a.Clear? {
      assert (a.name, WorkerOf(s, a.name).copy) in s.seen;
    }
  }

  lemma {:induction false} RunIsHonest(ss: seq<State>, acts: seq<Action>, i: nat)
    requires IsRun(ss, acts) && Honest(ss[0]) && i < |ss|
    ensures Honest(ss[i])
    decreases i
  {
    if i > 0 {
      RunIsHonest(ss, acts, i - 1);
      StepKeepsHonest(ss[i - 1], acts[i - 1], ss[i]);
    }
  }

  /**
   * Whatever the order of reconciles and user edits, and however old the reads, every accepted write of the operator
   * to the primary site name goes from empty to the name of its own site, or back during the deletion of that site.
   */
  lemma PrimaryWritesKeepToOwnPlace(ss: seq<State>, acts: seq<Action>, i: nat)
    requires IsRun(ss, acts) && Initial(ss[0]) && i < |acts| && !IsUser(acts[i])
    ensures ss[i + 1].history == ss[i].history || OwnPlace(ss[i], acts[i].name, ss[i + 1])
  {
    hide Next;
    RunIsHonest(ss, acts, i);
    StepRespectsChoice(ss[i], acts[i], ss[i + 1]);
  }

  /** Hence a choice stands: as long as no user changes it, it is given up only for a site that was deleted. */
  lemma {:induction false} ChoiceStands(ss: seq<State>, acts: seq<Action>, i: nat, j: nat)
    requires IsRun(ss, acts) && Initial(ss[0]) && i <= j < |ss|
    requires Primary(ss[i]) != ""
    requires forall k :: i <= k < j ==> !acts[k].EditConfig?
    ensures Primary(ss[j]) == Primary(ss[i]) || WasDeleting(ss[j], Primary(ss[i]))
    decreases j
  {
    hide Next;
    if i < j {
      ChoiceStands(ss, acts, i, j - 1);
      RunIsHonest(ss, acts, j - 1);
      StepKeepsHonest(ss[j - 1], acts[j - 1], ss[j]);
      if IsUser(acts[j - 1]) {
        UsersKeepConfig(ss[j - 1], acts[j - 1], ss[j]);
      } else {
        StepRespectsChoice(ss[j - 1], acts[j - 1], ss[j]);
      }
    }
  }

  lemma UsersKeepConfig(s: State, a: Action, t: State)
    requires Next(s, a, t) && IsUser(a) && !a.EditConfig?
    ensures t.history == s.history
  {
  }

  // ------------------------------------------------------------------ nothing is left dangling

  /** Reads succeed and are current, users leave the configuration and the finalizers alone. */
  ghost predicate Fresh(s: State, a: Action) {
    match a
    case EditConfig(_) => false
    case EditSite(n, finalizer) => n in s.sites && finalizer == s.sites[n].finalizer
    case ReadSite(n, copy) => n in s.sites && copy == s.sites[n]
    case ReadConfig(_, read) => Latest(s, read) || (read.None? && s.history == [])
    case _ => true
  }

  /** The primary site exists, and will not go without its own reconcile. */
  ghost predicate Anchored(s: State) {
    Primary(s) == "" || (Primary(s) in s.sites && s.sites[Primary(s)].finalizer)
  }

  /** A site in hand with a finalizer is still there. */
  ghost predicate Held(s: State, n: string) {
    var w := WorkerOf(s, n);
    !w.Idle? && w.copy.finalizer ==> n in s.sites && s.sites[n].finalizer
  }

  /** A reconcile about to let its site go has seen to it that the site is not the primary one. */
  ghost predicate Resigned(s: State, n: string) {
    var w := WorkerOf(s, n);
    && (w.Loaded? && w.read.Some? ==> w.read.value < |s.history|)
    && (w.Cleared? ==> w.copy.finalizer && w.copy.deleting && Primary(s) != n)
    && (w.Loaded? && w.copy.deleting && w.copy.finalizer && !ReadsAs(s, w.read, n) ==> Primary(s) != n)
  }

  ghost predicate Named(s: State, n: string) {
    !WorkerOf(s, n).Idle? ==> n != ""
  }

  ghost predicate Sound(s: State) {
    && Anchored(s) && "" !in s.sites
    && (forall n :: Held(s, n)) && (forall n :: Resigned(s, n)) && (forall n :: Named(s, n))
  }

  lemma StepKeepsHeld(s: State, a: Action, t: State, n: string)
    requires Sound(s) && Next(s, a, t) && Fresh(s, a)
    ensures Held(t, n) && Named(t, n)
  {
    assert Held(s, n) && Named(s, n);
  }

  lemma StepKeepsResigned(s: State, a: Action, t: State, n: string)
    requires Sound(s) && Next(s, a, t) && Fresh(s, a)
    ensures Resigned(t, n)
  {
    assert Held(s, n) && Resigned(s, n) && Named(s, n);
    if !a.EditConfig? && a.name != n {
      assert Named(s, a.name);
    }
  }

  lemma StepKeepsAnchored(s: State, a: Action, t: State)
    requires Sound(s) && Next(s, a, t) && Fresh(s, a)
    ensures Anchored(t) && "" !in t.sites
  {
    if !a.EditConfig? {
      assert Held(s, a.name) && Resigned(s, a.name) && Named(s, a.name);
    }
  }

  lemma StepKeepsSound(s: State, a: Action, t: State)
    requires Sound(s) && Next(s, a, t) && Fresh(s, a)
    ensures Sound(t)
  {
    hide Next, Fresh, Held, Resigned, Named, Anchored;
    StepKeepsAnchored(s, a, t);
    forall n ensures Held(t, n) && Resigned(t, n) && Named(t, n) {
      StepKeepsHeld(s, a, t, n);
      StepKeepsResigned(s, a, t, n);
    }
  }

  lemma InitialIsSound(s: State)
    requires Initial(s)
    ensures Sound(s) && Honest(s)
  {
    forall n ensures Held(s, n) && Resigned(s, n) && Named(s, n) {
      assert WorkerOf(s, n).Idle?;
    }
  }

  /**
   * With current and successful reads, and nobody but the operator writing the configuration, the primary site name is
   * at every moment of every interleaving empty or the name of a site that exists.
   */
  lemma {:induction false} NothingDangles(ss: seq<State>, acts: seq<Action>, i: nat)
    requires IsRun(ss, acts) && Initial(ss[0]) && i < |ss|
    requires forall k :: 0 <= k < i ==> Fresh(ss[k], acts[k])
    ensures Primary(ss[i]) == "" || Primary(ss[i]) in ss[i].sites
  {
    hide Next, Fresh;
    RunIsSound(ss, acts, i);
  }

  lemma {:induction false} RunIsSound(ss: seq<State>, acts: seq<Action>, i: nat)
    requires IsRun(ss, acts) && Initial(ss[0]) && i < |ss|
    requires forall k :: 0 <= k < i ==> Fresh(ss[k], acts[k])
    ensures Sound(ss[i])
    decreases i
  {
    hide Next, Fresh, Sound;
    if i == 0 {
      InitialIsSound(ss[0]);
    } else {
      RunIsSound(ss, acts, i - 1);
      StepKeepsSound(ss[i - 1], acts[i - 1], ss[i]);
    }
  }

  // ------------------------------------------------------------------ why the reads must be current

  /** The life of site "a": it becomes primary, is deleted, and its last reconcile reads the configuration at `read`. */
  function Life(read: Option<nat>): seq<Action> {
    [CreateSite("a", true), ReadSite("a", SiteObject(0, false, true)), ReadConfig("a", Some(0)), Proclaim("a"),
     DeleteSite("a"), ReadSite("a", SiteObject(1, true, true)), ReadConfig("a", read), RemoveFinalizer("a")]
  }

  function LifeStates(read: Option<nat>): seq<State> {
    var s0 := State(map[], [""], map[], 0, {});
    var s1 := StoreSite(s0, "a", false, true);
    var s2 := Working(s1, "a", SiteRead(SiteObject(0, false, true)));
    var s3 := Working(s2, "a", Loaded(SiteObject(0, false, true), Some(0)));
    var s4 := Working(WriteConfig(s3, "a"), "a", Idle);
    var s5 := StoreSite(s4, "a", true, true);
    var s6 := Working(s5, "a", SiteRead(SiteObject(1, true, true)));
    var s7 := Working(s6, "a", Loaded(SiteObject(1, true, true), read));
    var s8 := Working(WriteSite(s7, "a", true, false), "a", Idle);
    [s0, s1, s2, s3, s4, s5, s6, s7, s8]
  }

  /**
   * The primary site dangles after a failed read of the configuration, and after a read that predates the claim; the
   * optimistic lock does not help, because the configuration is not written.
   */
  lemma OldReadDangles(read: Option<nat>)
    requires read == None || read == Some(0)
    ensures IsRun(LifeStates(read), Life(read)) && Initial(LifeStates(read)[0])
    ensures Primary(LifeStates(read)[8]) == "a" && "a" !in LifeStates(read)[8].sites
  {
    var ss, acts := LifeStates(read), Life(read);
    forall i | 0 <= i < |acts| ensures Next(ss[i], acts[i], ss[i + 1]) {
      LifeStep(read, i);
    }
  }

  lemma LifeStep(read: Option<nat>, i: nat)
    requires (read == None || read == Some(0)) && i < 8
    ensures Next(LifeStates(read)[i], Life(read)[i], LifeStates(read)[i + 1])
  {
  }
}
