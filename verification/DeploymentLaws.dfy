// Laws of the deployment transformer: idempotence, commutation with the hash writer, and upgrade undone by rollback.
module DeploymentLaws {
  import opened DrupalSites
  import opened Deployments

  ghost predicate SameRoles(cs: seq<Container>, ds: seq<Container>) {
    |cs| == |ds| && forall i :: 0 <= i < |cs| ==> cs[i].role == ds[i].role
  }

  lemma SameRolesHave(cs: seq<Container>, ds: seq<Container>, role: Role)
    requires SameRoles(cs, ds)
    ensures HasRole(cs, role) ==> HasRole(ds, role)
  {
    if HasRole(cs, role) {
      var i :| 0 <= i < |cs| && cs[i].role == role;
      assert ds[i].role == role;
    }
  }

  lemma EnsureRoleHas(cs: seq<Container>, role: Role, other: Role)
    ensures HasRole(EnsureRole(cs, role), role)
    ensures HasRole(cs, other) ==> HasRole(EnsureRole(cs, role), other)
  {
    var ds := EnsureRole(cs, role);
    if !HasRole(cs, role) {
      assert ds[|cs|].role == role;
    }
    if HasRole(cs, other) {
      var i :| 0 <= i < |cs| && cs[i].role == other;
      assert ds[i].role == other;
    }
  }

  lemma {:induction false} EnsureRolesHas(cs: seq<Container>, roles: seq<Role>, role: Role)
    requires role in roles || HasRole(cs, role)
    ensures HasRole(EnsureRoles(cs, roles), role)
    decreases |roles|
  {
    if roles != [] {
      EnsureRoleHas(cs, roles[0], role);
      assert role in roles ==> role == roles[0] || role in roles[1..];
      EnsureRolesHas(EnsureRole(cs, roles[0]), roles[1..], role);
    }
  }

  lemma {:induction false} EnsureRolesNothing(cs: seq<Container>, roles: seq<Role>)
    requires forall r :: r in roles ==> HasRole(cs, r)
    ensures EnsureRoles(cs, roles) == cs
    decreases |roles|
  {
    if roles != [] {
      assert roles[0] in roles;
      forall r | r in roles[1..] ensures HasRole(cs, r) { assert r in roles; }
      EnsureRolesNothing(cs, roles[1..]);
    }
  }

  /** Once all six containers are there, under any settings, ensuring them again adds none. */
  lemma EnsureRolesStable(cs: seq<Container>, ds: seq<Container>)
    requires SameRoles(EnsureRoles(cs, ROLES), ds)
    ensures EnsureRoles(ds, ROLES) == ds
  {
    forall r | r in ROLES ensures HasRole(ds, r) {
      EnsureRolesHas(cs, ROLES, r);
      SameRolesHave(EnsureRoles(cs, ROLES), ds, r);
    }
    EnsureRolesNothing(ds, ROLES);
  }

  lemma {:induction false} FreshContainersAreAll(cs: seq<Container>)
    requires SameRoles(FRESH, cs)
    ensures EnsureRoles(cs, ROLES) == cs
  {
    forall r | r in ROLES ensures HasRole(cs, r) {
      var i :| 0 <= i < |ROLES| && ROLES[i] == r;
      assert FRESH[i].role == r;
      assert cs[i].role == r;
    }
    EnsureRolesNothing(cs, ROLES);
  }

  /** The containers of a populated deployment, whatever settings are put on them, are complete. */
  lemma PopulatedIsComplete(d: Deployment, site: Site, cs: seq<Container>)
    requires SameRoles(Populate(d, site).containers, cs)
    ensures EnsureRoles(cs, ROLES) == cs
  {
    if d.created {
      EnsureRolesStable(d.containers, cs);
    } else {
      FreshContainersAreAll(cs);
    }
  }

  lemma AddOwnerTwice(owners: seq<Owner>, o: Owner)
    ensures AddOwner(AddOwner(owners, o), o) == AddOwner(owners, o)
  {
    var once := AddOwner(owners, o);
    if once != owners {
      assert once[|owners|].uid == o.uid;
    }
  }

  /** Settings put on twice are settings put on once. */
  lemma EnforceTwice(cs: seq<Container>, site: Site, release: string, config: Config, again: bool)
    ensures
      var e := EnforceContainers(cs, site, config);
      EnforceContainers(e, site, config) == e
    ensures
      var image := SiteImage(config.flags, site, release);
      var e := EnforceContainers(SetImages(cs, image), site, config);
      EnforceContainers(if again then SetImages(e, image) else e, site, config) == e
  {
  }

  lemma AdoptTwice(d: Deployment, site: Site, e: Deployment)
    requires
      var a := Adopt(d, site);
      e.owners == a.owners && e.labels == a.labels && ResolveNames in e.annotations
        && e.annotations[ResolveNames] == "*"
    ensures Adopt(e, site) == e
  {
    AddOwnerTwice(d.owners, Owner(site.name, site.uid));
    assert e.labels + SiteLabels(site) == e.labels;
    assert e.annotations[ResolveNames := "*"] == e.annotations;
  }

  lemma PopulateTwice(d: Deployment, site: Site, e: Deployment)
    requires e.created && SameRoles(Populate(d, site).containers, e.containers)
    ensures Populate(e, site) == e
  {
    PopulatedIsComplete(d, site, e.containers);
  }

  lemma PodAnnotationsTwice(m: map<PodAnnotation, string>, site: Site, release: string)
    ensures
      var n := PodAnnotations(m, site, release);
      PodAnnotations(n, site, release) == n && Release in n && n[Release] == release
  {
  }

  lemma AnnotationsTwice(m: map<Annotation, string>, site: Site, release: string)
    ensures
      var n := Annotations(m, site, release);
      && Annotations(n, site, release) == n
      && (Debug in n <==> Debug in m) && (Debug in n ==> n[Debug] == m[Debug])
      && (ResolveNames in m ==> ResolveNames in n && n[ResolveNames] == m[ResolveNames])
  {
    hide Triggers;
  }

  lemma EnforceDeploymentTwice(d: Deployment, site: Site, release: string, config: Config)
    ensures
      var e := Stored(Enforce(d, site, release, config));
      Enforce(e, site, release, config) == e && (e.Debugging() <==> d.Debugging())
        && SameRoles(d.containers, e.containers)
  {
    hide SiteImage, Triggers, PodAnnotations, Annotations, EnforceContainers, SetImages;
    PodAnnotationsTwice(d.podAnnotations, site, release);
    AnnotationsTwice(d.annotations, site, release);
    var e := Stored(Enforce(d, site, release, config));
    EnforceTwice(d.containers, site, release, config, MustSetImages(e, site, release));
  }

  /** One application settles: a second one, on an existing object or on one just created, changes nothing. */
  lemma ApplyIsIdempotent(d: Deployment, site: Site, release: string, config: Config)
    ensures
      var e := Stored(Apply(d, site, release, config));
      Apply(e, site, release, config) == e
  {
    var a := Adopt(d, site);
    var b := Populate(a, site);
    var e := Stored(Apply(d, site, release, config));
    if !b.Debugging() {
      EnforceDeploymentTwice(b, site, release, config);
      AnnotationsTwice(b.annotations, site, release);
    }
    AdoptTwice(d, site, e);
    PopulateTwice(a, site, e);
  }

  /** The release annotation follows the release applied, except on an object that is being debugged. */
  lemma ApplyMarksRelease(d: Deployment, site: Site, release: string, config: Config)
    ensures
      var e := Apply(d, site, release, config);
      && e.created == d.created
      && (e.Debugging() <==> d.Debugging())
      && (d.Debugging() && d.created ==> e.podAnnotations == d.podAnnotations && e.replicas == d.replicas)
      && (!d.Debugging() ==> e.ReleaseOf() == release && Release in e.podAnnotations && e.replicas == config.replicas)
  {
    hide SiteImage, Triggers, PodAnnotations, Annotations, EnforceContainers, SetImages, EnsureRoles;
    var b := Populate(Adopt(d, site), site);
    PodAnnotationsTwice(b.podAnnotations, site, release);
    AnnotationsTwice(b.annotations, site, release);
  }

  /** What `updateDrupalVersion` reads from an unchanged create-or-update: the release is already there. */
  lemma UnchangedMeansReleased(d: Deployment, site: Site, release: string, config: Config)
    requires !d.Debugging() && Apply(d, site, release, config) == d
    ensures d.ReleaseOf() == release
  {
    ApplyMarksRelease(d, site, release, config);
  }

  lemma HashesCommuteWithPodAnnotations(m: map<PodAnnotation, string>, site: Site, release: string, h: Hashes)
    ensures
      PodAnnotations(m[PhpHash := h.php][NginxHash := h.nginx][SettingsHash := h.settings][PhpCliHash := h.phpCli],
        site, release)
      == PodAnnotations(m, site, release)
           [PhpHash := h.php][NginxHash := h.nginx][SettingsHash := h.settings][PhpCliHash := h.phpCli]
  {
  }

  /** The two writers of an existing deployment touch different things, so their order does not matter. */
  lemma HashesCommuteWithApply(d: Deployment, site: Site, release: string, config: Config, h: Hashes)
    requires d.created
    ensures Apply(SetHashes(d, h), site, release, config) == SetHashes(Apply(d, site, release, config), h)
  {
    hide SiteImage, Triggers, PodAnnotations, Annotations, EnforceContainers, SetImages, EnsureRoles, SiteLabels,
      AddOwner;
    var b := Populate(Adopt(d, site), site);
    HashesCommuteWithPodAnnotations(b.podAnnotations, site, release, h);
  }

  lemma HashesTwice(d: Deployment, h: Hashes)
    ensures SetHashes(SetHashes(d, h), h) == SetHashes(d, h)
  {
    var m := SetHashes(d, h).podAnnotations;
    assert m[PhpHash := h.php][NginxHash := h.nginx][SettingsHash := h.settings][PhpCliHash := h.phpCli] == m;
  }

  /** One pass of both writers reaches an object that neither of them changes. */
  lemma WritersSettleTogether(d: Deployment, site: Site, release: string, config: Config, h: Hashes)
    ensures
      var e := SetHashes(Stored(Apply(d, site, release, config)), h);
      Apply(e, site, release, config) == e && SetHashes(e, h) == e
  {
    hide Apply, SetHashes;
    var a := Stored(Apply(d, site, release, config));
    assert a.created;
    ApplyIsIdempotent(d, site, release, config);
    HashesCommuteWithApply(a, site, release, config, h);
    HashesTwice(a, h);
  }

  // ------------------------------------------------------------------ upgrade and rollback

  /** Every container built for the release runs the image of the release. */
  ghost predicate ImagesMatch(cs: seq<Container>, image: string) {
    forall i :: 0 <= i < |cs| && RunsSiteImage(cs[i].role) ==> cs[i].image == image
  }

  /** A created deployment that the transformer leaves as it is. */
  ghost predicate Settled(d: Deployment, site: Site, release: string, config: Config) {
    d.created && Apply(d, site, release, config) == d
  }

  lemma {:induction false} EnsureRolesPrefix(cs: seq<Container>, roles: seq<Role>)
    ensures cs <= EnsureRoles(cs, roles)
    decreases |roles|
  {
    if roles != [] {
      EnsureRolesPrefix(EnsureRole(cs, roles[0]), roles[1..]);
    }
  }

  /** A settled object is already adopted, complete, and carries every enforced setting. */
  lemma SettledParts(d: Deployment, site: Site, release: string, config: Config)
    requires Settled(d, site, release, config)
    ensures Adopt(d, site) == d && Populate(d, site) == d
    ensures !d.Debugging() ==> Enforce(d, site, release, config) == d
  {
    hide SiteImage, Triggers, PodAnnotations, Annotations, EnforceContainers, SetImages, SiteLabels, AddOwner,
      EnsureRoles;
    var a := Adopt(d, site);
    var b := Populate(a, site);
    AnnotationsTwice(b.annotations, site, release);
    EnsureRolesPrefix(d.containers, ROLES);
    assert d.annotations[ResolveNames := "*"] == d.annotations;
  }

  lemma PodAnnotationsBack(m: map<PodAnnotation, string>, site: Site, from: string, to: string)
    ensures PodAnnotations(PodAnnotations(m, site, to), site, from) == PodAnnotations(m, site, from)
  {
  }

  lemma AnnotationsBack(m: map<Annotation, string>, site: Site, from: string, to: string)
    ensures Annotations(Annotations(m, site, to), site, from) == Annotations(m, site, from)
  {
    hide Triggers;
  }

  /** Putting the old image back over the new one gives the containers back exactly when they ran the old image. */
  lemma ImagesBack(cs: seq<Container>, site: Site, config: Config, newImage: string, oldImage: string)
    requires EnforceContainers(cs, site, config) == cs
    ensures
      EnforceContainers(SetImages(EnforceContainers(SetImages(cs, newImage), site, config), oldImage), site,
        config) == cs
      <==> ImagesMatch(cs, oldImage)
  {
    var up := EnforceContainers(SetImages(cs, newImage), site, config);
    var back := EnforceContainers(SetImages(up, oldImage), site, config);
    forall i | 0 <= i < |cs|
      ensures back[i] == SetImage(cs[i], oldImage)
    {
      assert EnforceContainer(cs[i], site, config) == cs[i];
    }
    if back == cs {
      forall i | 0 <= i < |cs| && RunsSiteImage(cs[i].role) ensures cs[i].image == oldImage {
        assert back[i] == cs[i];
      }
    }
  }

  /** The containers of a settled object keep every setting but possibly the image. */
  lemma SettledContainers(d: Deployment, site: Site, release: string, config: Config)
    requires Enforce(d, site, release, config) == d
    ensures EnforceContainers(d.containers, site, config) == d.containers
    ensures PodAnnotations(d.podAnnotations, site, release) == d.podAnnotations
    ensures Annotations(d.annotations, site, release) == d.annotations
  {
    hide SiteImage, Triggers, PodAnnotations, Annotations;
    EnforceTwice(d.containers, site, release, config, false);
  }

  /** The enforced part of an upgrade followed by a rollback. */
  lemma EnforceBack(d: Deployment, site: Site, from: string, to: string, config: Config)
    requires Enforce(d, site, from, config) == d && from != to
    ensures
      Enforce(Enforce(d, site, to, config), site, from, config) == d
      <==> ImagesMatch(d.containers, SiteImage(config.flags, site, from))
  {
    hide SiteImage, Triggers, PodAnnotations, Annotations, EnforceContainers, SetImages;
    SettledContainers(d, site, from, config);
    PodAnnotationsTwice(d.podAnnotations, site, from);
    PodAnnotationsTwice(d.podAnnotations, site, to);
    PodAnnotationsBack(d.podAnnotations, site, from, to);
    AnnotationsBack(d.annotations, site, from, to);
    ImagesBack(d.containers, site, config, SiteImage(config.flags, site, to), SiteImage(config.flags, site, from));
  }

  /** From a settled object, applying any release only enforces it. */
  lemma SettledApply(d: Deployment, site: Site, from: string, to: string, config: Config)
    requires Settled(d, site, from, config) && !d.Debugging()
    ensures Apply(d, site, to, config) == Enforce(d, site, to, config)
    ensures
      var e := Enforce(d, site, to, config);
      Apply(e, site, from, config) == Enforce(e, site, from, config)
  {
    hide SiteImage, Triggers, PodAnnotations, Annotations, EnforceContainers, SetImages, EnsureRoles, AddOwner,
      SiteLabels;
    SettledParts(d, site, from, config);
    var e := Enforce(d, site, to, config);
    AnnotationsTwice(d.annotations, site, to);
    assert ResolveNames in d.annotations && d.annotations[ResolveNames] == "*" by {
      assert d.annotations[ResolveNames := "*"] == d.annotations;
    }
    AdoptTwice(d, site, e);
    EnforceDeploymentTwice(d, site, to, config);
    PopulateTwice(d, site, e);
  }

  /**
   * Upgrade then rollback is the identity: for a deployment settled at the old release, applying another release
   * and then the old one gives the same object back exactly when its containers ran the image of the old release.
   */
  lemma UpgradeThenRollback(d: Deployment, site: Site, from: string, to: string, config: Config)
    requires Settled(d, site, from, config)
    ensures
      Apply(Apply(d, site, to, config), site, from, config) == d
      <==> d.Debugging() || from == to || ImagesMatch(d.containers, SiteImage(config.flags, site, from))
  {
    hide SiteImage, Triggers, PodAnnotations, Annotations, EnforceContainers, SetImages, EnsureRoles, AddOwner,
      SiteLabels, Enforce;
    SettledParts(d, site, from, config);
    if !d.Debugging() && from != to {
      SettledApply(d, site, from, to, config);
      EnforceBack(d, site, from, to, config);
    }
  }

  // ------------------------------------------------------------------ what the transformer reads

  /** All the transformer reads of a site, besides whether there is a failsafe release. */
  ghost predicate SameShape(a: Site, b: Site) {
    && a.name == b.name && a.namespace == b.namespace && a.uid == b.uid
    && a.spec.extraConfigurationRepo == b.spec.extraConfigurationRepo && a.spec.qos == b.spec.qos
  }

  /** The transformer reads no condition. */
  lemma ApplyReadsLittle(d: Deployment, a: Site, b: Site, release: string, config: Config)
    requires SameShape(a, b) && (a.status.failsafe == "" <==> b.status.failsafe == "")
    ensures Apply(d, a, release, config) == Apply(d, b, release, config)
  {
    hide EnsureRoles, AddOwner, Triggers, EnforceContainers, SetImages, InitContainers, SiteImage, PodAnnotations,
      Annotations, Volumes;
    var x := Populate(Adopt(d, a), a);
    assert x == Populate(Adopt(d, b), b) by { VolumesSame(a, b); }
    var image := SiteImage(config.flags, a, release);
    assert image == SiteImage(config.flags, b, release) by { ImageSame(a, b, release, config.flags); }
    EnforceSame(if MustSetImages(x, a, release) then SetImages(x.containers, image) else x.containers, a, b, config);
    AnnotationsSame(x, a, b, release);
  }

  lemma VolumesSame(a: Site, b: Site)
    requires a.name == b.name
    ensures Volumes(a) == Volumes(b)
  {
  }

  lemma ImageSame(a: Site, b: Site, release: string, flags: Flags)
    requires SameShape(a, b)
    ensures SiteImage(flags, a, release) == SiteImage(flags, b, release)
  {
  }

  lemma EnforceSame(cs: seq<Container>, a: Site, b: Site, config: Config)
    requires a.name == b.name
    ensures EnforceContainers(cs, a, config) == EnforceContainers(cs, b, config)
  {
    forall i | 0 <= i < |cs| ensures EnforceContainer(cs[i], a, config) == EnforceContainer(cs[i], b, config) {
    }
  }

  lemma AnnotationsSame(d: Deployment, a: Site, b: Site, release: string)
    requires SameShape(a, b)
    ensures PodAnnotations(d.podAnnotations, a, release) == PodAnnotations(d.podAnnotations, b, release)
    ensures Annotations(d.annotations, a, release) == Annotations(d.annotations, b, release)
  {
    hide Triggers;
    TriggersSame(a, b, release);
  }

  lemma TriggersSame(a: Site, b: Site, release: string)
    requires a.name == b.name && a.namespace == b.namespace
    ensures Triggers(a, release) == Triggers(b, release)
  {
  }

  /** Getting a failsafe release does not unsettle a deployment. */
  lemma FailsafeKeepsSettled(d: Deployment, a: Site, b: Site, release: string, config: Config)
    requires SameShape(a, b) && (b.status.failsafe == "" ==> a.status.failsafe == "")
    requires Settled(d, a, release, config)
    ensures Settled(d, b, release, config)
  {
    hide EnsureRoles, AddOwner, Triggers, EnforceContainers, SetImages, InitContainers, SiteImage, PodAnnotations,
      Annotations, Volumes;
    SettledParts(d, a, release, config);
    VolumesSame(a, b);
    if !d.Debugging() {
      ApplyMarksRelease(d, a, release, config);
      SettledContainers(d, a, release, config);
      ImageSame(a, b, release, config.flags);
      EnforceSame(d.containers, a, b, config);
      EnforceSame(SetImages(d.containers, SiteImage(config.flags, a, release)), a, b, config);
      AnnotationsSame(d, a, b, release);
    }
  }
}
