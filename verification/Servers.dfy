// What a server deployment holds once it was brought to a release: its containers, their images and settings, its
// marks.
module Servers {
  import opened DrupalSites
  import opened Deployments
  import opened DeploymentLaws

  /** The containers that run the code of the site. */
  predicate RunsCode(role: Role) {
    role in [Nginx, PhpFpm, Cron, DrupalLogs]
  }

  /** The image of a release: built for the site if it has a configuration of its own, and the common one otherwise. */
  function ImageName(site: Site, release: string, flags: Flags): string {
    if site.spec.extraConfigurationRepo == "" then flags.siteBuilderImage + ":" + release
    else
      "image-registry.openshift-image-registry.svc:5000/" + site.namespace + "/sitebuilder-s2i-" + site.name
      + ":" + release
  }

  /** The deployment is about to be created, or to change its release, or its release is not verified yet. */
  predicate Moving(d: Deployment, site: Site, release: string) {
    || !d.created || site.status.failsafe == ""
    || Release !in d.podAnnotations || d.podAnnotations[Release] != release
  }

  // ------------------------------------------------------------------ which containers there are

  lemma KeepsRole(c: Container)
    ensures InitContainer(c).role == c.role
  {
  }

  lemma PopulatedHas(d: Deployment, site: Site, role: Role)
    requires role in [Nginx, PhpFpm, PhpFpmExporter, WebDAV, Cron, DrupalLogs]
    ensures exists i :: 0 <= i < |Populate(d, site).containers| && Populate(d, site).containers[i].role == role
  {
    hide EnsureRoles, InitContainer, EnsureRole;
    if d.created {
      assert role in ROLES;
      EnsureRolesHas(d.containers, ROLES, role);
      assert HasRole(Populate(d, site).containers, role);
    } else {
      var k :| 0 <= k < 6 && [Nginx, PhpFpm, PhpFpmExporter, WebDAV, Cron, DrupalLogs][k] == role;
      assert FRESH[k].role == role;
      KeepsRole(FRESH[k]);
      assert Populate(d, site).containers[k].role == role;
    }
  }

  /** The containers of a deployment that is not being debugged, one by one. */
  lemma AppliedContainers(d: Deployment, site: Site, release: string, config: Config)
    requires !d.Debugging()
    ensures
      var cs, es := Populate(Adopt(d, site), site).containers, Apply(d, site, release, config).containers;
      && |es| == |cs|
      && forall i :: 0 <= i < |es| ==>
           es[i] == EnforceContainer(
             if MustSetImages(Populate(Adopt(d, site), site), site, release)
             then SetImage(cs[i], SiteImage(config.flags, site, release)) else cs[i], site, config)
  {
    hide SiteImage, Triggers, PodAnnotations, Annotations, EnsureRoles, AddOwner, SiteLabels, MustSetImages,
      EnforceContainer, SetImage, InitContainer;
  }

  lemma PopulatedMoves(d: Deployment, site: Site, release: string)
    ensures MustSetImages(Populate(Adopt(d, site), site), site, release) <==> Moving(d, site, release)
  {
    hide EnsureRoles, AddOwner, SiteLabels;
  }

  lemma EnforcedRole(c: Container, site: Site, config: Config, image: string)
    ensures EnforceContainer(c, site, config).role == c.role
    ensures SetImage(c, image).role == c.role
    ensures c.role != PhpFpmExporter && c.role != WebDAV ==> EnforceContainer(c, site, config).image == c.image
    ensures SetImage(c, image).image == if RunsCode(c.role) then image else c.image
  {
  }

  /** All six containers are there, beside whatever sidecars there are. */
  lemma SixContainers(d: Deployment, site: Site, release: string, config: Config, role: Role)
    requires role in [Nginx, PhpFpm, PhpFpmExporter, WebDAV, Cron, DrupalLogs]
    ensures
      var es := Apply(d, site, release, config).containers;
      exists i :: 0 <= i < |es| && es[i].role == role
  {
    hide Populate, Adopt, MustSetImages, SiteImage, EnforceContainer, SetImage;
    var cs := Populate(Adopt(d, site), site).containers;
    PopulatedHas(Adopt(d, site), site, role);
    var i :| 0 <= i < |cs| && cs[i].role == role;
    if d.Debugging() {
      DebuggedIsPopulated(d, site, release, config);
    } else {
      AppliedContainers(d, site, release, config);
      EnforcedRole(cs[i], site, config, SiteImage(config.flags, site, release));
      EnforcedRole(SetImage(cs[i], SiteImage(config.flags, site, release)), site, config, "");
      assert Apply(d, site, release, config).containers[i].role == role;
    }
  }

  lemma DebuggedIsPopulated(d: Deployment, site: Site, release: string, config: Config)
    requires d.Debugging()
    ensures Apply(d, site, release, config) == Populate(Adopt(d, site), site)
  {
    hide EnsureRoles, Enforce, AddOwner, SiteLabels;
  }

  /** A container that is there stays there, in its place and with its name. */
  lemma ContainersStay(d: Deployment, site: Site, release: string, config: Config, i: nat)
    requires d.created && i < |d.containers|
    ensures
      var es := Apply(d, site, release, config).containers;
      i < |es| && es[i].role == d.containers[i].role
  {
    hide Populate, Adopt, MustSetImages, SiteImage, EnforceContainer, SetImage;
    var cs := Populate(Adopt(d, site), site).containers;
    PopulatedKeeps(d, site, i);
    if d.Debugging() {
      DebuggedIsPopulated(d, site, release, config);
    } else {
      AppliedContainers(d, site, release, config);
      EnforcedRole(cs[i], site, config, SiteImage(config.flags, site, release));
      EnforcedRole(SetImage(cs[i], SiteImage(config.flags, site, release)), site, config, "");
    }
  }

  lemma PopulatedKeeps(d: Deployment, site: Site, i: nat)
    requires d.created && i < |d.containers|
    ensures
      var cs := Populate(Adopt(d, site), site).containers;
      i < |cs| && cs[i] == d.containers[i]
  {
    hide EnsureRoles, AddOwner, SiteLabels;
    EnsureRolesPrefix(d.containers, ROLES);
  }

  /** A container that was missing is added with its name and nothing else. */
  lemma {:induction false} AddedAreBare(cs: seq<Container>, roles: seq<Role>, i: nat)
    requires |cs| <= i < |EnsureRoles(cs, roles)|
    ensures
      var c := EnsureRoles(cs, roles)[i];
      c.image == "" && c.ports == [] && c.mounts == [] && c.probes == [] && c.command == []
    decreases |roles|
  {
    if roles != [] {
      var ds := EnsureRole(cs, roles[0]);
      EnsureRolesPrefix(ds, roles[1..]);
      if i < |ds| {
        assert ds <= EnsureRoles(ds, roles[1..]);
      } else {
        AddedAreBare(ds, roles[1..], i);
      }
    }
  }

  /** A container added to a deployment at rest has no image until the release changes. */
  lemma AddedHasNoImage(d: Deployment, site: Site, release: string, config: Config, i: nat)
    requires !d.Debugging() && !Moving(d, site, release)
    requires |d.containers| <= i < |Apply(d, site, release, config).containers|
    requires RunsCode(Apply(d, site, release, config).containers[i].role)
    ensures Apply(d, site, release, config).containers[i].image == ""
  {
    hide MustSetImages, SiteImage, Apply, EnsureRoles, SiteLabels, AddOwner;
    AppliedContainers(d, site, release, config);
    PopulatedMoves(d, site, release);
    AddedAreBare(d.containers, ROLES, i);
  }

  // ------------------------------------------------------------------ images

  lemma SameImageName(site: Site, release: string, flags: Flags)
    ensures SiteImage(flags, site, release) == ImageName(site, release, flags)
  {
  }

  /**
   * A moving deployment gets the image of the release in the four containers that run the code of the site, and in no
   * other; a deployment at rest at the release keeps the images it has, whatever they were resolved to.
   */
  lemma ImagesFollowRelease(d: Deployment, site: Site, release: string, config: Config, i: nat)
    requires !d.Debugging() && i < |Apply(d, site, release, config).containers|
    ensures
      var c := Apply(d, site, release, config).containers[i];
      && (RunsCode(c.role) && Moving(d, site, release) ==> c.image == ImageName(site, release, config.flags))
      && (RunsCode(c.role) && !Moving(d, site, release) && i < |d.containers| ==> c.image == d.containers[i].image)
      && (c.role == PhpFpmExporter ==> c.image == config.flags.phpFpmExporterImage)
      && (c.role == WebDAV ==> c.image == config.flags.webDAVImage)
      && (c.role.Sidecar? && i < |d.containers| && d.created ==> c == d.containers[i])
  {
    hide Populate, Adopt, MustSetImages, SiteImage, Apply;
    var cs := Populate(Adopt(d, site), site).containers;
    AppliedContainers(d, site, release, config);
    PopulatedMoves(d, site, release);
    SameImageName(site, release, config.flags);
    if d.created && i < |d.containers| {
      PopulatedKeeps(d, site, i);
    }
  }

  /** Two releases never share an image, so that every upgrade and every rollback changes what runs. */
  lemma ReleasesDiffer(d: Deployment, site: Site, a: string, b: string, config: Config, i: nat)
    requires !d.Debugging() && a != b && Moving(d, site, a) && Moving(d, site, b)
    requires i < |Apply(d, site, a, config).containers| && i < |Apply(d, site, b, config).containers|
    requires RunsCode(Apply(d, site, a, config).containers[i].role)
    requires RunsCode(Apply(d, site, b, config).containers[i].role)
    ensures Apply(d, site, a, config).containers[i].image != Apply(d, site, b, config).containers[i].image
  {
    hide Apply;
    ImagesFollowRelease(d, site, a, config, i);
    ImagesFollowRelease(d, site, b, config, i);
    NamesDiffer(site, a, b, config.flags);
  }

  lemma NamesDiffer(site: Site, a: string, b: string, flags: Flags)
    requires a != b
    ensures ImageName(site, a, flags) != ImageName(site, b, flags)
  {
    var m, n := ImageName(site, a, flags), ImageName(site, b, flags);
    var k := |m| - |a|;
    assert m[k..] == a;
    if |m| == |n| && |a| == |b| {
      assert n[k..] == b;
    }
  }

  // ------------------------------------------------------------------ settings

  /** The settings that every pass enforces on a container. */
  predicate HasSettings(c: Container, site: Site, config: Config) {
    match c.role
    case Nginx => c.command == ["/run-nginx.sh"] && c.resources == config.nginx
    case PhpFpm =>
      c.command == ["/run-php-fpm.sh"] && c.resources == config.php && c.probes == ["liveness", "startup"]
    case PhpFpmExporter => c.resources == config.phpExporter
    case WebDAV => c.command == ["php-fpm"] && c.resources == config.webDAV
    case Cron =>
      && c.command == ["sh", "-c", "/operations/cronjob.sh -s " + site.name] && c.resources == config.cron
      && c.pullPolicy == "Always" && c.mounts == ["/usr/local/etc/php/conf.d/config.ini", "/var/run/"]
    case DrupalLogs =>
      && c.command == ["/operations/tail-drupal-logs.sh"] && c.resources == config.drupalLogs
      && c.pullPolicy == "Always" && c.ports == [8085] && c.mounts == ["/var/run/"]
    case Sidecar(_) => true
  }

  lemma SettingsAreEnforced(d: Deployment, site: Site, release: string, config: Config, i: nat)
    requires !d.Debugging() && i < |Apply(d, site, release, config).containers|
    ensures HasSettings(Apply(d, site, release, config).containers[i], site, config)
  {
    hide Populate, Adopt, MustSetImages, SiteImage, Apply, SetImage;
    AppliedContainers(d, site, release, config);
  }

  /** What is set on creation and not enforced afterwards. */
  predicate HasInitialSettings(c: Container) {
    match c.role
    case Nginx =>
      c.pullPolicy == "Always" && c.ports == [8080]
        && c.mounts == ["/drupal-data", "/etc/nginx/global.conf", "/var/run/"]
    case PhpFpm =>
      && c.pullPolicy == "Always" && c.ports == [9000]
      && c.mounts == ["/drupal-data", "/usr/local/etc/php-fpm.d/zz-docker.conf", "/var/run/",
           "/app/web/sites/default/settings.php", "/tmp", "/usr/local/etc/php/conf.d/config.ini"]
    case PhpFpmExporter => c.pullPolicy == "Always" && c.ports == [9253] && c.mounts == ["/var/run/"]
    case WebDAV =>
      c.pullPolicy == "Always" && c.ports == [8008] && c.mounts == ["/drupal-data", "/webdav/htdigest", "/var/run/"]
    case _ => true
  }

  /** The six containers of a created deployment, with their initial settings. */
  lemma CreatedContainers(d: Deployment, site: Site, release: string, config: Config, i: nat)
    requires !d.created && !d.Debugging() && i < 6
    ensures
      var es := Apply(d, site, release, config).containers;
      && |es| == 6
      && es[i].role == [Nginx, PhpFpm, PhpFpmExporter, WebDAV, Cron, DrupalLogs][i]
      && HasInitialSettings(es[i])
  {
    hide MustSetImages, SiteImage, AddOwner, SiteLabels, Apply;
    AppliedContainers(d, site, release, config);
    assert Populate(Adopt(d, site), site).containers == InitContainers(FRESH);
  }

  /** A created deployment finds its pods by its labels, and mounts the volumes of the site. */
  lemma CreatedDeployment(d: Deployment, site: Site, release: string, config: Config)
    requires !d.created
    ensures
      var e := Apply(d, site, release, config);
      && e.selector == e.podLabels == map[SiteLabel := site.name, AppLabel := "drupal"]
      && e.volumes == ["drupal-directory-" + site.name, "php-config-volume", "nginx-global-config",
           "site-settings-php", "empty-dir", "webdav-volume", "tmp-dir", "php-cli-config-volume"]
  {
    hide MustSetImages, SiteImage, AddOwner, Triggers, PodAnnotations, Annotations, EnforceContainers, SetImages,
      InitContainers;
  }

  /** An existing deployment keeps its selector, its pod labels and its volumes, and the settings made on creation. */
  lemma ExistingDeployment(d: Deployment, site: Site, release: string, config: Config, i: nat)
    requires d.created && i < |d.containers|
    ensures
      var e := Apply(d, site, release, config);
      && e.selector == d.selector && e.podLabels == d.podLabels && e.volumes == d.volumes && e.created
      && i < |e.containers|
      && (d.containers[i].role in [Nginx, PhpFpm, PhpFpmExporter, WebDAV] ==>
            && e.containers[i].ports == d.containers[i].ports && e.containers[i].mounts == d.containers[i].mounts
            && e.containers[i].pullPolicy == d.containers[i].pullPolicy)
  {
    hide MustSetImages, SiteImage, AddOwner, Triggers, PodAnnotations, Annotations, EnsureRoles, EnforceContainers,
      SetImages;
    PopulatedKeeps(d, site, i);
    if d.Debugging() {
      DebuggedIsPopulated(d, site, release, config);
    } else {
      AppliedContainers(d, site, release, config);
    }
  }

  // ------------------------------------------------------------------ marks

  /** A pass leaves the labels and the owners as it adopted the deployment. */
  lemma AdoptedStays(d: Deployment, site: Site, release: string, config: Config)
    ensures
      var a, e := Adopt(d, site), Apply(d, site, release, config);
      && e.labels == a.labels && e.owners == a.owners
      && (e.annotations == a.annotations || e.annotations == Annotations(a.annotations, site, release))
  {
    hide EnsureRoles, MustSetImages, SiteImage, PodAnnotations, EnforceContainers, SetImages, InitContainers,
      Annotations, SiteLabels, AddOwner;
  }

  lemma OtherAnnotationsKept(m: map<Annotation, string>, site: Site, release: string, k: Annotation)
    requires k != CriticalSite && k != ImageTriggers
    ensures
      var n := Annotations(m, site, release);
      (k in n <==> k in m) && (k in m ==> n[k] == m[k])
  {
    hide Triggers;
  }

  lemma AdoptedMarks(d: Deployment, site: Site)
    ensures
      var a := Adopt(d, site);
      && a.labels == d.labels[SiteLabel := site.name][AppLabel := "drupal"]
      && (exists i :: 0 <= i < |a.owners| && a.owners[i].uid == site.uid)
      && (a.owners == d.owners || a.owners == d.owners + [Owner(site.name, site.uid)])
      && ResolveNames in a.annotations && a.annotations[ResolveNames] == "*"
  {
    var a := Adopt(d, site);
    if a.owners != d.owners {
      assert a.owners[|d.owners|].uid == site.uid;
    }
  }

  /** Labels, owner and image policy are set on every pass, even while the deployment is being debugged. */
  lemma AlwaysMarked(d: Deployment, site: Site, release: string, config: Config)
    ensures
      var e := Apply(d, site, release, config);
      && e.labels == d.labels[SiteLabel := site.name][AppLabel := "drupal"]
      && (exists i :: 0 <= i < |e.owners| && e.owners[i].uid == site.uid)
      && (e.owners == d.owners || e.owners == d.owners + [Owner(site.name, site.uid)])
      && ResolveNames in e.annotations && e.annotations[ResolveNames] == "*"
  {
    hide Apply, Annotations, Adopt;
    AdoptedMarks(d, site);
    AdoptedStays(d, site, release, config);
    OtherAnnotationsKept(Adopt(d, site).annotations, site, release, ResolveNames);
  }

  /** Annotations the operator does not know, and the one that asks for debugging, are kept. */
  lemma AnnotationsKept(d: Deployment, site: Site, release: string, config: Config, k: Annotation)
    requires k == Debug || k.OtherAnnotation?
    ensures
      var e := Apply(d, site, release, config);
      (k in e.annotations <==> k in d.annotations) && (k in d.annotations ==> e.annotations[k] == d.annotations[k])
  {
    hide Apply, Annotations, AddOwner, SiteLabels;
    AdoptedStays(d, site, release, config);
    OtherAnnotationsKept(Adopt(d, site).annotations, site, release, k);
  }

  /** The trigger that follows the image stream of a site in one container. */
  function TriggerText(site: Site, release: string, container: string): string {
    "{\"from\":{\"kind\":\"ImageStreamTag\",\"name\":\"sitebuilder-s2i-" + site.name + ":" + release
    + "\",\"namespace\":\"" + site.namespace + "\"},\"fieldPath\":\"spec.template.spec.containers[?(@.name==\\\""
    + container + "\\\")].image\",\"pause\":\"false\"}"
  }

  /**
   * Unless it is being debugged, the deployment says which release it runs, how it is backed up, how many replicas it
   * has, and whether its site is critical; a site with a configuration of its own rolls out when its image is rebuilt.
   */
  lemma ReleaseMarked(d: Deployment, site: Site, release: string, config: Config)
    requires !d.Debugging()
    ensures
      var e := Apply(d, site, release, config);
      && e.replicas == config.replicas
      && Release in e.podAnnotations && e.podAnnotations[Release] == release
      && BackupContainer in e.podAnnotations && e.podAnnotations[BackupContainer] == "php-fpm"
      && BackupCommand in e.podAnnotations
      && e.podAnnotations[BackupCommand] == "[\"sh\",\"-c\", \"/operations/database-backup.sh -f database_backup.sql\"]"
      && BackupTimeout in e.podAnnotations && e.podAnnotations[BackupTimeout] == "90m"
      && BackupVolumes in e.podAnnotations && e.podAnnotations[BackupVolumes] == "drupal-directory-" + site.name
      && (e.spreadOverZones <==> site.spec.qos == Critical && config.flags.topologySpread)
      && e.priorityClass == (if site.spec.qos == Critical then "openshift-user-critical" else d.priorityClass)
      && (site.spec.qos == Critical ==> CriticalSite in e.annotations && e.annotations[CriticalSite] == "true")
      && (site.spec.extraConfigurationRepo != "" ==>
            && ImageTriggers in e.annotations
            && e.annotations[ImageTriggers]
               == "[" + TriggerText(site, release, "nginx") + "," + TriggerText(site, release, "php-fpm") + "]")
  {
    hide EnsureRoles, MustSetImages, SiteImage, EnforceContainers, SetImages, InitContainers, AddOwner, SiteLabels,
      Trigger;
    SameTrigger(site, release, "nginx");
    SameTrigger(site, release, "php-fpm");
  }

  lemma SameTrigger(site: Site, release: string, container: string)
    ensures Trigger(site, release, container) == TriggerText(site, release, container)
  {
  }

  /** Other pod annotations of an existing deployment, the hashes among them, are kept. */
  lemma OtherPodAnnotationsKept(d: Deployment, site: Site, release: string, config: Config, k: PodAnnotation)
    requires d.created && k !in [Release, BackupContainer, BackupCommand, BackupTimeout, BackupVolumes]
    ensures
      var e := Apply(d, site, release, config);
      && (k in e.podAnnotations <==> k in d.podAnnotations)
      && (k in d.podAnnotations ==> e.podAnnotations[k] == d.podAnnotations[k])
  {
    hide EnsureRoles, MustSetImages, SiteImage, EnforceContainers, SetImages, AddOwner, SiteLabels, Triggers,
      Annotations;
  }

  /** A deployment being debugged keeps its release, its replicas and everything in its containers. */
  lemma DebuggedKeeps(d: Deployment, site: Site, release: string, config: Config)
    requires d.created && d.Debugging()
    ensures
      var e := Apply(d, site, release, config);
      && d.containers <= e.containers && e.podAnnotations == d.podAnnotations && e.replicas == d.replicas
      && e.priorityClass == d.priorityClass && e.spreadOverZones == d.spreadOverZones
  {
    hide EnsureRoles, Enforce, AddOwner, SiteLabels;
    DebuggedIsPopulated(d, site, release, config);
    EnsureRolesPrefix(d.containers, ROLES);
  }

  /** The hash writer sets the four hashes and nothing else. */
  lemma HashesAreSet(d: Deployment, h: Hashes)
    ensures
      var e := SetHashes(d, h);
      && e == d.(podAnnotations := e.podAnnotations)
      && e.podAnnotations.Keys == d.podAnnotations.Keys + {PhpHash, NginxHash, SettingsHash, PhpCliHash}
      && e.podAnnotations[PhpHash] == h.php && e.podAnnotations[NginxHash] == h.nginx
      && e.podAnnotations[SettingsHash] == h.settings && e.podAnnotations[PhpCliHash] == h.phpCli
      && forall k :: k in d.podAnnotations && k !in [PhpHash, NginxHash, SettingsHash, PhpCliHash] ==>
           e.podAnnotations[k] == d.podAnnotations[k]
  {
  }
}
