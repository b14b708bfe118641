// The deployment as the operator edits it in place, method by method as in the source.
module DeploymentObjects {
  import opened DrupalSites
  import opened Deployments

  class DeploymentObject {
    var created: bool
    var labels: map<Label, string>
    var annotations: map<Annotation, string>
    var owners: seq<Owner>
    var selector: map<Label, string>
    var podLabels: map<Label, string>
    var podAnnotations: map<PodAnnotation, string>
    var volumes: seq<string>
    var containers: seq<Container>
    var replicas: nat
    var priorityClass: string
    var spreadOverZones: bool

    constructor (d: Deployment)
      ensures View() == d
    {
      created, labels, annotations, owners := d.created, d.labels, d.annotations, d.owners;
      selector, podLabels, podAnnotations, volumes := d.selector, d.podLabels, d.podAnnotations, d.volumes;
      containers, replicas, priorityClass, spreadOverZones := d.containers, d.replicas, d.priorityClass,
        d.spreadOverZones;
    }

    function View(): Deployment
      reads this
    {
      Deployment(created, labels, annotations, owners, selector, podLabels, podAnnotations, volumes, containers,
                 replicas, priorityClass, spreadOverZones)
    }

    method AddOwnerRef(owner: Owner)
      modifies this`owners
      ensures owners == AddOwner(old(owners), owner)
      ensures exists i :: 0 <= i < |owners| && owners[i].uid == owner.uid
      ensures owners == old(owners) || (owners == old(owners) + [owner]
        && forall i :: 0 <= i < |old(owners)| ==> old(owners)[i].uid != owner.uid)
    {
      for i := 0 to |owners|
        invariant owners == old(owners)
        invariant forall j :: 0 <= j < i ==> owners[j].uid != owner.uid
      {
        if owners[i].uid == owner.uid {
          return;
        }
      }
      owners := owners + [owner];
      assert owners[|owners| - 1].uid == owner.uid;
    }

    method ContainerExists(role: Role)
      modifies this`containers
      ensures containers == EnsureRole(old(containers), role)
      ensures exists i :: 0 <= i < |containers| && containers[i].role == role
      ensures (exists i :: 0 <= i < |old(containers)| && old(containers)[i].role == role) ==>
        containers == old(containers)
      ensures old(containers) <= containers && |containers| <= |old(containers)| + 1
    {
      var exists_ := false;
      for i := 0 to |containers|
        invariant !exists_
        invariant forall j :: 0 <= j < i ==> containers[j].role != role
      {
        if containers[i].role == role {
          exists_ := true;
          break;
        }
      }
      if !exists_ {
        containers := containers + [Bare(role)];
        assert containers[|containers| - 1].role == role;
      }
    }

    method EnsureContainers()
      modifies this`containers
      ensures containers == EnsureRoles(old(containers), ROLES)
    {
      ghost var cs := containers;
      for i := 0 to |ROLES|
        invariant EnsureRoles(containers, ROLES[i..]) == EnsureRoles(cs, ROLES)
      {
        ContainerExists(ROLES[i]);
        assert ROLES[i..][0] == ROLES[i] && ROLES[i..][1..] == ROLES[i + 1..];
      }
      assert ROLES[|ROLES|..] == [];
    }

    method InitializeContainers()
      modifies this`containers
      ensures containers == InitContainers(old(containers))
    {
      for i := 0 to |containers|
        invariant |containers| == |old(containers)|
        invariant forall j :: 0 <= j < i ==> containers[j] == InitContainer(old(containers)[j])
        invariant forall j :: i <= j < |containers| ==> containers[j] == old(containers)[j]
      {
        containers := containers[i := InitContainer(containers[i])];
      }
    }

    method PinImages(image: string)
      modifies this`containers
      ensures containers == SetImages(old(containers), image)
    {
      for i := 0 to |containers|
        invariant |containers| == |old(containers)|
        invariant forall j :: 0 <= j < i ==> containers[j] == SetImage(old(containers)[j], image)
        invariant forall j :: i <= j < |containers| ==> containers[j] == old(containers)[j]
      {
        containers := containers[i := SetImage(containers[i], image)];
      }
    }

    method EnforceSettings(site: Site, config: Config)
      modifies this`containers
      ensures containers == EnforceContainers(old(containers), site, config)
    {
      for i := 0 to |containers|
        invariant |containers| == |old(containers)|
        invariant forall j :: 0 <= j < i ==> containers[j] == EnforceContainer(old(containers)[j], site, config)
        invariant forall j :: i <= j < |containers| ==> containers[j] == old(containers)[j]
      {
        containers := containers[i := EnforceContainer(containers[i], site, config)];
      }
    }

    method AdoptInto(site: Site)
      modifies this`labels, this`owners, this`annotations
      ensures View() == Adopt(old(View()), site)
    {
      labels := labels + SiteLabels(site);
      AddOwnerRef(Owner(site.name, site.uid));
      annotations := annotations[ResolveNames := "*"];
    }

    method PopulateFor(site: Site)
      modifies this`containers, this`podAnnotations, this`selector, this`podLabels, this`volumes
      ensures View() == Populate(old(View()), site)
    {
      if !created {
        containers := FRESH;
        podAnnotations := map[];
        selector := SiteLabels(site);
        podLabels := SiteLabels(site);
        volumes := Volumes(site);
        InitializeContainers();
      } else {
        EnsureContainers();
      }
    }

    method Annotate(site: Site, release: string)
      modifies this`podAnnotations, this`annotations, this`priorityClass
      ensures podAnnotations == PodAnnotations(old(podAnnotations), site, release)
      ensures annotations == Annotations(old(annotations), site, release)
      ensures priorityClass == if site.spec.qos == Critical then CRITICAL_PRIORITY else old(priorityClass)
    {
      podAnnotations := podAnnotations[Release := release];
      podAnnotations := podAnnotations[BackupContainer := "php-fpm"];
      podAnnotations := podAnnotations[BackupCommand := BACKUP_COMMAND];
      podAnnotations := podAnnotations[BackupTimeout := "90m"];
      podAnnotations := podAnnotations[BackupVolumes := "drupal-directory-" + site.name];
      if site.spec.qos == Critical {
        annotations := annotations[CriticalSite := "true"];
        priorityClass := CRITICAL_PRIORITY;
      }
      if |site.spec.extraConfigurationRepo| > 0 {
        annotations := annotations[ImageTriggers := Triggers(site, release)];
      }
    }

    /** Images are set only when the object is not marked with the release, or there is no failsafe release yet. */
    method EnforceContainersFor(site: Site, release: string, config: Config)
      modifies this`containers
      ensures
        var image := SiteImage(config.flags, site, release);
        containers == EnforceContainers(
          if MustSetImages(old(View()), site, release) then SetImages(old(containers), image)
            else old(containers), site, config)
    {
      hide SiteImage, EnforceContainers, SetImages;
      if Release !in podAnnotations || site.status.failsafe == "" || podAnnotations[Release] != release {
        PinImages(SiteImage(config.flags, site, release));
      }
      EnforceSettings(site, config);
    }

    method EnforceFor(site: Site, release: string, config: Config)
      modifies this
      ensures View() == Enforce(old(View()), site, release, config)
    {
      hide SiteImage, EnforceContainers, SetImages, Triggers, PodAnnotations, Annotations, MustSetImages;
      EnforceContainersFor(site, release, config);
      replicas := config.replicas;
      Annotate(site, release);
      if site.spec.qos == Critical && config.flags.topologySpread {
        spreadOverZones := true;
      } else {
        spreadOverZones := false;
      }
    }

    /** Brings the object to the given release of the site, leaving it alone beyond its skeleton while debugging. */
    method DeploymentForDrupalSite(site: Site, release: string, config: Config)
      modifies this
      ensures View() == Apply(old(View()), site, release, config)
    {
      AdoptInto(site);
      PopulateFor(site);
      if Debug in annotations && annotations[Debug] != "" {
        return;
      }
      EnforceFor(site, release, config);
    }

    /** The mutation of the configmap-hash writer. */
    method UpdateDeploymentAnnotations(h: Hashes)
      modifies this`podAnnotations
      ensures View() == SetHashes(old(View()), h)
      ensures podAnnotations.Keys == old(podAnnotations).Keys + {PhpHash, NginxHash, SettingsHash, PhpCliHash}
      ensures podAnnotations[PhpHash] == h.php && podAnnotations[NginxHash] == h.nginx
      ensures podAnnotations[SettingsHash] == h.settings && podAnnotations[PhpCliHash] == h.phpCli
      ensures forall k :: k in old(podAnnotations) && k !in [PhpHash, NginxHash, SettingsHash, PhpCliHash] ==>
        podAnnotations[k] == old(podAnnotations)[k]
    {
      podAnnotations := podAnnotations[PhpHash := h.php];
      podAnnotations := podAnnotations[NginxHash := h.nginx];
      podAnnotations := podAnnotations[SettingsHash := h.settings];
      podAnnotations := podAnnotations[PhpCliHash := h.phpCli];
    }
  }
}
