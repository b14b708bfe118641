// The server deployment of a site and the transformer that brings it to a release.
module Deployments {
  import opened DrupalSites

  /** The settings given to the operator on its command line. */
  datatype Flags = Flags(
    siteBuilderImage: string,
    phpFpmExporterImage: string,
    webDAVImage: string,
    topologySpread: bool)

  /** The configuration calculated for one reconcile: replicas, and resources per container. */
  datatype Config = Config(
    flags: Flags,
    replicas: nat,
    php: string,
    nginx: string,
    phpExporter: string,
    webDAV: string,
    cron: string,
    drupalLogs: string)

  // Keys of the maps the operator writes; every other key is of the last kind.
  datatype Label = SiteLabel | AppLabel | OtherLabel(key: string)
  datatype Annotation = ResolveNames | Debug | CriticalSite | ImageTriggers | OtherAnnotation(key: string)
  datatype PodAnnotation =
    | Release
    | BackupContainer | BackupCommand | BackupTimeout | BackupVolumes
    | PhpHash | NginxHash | SettingsHash | PhpCliHash
    | OtherPodAnnotation(key: string)

  /** The name of a container; a container the operator does not know is a sidecar. */
  datatype Role = Nginx | PhpFpm | PhpFpmExporter | WebDAV | Cron | DrupalLogs | Sidecar(name: string)

  datatype Container = Container(
    role: Role,
    image: string,
    command: seq<string>,
    resources: string,
    pullPolicy: string,
    ports: seq<nat>,
    mounts: seq<string>,
    probes: seq<string>)

  datatype Owner = Owner(name: string, uid: string)

  datatype Deployment = Deployment(
    created: bool,
    labels: map<Label, string>,
    annotations: map<Annotation, string>,
    owners: seq<Owner>,
    selector: map<Label, string>,
    podLabels: map<Label, string>,
    podAnnotations: map<PodAnnotation, string>,
    volumes: seq<string>,
    containers: seq<Container>,
    replicas: nat,
    priorityClass: string,
    spreadOverZones: bool)
  {
    /** The release annotation of the pod template; a missing key reads as the empty string. */
    function ReleaseOf(): string { if Release in podAnnotations then podAnnotations[Release] else "" }

    predicate Debugging() { Debug in annotations && annotations[Debug] != "" }
  }

  /** The object create-or-update starts from when the deployment does not exist. */
  const BLANK := Deployment(false, map[], map[], [], map[], map[], map[], [], [], 0, "", false)

  const ROLES := [Nginx, PhpFpm, PhpFpmExporter, WebDAV, Cron, DrupalLogs]

  // ------------------------------------------------------------------ containers

  predicate HasRole(cs: seq<Container>, role: Role) {
    exists i :: 0 <= i < |cs| && cs[i].role == role
  }

  /** A container added by name only. */
  function Bare(role: Role): Container {
    Container(role, "", [], "", "", [], [], [])
  }

  function EnsureRole(cs: seq<Container>, role: Role): seq<Container> {
    if HasRole(cs, role) then cs else cs + [Bare(role)]
  }

  function EnsureRoles(cs: seq<Container>, roles: seq<Role>): seq<Container>
    decreases |roles|
  {
    if roles == [] then cs else EnsureRoles(EnsureRole(cs, roles[0]), roles[1..])
  }

  /** The four containers that run an image built for the release. */
  predicate RunsSiteImage(role: Role) {
    role == Nginx || role == PhpFpm || role == Cron || role == DrupalLogs
  }

  function SiteImage(flags: Flags, site: Site, release: string): string {
    if |site.spec.extraConfigurationRepo| > 0 then
      "image-registry.openshift-image-registry.svc:5000/" + site.namespace + "/sitebuilder-s2i-" + site.name + ":"
        + release
    else
      flags.siteBuilderImage + ":" + release
  }

  const DATA := "/drupal-data"
  const RUN := "/var/run/"
  const CLI_INI := "/usr/local/etc/php/conf.d/config.ini"

  /** What a container gets when the deployment is created, and never again. */
  function InitContainer(c: Container): Container {
    match c.role
    case Nginx => c.(pullPolicy := "Always", ports := [8080], mounts := [DATA, "/etc/nginx/global.conf", RUN])
    case PhpFpm => c.(pullPolicy := "Always", ports := [9000],
      mounts := [DATA, "/usr/local/etc/php-fpm.d/zz-docker.conf", RUN, "/app/web/sites/default/settings.php", "/tmp",
        CLI_INI])
    case PhpFpmExporter => c.(pullPolicy := "Always", ports := [9253], mounts := [RUN])
    case WebDAV => c.(pullPolicy := "Always", ports := [8008], mounts := [DATA, "/webdav/htdigest", RUN])
    case _ => c
  }

  /** The image is set from the release only when the deployment is not yet marked with it. */
  function SetImage(c: Container, image: string): Container {
    if RunsSiteImage(c.role) then c.(image := image) else c
  }

  /** What a container gets on every pass. */
  function EnforceContainer(c: Container, site: Site, config: Config): Container {
    match c.role
    case Nginx => c.(command := ["/run-nginx.sh"], resources := config.nginx)
    case PhpFpm => c.(command := ["/run-php-fpm.sh"], resources := config.php, probes := ["liveness", "startup"])
    case PhpFpmExporter => c.(image := config.flags.phpFpmExporterImage, resources := config.phpExporter)
    case WebDAV => c.(image := config.flags.webDAVImage, command := ["php-fpm"], resources := config.webDAV)
    case Cron => c.(command := ["sh", "-c", "/operations/cronjob.sh -s " + site.name], resources := config.cron,
      pullPolicy := "Always", mounts := [CLI_INI, RUN])
    case DrupalLogs => c.(command := ["/operations/tail-drupal-logs.sh"], resources := config.drupalLogs,
      pullPolicy := "Always", ports := [8085], mounts := [RUN])
    case Sidecar(_) => c
  }

  function InitContainers(cs: seq<Container>): (r: seq<Container>)
    ensures |r| == |cs|
    ensures forall i :: 0 <= i < |r| ==> r[i] == InitContainer(cs[i])
  {
    seq(|cs|, i requires 0 <= i < |cs| => InitContainer(cs[i]))
  }

  function SetImages(cs: seq<Container>, image: string): (r: seq<Container>)
    ensures |r| == |cs|
    ensures forall i :: 0 <= i < |r| ==> r[i] == SetImage(cs[i], image)
  {
    seq(|cs|, i requires 0 <= i < |cs| => SetImage(cs[i], image))
  }

  function EnforceContainers(cs: seq<Container>, site: Site, config: Config): (r: seq<Container>)
    ensures |r| == |cs|
    ensures forall i :: 0 <= i < |r| ==> r[i] == EnforceContainer(cs[i], site, config)
  {
    seq(|cs|, i requires 0 <= i < |cs| => EnforceContainer(cs[i], site, config))
  }

  // ------------------------------------------------------------------ the transformer

  function SiteLabels(site: Site): map<Label, string> {
    map[SiteLabel := site.name, AppLabel := "drupal"]
  }

  /** An owner already listed under the same identifier is kept as it is. */
  function AddOwner(owners: seq<Owner>, o: Owner): seq<Owner> {
    if exists i :: 0 <= i < |owners| && owners[i].uid == o.uid then owners else owners + [o]
  }

  /** Labels, owner, and the annotation that makes OpenShift resolve image streams. */
  function Adopt(d: Deployment, site: Site): Deployment {
    d.(labels := d.labels + SiteLabels(site),
       owners := AddOwner(d.owners, Owner(site.name, site.uid)),
       annotations := d.annotations[ResolveNames := "*"])
  }

  /** The containers of a deployment that is about to be created. */
  const FRESH := [Bare(Nginx), Bare(PhpFpm), Bare(PhpFpmExporter), Bare(WebDAV), Bare(Cron), Bare(DrupalLogs)]

  function Volumes(site: Site): seq<string> {
    ["drupal-directory-" + site.name, "php-config-volume", "nginx-global-config", "site-settings-php",
     "empty-dir", "webdav-volume", "tmp-dir", "php-cli-config-volume"]
  }

  /** All six containers, and on creation the settings that are never enforced again. */
  function Populate(d: Deployment, site: Site): Deployment {
    if d.created then
      d.(containers := EnsureRoles(d.containers, ROLES))
    else
      d.(containers := InitContainers(FRESH),
         podAnnotations := map[],
         selector := SiteLabels(site),
         podLabels := SiteLabels(site),
         volumes := Volumes(site))
  }

  predicate MustSetImages(d: Deployment, site: Site, release: string) {
    Release !in d.podAnnotations || site.status.failsafe == "" || d.podAnnotations[Release] != release
  }

  const BACKUP_COMMAND := "[\"sh\",\"-c\", \"/operations/database-backup.sh -f database_backup.sql\"]"
  const CRITICAL_PRIORITY := "openshift-user-critical"

  function PodAnnotations(m: map<PodAnnotation, string>, site: Site, release: string): map<PodAnnotation, string> {
    m[Release := release]
     [BackupContainer := "php-fpm"]
     [BackupCommand := BACKUP_COMMAND]
     [BackupTimeout := "90m"]
     [BackupVolumes := "drupal-directory-" + site.name]
  }

  /** The trigger text names the image stream tag once for each of the two containers it follows. */
  function Trigger(site: Site, release: string, container: string): string {
    "{\"from\":{\"kind\":\"ImageStreamTag\",\"name\":\"sitebuilder-s2i-" + site.name + ":" + release
    + "\",\"namespace\":\"" + site.namespace + "\"},\"fieldPath\":\"spec.template.spec.containers[?(@.name==\\\""
    + container + "\\\")].image\",\"pause\":\"false\"}"
  }

  function Triggers(site: Site, release: string): string {
    "[" + Trigger(site, release, "nginx") + "," + Trigger(site, release, "php-fpm") + "]"
  }

  function Annotations(m: map<Annotation, string>, site: Site, release: string): map<Annotation, string> {
    var critical := if site.spec.qos == Critical then m[CriticalSite := "true"] else m;
    if |site.spec.extraConfigurationRepo| > 0 then critical[ImageTriggers := Triggers(site, release)] else critical
  }

  function Enforce(d: Deployment, site: Site, release: string, config: Config): Deployment {
    var image := SiteImage(config.flags, site, release);
    var imaged := if MustSetImages(d, site, release) then SetImages(d.containers, image) else d.containers;
    d.(containers := EnforceContainers(imaged, site, config),
       replicas := config.replicas,
       podAnnotations := PodAnnotations(d.podAnnotations, site, release),
       annotations := Annotations(d.annotations, site, release),
       priorityClass := if site.spec.qos == Critical then CRITICAL_PRIORITY else d.priorityClass,
       spreadOverZones := site.spec.qos == Critical && config.flags.topologySpread)
  }

  /** The value `DeploymentObject.DeploymentForDrupalSite` leaves behind. */
  function Apply(d: Deployment, site: Site, release: string, config: Config): Deployment {
    var b := Populate(Adopt(d, site), site);
    if b.Debugging() then b else Enforce(b, site, release, config)
  }

  /** Creating an object gives it a creation time. */
  function Stored(d: Deployment): Deployment {
    d.(created := true)
  }

  // ------------------------------------------------------------------ configmap hashes

  datatype Hashes = Hashes(php: string, nginx: string, settings: string, phpCli: string)

  function SetHashes(d: Deployment, h: Hashes): Deployment {
    d.(podAnnotations :=
         d.podAnnotations[PhpHash := h.php][NginxHash := h.nginx][SettingsHash := h.settings][PhpCliHash := h.phpCli])
  }
}
