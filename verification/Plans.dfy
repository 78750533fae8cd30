/**
 What installing and uninstalling an instance does to its objects, call by call: the order
 of upserts and deletes of the installers, and the keys and contents they compute.
 */
module Plans {
  import opened Wrappers
  import opened Identity
  import opened Store

  // ---------------------------------------------------------------- values

  datatype ImageValues = ImageValues(image: Image, pullSecrets: seq<string>)

  datatype ServiceValues = ServiceValues(name: string, kind: string, port: nat)

  datatype WebhooksValues = WebhooksValues(service: Option<ServiceValues>, servicePort: nat)

  /** The zero checks of the landscaper values that concern the webhooks Service. */
  function Defaulted(v: WebhooksValues): WebhooksValues {
    var s := if v.service.Some? then v.service.value else ServiceValues("", "", 0);
    WebhooksValues(
      Some(ServiceValues(s.name, if s.kind == "" then "ClusterIP" else s.kind, if s.port == 0 then 80 else s.port)),
      if v.servicePort == 0 then 9443 else v.servicePort)
  }

  function WebhooksServiceName(v: WebhooksValues): Name {
    if v.service.Some? && v.service.value.name != "" then Plain(v.service.value.name) else Default(Webhooks)
  }

  /** The instance configuration. */
  datatype Configuration = Configuration(
    instance: string,
    domain: Url,
    ca: Option<CaRef>,
    controller: ImageValues,
    webhooks: ImageValues,
    manifest: ImageValues,
    helm: ImageValues,
    webhooksValues: WebhooksValues)
  {
    function Ns(): string { Namespace(instance) }

    function Images(c: Component): ImageValues {
      match c
      case Controller => controller
      case Main => controller
      case Webhooks => webhooks
      case Helm => helm
      case Manifest => manifest
    }

    function Sources(c: Component): seq<string> { Images(c).pullSecrets }
  }

  datatype Kubeconfigs = Kubeconfigs(mcp: string, workload: string)

  /** The contents of the source pull secrets, as read for each component. */
  datatype Copies = Copies(main: seq<Data>, controller: seq<Data>, webhooks: seq<Data>, manifest: seq<Data>,
                           helm: seq<Data>) {
    function Of(c: Component): seq<Data> {
      match c
      case Controller => controller
      case Main => main
      case Webhooks => webhooks
      case Helm => helm
      case Manifest => manifest
    }

    predicate Fits(conf: Configuration) {
      forall c :: |Of(c)| == |conf.Sources(c)|
    }
  }

  // ---------------------------------------------------------------- objects

  /** The Secrets a Deployment mounts. */
  function Mounts(c: Component): seq<Name> {
    match c
    case Controller => [Suffixed(Controller, Config), Suffixed(Controller, ControllerMcp),
                        Suffixed(Controller, ControllerWorkload)]
    case Main => [Suffixed(Controller, Config), Suffixed(Controller, ControllerMcp),
                  Suffixed(Controller, ControllerWorkload)]
    case Webhooks => [Suffixed(Controller, ControllerMcp)]
    case Helm => [Suffixed(Helm, Config), Suffixed(Helm, McpKubeconfig)]
    case Manifest => [Suffixed(Manifest, Config), Suffixed(Manifest, McpKubeconfig)]
  }

  function PullRefs(c: Component, sources: seq<string>): (r: seq<Name>)
    ensures |r| == |sources| && forall i :: 0 <= i < |r| ==> r[i] == PullCopy(c, sources[i])
  {
    seq(|sources|, i requires 0 <= i < |sources| => PullCopy(c, sources[i]))
  }

  function WebhooksArgs(conf: Configuration): seq<Arg> {
    [CertNamespace(conf.Ns()), WebhookUrl(conf.domain), Verbosity("INFO"),
     Port(Defaulted(conf.webhooksValues).servicePort)]
  }

  /** The Deployment of a component with the given references to pull secrets. */
  function DeploymentWith(conf: Configuration, c: Component, refs: seq<Name>): Object {
    DeploymentObject(
      SelectorLabels(conf.instance, ComponentName(c)),
      TemplateLabels(conf.instance, ComponentName(c), c == Controller),
      PodSpec(conf.Images(c).image, if c == Webhooks then WebhooksArgs(conf) else [], Mounts(c), refs, conf.ca))
  }

  function DeploymentFor(conf: Configuration, c: Component): Object {
    DeploymentWith(conf, c, PullRefs(c, conf.Sources(c)))
  }

  function CentralService(conf: Configuration): Object {
    ServiceObject(80, Text("http"), SelectorLabels(conf.instance, ComponentName(Controller)))
  }

  function WebhooksService(conf: Configuration): Object {
    var port := Defaulted(conf.webhooksValues).servicePort;
    ServiceObject(port, Number(port), SelectorLabels(conf.instance, ComponentName(Webhooks)))
  }

  /** The deployers to be watched by the health checks of the landscaper. */
  function HealthChecks(): seq<Name> { [Default(Manifest), Default(Helm)] }

  function SecretData(conf: Configuration, kcs: Kubeconfigs, n: Name): Data
    requires n.Suffixed?
  {
    match n.x
    case Config => if n.c == Controller then LandscaperConfig(conf.instance, HealthChecks())
      else DeployerConfig(n.c, conf.instance)
    case ControllerWorkload => Kubeconfig(kcs.workload)
    case _ => Kubeconfig(kcs.mcp)
  }

  function PutSecret(conf: Configuration, kcs: Kubeconfigs, n: Name): Op
    requires n.Suffixed?
  {
    Put(SecretKey(conf.Ns(), n), SecretObject(SecretData(conf, kcs, n)))
  }

  function PutDeployment(conf: Configuration, c: Component): Op {
    Put(DeploymentKey(conf.Ns(), c), DeploymentFor(conf, c))
  }

  function PutHpa(conf: Configuration, c: Component): Op {
    Put(HpaKey(conf.Ns(), c), HpaObject(Default(c)))
  }

  function PutNamespace(cluster: Cluster, ns: string): Op {
    Put(NamespaceKey(cluster, ns), NamespaceObject)
  }

  // ---------------------------------------------------------------- plans

  function CopyPuts(ns: string, c: Component, sources: seq<string>, data: seq<Data>): (r: seq<Op>)
    requires |sources| == |data|
    ensures |r| == |sources| && Upserts(r)
  {
    seq(|sources|, i requires 0 <= i < |sources| => Put(SecretKey(ns, PullCopy(c, sources[i])), SecretObject(data[i])))
  }

  /** The manifest deployer and the helm deployer install in the same order. */
  function DeployerHead(conf: Configuration, c: Component, data: seq<Data>): seq<Op>
    requires |data| == |conf.Sources(c)|
  {
    [PutNamespace(Workload, conf.Ns())] + CopyPuts(conf.Ns(), c, conf.Sources(c), data)
  }

  function DeployerTail(conf: Configuration, c: Component, kcs: Kubeconfigs): seq<Op> {
    [ PutSecret(conf, kcs, Suffixed(c, Config)),
      PutSecret(conf, kcs, Suffixed(c, McpKubeconfig)),
      PutHpa(conf, c),
      PutDeployment(conf, c) ]
  }

  function DeployerPlan(conf: Configuration, c: Component, kcs: Kubeconfigs, data: seq<Data>): seq<Op>
    requires |data| == |conf.Sources(c)|
  {
    DeployerHead(conf, c, data) + DeployerTail(conf, c, kcs)
  }

  function LandscaperHead(conf: Configuration, copies: Copies): seq<Op>
    requires copies.Fits(conf)
  {
    [PutNamespace(Workload, conf.Ns())]
    + CopyPuts(conf.Ns(), Main, conf.Sources(Main), copies.main)
    + CopyPuts(conf.Ns(), Controller, conf.Sources(Controller), copies.controller)
    + CopyPuts(conf.Ns(), Webhooks, conf.Sources(Webhooks), copies.webhooks)
  }

  function LandscaperSecrets(conf: Configuration, kcs: Kubeconfigs): seq<Op> {
    [ PutSecret(conf, kcs, Suffixed(Controller, ControllerMcp)),
      PutSecret(conf, kcs, Suffixed(Controller, ControllerWorkload)),
      PutSecret(conf, kcs, Suffixed(Controller, WebhooksMcp)),
      PutSecret(conf, kcs, Suffixed(Controller, Config)) ]
  }

  function LandscaperServices(conf: Configuration): seq<Op> {
    [ Put(ServiceKey(conf.Ns(), Default(Controller)), CentralService(conf)),
      Put(ServiceKey(conf.Ns(), WebhooksServiceName(Defaulted(conf.webhooksValues))), WebhooksService(conf)) ]
  }

  function LandscaperDeployments(conf: Configuration): seq<Op> {
    [ PutDeployment(conf, Controller), PutDeployment(conf, Main), PutDeployment(conf, Webhooks) ]
  }

  function LandscaperHpas(conf: Configuration): seq<Op> {
    [ PutHpa(conf, Main), PutHpa(conf, Controller), PutHpa(conf, Webhooks) ]
  }

  function LandscaperTail(conf: Configuration, kcs: Kubeconfigs): seq<Op> {
    LandscaperSecrets(conf, kcs) + LandscaperServices(conf) + LandscaperDeployments(conf) + LandscaperHpas(conf)
  }

  function LandscaperPlan(conf: Configuration, kcs: Kubeconfigs, copies: Copies): seq<Op>
    requires copies.Fits(conf)
  {
    LandscaperHead(conf, copies) + LandscaperTail(conf, kcs)
  }

  /** The RBAC namespace on the MCP cluster, the two deployers, then the landscaper. */
  function InstallPlan(conf: Configuration, kcs: Kubeconfigs, copies: Copies): seq<Op>
    requires copies.Fits(conf)
  {
    [PutNamespace(Mcp, conf.Ns())]
    + DeployerPlan(conf, Manifest, kcs, copies.manifest)
    + DeployerPlan(conf, Helm, kcs, copies.helm)
    + LandscaperPlan(conf, kcs, copies)
  }

  function NamedDels(ns: string, sources: seq<string>, hash: NameHash): (r: seq<Op>)
    ensures |r| == |sources| && Removals(r)
  {
    seq(|sources|, i requires 0 <= i < |sources| => DelNamed(ns, sources[i], hash))
  }

  function LandscaperHpaDels(conf: Configuration): seq<Op> {
    var ns := conf.Ns();
    [Del(HpaKey(ns, Webhooks)), Del(HpaKey(ns, Controller)), Del(HpaKey(ns, Main))]
  }

  function LandscaperDeploymentDels(conf: Configuration): seq<Op> {
    var ns := conf.Ns();
    [Del(DeploymentKey(ns, Webhooks)), Del(DeploymentKey(ns, Main)), Del(DeploymentKey(ns, Controller))]
  }

  /** The Service name is taken from the values as they are, without defaults. */
  function LandscaperServiceDels(conf: Configuration): seq<Op> {
    var ns := conf.Ns();
    [Del(ServiceKey(ns, WebhooksServiceName(conf.webhooksValues))), Del(ServiceKey(ns, Default(Controller)))]
  }

  function LandscaperSecretDels(conf: Configuration): seq<Op> {
    var ns := conf.Ns();
    [ Del(SecretKey(ns, Suffixed(Controller, Config))),
      Del(SecretKey(ns, Suffixed(Controller, WebhooksMcp))),
      Del(SecretKey(ns, Suffixed(Controller, ControllerMcp))),
      Del(SecretKey(ns, Suffixed(Controller, ControllerWorkload))) ]
  }

  function LandscaperDels(conf: Configuration): seq<Op> {
    LandscaperHpaDels(conf) + LandscaperDeploymentDels(conf) + LandscaperServiceDels(conf) + LandscaperSecretDels(conf)
  }

  function LandscaperNamedDels(conf: Configuration, hash: NameHash): seq<Op> {
    NamedDels(conf.Ns(), conf.Sources(Main), hash)
    + NamedDels(conf.Ns(), conf.Sources(Controller), hash)
    + NamedDels(conf.Ns(), conf.Sources(Webhooks), hash)
  }

  function DeployerDels(conf: Configuration, c: Component): seq<Op> {
    var ns := conf.Ns();
    [ Del(DeploymentKey(ns, c)),
      Del(HpaKey(ns, c)),
      Del(SecretKey(ns, Suffixed(c, McpKubeconfig))),
      Del(SecretKey(ns, Suffixed(c, Config))) ]
  }

  /**
   The deletes of an uninstall that succeeds. An error while the helm deployer's pull secrets
   are deleted is swallowed: m of them have been deleted when the uninstall goes on.
   */
  function UninstallPlan(conf: Configuration, hash: NameHash, m: nat): seq<Op>
    requires m <= |conf.Sources(Helm)|
  {
    LandscaperDels(conf) + LandscaperNamedDels(conf, hash)
    + DeployerDels(conf, Helm) + NamedDels(conf.Ns(), conf.Sources(Helm)[..m], hash)
    + DeployerDels(conf, Manifest) + NamedDels(conf.Ns(), conf.Sources(Manifest), hash)
    + [Del(NamespaceKey(Mcp, conf.Ns()))]
  }

  // ---------------------------------------------------------------- the desired state

  /** The Secrets with fixed names. */
  predicate FixedSecret(n: Name) {
    n.Suffixed? && match n.c
      case Controller => n.x != McpKubeconfig
      case Helm => n.x == Config || n.x == McpKubeconfig
      case Manifest => n.x == Config || n.x == McpKubeconfig
      case _ => false
  }

  /** No Secret of an instance has this name, whatever the name hash: no fixed one, and no copy. */
  predicate Ordinary(text: string) {
    && (forall c, x :: FixedSecret(Suffixed(c, x)) ==> ComponentName(c) + "-" + SuffixText(x) != text)
    && (forall c :: !(ComponentName(c) + "-imgpull-" <= text))
  }

  lemma OrdinaryNotUsed(text: string, hash: NameHash, n: Name)
    requires Ordinary(text) && (n.PullCopy? || FixedSecret(n))
    ensures Render(hash, n) != text
  {
    if n.PullCopy? {
      var p, q := ComponentName(n.c), hash(n.source);
      assert p + "-" + ("imgpull-" + q) == (p + "-imgpull-") + q;
    }
  }

  /** The objects an uninstall is there to remove. */
  predicate Removable(conf: Configuration, k: Key) {
    k.ns == conf.Ns() && match k.kind
      case NamespaceKind => k == NamespaceKey(Mcp, conf.Ns())
      case Secret => k.cluster == Workload && FixedSecret(k.name)
      case Service => k.cluster == Workload
        && (k.name == Default(Controller) || k.name == WebhooksServiceName(conf.webhooksValues))
      case Hpa => k.cluster == Workload && k.name.Default?
      case Deployment => k.cluster == Workload && k.name.Default?
      case _ => false
  }

  predicate PullSecretCopy(conf: Configuration, k: Key) {
    k.cluster == Workload && k.kind == Secret && k.ns == conf.Ns() && k.name.PullCopy?
      && k.name.source in conf.Sources(k.name.c)
  }

  /** The keys of an installed instance. */
  predicate Footprint(conf: Configuration, k: Key) {
    Removable(conf, k) || k == NamespaceKey(Workload, conf.Ns()) || PullSecretCopy(conf, k)
  }

  /** What the instance has at each of its keys, stated without any order. */
  function Wanted(conf: Configuration, kcs: Kubeconfigs, sources: map<string, Data>, k: Key): Object
    requires Footprint(conf, k)
    requires forall c, i :: 0 <= i < |conf.Sources(c)| ==> conf.Sources(c)[i] in sources
  {
    match k.kind
    case NamespaceKind => NamespaceObject
    case Secret => SecretObject(if k.name.PullCopy? then sources[k.name.source] else SecretData(conf, kcs, k.name))
    case Service => if k.name == Default(Controller) then CentralService(conf) else WebhooksService(conf)
    case Hpa => HpaObject(k.name)
    case Deployment => DeploymentFor(conf, k.name.c)
    case _ => NamespaceObject
  }
}
