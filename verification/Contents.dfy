/**
 What an installed instance consists of, object by object: stated on the store itself, without the
 functions that the plans of the installers are made of.
 */
module Contents {
  import opened Wrappers
  import opened Identity
  import opened Store
  import opened Plans
  import opened Platform
  import opened World
  import opened Api
  import opened Installation
  import opened Outcomes
  import opened Reconciler

  predicate SecretHas(o: Objects, ns: string, n: Name, data: Data) {
    SecretKey(ns, n) in o && o[SecretKey(ns, n)] == SecretObject(data)
  }

  /** Who talks to the MCP cluster has its kubeconfig, and only the controller's workload Secret has the other one. */
  predicate HasKubeconfigs(o: Objects, ns: string, kcs: Kubeconfigs) {
    && SecretHas(o, ns, Suffixed(Controller, ControllerMcp), Kubeconfig(kcs.mcp))
    && SecretHas(o, ns, Suffixed(Controller, WebhooksMcp), Kubeconfig(kcs.mcp))
    && SecretHas(o, ns, Suffixed(Helm, McpKubeconfig), Kubeconfig(kcs.mcp))
    && SecretHas(o, ns, Suffixed(Manifest, McpKubeconfig), Kubeconfig(kcs.mcp))
    && SecretHas(o, ns, Suffixed(Controller, ControllerWorkload), Kubeconfig(kcs.workload))
  }

  /** Each deployer has its own configuration, and the landscaper's health checks watch both deployers. */
  predicate HasConfigs(o: Objects, ns: string, instance: string) {
    && SecretHas(o, ns, Suffixed(Helm, Config), DeployerConfig(Helm, instance))
    && SecretHas(o, ns, Suffixed(Manifest, Config), DeployerConfig(Manifest, instance))
    && SecretHas(o, ns, Suffixed(Controller, Config), LandscaperConfig(instance, [Default(Manifest), Default(Helm)]))
  }

  predicate HasDeployment(o: Objects, ns: string, c: Component) {
    DeploymentKey(ns, c) in o && o[DeploymentKey(ns, c)].DeploymentObject?
  }

  function Pod(o: Objects, ns: string, c: Component): PodSpec
    requires HasDeployment(o, ns, c)
  {
    o[DeploymentKey(ns, c)].pod
  }

  /** A pod with the image, the copies of the pull secrets in order, the CA bundle, and these Secrets mounted. */
  ghost predicate Outfitted(p: PodSpec, c: Component, v: ImageValues, ca: Option<CaRef>, secrets: set<Name>) {
    && p.image == v.image && p.ca == ca && (forall n :: n in p.secrets <==> n in secrets)
    && |p.pullSecrets| == |v.pullSecrets|
    && forall i :: 0 <= i < |p.pullSecrets| ==> p.pullSecrets[i] == PullCopy(c, v.pullSecrets[i])
  }

  /** The Secrets a component needs; the webhooks server shares the controller's kubeconfig for the MCP cluster. */
  function Needs(c: Component): set<Name> {
    match c
    case Webhooks => {Suffixed(Controller, ControllerMcp)}
    case Helm => {Suffixed(Helm, Config), Suffixed(Helm, McpKubeconfig)}
    case Manifest => {Suffixed(Manifest, Config), Suffixed(Manifest, McpKubeconfig)}
    case _ => {Suffixed(Controller, Config), Suffixed(Controller, ControllerMcp),
               Suffixed(Controller, ControllerWorkload)}
  }

  /** The image and the pull secrets of a component; main runs the controller's. */
  function Values(conf: Configuration, c: Component): ImageValues {
    match c
    case Webhooks => conf.webhooks
    case Helm => conf.helm
    case Manifest => conf.manifest
    case _ => conf.controller
  }

  ghost predicate HasDeployments(o: Objects, conf: Configuration) {
    forall c ::
      && HasDeployment(o, conf.Ns(), c)
      && Outfitted(Pod(o, conf.Ns(), c), c, Values(conf, c), conf.ca, Needs(c))
  }

  /** Whether the selector of an object picks the pods of the Deployment of c. */
  predicate Picks(selector: Labels, o: Objects, ns: string, c: Component)
    requires HasDeployment(o, ns, c)
  {
    Identity.Matches(selector, o[DeploymentKey(ns, c)].template)
  }

  /** Every Deployment selects its own pods and no others, and has an HPA that scales it. */
  ghost predicate Selects(o: Objects, ns: string) {
    && (forall c, d :: HasDeployment(o, ns, c) && HasDeployment(o, ns, d) ==>
          (Picks(o[DeploymentKey(ns, c)].selector, o, ns, d) <==> c == d))
    && forall c :: HpaKey(ns, c) in o && o[HpaKey(ns, c)] == HpaObject(Default(c))
  }

  /**
   The central Service picks the central pods alone, that of the webhooks the pods of the webhooks
   server alone; it serves the port on which the server is told to listen. The server is told its URL
   and the namespace of its certificates too.
   */
  ghost predicate HasServices(o: Objects, conf: Configuration, port: nat)
    requires forall c :: HasDeployment(o, conf.Ns(), c)
  {
    var ns := conf.Ns();
    var s, w := ServiceKey(ns, Default(Controller)), ServiceKey(ns, WebhooksServiceName(conf.webhooksValues));
    && s in o && o[s].ServiceObject? && (forall c :: Picks(o[s].selector, o, ns, c) <==> c == Controller)
    && o[s].port == 80 && o[s].target == Text("http")
    && w in o && o[w].ServiceObject? && (forall c :: Picks(o[w].selector, o, ns, c) <==> c == Webhooks)
    && o[w].port == port && o[w].target == Number(port) && Port(port) in Pod(o, ns, Webhooks).args
    && WebhookUrl(conf.domain) in Pod(o, ns, Webhooks).args && CertNamespace(ns) in Pod(o, ns, Webhooks).args
  }

  /** Everything an instance needs, as the configuration and the kubeconfigs say. */
  ghost predicate Furnished(o: Objects, conf: Configuration, kcs: Kubeconfigs) {
    && HasKubeconfigs(o, conf.Ns(), kcs) && HasConfigs(o, conf.Ns(), conf.instance)
    && HasDeployments(o, conf) && Selects(o, conf.Ns())
  }

  /** The CA bundle that every Deployment mounts is a copy of the configured one as it was during the run. */
  ghost predicate HasCa(o: Objects, t: seq<Snap>, n: nat, ns: string, ca: Option<CaRef>) {
    ca.Some? ==>
      var k := Key(Workload, ConfigMap, ns, Plain(ca.value.name));
      && k in o && o[k].ConfigMapObject?
      && exists j :: n <= j < |t| && ca.value.name in t[j].world.platform.configMaps
           && t[j].world.platform.configMaps[ca.value.name] == o[k].data
  }

  /** Every key of the footprint but the copies holds what is wanted there. */
  ghost predicate AsWanted(o: Objects, conf: Configuration, kcs: Kubeconfigs, src: Sources) {
    && HasSources(conf, src)
    && forall k :: Footprint(conf, k) && !CopyKey(k) ==> k in o && o[k] == Wanted(conf, kcs, src, k)
  }

  lemma WantedSecret(o: Objects, conf: Configuration, kcs: Kubeconfigs, src: Sources, n: Name)
    requires AsWanted(o, conf, kcs, src) && FixedSecret(n)
    ensures SecretHas(o, conf.Ns(), n, SecretData(conf, kcs, n))
  {
    assert Footprint(conf, SecretKey(conf.Ns(), n));
  }

  lemma WantedSecrets(o: Objects, conf: Configuration, kcs: Kubeconfigs, src: Sources)
    requires AsWanted(o, conf, kcs, src)
    ensures HasKubeconfigs(o, conf.Ns(), kcs) && HasConfigs(o, conf.Ns(), conf.instance)
  {
    WantedSecret(o, conf, kcs, src, Suffixed(Controller, Config));
    WantedSecret(o, conf, kcs, src, Suffixed(Controller, ControllerMcp));
    WantedSecret(o, conf, kcs, src, Suffixed(Controller, ControllerWorkload));
    WantedSecret(o, conf, kcs, src, Suffixed(Controller, WebhooksMcp));
    forall c | c == Helm || c == Manifest
      ensures SecretHas(o, conf.Ns(), Suffixed(c, Config), DeployerConfig(c, conf.instance))
      ensures SecretHas(o, conf.Ns(), Suffixed(c, McpKubeconfig), Kubeconfig(kcs.mcp))
    {
      WantedSecret(o, conf, kcs, src, Suffixed(c, Config));
      WantedSecret(o, conf, kcs, src, Suffixed(c, McpKubeconfig));
    }
  }

  lemma WantedDeployment(o: Objects, conf: Configuration, kcs: Kubeconfigs, src: Sources, c: Component)
    requires AsWanted(o, conf, kcs, src)
    ensures HasDeployment(o, conf.Ns(), c) && o[DeploymentKey(conf.Ns(), c)] == DeploymentFor(conf, c)
    ensures HpaKey(conf.Ns(), c) in o && o[HpaKey(conf.Ns(), c)] == HpaObject(Default(c))
  {
    assert Footprint(conf, DeploymentKey(conf.Ns(), c)) && Footprint(conf, HpaKey(conf.Ns(), c));
  }

  lemma PodOutfitted(conf: Configuration, c: Component)
    ensures Outfitted(DeploymentFor(conf, c).pod, c, Values(conf, c), conf.ca, Needs(c))
  {
    assert forall n :: n in Mounts(c) <==> n in Needs(c);
  }

  lemma WantedDeployments(o: Objects, conf: Configuration, kcs: Kubeconfigs, src: Sources)
    requires AsWanted(o, conf, kcs, src)
    ensures HasDeployments(o, conf)
  {
    forall c
      ensures HasDeployment(o, conf.Ns(), c)
      ensures Outfitted(Pod(o, conf.Ns(), c), c, Values(conf, c), conf.ca, Needs(c))
    {
      WantedDeployment(o, conf, kcs, src, c);
      PodOutfitted(conf, c);
    }
  }

  /** Whatever else two Deployments are: a selector made of these labels picks the pods of its own component. */
  lemma PicksOwn(o: Objects, conf: Configuration, kcs: Kubeconfigs, src: Sources, c: Component, d: Component)
    requires AsWanted(o, conf, kcs, src)
    ensures HasDeployment(o, conf.Ns(), d)
    ensures Picks(SelectorLabels(conf.instance, ComponentName(c)), o, conf.Ns(), d) <==> c == d
  {
    WantedDeployment(o, conf, kcs, src, d);
    SelectorExact(conf.instance, ComponentName(c), conf.instance, ComponentName(d), d == Controller);
    if ComponentName(c) == ComponentName(d) { DefaultNamesDistinct(c, d); }
  }

  lemma WantedSelects(o: Objects, conf: Configuration, kcs: Kubeconfigs, src: Sources)
    requires AsWanted(o, conf, kcs, src)
    ensures Selects(o, conf.Ns())
  {
    var ns := conf.Ns();
    forall c, d | HasDeployment(o, ns, c) && HasDeployment(o, ns, d)
      ensures Picks(o[DeploymentKey(ns, c)].selector, o, ns, d) <==> c == d
    {
      WantedDeployment(o, conf, kcs, src, c);
      PicksOwn(o, conf, kcs, src, c, d);
    }
    forall c ensures HpaKey(ns, c) in o && o[HpaKey(ns, c)] == HpaObject(Default(c)) {
      WantedDeployment(o, conf, kcs, src, c);
    }
  }

  /** A store that holds what is wanted has everything an instance needs. */
  lemma WantedFurnished(o: Objects, conf: Configuration, kcs: Kubeconfigs, src: Sources)
    requires AsWanted(o, conf, kcs, src)
    ensures Furnished(o, conf, kcs)
  {
    WantedSecrets(o, conf, kcs, src);
    WantedDeployments(o, conf, kcs, src);
    WantedSelects(o, conf, kcs, src);
  }

  lemma WantedServices(o: Objects, conf: Configuration, kcs: Kubeconfigs, src: Sources)
    requires AsWanted(o, conf, kcs, src) && WebhooksServiceName(conf.webhooksValues) != Default(Controller)
    ensures forall c :: HasDeployment(o, conf.Ns(), c)
    ensures HasServices(o, conf, if conf.webhooksValues.servicePort == 0 then 9443 else conf.webhooksValues.servicePort)
  {
    var ns := conf.Ns();
    var s, w := ServiceKey(ns, Default(Controller)), ServiceKey(ns, WebhooksServiceName(conf.webhooksValues));
    assert Footprint(conf, s) && Footprint(conf, w);
    forall c ensures HasDeployment(o, ns, c) && (Picks(o[s].selector, o, ns, c) <==> c == Controller)
      && (Picks(o[w].selector, o, ns, c) <==> c == Webhooks)
    {
      PicksOwn(o, conf, kcs, src, Controller, c);
      PicksOwn(o, conf, kcs, src, Webhooks, c);
    }
    WantedDeployment(o, conf, kcs, src, Webhooks);
    var args := WebhooksArgs(conf);
    assert args[0] == CertNamespace(ns) && args[1] == WebhookUrl(conf.domain) && args[3].Port?;
  }

  /** From any store, a complete install leaves an instance with everything it needs. */
  lemma InstallFurnishes(s: Objects, conf: Configuration, kcs: Kubeconfigs, src: Sources)
    requires HasSources(conf, src)
    ensures Furnished(Apply(s, InstallPlan(conf, kcs, CopiesFrom(conf, src))), conf, kcs)
  {
    var o := Apply(s, InstallPlan(conf, kcs, CopiesFrom(conf, src)));
    forall k | Footprint(conf, k) && !CopyKey(k) ensures k in o && o[k] == Wanted(conf, kcs, src, k) {
      InstallResult(s, conf, kcs, src, k);
    }
    WantedFurnished(o, conf, kcs, src);
  }

  lemma FootprintHasCa(o: Objects, t: seq<Snap>, n: nat, conf: Configuration)
    requires CaPlaced(o, t, n, conf)
    ensures HasCa(o, t, n, conf.Ns(), conf.ca)
  {
    if conf.ca.Some? {
      var name := conf.ca.value.name;
      var d := o[ConfigMapKey(conf.Ns(), name)].data;
      var j :| n <= j < |t| && Current(t[j].world, CaSource(name)) == Some(d);
      assert t[j].world.platform.configMaps[name] == d;
    }
  }

  /** So does a run that has written the whole footprint, whatever happened in between. */
  lemma FootprintFurnished(o: Objects, t: seq<Snap>, n: nat, conf: Configuration, kcs: Kubeconfigs)
    requires Footprinted(o, t, n, conf, kcs)
    ensures Furnished(o, conf, kcs)
  {
    WantedFurnished(o, conf, kcs, BlankSources(conf));
  }

  /**
   A run that ends with Ready has put up what the resolved provider configuration says: every Deployment
   runs the image and names the pull secrets of the override of its component, or else the image of
   the repository and the pull secrets of the service provider, mounts the configured CA bundle, and
   has the Secrets it needs with the right contents.
   */
  lemma ReadyIsFurnished(t: seq<Snap>, n: nat, o: Objects, hash: NameHash, kcs: Kubeconfigs, ls: Landscaper,
                         f: Findings)
    requires Sound(t, n, o, hash, kcs, ls, f)
    ensures Furnished(o, f.conf, kcs) && HasServices(o, f.conf, 9443)
    ensures f.conf.instance == ls.id && f.conf.ca == f.pc.ca && f.conf.domain == Url(f.host, 9443)
    ensures HasCa(o, t, n, Namespace(ls.id), f.pc.ca)
    ensures
      var repo, v, p := f.pc.repository, ls.version, f.provider;
      && Overrides(f.pc.controller, repo, v, p, Controller, f.conf.controller)
      && Overrides(f.pc.webhooks, repo, v, p, Webhooks, f.conf.webhooks)
      && Overrides(f.pc.helm, repo, v, p, Helm, f.conf.helm)
      && Overrides(f.pc.manifest, repo, v, p, Manifest, f.conf.manifest)
  {
    FootprintFurnished(o, t, n, f.conf, kcs);
    FootprintHasCa(o, t, n, f.conf);
    WantedServices(o, f.conf, kcs, BlankSources(f.conf));
    ConfigFields(ls.id, ls.version, f.pc, f.provider, f.host);
  }
}
