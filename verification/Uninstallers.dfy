/**
 The uninstallers, call by call: whatever happens, the deletes that took effect are the first
 ones of an uninstall plan. When nobody interferes, an uninstall fails for one reason only: a
 source pull secret that is gone.
 */
module Uninstallers {
  import opened Identity
  import opened Store
  import opened Plans
  import opened Platform
  import opened World
  import opened Calls
  import opened Api
  import opened Installation
  import opened Installers

  // ---------------------------------------------------------------- pull secrets

  /** One round of the deleting loop: the source must be there, the Secret deleted is named like it. */
  method DeleteOne(api: Server, ns: string, name: string, ghost g: Start, ghost start: seq<Op>,
                   ghost plan: seq<Op>, ghost done: seq<Op>)
    returns (ok: bool, ghost more: seq<Op>)
    requires api.Valid() && RemoveGuard(api.mark, ns) && Carried(api, g, done) && Onto(start, done, plan)
    requires |done| < |start| + |plan| && plan[|done| - |start|] == DelNamed(ns, name, api.hash)
    modifies api
    ensures api.Shrunk() && Carried(api, g, more) && Onto(start, more, plan)
    ensures ok ==> |more| == |done| + 1
    ensures old(api.Calm()) ==> (ok <==> name in old(api.world).platform.secrets)
  {
    var read := api.GetSource(PullSource(name));
    if read.Error? { return false, done; }
    ok, more := DeleteResource(api, DelNamed(ns, name, api.hash), g, start, plan, done);
  }

  /** The next round for a list of sources. */
  method DeleteNext(api: Server, ns: string, sources: seq<string>, i: nat, ghost g: Start, ghost start: seq<Op>,
                    ghost done: seq<Op>)
    returns (ok: bool, ghost more: seq<Op>)
    requires api.Valid() && RemoveGuard(api.mark, ns) && Carried(api, g, done)
    requires i < |sources| && |done| == |start| + i && Onto(start, done, NamedDels(ns, sources, api.hash))
    modifies api
    ensures api.Shrunk() && Carried(api, g, more) && Onto(start, more, NamedDels(ns, sources, api.hash))
    ensures ok ==> |more| == |done| + 1
    ensures old(api.Calm()) && Present(old(api.world).platform, sources[..i]) ==>
      if ok then Present(api.world.platform, sources[..i + 1]) else !Present(api.world.platform, sources)
  {
    ok, more := DeleteOne(api, ns, sources[i], g, start, NamedDels(ns, sources, api.hash), done);
    if old(api.Calm()) && Present(old(api.world).platform, sources[..i]) {
      PresentNext(api.world.platform, sources, i);
    }
  }

  /** SecretSync.Delete. */
  method DeletePullSecrets(api: Server, ns: string, sources: seq<string>, ghost g: Start,
                           ghost done: seq<Op>)
    returns (ok: bool, ghost more: seq<Op>)
    requires api.Valid() && RemoveGuard(api.mark, ns) && Carried(api, g, done)
    modifies api
    ensures api.Shrunk() && Carried(api, g, more)
    ensures Onto(done, more, NamedDels(ns, sources, api.hash))
    ensures ok ==> |more| == |done| + |sources|
    ensures old(api.Calm()) ==> (ok <==> Present(old(api.world).platform, sources))
  {
    ghost var plan := NamedDels(ns, sources, api.hash);
    OntoNothing(done, plan);
    ok, more := true, done;
    for i := 0 to |sources|
      invariant ok && api.Shrunk() && Carried(api, g, more) && Onto(done, more, plan)
      invariant |more| == |done| + i
      invariant old(api.Calm()) ==> Present(api.world.platform, sources[..i])
    {
      ok, more := DeleteNext(api, ns, sources, i, g, done, more);
      if !ok { return; }
    }
    assert sources[..|sources|] == sources;
  }

  // ---------------------------------------------------------------- secrets

  /** These components have no Deployment in the namespace. */
  ghost predicate Withdrawn(s: Objects, ns: string, cs: set<Component>) {
    forall c :: c in cs ==> DeploymentKey(ns, c) !in s
  }

  /** The components whose Deployments may mount a fixed Secret. */
  function Users(n: Name): set<Component>
    requires n.Suffixed?
  {
    if n.c == Controller then {Controller, Main, Webhooks} else {n.c}
  }

  /** A fixed Secret is not in use once the Deployments that may mount it are gone. */
  lemma SecretUnused(api: Server, ns: string, n: Name)
    requires api.Valid() && n.Suffixed? && Withdrawn(api.world.objects, ns, Users(n))
    ensures Orderly(api.world.objects, Del(SecretKey(ns, n)))
  {
    var s := api.world.objects;
    api.Holds();
    forall k, m | k in s && SecretRef(s[k], m) ensures SecretKey(k.ns, m) != SecretKey(ns, n) {
      assert Formed(k, s[k]);
    }
  }

  /** DeleteResource for a Secret, after the Deployments that mount it. */
  method DeleteSecret(api: Server, ns: string, n: Name, ghost g: Start, ghost start: seq<Op>, ghost plan: seq<Op>,
                      ghost done: seq<Op>)
    returns (ok: bool, ghost more: seq<Op>)
    requires api.Valid() && RemoveGuard(api.mark, ns) && Carried(api, g, done) && Onto(start, done, plan)
    requires n.Suffixed? && Withdrawn(api.world.objects, ns, Users(n))
    requires |done| < |start| + |plan| && plan[|done| - |start|] == Del(SecretKey(ns, n))
    modifies api
    ensures api.Shrunk() && Carried(api, g, more) && Onto(start, more, plan)
    ensures (ok ==> |more| == |done| + 1) && (old(api.Calm()) ==> ok)
  {
    SecretUnused(api, ns, n);
    ok, more := DeleteResource(api, Del(SecretKey(ns, n)), g, start, plan, done);
  }

  /** DeleteResource for an object that is no Secret. */
  method DeleteOther(api: Server, k: Key, ghost g: Start, ghost start: seq<Op>, ghost plan: seq<Op>,
                     ghost done: seq<Op>)
    returns (ok: bool, ghost more: seq<Op>)
    requires api.Valid() && RemoveGuard(api.mark, k.ns) && Carried(api, g, done) && Onto(start, done, plan)
    requires k.kind != Secret && |done| < |start| + |plan| && plan[|done| - |start|] == Del(k)
    modifies api
    ensures api.Shrunk() && Carried(api, g, more) && Onto(start, more, plan)
    ensures (ok ==> |more| == |done| + 1 && k !in api.world.objects) && (old(api.Calm()) ==> ok)
  {
    ok, more := DeleteResource(api, Del(k), g, start, plan, done);
    assert Touches(Del(k), k);
  }

  // ---------------------------------------------------------------- landscaper

  /** The HPAs of the landscaper. */
  method DeleteHpas(api: Server, conf: Configuration, ghost g: Start, ghost done: seq<Op>)
    returns (ok: bool, ghost more: seq<Op>)
    requires api.Valid() && RemoveGuard(api.mark, conf.Ns()) && Carried(api, g, done)
    modifies api
    ensures api.Shrunk() && Carried(api, g, more) && Onto(done, more, LandscaperHpaDels(conf))
    ensures (ok ==> |more| == |done| + 3) && (old(api.Calm()) ==> ok)
  {
    var ns := conf.Ns();
    ghost var plan := LandscaperHpaDels(conf);
    OntoNothing(done, plan);
    ok, more := DeleteOther(api, HpaKey(ns, Webhooks), g, done, plan, done);
    if !ok { return; }
    ok, more := DeleteOther(api, HpaKey(ns, Controller), g, done, plan, more);
    if !ok { return; }
    ok, more := DeleteOther(api, HpaKey(ns, Main), g, done, plan, more);
  }

  /** The Deployments of the landscaper. */
  method DeleteDeployments(api: Server, conf: Configuration, ghost g: Start, ghost done: seq<Op>)
    returns (ok: bool, ghost more: seq<Op>)
    requires api.Valid() && RemoveGuard(api.mark, conf.Ns()) && Carried(api, g, done)
    modifies api
    ensures api.Shrunk() && Carried(api, g, more) && Onto(done, more, LandscaperDeploymentDels(conf))
    ensures (ok ==> |more| == |done| + 3) && (old(api.Calm()) ==> ok)
    ensures ok ==> Withdrawn(api.world.objects, conf.Ns(), {Controller, Main, Webhooks})
  {
    var ns := conf.Ns();
    ghost var plan := LandscaperDeploymentDels(conf);
    OntoNothing(done, plan);
    ok, more := DeleteOther(api, DeploymentKey(ns, Webhooks), g, done, plan, done);
    if !ok { return; }
    ok, more := DeleteOther(api, DeploymentKey(ns, Main), g, done, plan, more);
    if !ok { return; }
    ok, more := DeleteOther(api, DeploymentKey(ns, Controller), g, done, plan, more);
  }

  /** The Services; the name of the one for the webhooks is taken from the values without defaults. */
  method DeleteServices(api: Server, conf: Configuration, ghost g: Start, ghost done: seq<Op>)
    returns (ok: bool, ghost more: seq<Op>)
    requires api.Valid() && RemoveGuard(api.mark, conf.Ns()) && Carried(api, g, done)
    modifies api
    ensures api.Shrunk() && Carried(api, g, more) && Onto(done, more, LandscaperServiceDels(conf))
    ensures (ok ==> |more| == |done| + 2) && (old(api.Calm()) ==> ok)
  {
    var ns := conf.Ns();
    ghost var plan := LandscaperServiceDels(conf);
    OntoNothing(done, plan);
    ok, more := DeleteOther(api, ServiceKey(ns, WebhooksServiceName(conf.webhooksValues)), g, done, plan, done);
    if !ok { return; }
    ok, more := DeleteOther(api, ServiceKey(ns, Default(Controller)), g, done, plan, more);
  }

  /** The configuration of the landscaper, and the kubeconfig for its webhooks. */
  method DeleteFirstSecrets(api: Server, conf: Configuration, ghost g: Start, ghost done: seq<Op>)
    returns (ok: bool, ghost more: seq<Op>)
    requires api.Valid() && RemoveGuard(api.mark, conf.Ns()) && Carried(api, g, done)
    requires Withdrawn(api.world.objects, conf.Ns(), {Controller, Main, Webhooks})
    modifies api
    ensures api.Shrunk() && Carried(api, g, more) && Onto(done, more, LandscaperSecretDels(conf))
    ensures (ok ==> |more| == |done| + 2) && (old(api.Calm()) ==> ok)
  {
    var ns := conf.Ns();
    ghost var plan := LandscaperSecretDels(conf);
    OntoNothing(done, plan);
    ok, more := DeleteSecret(api, ns, Suffixed(Controller, Config), g, done, plan, done);
    if !ok { return; }
    ok, more := DeleteSecret(api, ns, Suffixed(Controller, WebhooksMcp), g, done, plan, more);
  }

  /** The configuration and the kubeconfigs of the landscaper. */
  method DeleteSecrets(api: Server, conf: Configuration, ghost g: Start, ghost done: seq<Op>)
    returns (ok: bool, ghost more: seq<Op>)
    requires api.Valid() && RemoveGuard(api.mark, conf.Ns()) && Carried(api, g, done)
    requires Withdrawn(api.world.objects, conf.Ns(), {Controller, Main, Webhooks})
    modifies api
    ensures api.Shrunk() && Carried(api, g, more) && Onto(done, more, LandscaperSecretDels(conf))
    ensures (ok ==> |more| == |done| + 4) && (old(api.Calm()) ==> ok)
  {
    var ns := conf.Ns();
    ghost var plan := LandscaperSecretDels(conf);
    ok, more := DeleteFirstSecrets(api, conf, g, done);
    if !ok { return; }
    ok, more := DeleteSecret(api, ns, Suffixed(Controller, ControllerMcp), g, done, plan, more);
    if !ok { return; }
    ok, more := DeleteSecret(api, ns, Suffixed(Controller, ControllerWorkload), g, done, plan, more);
  }

  /** The HPAs and the Deployments of the landscaper. */
  method DeleteWorkloads(api: Server, conf: Configuration, ghost g: Start, ghost done: seq<Op>)
    returns (ok: bool, ghost more: seq<Op>)
    requires api.Valid() && RemoveGuard(api.mark, conf.Ns()) && Carried(api, g, done)
    modifies api
    ensures api.Shrunk() && Carried(api, g, more)
    ensures Onto(done, more, LandscaperHpaDels(conf) + LandscaperDeploymentDels(conf))
    ensures ok ==> |more| == |done| + 6 && Withdrawn(api.world.objects, conf.Ns(), {Controller, Main, Webhooks})
    ensures old(api.Calm()) ==> ok
  {
    ghost var one;
    ok, one := DeleteHpas(api, conf, g, done);
    more := one;
    OntoFirst(done, one, LandscaperHpaDels(conf), LandscaperDeploymentDels(conf));
    if !ok { return; }
    ok, more := DeleteDeployments(api, conf, g, one);
    OntoThen(done, one, more, LandscaperHpaDels(conf), LandscaperDeploymentDels(conf));
  }

  method DeleteLandscaperObjects(api: Server, conf: Configuration, ghost g: Start, ghost done: seq<Op>)
    returns (ok: bool, ghost more: seq<Op>)
    requires api.Valid() && RemoveGuard(api.mark, conf.Ns()) && Carried(api, g, done)
    modifies api
    ensures api.Shrunk() && Carried(api, g, more) && Onto(done, more, LandscaperDels(conf))
    ensures (ok ==> |more| == |done| + |LandscaperDels(conf)|) && (old(api.Calm()) ==> ok)
  {
    ghost var a, b, c := LandscaperHpaDels(conf) + LandscaperDeploymentDels(conf), LandscaperServiceDels(conf),
      LandscaperSecretDels(conf);
    ghost var one, two;
    ok, one := DeleteWorkloads(api, conf, g, done);
    more := one;
    OntoFirst(done, one, a, b); OntoFirst(done, one, a + b, c);
    if !ok { return; }
    ok, two := DeleteServices(api, conf, g, one);
    more := two;
    OntoStage(done, one, two, a, b, c);
    if !ok { return; }
    ok, more := DeleteSecrets(api, conf, g, two);
    OntoThen(done, two, more, a + b, c);
  }

  /** The sources of the landscaper, whose controller and main part share theirs. */
  predicate FirstPresent(p: PlatformState, conf: Configuration) {
    Present(p, conf.Sources(Main)) && Present(p, conf.Sources(Webhooks))
  }

  /** The pull secrets of the landscaper's three components. */
  method DeleteLandscaperPullSecrets(api: Server, conf: Configuration, ghost g: Start,
                                     ghost done: seq<Op>)
    returns (ok: bool, ghost more: seq<Op>)
    requires api.Valid() && RemoveGuard(api.mark, conf.Ns()) && Carried(api, g, done)
    modifies api
    ensures api.Shrunk() && Carried(api, g, more)
    ensures Onto(done, more, LandscaperNamedDels(conf, api.hash))
    ensures ok ==> |more| == |done| + |LandscaperNamedDels(conf, api.hash)|
    ensures old(api.Calm()) ==> (ok <==> FirstPresent(old(api.world).platform, conf))
  {
    var ns := conf.Ns();
    ghost var a, b, c := NamedDels(ns, conf.Sources(Main), api.hash), NamedDels(ns, conf.Sources(Controller), api.hash),
      NamedDels(ns, conf.Sources(Webhooks), api.hash);
    ghost var one, two;
    ok, one := DeletePullSecrets(api, ns, conf.Sources(Main), g, done);
    more := one;
    OntoFirst(done, one, a, b); OntoFirst(done, one, a + b, c);
    if !ok { return; }
    ok, two := DeletePullSecrets(api, ns, conf.Sources(Controller), g, one);
    more := two;
    OntoStage(done, one, two, a, b, c);
    if !ok { return; }
    ok, more := DeletePullSecrets(api, ns, conf.Sources(Webhooks), g, two);
    OntoThen(done, two, more, a + b, c);
  }

  function LandscaperRemoval(conf: Configuration, hash: NameHash): seq<Op> {
    LandscaperDels(conf) + LandscaperNamedDels(conf, hash)
  }

  method UninstallLandscaper(api: Server, conf: Configuration, ghost g: Start, ghost done: seq<Op>)
    returns (ok: bool, ghost more: seq<Op>)
    requires api.Valid() && RemoveGuard(api.mark, conf.Ns()) && Carried(api, g, done)
    modifies api
    ensures api.Shrunk() && Carried(api, g, more)
    ensures Onto(done, more, LandscaperRemoval(conf, api.hash))
    ensures ok ==> |more| == |done| + |LandscaperRemoval(conf, api.hash)|
    ensures old(api.Calm()) ==> (ok <==> FirstPresent(old(api.world).platform, conf))
  {
    ghost var one;
    ok, one := DeleteLandscaperObjects(api, conf, g, done);
    more := one;
    OntoFirst(done, one, LandscaperDels(conf), LandscaperNamedDels(conf, api.hash));
    if !ok { return; }
    ok, more := DeleteLandscaperPullSecrets(api, conf, g, one);
    OntoThen(done, one, more, LandscaperDels(conf), LandscaperNamedDels(conf, api.hash));
  }

  // ---------------------------------------------------------------- deployers

  /** The Deployment and the HPA of a deployer. */
  method DeleteWorkload(api: Server, conf: Configuration, c: Component, ghost g: Start, ghost done: seq<Op>)
    returns (ok: bool, ghost more: seq<Op>)
    requires api.Valid() && RemoveGuard(api.mark, conf.Ns()) && Carried(api, g, done)
    modifies api
    ensures api.Shrunk() && Carried(api, g, more) && Onto(done, more, DeployerDels(conf, c))
    ensures (ok ==> |more| == |done| + 2 && Withdrawn(api.world.objects, conf.Ns(), {c})) && (old(api.Calm()) ==> ok)
  {
    ghost var plan := DeployerDels(conf, c);
    OntoNothing(done, plan);
    ok, more := DeleteOther(api, DeploymentKey(conf.Ns(), c), g, done, plan, done);
    if !ok { return; }
    ok, more := DeleteOther(api, HpaKey(conf.Ns(), c), g, done, plan, more);
  }

  /** The objects of a deployer but its pull secrets. */
  method DeleteDeployer(api: Server, conf: Configuration, c: Component, ghost g: Start, ghost done: seq<Op>)
    returns (ok: bool, ghost more: seq<Op>)
    requires api.Valid() && RemoveGuard(api.mark, conf.Ns()) && Carried(api, g, done) && (c == Helm || c == Manifest)
    modifies api
    ensures api.Shrunk() && Carried(api, g, more) && Onto(done, more, DeployerDels(conf, c))
    ensures (ok ==> |more| == |done| + 4) && (old(api.Calm()) ==> ok)
  {
    var ns := conf.Ns();
    ghost var plan := DeployerDels(conf, c);
    ok, more := DeleteWorkload(api, conf, c, g, done);
    if !ok { return; }
    ok, more := DeleteSecret(api, ns, Suffixed(c, McpKubeconfig), g, done, plan, more);
    if !ok { return; }
    ok, more := DeleteSecret(api, ns, Suffixed(c, Config), g, done, plan, more);
  }

  function HelmRemoval(conf: Configuration, hash: NameHash, m: nat): seq<Op>
    requires m <= |conf.Sources(Helm)|
  {
    DeployerDels(conf, Helm) + NamedDels(conf.Ns(), conf.Sources(Helm)[..m], hash)
  }

  function ManifestRemoval(conf: Configuration, hash: NameHash): seq<Op> {
    DeployerDels(conf, Manifest) + NamedDels(conf.Ns(), conf.Sources(Manifest), hash)
  }

  lemma OntoFewer(done: seq<Op>, more: seq<Op>, ns: string, sources: seq<string>, hash: NameHash)
    requires Onto(done, more, NamedDels(ns, sources, hash))
    ensures |more| - |done| <= |sources| && Onto(done, more, NamedDels(ns, sources[..|more| - |done|], hash))
  {}

  /** UninstallHelmDeployer: an error while the pull secrets are deleted is swallowed. */
  method UninstallHelmDeployer(api: Server, conf: Configuration, ghost g: Start, ghost done: seq<Op>)
    returns (ok: bool, ghost more: seq<Op>, ghost m: nat)
    requires api.Valid() && RemoveGuard(api.mark, conf.Ns()) && Carried(api, g, done)
    modifies api
    ensures api.Shrunk() && Carried(api, g, more)
    ensures m <= |conf.Sources(Helm)| && Onto(done, more, HelmRemoval(conf, api.hash, m))
    ensures (ok ==> |more| == |done| + |HelmRemoval(conf, api.hash, m)|) && (old(api.Calm()) ==> ok)
  {
    ghost var dels := DeployerDels(conf, Helm);
    ghost var one;
    m := 0;
    ok, one := DeleteDeployer(api, conf, Helm, g, done);
    more := one;
    OntoFirst(done, one, dels, NamedDels(conf.Ns(), conf.Sources(Helm)[..0], api.hash));
    if !ok { return; }
    var deleted;
    deleted, more := DeletePullSecrets(api, conf.Ns(), conf.Sources(Helm), g, one);
    m := |more| - |one|;
    OntoFewer(one, more, conf.Ns(), conf.Sources(Helm), api.hash);
    OntoThen(done, one, more, dels, NamedDels(conf.Ns(), conf.Sources(Helm)[..m], api.hash));
  }

  method UninstallManifestDeployer(api: Server, conf: Configuration, ghost g: Start, ghost done: seq<Op>)
    returns (ok: bool, ghost more: seq<Op>)
    requires api.Valid() && RemoveGuard(api.mark, conf.Ns()) && Carried(api, g, done)
    modifies api
    ensures api.Shrunk() && Carried(api, g, more) && Onto(done, more, ManifestRemoval(conf, api.hash))
    ensures ok ==> |more| == |done| + |ManifestRemoval(conf, api.hash)|
    ensures old(api.Calm()) ==> (ok <==> Present(old(api.world).platform, conf.Sources(Manifest)))
  {
    ghost var dels, named := DeployerDels(conf, Manifest), NamedDels(conf.Ns(), conf.Sources(Manifest), api.hash);
    ghost var one;
    ok, one := DeleteDeployer(api, conf, Manifest, g, done);
    more := one;
    OntoFirst(done, one, dels, named);
    if !ok { return; }
    ok, more := DeletePullSecrets(api, conf.Ns(), conf.Sources(Manifest), g, one);
    OntoThen(done, one, more, dels, named);
  }

  // ---------------------------------------------------------------- instances

  function RbacRemoval(conf: Configuration): seq<Op> { [Del(NamespaceKey(Mcp, conf.Ns()))] }

  /** UninstallLandscaperRBACResources. */
  method UninstallRbac(api: Server, conf: Configuration, ghost g: Start, ghost done: seq<Op>)
    returns (ok: bool, ghost more: seq<Op>)
    requires api.Valid() && RemoveGuard(api.mark, conf.Ns()) && Carried(api, g, done)
    modifies api
    ensures api.Shrunk() && Carried(api, g, more) && Onto(done, more, RbacRemoval(conf))
    ensures (ok ==> |more| == |done| + |RbacRemoval(conf)|) && (old(api.Calm()) ==> ok)
  {
    OntoNothing(done, RbacRemoval(conf));
    ok, more := DeleteOther(api, NamespaceKey(Mcp, conf.Ns()), g, done, RbacRemoval(conf), done);
  }

  lemma UninstallParts(conf: Configuration, hash: NameHash, m: nat)
    requires m <= |conf.Sources(Helm)|
    ensures UninstallPlan(conf, hash, m) ==
      (LandscaperRemoval(conf, hash) + HelmRemoval(conf, hash, m)) + (ManifestRemoval(conf, hash) + RbacRemoval(conf))
  {}

  method UninstallFirstHalf(api: Server, conf: Configuration, ghost g: Start, ghost done: seq<Op>)
    returns (ok: bool, ghost more: seq<Op>, ghost m: nat)
    requires api.Valid() && RemoveGuard(api.mark, conf.Ns()) && Carried(api, g, done)
    modifies api
    ensures api.Shrunk() && Carried(api, g, more) && m <= |conf.Sources(Helm)|
    ensures Onto(done, more, FirstRemoval(conf, api.hash, m))
    ensures ok ==> |more| == |done| + |FirstRemoval(conf, api.hash, m)|
    ensures old(api.Calm()) ==> (ok <==> FirstPresent(old(api.world).platform, conf))
  {
    ghost var one;
    m := 0;
    ok, one := UninstallLandscaper(api, conf, g, done);
    more := one;
    OntoFirst(done, one, LandscaperRemoval(conf, api.hash), HelmRemoval(conf, api.hash, 0));
    if !ok { return; }
    ok, more, m := UninstallHelmDeployer(api, conf, g, one);
    OntoThen(done, one, more, LandscaperRemoval(conf, api.hash), HelmRemoval(conf, api.hash, m));
  }

  method UninstallSecondHalf(api: Server, conf: Configuration, ghost g: Start, ghost done: seq<Op>)
    returns (ok: bool, ghost more: seq<Op>)
    requires api.Valid() && RemoveGuard(api.mark, conf.Ns()) && Carried(api, g, done)
    modifies api
    ensures api.Shrunk() && Carried(api, g, more)
    ensures Onto(done, more, SecondRemoval(conf, api.hash))
    ensures ok ==> |more| == |done| + |SecondRemoval(conf, api.hash)|
    ensures old(api.Calm()) ==> (ok <==> Present(old(api.world).platform, conf.Sources(Manifest)))
  {
    ghost var one;
    ok, one := UninstallManifestDeployer(api, conf, g, done);
    more := one;
    OntoFirst(done, one, ManifestRemoval(conf, api.hash), RbacRemoval(conf));
    if !ok { return; }
    ok, more := UninstallRbac(api, conf, g, one);
    OntoThen(done, one, more, ManifestRemoval(conf, api.hash), RbacRemoval(conf));
  }

  lemma LikeRemovals(done: seq<Op>, plan: seq<Op>)
    requires Like(done, plan) && Removals(plan)
    ensures done == plan[..|done|]
  {
    forall i | 0 <= i < |done| ensures done[i] == plan[i] { assert Alike(done[i], plan[i]); }
  }

  function FirstRemoval(conf: Configuration, hash: NameHash, m: nat): seq<Op>
    requires m <= |conf.Sources(Helm)|
  {
    LandscaperRemoval(conf, hash) + HelmRemoval(conf, hash, m)
  }

  function SecondRemoval(conf: Configuration, hash: NameHash): seq<Op> {
    ManifestRemoval(conf, hash) + RbacRemoval(conf)
  }

  lemma UninstallDone(done: seq<Op>, conf: Configuration, hash: NameHash, m: nat)
    requires m <= |conf.Sources(Helm)| && Onto([], done, FirstRemoval(conf, hash, m) + SecondRemoval(conf, hash))
    ensures |done| <= |UninstallPlan(conf, hash, m)| && done == UninstallPlan(conf, hash, m)[..|done|]
  {
    UninstallParts(conf, hash, m);
    UninstallRemoves(conf, hash, m, NamespaceKey(Mcp, conf.Ns()));
    assert done[0..] == done;
    LikeRemovals(done, UninstallPlan(conf, hash, m));
  }

  method UninstallBoth(api: Server, conf: Configuration, ghost g: Start, ghost done: seq<Op>)
    returns (ok: bool, ghost more: seq<Op>, ghost m: nat)
    requires api.Valid() && RemoveGuard(api.mark, conf.Ns()) && Carried(api, g, done)
    modifies api
    ensures api.Shrunk() && Carried(api, g, more) && m <= |conf.Sources(Helm)|
    ensures Onto(done, more, FirstRemoval(conf, api.hash, m) + SecondRemoval(conf, api.hash))
    ensures ok ==> |more| == |done| + |FirstRemoval(conf, api.hash, m) + SecondRemoval(conf, api.hash)|
    ensures old(api.Calm()) ==> (ok <==> SourcesPresent(old(api.world).platform, conf))
  {
    ghost var one;
    ok, one, m := UninstallFirstHalf(api, conf, g, done);
    more := one;
    OntoFirst(done, one, FirstRemoval(conf, api.hash, m), SecondRemoval(conf, api.hash));
    if !ok { return; }
    ok, more := UninstallSecondHalf(api, conf, g, one);
    OntoThen(done, one, more, FirstRemoval(conf, api.hash, m), SecondRemoval(conf, api.hash));
  }

  /** The sources an uninstall looks up are there; the helm deployer's are not among them. */
  predicate SourcesPresent(p: PlatformState, conf: Configuration) {
    FirstPresent(p, conf) && Present(p, conf.Sources(Manifest))
  }

  /**
   UninstallLandscaperInstance: the deletes that took effect are the first ones of an uninstall
   plan, m deletes by name among the helm deployer's, and all of them if it succeeds.
   */
  method UninstallInstance(api: Server, conf: Configuration) returns (ok: bool, ghost n: nat, ghost m: nat)
    requires api.Valid() && RemoveGuard(api.mark, conf.Ns())
    modifies api
    ensures api.Shrunk()
    ensures m <= |conf.Sources(Helm)| && n <= |UninstallPlan(conf, api.hash, m)|
    ensures Carried(api, old(Begin(api)), UninstallPlan(conf, api.hash, m)[..n])
    ensures ok ==> n == |UninstallPlan(conf, api.hash, m)|
    ensures old(api.Calm()) ==> (ok <==> SourcesPresent(old(api.world).platform, conf))
  {
    ghost var g := Begin(api);
    var kcs := api.GetKubeconfigs();
    if kcs.Error? { return false, 0, 0; }
    ghost var done;
    ok, done, m := UninstallBoth(api, conf, g, []);
    n := |done|;
    UninstallDone(done, conf, api.hash, m);
    UninstallParts(conf, api.hash, m);
  }
}
