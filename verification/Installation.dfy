/**
 What the plans of the installers achieve: convergence to the desired state, integrity at
 every point where a run may stop, exact residue, and isolation between instances.
 */
module Installation {
  import opened Wrappers
  import opened Identity
  import opened Store
  import opened Plans

  /** The sources of the platform cluster, and the copies read from it while it does not change. */
  type Sources = map<string, Data>

  predicate HasSources(conf: Configuration, src: Sources) {
    forall c, i :: 0 <= i < |conf.Sources(c)| ==> conf.Sources(c)[i] in src
  }

  function ReadAll(names: seq<string>, src: Sources): (r: seq<Data>)
    requires forall i :: 0 <= i < |names| ==> names[i] in src
    ensures |r| == |names| && forall i :: 0 <= i < |r| ==> r[i] == src[names[i]]
  {
    seq(|names|, i requires 0 <= i < |names| => src[names[i]])
  }

  function CopiesFrom(conf: Configuration, src: Sources): (r: Copies)
    requires HasSources(conf, src)
    ensures r.Fits(conf)
  {
    var r := Copies(
      ReadAll(conf.Sources(Main), src),
      ReadAll(conf.Sources(Controller), src),
      ReadAll(conf.Sources(Webhooks), src),
      ReadAll(conf.Sources(Manifest), src),
      ReadAll(conf.Sources(Helm), src));
    assert forall c :: |r.Of(c)| == |conf.Sources(c)|;
    r
  }

  // ---------------------------------------------------------------- the install plan and the desired state

  /** Every operation writes the wanted object at a key of the footprint. */
  ghost predicate Aims(ops: seq<Op>, conf: Configuration, kcs: Kubeconfigs, src: Sources)
    requires HasSources(conf, src)
  {
    forall i :: 0 <= i < |ops| ==>
      ops[i].Put? && Footprint(conf, ops[i].key) && ops[i].obj == Wanted(conf, kcs, src, ops[i].key)
  }

  lemma AimsConcat(a: seq<Op>, b: seq<Op>, conf: Configuration, kcs: Kubeconfigs, src: Sources)
    requires HasSources(conf, src)
    requires Aims(a, conf, kcs, src) && Aims(b, conf, kcs, src)
    ensures Aims(a + b, conf, kcs, src)
  {}

  lemma CopiesAim(conf: Configuration, kcs: Kubeconfigs, src: Sources, c: Component)
    requires HasSources(conf, src)
    ensures Aims(CopyPuts(conf.Ns(), c, conf.Sources(c), ReadAll(conf.Sources(c), src)), conf, kcs, src)
  {}

  lemma NamespaceAims(conf: Configuration, kcs: Kubeconfigs, src: Sources, cluster: Cluster)
    requires HasSources(conf, src)
    ensures Aims([PutNamespace(cluster, conf.Ns())], conf, kcs, src)
  {}

  lemma DeployerAims(conf: Configuration, kcs: Kubeconfigs, src: Sources, c: Component)
    requires HasSources(conf, src) && (c == Helm || c == Manifest)
    ensures Aims(DeployerPlan(conf, c, kcs, CopiesFrom(conf, src).Of(c)), conf, kcs, src)
  {
    NamespaceAims(conf, kcs, src, Workload);
    CopiesAim(conf, kcs, src, c);
    assert Aims(DeployerTail(conf, c, kcs), conf, kcs, src);
  }

  lemma LandscaperSecretsAim(conf: Configuration, kcs: Kubeconfigs, src: Sources)
    requires HasSources(conf, src)
    ensures Aims(LandscaperSecrets(conf, kcs), conf, kcs, src)
  {}

  lemma LandscaperServicesAim(conf: Configuration, kcs: Kubeconfigs, src: Sources)
    requires HasSources(conf, src)
    ensures Aims(LandscaperServices(conf), conf, kcs, src)
  {}

  lemma DeploymentAims(conf: Configuration, kcs: Kubeconfigs, src: Sources, c: Component)
    requires HasSources(conf, src)
    ensures Aims([PutDeployment(conf, c)], conf, kcs, src)
  {}

  lemma HpaAims(conf: Configuration, kcs: Kubeconfigs, src: Sources, c: Component)
    requires HasSources(conf, src)
    ensures Aims([PutHpa(conf, c)], conf, kcs, src)
  {}

  lemma ThreeAim(a: Op, b: Op, c: Op, conf: Configuration, kcs: Kubeconfigs, src: Sources)
    requires HasSources(conf, src)
    requires Aims([a], conf, kcs, src) && Aims([b], conf, kcs, src) && Aims([c], conf, kcs, src)
    ensures Aims([a, b, c], conf, kcs, src)
  {
    assert [a][0] == a && [b][0] == b && [c][0] == c;
  }

  lemma LandscaperWorkloadsAim(conf: Configuration, kcs: Kubeconfigs, src: Sources)
    requires HasSources(conf, src)
    ensures Aims(LandscaperDeployments(conf), conf, kcs, src) && Aims(LandscaperHpas(conf), conf, kcs, src)
  {
    forall c ensures Aims([PutDeployment(conf, c)], conf, kcs, src) { DeploymentAims(conf, kcs, src, c); }
    forall c ensures Aims([PutHpa(conf, c)], conf, kcs, src) { HpaAims(conf, kcs, src, c); }
    ThreeAim(PutDeployment(conf, Controller), PutDeployment(conf, Main), PutDeployment(conf, Webhooks), conf, kcs, src);
    ThreeAim(PutHpa(conf, Main), PutHpa(conf, Controller), PutHpa(conf, Webhooks), conf, kcs, src);
  }

  lemma LandscaperTailAims(conf: Configuration, kcs: Kubeconfigs, src: Sources)
    requires HasSources(conf, src)
    ensures Aims(LandscaperTail(conf, kcs), conf, kcs, src)
  {
    var a, b, c := LandscaperSecrets(conf, kcs), LandscaperServices(conf), LandscaperDeployments(conf);
    LandscaperSecretsAim(conf, kcs, src);
    LandscaperServicesAim(conf, kcs, src);
    LandscaperWorkloadsAim(conf, kcs, src);
    AimsConcat(a, b, conf, kcs, src);
    AimsConcat(a + b, c, conf, kcs, src);
    AimsConcat(a + b + c, LandscaperHpas(conf), conf, kcs, src);
  }

  lemma LandscaperAims(conf: Configuration, kcs: Kubeconfigs, src: Sources)
    requires HasSources(conf, src)
    ensures Aims(LandscaperPlan(conf, kcs, CopiesFrom(conf, src)), conf, kcs, src)
  {
    NamespaceAims(conf, kcs, src, Workload);
    CopiesAim(conf, kcs, src, Main); CopiesAim(conf, kcs, src, Controller); CopiesAim(conf, kcs, src, Webhooks);
    LandscaperTailAims(conf, kcs, src);
    AimsConcat(LandscaperHead(conf, CopiesFrom(conf, src)), LandscaperTail(conf, kcs), conf, kcs, src);
  }

  lemma InstallAims(conf: Configuration, kcs: Kubeconfigs, src: Sources)
    requires HasSources(conf, src)
    ensures Aims(InstallPlan(conf, kcs, CopiesFrom(conf, src)), conf, kcs, src)
  {
    NamespaceAims(conf, kcs, src, Mcp);
    DeployerAims(conf, kcs, src, Manifest);
    DeployerAims(conf, kcs, src, Helm);
    LandscaperAims(conf, kcs, src);
  }

  ghost predicate WritesAny(ops: seq<Op>, k: Key) {
    exists i :: 0 <= i < |ops| && ops[i].Put? && ops[i].key == k
  }

  lemma WritesConcat(a: seq<Op>, b: seq<Op>, k: Key)
    ensures WritesAny(a + b, k) <==> WritesAny(a, k) || WritesAny(b, k)
  {
    var c := a + b;
    if WritesAny(a, k) {
      var i :| 0 <= i < |a| && a[i].Put? && a[i].key == k;
      assert c[i] == a[i];
    }
    if WritesAny(b, k) {
      var i :| 0 <= i < |b| && b[i].Put? && b[i].key == k;
      assert c[|a| + i] == b[i];
    }
  }

  lemma CopiesWrite(ns: string, c: Component, sources: seq<string>, data: seq<Data>, i: nat)
    requires |sources| == |data| && i < |sources|
    ensures WritesAny(CopyPuts(ns, c, sources, data), SecretKey(ns, PullCopy(c, sources[i])))
  {
    assert CopyPuts(ns, c, sources, data)[i].key == SecretKey(ns, PullCopy(c, sources[i]));
  }

  /** The component an object of the footprint belongs to; the namespaces belong to none. */
  function Owner(k: Key): Component {
    if k.name.Default? || k.name.Suffixed? || k.name.PullCopy? then k.name.c else Webhooks
  }

  lemma DeployerWrites(conf: Configuration, c: Component, kcs: Kubeconfigs, data: seq<Data>, k: Key)
    requires |data| == |conf.Sources(c)| && (c == Helm || c == Manifest)
    requires Footprint(conf, k) && k.kind != NamespaceKind && k.kind != Service && Owner(k) == c
    ensures WritesAny(DeployerPlan(conf, c, kcs, data), k)
  {
    var head, tail := DeployerHead(conf, c, data), DeployerTail(conf, c, kcs);
    WritesConcat(head, tail, k);
    WritesConcat([PutNamespace(Workload, conf.Ns())], CopyPuts(conf.Ns(), c, conf.Sources(c), data), k);
    if k.name.PullCopy? {
      var i :| 0 <= i < |conf.Sources(c)| && conf.Sources(c)[i] == k.name.source;
      CopiesWrite(conf.Ns(), c, conf.Sources(c), data, i);
    } else {
      assert tail[0].key == k || tail[1].key == k || tail[2].key == k || tail[3].key == k;
    }
  }

  lemma LandscaperTailWrites(conf: Configuration, kcs: Kubeconfigs, k: Key)
    requires Removable(conf, k) && k.kind != NamespaceKind && Owner(k) !in {Helm, Manifest}
    requires k.kind == Hpa || k.kind == Deployment ==> Owner(k) in {Controller, Main, Webhooks}
    ensures WritesAny(LandscaperTail(conf, kcs), k)
  {
    var t := LandscaperTail(conf, kcs);
    match k.kind
    case Secret => assert t[0].key == k || t[1].key == k || t[2].key == k || t[3].key == k;
    case Service => assert t[4].key == k || t[5].key == k;
    case Deployment => assert t[6].key == k || t[7].key == k || t[8].key == k;
    case Hpa => assert t[9].key == k || t[10].key == k || t[11].key == k;
  }

  lemma LandscaperCopiesWrite(conf: Configuration, copies: Copies, k: Key)
    requires copies.Fits(conf)
    requires PullSecretCopy(conf, k) && k.name.c in {Controller, Main, Webhooks}
    ensures WritesAny(LandscaperHead(conf, copies), k)
  {
    var ns, c := conf.Ns(), k.name.c;
    var n := [PutNamespace(Workload, ns)];
    var m := CopyPuts(ns, Main, conf.Sources(Main), copies.main);
    var d := CopyPuts(ns, Controller, conf.Sources(Controller), copies.controller);
    var w := CopyPuts(ns, Webhooks, conf.Sources(Webhooks), copies.webhooks);
    WritesConcat(n + m + d, w, k); WritesConcat(n + m, d, k); WritesConcat(n, m, k);
    var i :| 0 <= i < |conf.Sources(c)| && conf.Sources(c)[i] == k.name.source;
    CopiesWrite(ns, c, conf.Sources(c), copies.Of(c), i);
  }

  /** Every key of the footprint is written by an install. */
  lemma InstallWrites(conf: Configuration, kcs: Kubeconfigs, copies: Copies, k: Key)
    requires copies.Fits(conf) && Footprint(conf, k)
    ensures WritesAny(InstallPlan(conf, kcs, copies), k)
  {
    var n := [PutNamespace(Mcp, conf.Ns())];
    var m := DeployerPlan(conf, Manifest, kcs, copies.manifest);
    var h := DeployerPlan(conf, Helm, kcs, copies.helm);
    var l := LandscaperPlan(conf, kcs, copies);
    WritesConcat(n + m + h, l, k); WritesConcat(n + m, h, k); WritesConcat(n, m, k);
    WritesConcat(LandscaperHead(conf, copies), LandscaperTail(conf, kcs), k);
    if k.kind == NamespaceKind {
      assert n[0].key == NamespaceKey(Mcp, conf.Ns());
      assert LandscaperHead(conf, copies)[0].key == NamespaceKey(Workload, conf.Ns());
    } else if k.kind != Service && Owner(k) == Manifest {
      DeployerWrites(conf, Manifest, kcs, copies.manifest, k);
    } else if k.kind != Service && Owner(k) == Helm {
      DeployerWrites(conf, Helm, kcs, copies.helm, k);
    } else if PullSecretCopy(conf, k) {
      LandscaperCopiesWrite(conf, copies, k);
    } else {
      LandscaperTailWrites(conf, kcs, k);
    }
  }

  /**
   Install convergence: from any store, a successful install sets every key of the footprint
   to the wanted object and changes nothing else.
   */
  lemma InstallResult(s: Objects, conf: Configuration, kcs: Kubeconfigs, src: Sources, k: Key)
    requires HasSources(conf, src)
    ensures
      var t := Apply(s, InstallPlan(conf, kcs, CopiesFrom(conf, src)));
      && (Footprint(conf, k) ==> k in t && t[k] == Wanted(conf, kcs, src, k))
      && (!Footprint(conf, k) ==> (k in t <==> k in s) && (k in s ==> t[k] == s[k]))
  {
    var copies := CopiesFrom(conf, src);
    var plan := InstallPlan(conf, kcs, copies);
    InstallAims(conf, kcs, src);
    if Footprint(conf, k) {
      InstallWrites(conf, kcs, copies, k);
      var i :| 0 <= i < |plan| && plan[i].Put? && plan[i].key == k;
      UpsertValue(s, plan, i);
    } else {
      Frame(s, plan, k);
    }
  }

  /** Convergence from any partial state, and idempotence when the first run was complete. */
  lemma InstallAgain(s: Objects, conf: Configuration, kcs: Kubeconfigs, src: Sources, n: nat)
    requires HasSources(conf, src)
    requires n <= |InstallPlan(conf, kcs, CopiesFrom(conf, src))|
    ensures
      var plan := InstallPlan(conf, kcs, CopiesFrom(conf, src));
      Apply(Apply(s, plan[..n]), plan) == Apply(s, plan)
  {
    InstallAims(conf, kcs, src);
    ConvergesFromPrefix(s, InstallPlan(conf, kcs, CopiesFrom(conf, src)), n);
  }

  // ---------------------------------------------------------------- integrity while installing

  lemma CopyAt(ns: string, c: Component, sources: seq<string>, data: seq<Data>, n: Name) returns (j: nat)
    requires |sources| == |data| && n in PullRefs(c, sources)
    ensures j < |sources| && CopyPuts(ns, c, sources, data)[j].key == SecretKey(ns, n)
  {
    j :| 0 <= j < |sources| && PullRefs(c, sources)[j] == n;
  }

  lemma DeployerRefsFirst(conf: Configuration, c: Component, kcs: Kubeconfigs, data: seq<Data>)
    requires |data| == |conf.Sources(c)| && (c == Helm || c == Manifest)
    ensures Upserts(DeployerPlan(conf, c, kcs, data)) && RefsFirst(DeployerPlan(conf, c, kcs, data))
  {
    var tail := DeployerTail(conf, c, kcs);
    forall i, n | 0 <= i < |tail| && SecretRef(tail[i].obj, n)
      ensures HasRef(DeployerHead(conf, c, data), tail, i, n)
    {
      if n in PullRefs(c, conf.Sources(c)) {
        var j := CopyAt(conf.Ns(), c, conf.Sources(c), data, n);
        assert DeployerHead(conf, c, data)[1 + j].key == SecretKey(conf.Ns(), n);
      } else {
        assert tail[0].key == SecretKey(conf.Ns(), n) || tail[1].key == SecretKey(conf.Ns(), n);
      }
    }
    RefsFirstAfter(DeployerHead(conf, c, data), tail);
  }

  lemma LandscaperMountAt(conf: Configuration, kcs: Kubeconfigs, c: Component, n: Name) returns (j: nat)
    requires c in {Controller, Main, Webhooks} && n in Mounts(c)
    ensures j < 4 && LandscaperTail(conf, kcs)[j].key == SecretKey(conf.Ns(), n)
  {
    j := if n.x == ControllerMcp then 0 else if n.x == ControllerWorkload then 1 else 3;
  }

  lemma LandscaperTailRefs(conf: Configuration, kcs: Kubeconfigs, i: nat, n: Name) returns (c: Component)
    requires i < |LandscaperTail(conf, kcs)| && SecretRef(LandscaperTail(conf, kcs)[i].obj, n)
    ensures 6 <= i && c in {Controller, Main, Webhooks} && LandscaperTail(conf, kcs)[i].key.ns == conf.Ns()
    ensures n in Mounts(c) || n in PullRefs(c, conf.Sources(c))
  {
    c := if i == 6 then Controller else if i == 7 then Main else Webhooks;
    assert LandscaperTail(conf, kcs)[i] == PutDeployment(conf, c);
  }

  lemma LandscaperRefAt(conf: Configuration, kcs: Kubeconfigs, copies: Copies, i: nat, n: Name)
    requires copies.Fits(conf)
    requires i < |LandscaperTail(conf, kcs)| && SecretRef(LandscaperTail(conf, kcs)[i].obj, n)
    ensures Upserts(LandscaperHead(conf, copies)) && Upserts(LandscaperTail(conf, kcs))
    ensures HasRef(LandscaperHead(conf, copies), LandscaperTail(conf, kcs), i, n)
  {
    LandscaperUpserts(conf, kcs, copies);
    var c := LandscaperTailRefs(conf, kcs, i, n);
    if n in Mounts(c) {
      var j := LandscaperMountAt(conf, kcs, c, n);
    } else {
      LandscaperCopyAt(conf, copies, c, n);
    }
  }

  lemma LandscaperCopyAt(conf: Configuration, copies: Copies, c: Component, n: Name)
    requires copies.Fits(conf) && c in {Controller, Main, Webhooks} && n in PullRefs(c, conf.Sources(c))
    requires Upserts(LandscaperHead(conf, copies))
    ensures Writes(LandscaperHead(conf, copies), SecretKey(conf.Ns(), n))
  {
    var head := LandscaperHead(conf, copies);
    var q :| 0 <= q < |PullRefs(c, conf.Sources(c))| && PullRefs(c, conf.Sources(c))[q] == n;
    LandscaperCopiesWrite(conf, copies, SecretKey(conf.Ns(), n));
    var j :| 0 <= j < |head| && head[j].Put? && head[j].key == SecretKey(conf.Ns(), n);
    assert head[j].key == SecretKey(conf.Ns(), n);
  }

  lemma LandscaperUpserts(conf: Configuration, kcs: Kubeconfigs, copies: Copies)
    requires copies.Fits(conf)
    ensures Upserts(LandscaperHead(conf, copies)) && Upserts(LandscaperTail(conf, kcs))
    ensures forall i :: 0 <= i < |LandscaperHead(conf, copies)| ==>
      !LandscaperHead(conf, copies)[i].obj.DeploymentObject?
  {}

  lemma LandscaperRefsFirst(conf: Configuration, kcs: Kubeconfigs, copies: Copies)
    requires copies.Fits(conf)
    ensures Upserts(LandscaperPlan(conf, kcs, copies)) && RefsFirst(LandscaperPlan(conf, kcs, copies))
  {
    LandscaperUpserts(conf, kcs, copies);
    forall i, n | 0 <= i < |LandscaperTail(conf, kcs)| && SecretRef(LandscaperTail(conf, kcs)[i].obj, n)
      ensures HasRef(LandscaperHead(conf, copies), LandscaperTail(conf, kcs), i, n)
    {
      LandscaperRefAt(conf, kcs, copies, i, n);
    }
    RefsFirstAfter(LandscaperHead(conf, copies), LandscaperTail(conf, kcs));
  }

  lemma InstallRefsFirst(conf: Configuration, kcs: Kubeconfigs, copies: Copies)
    requires copies.Fits(conf)
    ensures Upserts(InstallPlan(conf, kcs, copies)) && RefsFirst(InstallPlan(conf, kcs, copies))
  {
    var n := [PutNamespace(Mcp, conf.Ns())];
    var m := DeployerPlan(conf, Manifest, kcs, copies.manifest);
    var h := DeployerPlan(conf, Helm, kcs, copies.helm);
    DeployerRefsFirst(conf, Manifest, kcs, copies.manifest);
    DeployerRefsFirst(conf, Helm, kcs, copies.helm);
    LandscaperRefsFirst(conf, kcs, copies);
    RefsFirstConcat(n, m);
    RefsFirstConcat(n + m, h);
    RefsFirstConcat(n + m + h, LandscaperPlan(conf, kcs, copies));
  }

  /** No install or re-install, stopped anywhere, leaves a Deployment without its Secrets. */
  lemma InstallKeepsIntegrity(s: Objects, conf: Configuration, kcs: Kubeconfigs, copies: Copies, n: nat)
    requires copies.Fits(conf) && Integrity(s) && n <= |InstallPlan(conf, kcs, copies)|
    ensures Integrity(Apply(s, InstallPlan(conf, kcs, copies)[..n]))
  {
    InstallRefsFirst(conf, kcs, copies);
    UpsertsKeepIntegrity(s, InstallPlan(conf, kcs, copies), n);
  }

  // ---------------------------------------------------------------- uninstall

  /** Whether k is the Secret that the delete by source name meets. */
  predicate NamedLike(hash: NameHash, ns: string, k: Key, text: string) {
    k.cluster == Workload && k.kind == Secret && k.ns == ns && Render(hash, k.name) == text
  }

  ghost predicate HitBySource(conf: Configuration, hash: NameHash, m: nat, k: Key)
    requires m <= |conf.Sources(Helm)|
  {
    exists text :: NamedLike(hash, conf.Ns(), k, text) &&
      (text in conf.Sources(Main) || text in conf.Sources(Webhooks) || text in conf.Sources(Helm)[..m]
        || text in conf.Sources(Manifest))
  }

  lemma RemovesConcat(a: seq<Op>, b: seq<Op>, k: Key)
    ensures Removes(a + b, k) <==> Removes(a, k) || Removes(b, k)
  {
    var c := a + b;
    if Removes(a, k) {
      var i :| 0 <= i < |a| && Touches(a[i], k);
      assert Touches(c[i], k);
    }
    if Removes(b, k) {
      var i :| 0 <= i < |b| && Touches(b[i], k);
      assert Touches(c[|a| + i], k);
    }
  }

  lemma NamedRemoves(ns: string, sources: seq<string>, hash: NameHash, k: Key)
    ensures Removes(NamedDels(ns, sources, hash), k) <==> exists text :: text in sources && NamedLike(hash, ns, k, text)
  {
    var d := NamedDels(ns, sources, hash);
    if Removes(d, k) {
      var i :| 0 <= i < |d| && Touches(d[i], k);
      assert sources[i] in sources && NamedLike(hash, ns, k, sources[i]);
    }
    if text :| text in sources && NamedLike(hash, ns, k, text) {
      var i :| 0 <= i < |sources| && sources[i] == text;
      assert Touches(d[i], k);
    }
  }

  lemma LandscaperRemoves(conf: Configuration, k: Key)
    ensures Removes(LandscaperDels(conf), k) <==>
      Removable(conf, k) && k.kind != NamespaceKind && (k.kind == Service || Owner(k) in {Controller, Main, Webhooks})
  {
    var d := LandscaperDels(conf);
    if Removable(conf, k) && k.kind != NamespaceKind
      && (k.kind == Service || Owner(k) in {Controller, Main, Webhooks}) {
      match k.kind
      case Hpa => assert d[0].key == k || d[1].key == k || d[2].key == k;
      case Deployment => assert d[3].key == k || d[4].key == k || d[5].key == k;
      case Service => assert d[6].key == k || d[7].key == k;
      case Secret => assert d[8].key == k || d[9].key == k || d[10].key == k || d[11].key == k;
    }
  }

  lemma DeployerRemoves(conf: Configuration, c: Component, k: Key)
    requires c == Helm || c == Manifest
    ensures Removes(DeployerDels(conf, c), k) <==>
      Removable(conf, k) && k.kind != NamespaceKind && k.kind != Service && Owner(k) == c
  {
    var d := DeployerDels(conf, c);
    if Removable(conf, k) && k.kind != NamespaceKind && k.kind != Service && Owner(k) == c {
      assert d[0].key == k || d[1].key == k || d[2].key == k || d[3].key == k;
    }
  }

  lemma RemovesEach(a: seq<Op>, b: seq<Op>, c: seq<Op>, d: seq<Op>, e: seq<Op>, f: seq<Op>, g: seq<Op>, k: Key)
    ensures Removes(a + b + c + d + e + f + g, k) <==>
      Removes(a, k) || Removes(b, k) || Removes(c, k) || Removes(d, k) || Removes(e, k) || Removes(f, k)
        || Removes(g, k)
  {
    RemovesConcat(a, b, k);
    RemovesConcat(a + b, c, k);
    RemovesConcat(a + b + c, d, k);
    RemovesConcat(a + b + c + d, e, k);
    RemovesConcat(a + b + c + d + e, f, k);
    RemovesConcat(a + b + c + d + e + f, g, k);
  }

  function LandscaperSources(conf: Configuration): seq<string> {
    conf.Sources(Main) + conf.Sources(Controller) + conf.Sources(Webhooks)
  }

  lemma LandscaperNamedRemoves(conf: Configuration, hash: NameHash, k: Key)
    ensures Removes(LandscaperNamedDels(conf, hash), k) <==>
      exists text ::
        NamedLike(hash, conf.Ns(), k, text) && (text in conf.Sources(Main) || text in conf.Sources(Webhooks))
  {
    assert LandscaperNamedDels(conf, hash) == NamedDels(conf.Ns(), LandscaperSources(conf), hash);
    NamedRemoves(conf.Ns(), LandscaperSources(conf), hash, k);
  }

  lemma UninstallRemovals(conf: Configuration, hash: NameHash, m: nat)
    requires m <= |conf.Sources(Helm)|
    ensures Removals(UninstallPlan(conf, hash, m))
  {
    assert Removals(LandscaperDels(conf) + LandscaperNamedDels(conf, hash));
    assert Removals(DeployerDels(conf, Helm)) && Removals(DeployerDels(conf, Manifest));
  }

  lemma UninstallRemoves(conf: Configuration, hash: NameHash, m: nat, k: Key)
    requires m <= |conf.Sources(Helm)|
    ensures Removals(UninstallPlan(conf, hash, m))
    ensures Removes(UninstallPlan(conf, hash, m), k) <==> Removable(conf, k) || HitBySource(conf, hash, m, k)
  {
    var ns, helm, manifest := conf.Ns(), conf.Sources(Helm)[..m], conf.Sources(Manifest);
    var last := [Del(NamespaceKey(Mcp, ns))];
    RemovesEach(LandscaperDels(conf), LandscaperNamedDels(conf, hash), DeployerDels(conf, Helm),
                NamedDels(ns, helm, hash),
                DeployerDels(conf, Manifest), NamedDels(ns, manifest, hash), last, k);
    UninstallRemovals(conf, hash, m);
    LandscaperNamedRemoves(conf, hash, k);
    NamedRemoves(ns, helm, hash, k); NamedRemoves(ns, manifest, hash, k);
    LandscaperRemoves(conf, k); DeployerRemoves(conf, Helm, k); DeployerRemoves(conf, Manifest, k);
    assert Removes(last, k) <==> k == NamespaceKey(Mcp, ns) by { assert last[0].key == NamespaceKey(Mcp, ns); }
  }

  /** An uninstall removes what is removable, and the Secrets that happen to be named like a source. */
  lemma UninstallResult(s: Objects, conf: Configuration, hash: NameHash, m: nat, k: Key)
    requires m <= |conf.Sources(Helm)|
    ensures
      var t := Apply(s, UninstallPlan(conf, hash, m));
      && (k in t <==> k in s && !Removable(conf, k) && !HitBySource(conf, hash, m, k))
      && (k in t ==> t[k] == s[k])
  {
    UninstallRemoves(conf, hash, m, k);
    RemovalResult(s, UninstallPlan(conf, hash, m), k);
  }

  // ---------------------------------------------------------------- integrity while uninstalling

  /** No component of gone has a Deployment in the namespace, and each Deployment refers to Secrets of its own only. */
  ghost predicate Shaped(s: Objects, ns: string, gone: set<Component>) {
    && Typed(s)
    && forall k :: k in s && s[k].DeploymentObject? && k.ns == ns ==>
         && k.name.Default? && k == DeploymentKey(ns, k.name.c) && k.name.c !in gone
         && s[k].pod.secrets == Mounts(k.name.c)
         && forall n :: n in s[k].pod.pullSecrets ==> n.PullCopy? && n.c == k.name.c
  }

  lemma ShapedAfter(s: Objects, ns: string, gone: set<Component>, ops: seq<Op>, more: set<Component>)
    requires Shaped(s, ns, gone) && Removals(ops)
    requires forall c :: c in more ==> c in gone || Removes(ops, DeploymentKey(ns, c))
    ensures Shaped(Apply(s, ops), ns, more)
  {
    var t := Apply(s, ops);
    forall k | k in t
      ensures k in s && t[k] == s[k]
      ensures k.ns == ns && t[k].DeploymentObject? ==> k.name.Default? && k.name.c !in more
    {
      RemovalResult(s, ops, k);
    }
  }

  /** No source is named like a Secret that a Deployment of cs in the store refers to. */
  ghost predicate Spared(s: Objects, ns: string, cs: set<Component>, sources: seq<string>, hash: NameHash) {
    forall c, n :: c in cs && DeploymentKey(ns, c) in s && SecretRef(s[DeploymentKey(ns, c)], n) ==>
      Render(hash, n) !in sources
  }

  lemma NamedLast(s: Objects, ns: string, gone: set<Component>, cs: set<Component>, sources: seq<string>,
                  hash: NameHash)
    requires Shaped(s, ns, gone) && forall c :: c in gone || c in cs
    ensures RefsLast(s, NamedDels(ns, sources, hash)) <==> Spared(s, ns, cs, sources, hash)
  {
    var d := NamedDels(ns, sources, hash);
    if RefsLast(s, d) {
      forall c, n | c in cs && DeploymentKey(ns, c) in s && SecretRef(s[DeploymentKey(ns, c)], n)
        ensures Render(hash, n) !in sources
      {
        if i :| 0 <= i < |sources| && sources[i] == Render(hash, n) {
          assert Touches(d[i], SecretKey(ns, n));
        }
      }
    }
    if Spared(s, ns, cs, sources, hash) {
      forall k, n | k in s && k.ns == ns && SecretRef(s[k], n)
        ensures Render(hash, n) !in sources
      {
        assert k == DeploymentKey(ns, k.name.c);
      }
    }
  }

  /** Deletes of Secrets after deletes that remove every Deployment referring to these. */
  lemma RefsLastAfter(s: Objects, a: seq<Op>, b: seq<Op>)
    requires Removals(a) && Removals(b)
    requires forall i :: 0 <= i < |a| ==> a[i].Del? && a[i].key.kind != Secret
    requires forall i, k, n :: 0 <= i < |b| && k in s && SecretRef(s[k], n) && Touches(b[i], SecretKey(k.ns, n)) ==>
      Removes(a, k)
    ensures RefsLast(s, a + b)
  {
    var c := a + b;
    forall i, k, n | 0 <= i < |c| && k in s && SecretRef(s[k], n) && Touches(c[i], SecretKey(k.ns, n))
      ensures exists j :: 0 <= j < i && Touches(c[j], k)
    {
      assert c[i] == b[i - |a|];
      var j :| 0 <= j < |a| && Touches(a[j], k);
      assert Touches(c[j], k);
    }
  }

  lemma WorkloadsFirst(conf: Configuration, c: Component)
    requires c in {Controller, Main, Webhooks}
    ensures Removes(LandscaperHpaDels(conf) + LandscaperDeploymentDels(conf) + LandscaperServiceDels(conf),
                    DeploymentKey(conf.Ns(), c))
  {
    var a, d := LandscaperHpaDels(conf), LandscaperDeploymentDels(conf);
    var k := DeploymentKey(conf.Ns(), c);
    assert Touches(d[0], k) || Touches(d[1], k) || Touches(d[2], k);
    RemovesConcat(a, d, k);
    RemovesConcat(a + d, LandscaperServiceDels(conf), k);
  }

  lemma LandscaperLast(s: Objects, conf: Configuration, gone: set<Component>)
    requires Shaped(s, conf.Ns(), gone)
    ensures RefsLast(s, LandscaperDels(conf))
  {
    var a := LandscaperHpaDels(conf) + LandscaperDeploymentDels(conf) + LandscaperServiceDels(conf);
    var b := LandscaperSecretDels(conf);
    forall i, k, n | 0 <= i < |b| && k in s && SecretRef(s[k], n) && Touches(b[i], SecretKey(k.ns, n))
      ensures Removes(a, k)
    {
      assert b[i].key.name.c == Controller;
      WorkloadsFirst(conf, k.name.c);
    }
    RefsLastAfter(s, a, b);
  }

  lemma DeployerLast(s: Objects, conf: Configuration, c: Component, gone: set<Component>)
    requires Shaped(s, conf.Ns(), gone) && (c == Helm || c == Manifest)
    ensures RefsLast(s, DeployerDels(conf, c))
  {
    var d := DeployerDels(conf, c);
    var a, b := d[..2], d[2..];
    forall i, k, n | 0 <= i < |b| && k in s && SecretRef(s[k], n) && Touches(b[i], SecretKey(k.ns, n))
      ensures Removes(a, k)
    {
      assert b[i].key.name.c == c && Touches(a[0], k);
    }
    RefsLastAfter(s, a, b);
    assert d == a + b;
  }

  /**
   While the landscaper's sources are deleted by name, the two deployers still run, and while
   the helm deployer's are, the manifest deployer does. No source may be named like a Secret
   that is in use then.
   */
  ghost predicate NoClash(s: Objects, conf: Configuration, hash: NameHash, m: nat)
    requires m <= |conf.Sources(Helm)|
  {
    && Spared(s, conf.Ns(), {Helm, Manifest}, LandscaperSources(conf), hash)
    && Spared(s, conf.Ns(), {Manifest}, conf.Sources(Helm)[..m], hash)
  }

  /** Deletes that leave the Deployments of cs alone do not change what those are spared. */
  lemma SparedAfter(s: Objects, ops: seq<Op>, ns: string, cs: set<Component>, sources: seq<string>, hash: NameHash)
    requires Removals(ops) && forall c :: c in cs ==> !Removes(ops, DeploymentKey(ns, c))
    ensures Spared(Apply(s, ops), ns, cs, sources, hash) <==> Spared(s, ns, cs, sources, hash)
  {
    forall c | c in cs
      ensures DeploymentKey(ns, c) in s <==> DeploymentKey(ns, c) in Apply(s, ops)
      ensures DeploymentKey(ns, c) in s ==> Apply(s, ops)[DeploymentKey(ns, c)] == s[DeploymentKey(ns, c)]
    {
      RemovalResult(s, ops, DeploymentKey(ns, c));
    }
  }

  /** Deleting by source name never removes a Deployment. */
  lemma DelsThenNamed(ops: seq<Op>, ns: string, sources: seq<string>, hash: NameHash, c: Component)
    requires Removals(ops)
    ensures
      var all := ops + NamedDels(ns, sources, hash);
      Removals(all) && (Removes(all, DeploymentKey(ns, c)) <==> Removes(ops, DeploymentKey(ns, c)))
  {
    RemovesConcat(ops, NamedDels(ns, sources, hash), DeploymentKey(ns, c));
  }

  /** Deletes in a good order followed by deletes by name are in order iff the latter spare what is left. */
  lemma StageOrder(s: Objects, ops: seq<Op>, ns: string, gone: set<Component>, more: set<Component>,
                   left: set<Component>,
                   sources: seq<string>, hash: NameHash)
    requires Shaped(s, ns, gone) && Removals(ops) && RefsLast(s, ops)
    requires forall c :: c in more ==> c in gone || Removes(ops, DeploymentKey(ns, c))
    requires forall c :: c in left ==> !Removes(ops, DeploymentKey(ns, c))
    requires forall c :: c in more || c in left
    ensures
      var all := ops + NamedDels(ns, sources, hash);
      && Removals(all) && Shaped(Apply(s, all), ns, more)
      && (RefsLast(s, all) <==> Spared(s, ns, left, sources, hash))
  {
    var n := NamedDels(ns, sources, hash);
    forall c
      ensures Removes(ops + n, DeploymentKey(ns, c)) <==> Removes(ops, DeploymentKey(ns, c))
    {
      DelsThenNamed(ops, ns, sources, hash, c);
    }
    ShapedAfter(s, ns, gone, ops, more);
    ShapedAfter(s, ns, gone, ops + n, more);
    NamedLast(Apply(s, ops), ns, more, left, sources, hash);
    SparedAfter(s, ops, ns, left, sources, hash);
    RefsLastConcat(s, ops, n);
  }

  lemma EveryComponent(c: Component)
    ensures c == Controller || c == Main || c == Webhooks || c == Helm || c == Manifest
  {}

  lemma LandscaperStage(s: Objects, conf: Configuration, hash: NameHash)
    requires Shaped(s, conf.Ns(), {})
    ensures
      var ops := LandscaperDels(conf) + LandscaperNamedDels(conf, hash);
      && Removals(ops) && Shaped(Apply(s, ops), conf.Ns(), {Controller, Main, Webhooks})
      && !Removes(ops, DeploymentKey(conf.Ns(), Manifest))
      && !Removes(ops, DeploymentKey(conf.Ns(), Helm))
      && (RefsLast(s, ops) <==> Spared(s, conf.Ns(), {Helm, Manifest}, LandscaperSources(conf), hash))
  {
    var ns, l := conf.Ns(), LandscaperDels(conf);
    assert LandscaperNamedDels(conf, hash) == NamedDels(ns, LandscaperSources(conf), hash);
    forall c
      ensures Removes(l, DeploymentKey(ns, c)) <==> c in {Controller, Main, Webhooks}
    {
      LandscaperRemoves(conf, DeploymentKey(ns, c));
      DelsThenNamed(l, ns, LandscaperSources(conf), hash, c);
    }
    DelsThenNamed(l, ns, LandscaperSources(conf), hash, Manifest);
    DelsThenNamed(l, ns, LandscaperSources(conf), hash, Helm);
    LandscaperLast(s, conf, {});
    var three, two: set<Component> := {Controller, Main, Webhooks}, {Helm, Manifest};
    forall c ensures c in three || c in two { EveryComponent(c); }
    StageOrder(s, l, ns, {}, three, two, LandscaperSources(conf), hash);
  }

  lemma DeployerStage(s: Objects, conf: Configuration, hash: NameHash, c: Component,
                      gone: set<Component>, left: set<Component>, sources: seq<string>)
    requires c == Helm || c == Manifest
    requires c !in left && (forall d :: d in gone + {c} || d in left)
    requires Shaped(s, conf.Ns(), gone)
    ensures
      var ops := DeployerDels(conf, c) + NamedDels(conf.Ns(), sources, hash);
      && Removals(ops) && Shaped(Apply(s, ops), conf.Ns(), gone + {c})
      && (RefsLast(s, ops) <==> Spared(s, conf.Ns(), left, sources, hash))
  {
    var ns := conf.Ns();
    forall d
      ensures Removes(DeployerDels(conf, c), DeploymentKey(ns, d)) <==> d == c
    {
      DeployerRemoves(conf, c, DeploymentKey(ns, d));
    }
    DeployerLast(s, conf, c, gone);
    StageOrder(s, DeployerDels(conf, c), ns, gone, gone + {c}, left, sources, hash);
  }

  lemma FourSegments(s: Objects, a: seq<Op>, b: seq<Op>, c: seq<Op>, k: Key)
    requires Removals(a) && Removals(b) && Removals(c) && k.kind == NamespaceKind
    ensures
      var all := a + b + c + [Del(k)];
      && Removals(all)
      && (RefsLast(s, all) <==> RefsLast(s, a) && RefsLast(Apply(s, a), b) && RefsLast(Apply(Apply(s, a), b), c))
  {
    ApplyConcat(s, a, b);
    RefsLastConcat(s, a, b); RefsLastConcat(s, a + b, c); RefsLastConcat(s, a + b + c, [Del(k)]);
    assert RefsLast(Apply(s, a + b + c), [Del(k)]);
  }

  lemma Reassociate(a: seq<Op>, b: seq<Op>, c: seq<Op>, d: seq<Op>, e: seq<Op>, f: seq<Op>, g: seq<Op>)
    ensures a + b + c + d + e + f + g == a + b + (c + d) + (e + f) + g
  {}

  lemma DeployerStages(s: Objects, conf: Configuration, hash: NameHash, helm: seq<string>, manifest: seq<string>)
    requires Shaped(s, conf.Ns(), {Controller, Main, Webhooks})
    ensures
      var b := DeployerDels(conf, Helm) + NamedDels(conf.Ns(), helm, hash);
      var c := DeployerDels(conf, Manifest) + NamedDels(conf.Ns(), manifest, hash);
      && Removals(b) && Removals(c) && RefsLast(Apply(s, b), c)
      && (RefsLast(s, b) <==> Spared(s, conf.Ns(), {Manifest}, helm, hash))
  {
    var three: set<Component> := {Controller, Main, Webhooks};
    forall d ensures d in three + {Helm} || d in {Manifest} { EveryComponent(d); }
    DeployerStage(s, conf, hash, Helm, three, {Manifest}, helm);
    var b := DeployerDels(conf, Helm) + NamedDels(conf.Ns(), helm, hash);
    DeployerStage(Apply(s, b), conf, hash, Manifest, three + {Helm}, {}, manifest);
    SparedNone(Apply(s, b), conf.Ns(), manifest, hash);
  }

  lemma UninstallOrder(s: Objects, conf: Configuration, hash: NameHash, m: nat)
    requires m <= |conf.Sources(Helm)| && Shaped(s, conf.Ns(), {})
    ensures Removals(UninstallPlan(conf, hash, m))
    ensures RefsLast(s, UninstallPlan(conf, hash, m)) <==> NoClash(s, conf, hash, m)
  {
    var ns, helm, manifest := conf.Ns(), conf.Sources(Helm)[..m], conf.Sources(Manifest);
    var a := LandscaperDels(conf) + LandscaperNamedDels(conf, hash);
    var b := DeployerDels(conf, Helm) + NamedDels(ns, helm, hash);
    var c := DeployerDels(conf, Manifest) + NamedDels(ns, manifest, hash);
    var last := [Del(NamespaceKey(Mcp, ns))];
    LandscaperStage(s, conf, hash);
    DeployerStages(Apply(s, a), conf, hash, helm, manifest);
    SparedAfter(s, a, ns, {Manifest}, helm, hash);
    FourSegments(s, a, b, c, NamespaceKey(Mcp, ns));
    Reassociate(LandscaperDels(conf), LandscaperNamedDels(conf, hash), DeployerDels(conf, Helm),
                NamedDels(ns, helm, hash), DeployerDels(conf, Manifest), NamedDels(ns, manifest, hash), last);
  }

  lemma SparedNone(s: Objects, ns: string, sources: seq<string>, hash: NameHash)
    ensures Spared(s, ns, {}, sources, hash)
  {}

  /**
   Integrity at every point where an uninstall may stop: it holds if and only if no source
   deleted by name clashes with a Secret of a Deployment that is still there.
   */
  lemma UninstallIntegrity(s: Objects, conf: Configuration, hash: NameHash, m: nat)
    requires m <= |conf.Sources(Helm)| && Integrity(s) && Shaped(s, conf.Ns(), {})
    ensures
      var plan := UninstallPlan(conf, hash, m);
      (forall n :: 0 <= n <= |plan| ==> Integrity(Apply(s, plan[..n]))) <==> NoClash(s, conf, hash, m)
  {
    var plan := UninstallPlan(conf, hash, m);
    UninstallOrder(s, conf, hash, m);
    if NoClash(s, conf, hash, m) {
      forall n | 0 <= n <= |plan| ensures Integrity(Apply(s, plan[..n])) { RemovalsKeepIntegrity(s, plan, n); }
    } else {
      OutOfOrderBreaksIntegrity(s, plan);
    }
  }

  // ---------------------------------------------------------------- isolation

  predicate Within(ops: seq<Op>, ns: string) {
    forall i :: 0 <= i < |ops| ==> Area(ops[i]) == ns
  }

  lemma WithinConcat(a: seq<Op>, b: seq<Op>, ns: string)
    requires Within(a, ns) && Within(b, ns)
    ensures Within(a + b, ns)
  {}

  lemma DeployerWithin(conf: Configuration, c: Component, kcs: Kubeconfigs, data: seq<Data>)
    requires |data| == |conf.Sources(c)|
    ensures Within(DeployerPlan(conf, c, kcs, data), conf.Ns())
  {
    assert Within(CopyPuts(conf.Ns(), c, conf.Sources(c), data), conf.Ns());
    WithinConcat([PutNamespace(Workload, conf.Ns())], CopyPuts(conf.Ns(), c, conf.Sources(c), data), conf.Ns());
    WithinConcat(DeployerHead(conf, c, data), DeployerTail(conf, c, kcs), conf.Ns());
  }

  lemma LandscaperHeadWithin(conf: Configuration, copies: Copies)
    requires copies.Fits(conf)
    ensures Within(LandscaperHead(conf, copies), conf.Ns())
  {}

  lemma LandscaperTailWithin(conf: Configuration, kcs: Kubeconfigs)
    ensures Within(LandscaperTail(conf, kcs), conf.Ns())
  {
    var a, b, c := LandscaperSecrets(conf, kcs), LandscaperServices(conf), LandscaperDeployments(conf);
    WithinConcat(a, b, conf.Ns());
    WithinConcat(a + b, c, conf.Ns());
    WithinConcat(a + b + c, LandscaperHpas(conf), conf.Ns());
  }

  lemma LandscaperWithin(conf: Configuration, kcs: Kubeconfigs, copies: Copies)
    requires copies.Fits(conf)
    ensures Within(LandscaperPlan(conf, kcs, copies), conf.Ns())
  {
    LandscaperHeadWithin(conf, copies);
    LandscaperTailWithin(conf, kcs);
    WithinConcat(LandscaperHead(conf, copies), LandscaperTail(conf, kcs), conf.Ns());
  }

  lemma InstallWithin(conf: Configuration, kcs: Kubeconfigs, copies: Copies)
    requires copies.Fits(conf)
    ensures Within(InstallPlan(conf, kcs, copies), conf.Ns())
  {
    var n := [PutNamespace(Mcp, conf.Ns())];
    var m, h := DeployerPlan(conf, Manifest, kcs, copies.manifest), DeployerPlan(conf, Helm, kcs, copies.helm);
    DeployerWithin(conf, Manifest, kcs, copies.manifest);
    DeployerWithin(conf, Helm, kcs, copies.helm);
    LandscaperWithin(conf, kcs, copies);
    WithinConcat(n, m, conf.Ns()); WithinConcat(n + m, h, conf.Ns());
    WithinConcat(n + m + h, LandscaperPlan(conf, kcs, copies), conf.Ns());
  }

  lemma UninstallWithin(conf: Configuration, hash: NameHash, m: nat)
    requires m <= |conf.Sources(Helm)|
    ensures Within(UninstallPlan(conf, hash, m), conf.Ns())
  {
    var ns := conf.Ns();
    var a, b := LandscaperDels(conf), LandscaperNamedDels(conf, hash);
    var c, d := DeployerDels(conf, Helm), NamedDels(ns, conf.Sources(Helm)[..m], hash);
    var e, f := DeployerDels(conf, Manifest), NamedDels(ns, conf.Sources(Manifest), hash);
    assert Within(b, ns) && Within(d, ns) && Within(f, ns);
    WithinConcat(a, b, ns); WithinConcat(a + b, c, ns); WithinConcat(a + b + c, d, ns);
    WithinConcat(a + b + c + d, e, ns); WithinConcat(a + b + c + d + e, f, ns);
    WithinConcat(a + b + c + d + e + f, [Del(NamespaceKey(Mcp, ns))], ns);
  }

  /** Every call of an install or uninstall works in the namespace of its own instance. */
  lemma PlansStayWithin(conf: Configuration, kcs: Kubeconfigs, copies: Copies, hash: NameHash, m: nat)
    requires copies.Fits(conf) && m <= |conf.Sources(Helm)|
    ensures Within(InstallPlan(conf, kcs, copies), conf.Ns())
    ensures Within(UninstallPlan(conf, hash, m), conf.Ns())
  {
    InstallWithin(conf, kcs, copies);
    UninstallWithin(conf, hash, m);
  }

  /** So whatever one instance does, and wherever it stops, another instance's objects stay as they are. */
  lemma InstancesApart(s: Objects, conf: Configuration, kcs: Kubeconfigs, copies: Copies, hash: NameHash, m: nat,
                       other: string, k: Key, n: nat)
    requires copies.Fits(conf) && m <= |conf.Sources(Helm)|
    requires conf.instance != other && k.ns == Namespace(other)
    ensures
      forall plan :: plan in {InstallPlan(conf, kcs, copies), UninstallPlan(conf, hash, m)} && n <= |plan| ==>
        var t := Apply(s, plan[..n]);
        (k in t <==> k in s) && (k in s ==> t[k] == s[k])
  {
    if conf.Ns() == Namespace(other) { NamespaceInjective(conf.instance, other); }
    PlansStayWithin(conf, kcs, copies, hash, m);
    forall plan | plan in {InstallPlan(conf, kcs, copies), UninstallPlan(conf, hash, m)} && n <= |plan|
      ensures
        var t := Apply(s, plan[..n]);
        (k in t <==> k in s) && (k in s ==> t[k] == s[k])
    {
      FrameArea(s, plan[..n], conf.Ns(), k);
    }
  }

  /** Objects of an instance that the API server takes for the same are the same. */
  lemma KeysFaithful(conf: Configuration, hash: NameHash, k: Key, l: Key)
    requires WebhooksServiceName(conf.webhooksValues) != Plain(ComponentName(Controller))
    requires Footprint(conf, k) && Footprint(conf, l) && Separated(hash, k.name, l.name)
    requires k.cluster == l.cluster && k.kind == l.kind && k.ns == l.ns && Render(hash, k.name) == Render(hash, l.name)
    ensures k == l
  {
    match k.kind
    case Secret => SecretNamesDistinct(hash, k.name, l.name);
    case Service =>
    case Hpa => DefaultNamesDistinct(k.name.c, l.name.c);
    case Deployment => DefaultNamesDistinct(k.name.c, l.name.c);
    case NamespaceKind =>
  }

  /** The delete helper skips the defaults, and still finds the Service the install created. */
  lemma DefaultsKeepServiceName(v: WebhooksValues)
    ensures WebhooksServiceName(Defaulted(v)) == WebhooksServiceName(v)
  {}

  // ---------------------------------------------------------------- residue

  /** What an uninstall leaves of an instance: the workload namespace and the copies not named like a source. */
  ghost predicate Left(conf: Configuration, hash: NameHash, m: nat, k: Key)
    requires m <= |conf.Sources(Helm)|
  {
    k == NamespaceKey(Workload, conf.Ns()) || (PullSecretCopy(conf, k) && !HitBySource(conf, hash, m, k))
  }

  lemma LeftOrRemoved(conf: Configuration, hash: NameHash, m: nat, k: Key)
    requires m <= |conf.Sources(Helm)| && Footprint(conf, k)
    ensures Left(conf, hash, m, k) <==> !Removable(conf, k) && !HitBySource(conf, hash, m, k)
  {}

  lemma NotHitOutside(conf: Configuration, hash: NameHash, m: nat, k: Key)
    requires m <= |conf.Sources(Helm)|
    ensures k.ns != conf.Ns() ==> !HitBySource(conf, hash, m, k)
  {}

  /** No source is named like a copy, so that the deletes by source name meet no copy. */
  ghost predicate CopiesSpared(conf: Configuration, hash: NameHash) {
    forall c, d, i, j :: 0 <= i < |conf.Sources(c)| && 0 <= j < |conf.Sources(d)| ==>
      Render(hash, PullCopy(c, conf.Sources(c)[i])) != conf.Sources(d)[j]
  }

  /** Under that condition every copy stays. */
  lemma CopyNotHit(conf: Configuration, hash: NameHash, m: nat, k: Key)
    requires m <= |conf.Sources(Helm)| && CopiesSpared(conf, hash) && PullSecretCopy(conf, k)
    ensures !HitBySource(conf, hash, m, k)
  {
    if HitBySource(conf, hash, m, k) {
      var text :| NamedLike(hash, conf.Ns(), k, text) &&
        (text in conf.Sources(Main) || text in conf.Sources(Webhooks) || text in conf.Sources(Helm)[..m]
          || text in conf.Sources(Manifest));
      assert text in conf.Sources(Helm)[..m] ==> text in conf.Sources(Helm);
      CopyHit(conf, hash, k.name.c, k.name.source, text);
    }
  }

  lemma CopyHit(conf: Configuration, hash: NameHash, c: Component, source: string, text: string)
    requires CopiesSpared(conf, hash) && source in conf.Sources(c)
    requires exists d :: text in conf.Sources(d)
    ensures Render(hash, PullCopy(c, source)) != text
  {
    var d :| text in conf.Sources(d);
    var i :| 0 <= i < |conf.Sources(c)| && conf.Sources(c)[i] == source;
    var j :| 0 <= j < |conf.Sources(d)| && conf.Sources(d)[j] == text;
  }
}
