/**
 The installers, call by call on the API servers: whatever fails and whatever others do in
 between, the operations that took effect are the first ones of the plan, in order, and all of
 them when the installer succeeds.
 */
module Installers {
  import opened Wrappers
  import opened Identity
  import opened Store
  import opened Plans
  import opened Platform
  import opened World
  import opened Calls
  import opened Api

  // ---------------------------------------------------------------- what has been done

  /** At some point of the trace from position n on, the source had these contents. */
  ghost predicate ReadAt(t: seq<Snap>, n: nat, s: Source, d: Data) {
    exists j :: n <= j < |t| && Current(t[j].world, s) == Some(d)
  }

  predicate IsCopy(op: Op) {
    op.Put? && op.key.kind == Secret && op.key.name.PullCopy?
  }

  /** Every pull-secret copy has contents that its source had from position n of the trace on. */
  ghost predicate Evident(t: seq<Snap>, n: nat, written: set<Target>, done: seq<Op>) {
    forall i :: 0 <= i < |done| && IsCopy(done[i]) ==>
      && done[i].obj.SecretObject?
      && ReadAt(t, n, PullSource(done[i].key.name.source), done[i].obj.data)
      && PullTarget(done[i].key.name.c, done[i].key.name.source) in written
  }

  lemma EvidentStays(t: seq<Snap>, u: seq<Snap>, n: nat, written: set<Target>, more: set<Target>, done: seq<Op>)
    requires Evident(t, n, written, done) && t <= u && written <= more
    ensures Evident(u, n, more, done)
  {
    forall i | 0 <= i < |done| && IsCopy(done[i])
      ensures ReadAt(u, n, PullSource(done[i].key.name.source), done[i].obj.data)
    {
      var j :| n <= j < |t| && Current(t[j].world, PullSource(done[i].key.name.source)) == Some(done[i].obj.data);
      assert u[j] == t[j];
    }
  }

  /** Where a part of a run has begun: the objects, the length of the trace, the operations on record by then. */
  datatype Start = Start(objects: Objects, n: nat, ops: seq<Op>)

  /** Since then these operations have been carried out, and no others. */
  ghost predicate Carried(api: Server, g: Start, done: seq<Op>)
    reads api
  {
    && g.n <= |api.trace| && api.world.objects == Apply(g.objects, done)
    && Ops(api.trace) == g.ops + done
  }

  ghost function Begin(api: Server): Start
    reads api
  {
    Start(api.world.objects, |api.trace|, Ops(api.trace))
  }

  ghost predicate Progress(api: Server, g: Start, done: seq<Op>)
    reads api
  {
    Carried(api, g, done) && Evident(api.trace, g.n, api.world.book.written, done)
  }

  lemma OneMore(s: Objects, b: seq<Op>, done: seq<Op>, op: Op)
    ensures Apply(s, done + [op]) == Do(Apply(s, done), op) && b + done + [op] == b + (done + [op])
  {
    assert (done + [op])[..|done|] == done;
  }

  // ---------------------------------------------------------------- parts of plans

  /** Plans with copies are written down before the copies are read: their contents may differ. */
  ghost predicate Alike(a: Op, b: Op) {
    a == b || (IsCopy(a) && IsCopy(b) && a.key == b.key && a.obj.SecretObject? && b.obj.SecretObject?)
  }

  /** These are the first operations of the plan. */
  ghost predicate Like(part: seq<Op>, plan: seq<Op>) {
    |part| <= |plan| && forall i :: 0 <= i < |part| ==> Alike(part[i], plan[i])
  }

  /** From done to more, the first operations of the plan have been carried out. */
  ghost predicate Onto(done: seq<Op>, more: seq<Op>, plan: seq<Op>) {
    done <= more && Like(more[|done|..], plan)
  }

  lemma OntoNothing(done: seq<Op>, plan: seq<Op>)
    ensures Onto(done, done, plan)
  {}

  lemma OntoNext(done: seq<Op>, more: seq<Op>, plan: seq<Op>, op: Op)
    requires Onto(done, more, plan) && |more| < |done| + |plan| && plan[|more| - |done|] == op
    ensures Onto(done, more + [op], plan)
  {
    var part := (more + [op])[|done|..];
    assert part == more[|done|..] + [op];
  }

  lemma OntoFirst(done: seq<Op>, more: seq<Op>, x: seq<Op>, y: seq<Op>)
    requires Onto(done, more, x)
    ensures Onto(done, more, x + y)
  {}

  lemma OntoThen(done: seq<Op>, more: seq<Op>, most: seq<Op>, x: seq<Op>, y: seq<Op>)
    requires Onto(done, more, x) && |more| == |done| + |x| && Onto(more, most, y)
    ensures Onto(done, most, x + y)
  {
    var part := most[|done|..];
    forall i | 0 <= i < |part| ensures Alike(part[i], (x + y)[i]) {
      if i < |x| {
        assert part[i] == most[|done| + i] == more[|done| + i] == more[|done|..][i];
      } else {
        assert part[i] == most[|more|..][i - |x|];
      }
    }
  }

  /** The part y of a plan x + y + z, carried out after all of x. */
  lemma OntoStage(done: seq<Op>, more: seq<Op>, most: seq<Op>, x: seq<Op>, y: seq<Op>, z: seq<Op>)
    requires Onto(done, more, x) && |more| == |done| + |x| && Onto(more, most, y)
    ensures Onto(done, most, x + y) && Onto(done, most, x + y + z)
  {
    OntoThen(done, more, most, x, y);
    OntoFirst(done, most, x + y, z);
  }

  // ---------------------------------------------------------------- single calls

  /** CreateOrUpdateResource, for the next operation of a plan that was begun at start. */
  method CreateOrUpdate(api: Server, k: Key, o: Object, ghost g: Start, ghost start: seq<Op>, ghost plan: seq<Op>,
                        ghost done: seq<Op>)
    returns (ok: bool, ghost more: seq<Op>)
    requires api.Valid() && InstallGuard(api.mark, k.ns) && PutGuard(api.world.objects, k, o) && !o.RouteObject?
    requires Progress(api, g, done) && Onto(start, done, plan)
    requires |done| < |start| + |plan| && plan[|done| - |start|] == Put(k, o)
    modifies api
    ensures api.Grown() && Progress(api, g, more) && Onto(start, more, plan)
    ensures ok ==> |more| == |done| + 1 && k in api.world.objects
    ensures old(api.Calm()) ==> ok
  {
    ghost var took;
    ok, took := api.Put(k, o);
    more := if took then done + [Put(k, o)] else done;
    OneMore(g.objects, g.ops, done, Put(k, o));
    OntoNext(start, done, plan, Put(k, o));
    EvidentStays(old(api.trace), api.trace, g.n, old(api.world).book.written, api.world.book.written, done);
  }

  /** DeleteResource, for the next operation of a plan that was begun at start. */
  method DeleteResource(api: Server, op: Op, ghost g: Start, ghost start: seq<Op>, ghost plan: seq<Op>,
                        ghost done: seq<Op>)
    returns (ok: bool, ghost more: seq<Op>)
    requires api.Valid() && RemoveGuard(api.mark, Area(op)) && !op.Put? && Orderly(api.world.objects, op)
    requires SourceRead(api.world, op)
    requires Carried(api, g, done) && Onto(start, done, plan)
    requires |done| < |start| + |plan| && plan[|done| - |start|] == op
    modifies api
    ensures api.Shrunk() && Carried(api, g, more) && Onto(start, more, plan)
    ensures ok ==> |more| == |done| + 1 && forall k :: Touches(op, k) ==> k !in api.world.objects
    ensures old(api.Calm()) ==> ok
  {
    ghost var took;
    ok, took := api.Remove(op);
    more := if took then done + [op] else done;
    OneMore(g.objects, g.ops, done, op);
    OntoNext(start, done, plan, op);
  }

  /** An upsert of a Secret with a fixed name. */
  method PutFixed(api: Server, ns: string, n: Name, data: Data, ghost g: Start, ghost start: seq<Op>,
                  ghost plan: seq<Op>,
                  ghost done: seq<Op>)
    returns (ok: bool, ghost more: seq<Op>)
    requires api.Valid() && InstallGuard(api.mark, ns) && FixedSecret(n)
    requires Progress(api, g, done) && Onto(start, done, plan)
    requires |done| < |start| + |plan| && plan[|done| - |start|] == Put(SecretKey(ns, n), SecretObject(data))
    modifies api
    ensures api.Grown() && Progress(api, g, more) && Onto(start, more, plan)
    ensures ok ==> |more| == |done| + 1 && SecretKey(ns, n) in api.world.objects
    ensures old(api.Calm()) ==> ok
  {
    ok, more := CreateOrUpdate(api, SecretKey(ns, n), SecretObject(data), g, start, plan, done);
  }

  /** An upsert of an HPA. */
  method PutHpaOf(api: Server, ns: string, c: Component, ghost g: Start, ghost start: seq<Op>, ghost plan: seq<Op>,
                  ghost done: seq<Op>)
    returns (ok: bool, ghost more: seq<Op>)
    requires api.Valid() && InstallGuard(api.mark, ns) && Progress(api, g, done) && Onto(start, done, plan)
    requires |done| < |start| + |plan| && plan[|done| - |start|] == Put(HpaKey(ns, c), HpaObject(Default(c)))
    modifies api
    ensures api.Grown() && Progress(api, g, more) && Onto(start, more, plan)
    ensures (ok ==> |more| == |done| + 1) && (old(api.Calm()) ==> ok)
  {
    ok, more := CreateOrUpdate(api, HpaKey(ns, c), HpaObject(Default(c)), g, start, plan, done);
  }

  // ---------------------------------------------------------------- pull secrets

  function Blank(n: nat): seq<Data> { seq(n, _ => Content("")) }

  /** The copies for a component, with contents still to be read. */
  function CopyPlan(conf: Configuration, c: Component): seq<Op> {
    CopyPuts(conf.Ns(), c, conf.Sources(c), Blank(|conf.Sources(c)|))
  }

  /** The pull secrets are all there on the platform cluster. */
  predicate Present(p: PlatformState, sources: seq<string>) {
    forall i :: 0 <= i < |sources| ==> sources[i] in p.secrets
  }

  lemma PresentNext(p: PlatformState, sources: seq<string>, i: nat)
    requires i < |sources| && Present(p, sources[..i])
    ensures if sources[i] in p.secrets then Present(p, sources[..i + 1]) else !Present(p, sources)
  {
    assert sources[..i + 1] == sources[..i] + [sources[i]];
  }

  /** The Secrets with these names are all there in the instance. */
  ghost predicate Stored(s: Objects, ns: string, names: seq<Name>) {
    forall i :: 0 <= i < |names| ==> SecretKey(ns, names[i]) in s
  }

  lemma StoredMore(s: Objects, t: Objects, ns: string, names: seq<Name>, n: Name)
    requires Stored(s, ns, names) && SecretKey(ns, n) in t && forall k :: k in s ==> k in t
    ensures Stored(t, ns, names + [n])
  {}

  /** One round of the copying loop: reads the source and writes its copy. */
  method SyncOne(api: Server, ns: string, c: Component, name: string, ghost g: Start, ghost done: seq<Op>)
    returns (ok: bool, ghost more: seq<Op>)
    requires api.Valid() && InstallGuard(api.mark, ns) && Progress(api, g, done)
    modifies api
    ensures api.Grown() && Progress(api, g, more)
    ensures more == done || (|more| == |done| + 1 && more[..|done|] == done
      && IsCopy(more[|done|]) && more[|done|].key == SecretKey(ns, PullCopy(c, name)))
    ensures ok ==> |more| == |done| + 1 && SecretKey(ns, PullCopy(c, name)) in api.world.objects
    ensures old(api.Calm()) ==> (ok <==> name in old(api.world).platform.secrets)
  {
    var read := api.GetSource(PullSource(name));
    if read.Error? {
      EvidentStays(old(api.trace), api.trace, g.n, old(api.world).book.written, api.world.book.written, done);
      return false, done;
    }
    assert ReadAt(api.trace, g.n, PullSource(name), read.value);
    ghost var took;
    ghost var t := api.trace;
    ok, took := api.PutCopy(PullTarget(c, name), ns, read.value);
    ghost var op := Put(SecretKey(ns, PullCopy(c, name)), SecretObject(read.value));
    more := if took then done + [op] else done;
    EvidentStays(old(api.trace), api.trace, g.n, old(api.world).book.written, api.world.book.written, done);
    EvidentMore(t, api.trace, g.n, api.world.book.written, done, op, took);
    OneMore(g.objects, g.ops, done, op);
  }

  lemma EvidentMore(t: seq<Snap>, u: seq<Snap>, n: nat, written: set<Target>, done: seq<Op>, op: Op, took: bool)
    requires Evident(u, n, written, done) && t <= u && IsCopy(op) && op.obj.SecretObject?
    requires ReadAt(t, n, PullSource(op.key.name.source), op.obj.data)
    requires took ==> PullTarget(op.key.name.c, op.key.name.source) in written
    ensures took ==> Evident(u, n, written, done + [op])
  {
    var j :| n <= j < |t| && Current(t[j].world, PullSource(op.key.name.source)) == Some(op.obj.data);
    assert u[j] == t[j];
  }

  lemma OneMoreRef(c: Component, sources: seq<string>, i: nat)
    requires i < |sources|
    ensures PullRefs(c, sources[..i + 1]) == PullRefs(c, sources[..i]) + [PullCopy(c, sources[i])]
  {}

  lemma OneMoreCopy(conf: Configuration, c: Component, done: seq<Op>, more: seq<Op>, most: seq<Op>)
    requires Onto(done, more, CopyPlan(conf, c)) && |more| < |done| + |conf.Sources(c)|
    requires |most| == |more| + 1 && most[..|more|] == more && IsCopy(most[|more|]) && most[|more|].obj.SecretObject?
    requires most[|more|].key == SecretKey(conf.Ns(), PullCopy(c, conf.Sources(c)[|more| - |done|]))
    ensures Onto(done, most, CopyPlan(conf, c))
  {
    var part := most[|done|..];
    forall i | 0 <= i < |part| ensures Alike(part[i], CopyPlan(conf, c)[i]) {
      if |done| + i < |more| { assert part[i] == most[..|more|][|done| + i] == more[|done|..][i]; }
    }
    assert done <= most by { assert forall i :: 0 <= i < |done| ==> most[i] == most[..|more|][i] == more[i]; }
  }

  /** The first i pull secrets of the component have been copied, and list has the references to the copies. */
  ghost predicate Listed(api: Server, conf: Configuration, c: Component, i: nat, list: seq<Name>, done: seq<Op>,
                         more: seq<Op>)
    requires i <= |conf.Sources(c)|
    reads api
  {
    && Onto(done, more, CopyPlan(conf, c)) && |more| == |done| + i && list == PullRefs(c, conf.Sources(c)[..i])
    && Stored(api.world.objects, conf.Ns(), list)
  }

  /** The next round for a component. */
  method SyncNext(api: Server, conf: Configuration, c: Component, i: nat, list: seq<Name>, ghost g: Start,
                  ghost done: seq<Op>, ghost more: seq<Op>)
    returns (ok: bool, longer: seq<Name>, ghost most: seq<Op>)
    requires api.Valid() && InstallGuard(api.mark, conf.Ns()) && Progress(api, g, more)
    requires i < |conf.Sources(c)| && Listed(api, conf, c, i, list, done, more)
    modifies api
    ensures api.Grown() && Progress(api, g, most) && Onto(done, most, CopyPlan(conf, c))
    ensures ok ==> Listed(api, conf, c, i + 1, longer, done, most)
    ensures old(api.Calm()) && Present(old(api.world).platform, conf.Sources(c)[..i]) ==>
      if ok then Present(api.world.platform, conf.Sources(c)[..i + 1])
        else !Present(api.world.platform, conf.Sources(c))
  {
    ghost var before := api.world.objects;
    var name := conf.Sources(c)[i];
    ok, most := SyncOne(api, conf.Ns(), c, name, g, more);
    if most != more { OneMoreCopy(conf, c, done, more, most); }
    longer := list + [PullCopy(c, name)];
    if old(api.Calm()) && Present(old(api.world).platform, conf.Sources(c)[..i]) {
      PresentNext(api.world.platform, conf.Sources(c), i);
    }
    if ok {
      OneMoreRef(c, conf.Sources(c), i);
      StoredMore(before, api.world.objects, conf.Ns(), list, PullCopy(c, name));
    }
  }

  /**
   SecretSync.CreateOrUpdate: copies the pull secrets of a component one by one, and returns the
   references to the copies. Whatever happens, a prefix has been copied, each copy with contents
   its source had during the call.
   */
  method SyncPullSecrets(api: Server, conf: Configuration, c: Component, ghost g: Start, ghost done: seq<Op>)
    returns (refs: Option<seq<Name>>, ghost more: seq<Op>)
    requires api.Valid() && InstallGuard(api.mark, conf.Ns()) && Progress(api, g, done)
    modifies api
    ensures api.Grown() && Progress(api, g, more) && Onto(done, more, CopyPlan(conf, c))
    ensures refs.Some? ==>
      && |more| == |done| + |CopyPlan(conf, c)| && refs.value == PullRefs(c, conf.Sources(c))
      && Stored(api.world.objects, conf.Ns(), refs.value)
    ensures old(api.Calm()) ==> (refs.Some? <==> Present(old(api.world).platform, conf.Sources(c)))
  {
    var sources, list := conf.Sources(c), [];
    ghost var calm, p := api.Calm(), api.world.platform;
    more := done;
    for i := 0 to |sources|
      invariant api.Grown() && Progress(api, g, more) && Listed(api, conf, c, i, list, done, more)
      invariant calm ==> api.world.platform == p && Present(p, sources[..i])
    {
      var ok;
      ok, list, more := SyncNext(api, conf, c, i, list, g, done, more);
      if !ok { return None, more; }
    }
    assert sources[..|sources|] == sources;
    refs := Some(list);
  }

  // ---------------------------------------------------------------- deployers

  /** The plan of a deployer, with the contents of its copies still to be read. */
  function DeployerShape(conf: Configuration, c: Component, kcs: Kubeconfigs): seq<Op> {
    DeployerPlan(conf, c, kcs, Blank(|conf.Sources(c)|))
  }

  /** A Deployment may be stored as soon as the Secrets it mounts and the pull secrets it names are there. */
  lemma DeploymentGuard(s: Objects, conf: Configuration, c: Component, refs: seq<Name>)
    requires refs == PullRefs(c, conf.Sources(c)) && Stored(s, conf.Ns(), refs) && Stored(s, conf.Ns(), Mounts(c))
    ensures PutGuard(s, DeploymentKey(conf.Ns(), c), DeploymentWith(conf, c, refs))
  {}

  /** The Secrets that the Deployment of a deployer mounts are there. */
  predicate Equipped(s: Objects, ns: string, c: Component) {
    SecretKey(ns, Suffixed(c, Config)) in s && SecretKey(ns, Suffixed(c, McpKubeconfig)) in s
  }

  lemma DeployerGuard(s: Objects, conf: Configuration, c: Component, refs: seq<Name>)
    requires (c == Helm || c == Manifest) && Equipped(s, conf.Ns(), c)
    requires refs == PullRefs(c, conf.Sources(c)) && Stored(s, conf.Ns(), refs)
    ensures PutGuard(s, DeploymentKey(conf.Ns(), c), DeploymentWith(conf, c, refs))
  {
    DeploymentGuard(s, conf, c, refs);
  }

  /** The configuration and the kubeconfig of a deployer. */
  method PutDeployerSecrets(api: Server, conf: Configuration, c: Component, kcs: Kubeconfigs, ghost g: Start,
                            ghost done: seq<Op>)
    returns (ok: bool, ghost more: seq<Op>)
    requires api.Valid() && InstallGuard(api.mark, conf.Ns()) && Progress(api, g, done) && (c == Helm || c == Manifest)
    modifies api
    ensures api.Grown() && Progress(api, g, more) && Onto(done, more, DeployerTail(conf, c, kcs))
    ensures (ok ==> |more| == |done| + 2 && Equipped(api.world.objects, conf.Ns(), c)) && (old(api.Calm()) ==> ok)
  {
    var ns := conf.Ns();
    ghost var plan := DeployerTail(conf, c, kcs);
    OntoNothing(done, plan);
    ok, more := PutFixed(api, ns, Suffixed(c, Config), DeployerConfig(c, conf.instance), g, done, plan, done);
    if !ok { return; }
    ok, more := PutFixed(api, ns, Suffixed(c, McpKubeconfig), Kubeconfig(kcs.mcp), g, done, plan, more);
  }

  /** The configuration, the kubeconfig and the HPA of a deployer. */
  method PrepareDeployer(api: Server, conf: Configuration, c: Component, kcs: Kubeconfigs, ghost g: Start,
                         ghost done: seq<Op>)
    returns (ok: bool, ghost more: seq<Op>)
    requires api.Valid() && InstallGuard(api.mark, conf.Ns()) && Progress(api, g, done) && (c == Helm || c == Manifest)
    modifies api
    ensures api.Grown() && Progress(api, g, more) && Onto(done, more, DeployerTail(conf, c, kcs))
    ensures (ok ==> |more| == |done| + 3 && Equipped(api.world.objects, conf.Ns(), c)) && (old(api.Calm()) ==> ok)
  {
    ok, more := PutDeployerSecrets(api, conf, c, kcs, g, done);
    if !ok { return; }
    ok, more := PutHpaOf(api, conf.Ns(), c, g, done, DeployerTail(conf, c, kcs), more);
  }

  /** The Secrets, the HPA and the Deployment of a deployer. */
  method FinishDeployer(api: Server, conf: Configuration, c: Component, kcs: Kubeconfigs, refs: seq<Name>,
                        ghost g: Start, ghost done: seq<Op>)
    returns (ok: bool, ghost more: seq<Op>)
    requires api.Valid() && InstallGuard(api.mark, conf.Ns()) && Progress(api, g, done)
    requires (c == Helm || c == Manifest) && refs == PullRefs(c, conf.Sources(c))
    requires Stored(api.world.objects, conf.Ns(), refs)
    modifies api
    ensures api.Grown() && Progress(api, g, more) && Onto(done, more, DeployerTail(conf, c, kcs))
    ensures (ok ==> |more| == |done| + 4) && (old(api.Calm()) ==> ok)
  {
    ok, more := PrepareDeployer(api, conf, c, kcs, g, done);
    if !ok { return; }
    DeployerGuard(api.world.objects, conf, c, refs);
    ok, more := CreateOrUpdate(api, DeploymentKey(conf.Ns(), c), DeploymentWith(conf, c, refs),
                               g, done, DeployerTail(conf, c, kcs), more);
  }

  /** The namespace and the pull secrets of a deployer. */
  method BeginDeployer(api: Server, conf: Configuration, c: Component, ghost g: Start, ghost done: seq<Op>)
    returns (refs: Option<seq<Name>>, ghost more: seq<Op>)
    requires api.Valid() && InstallGuard(api.mark, conf.Ns()) && Progress(api, g, done) && (c == Helm || c == Manifest)
    modifies api
    ensures api.Grown() && Progress(api, g, more) && Onto(done, more, DeployerStart(conf, c))
    ensures refs.Some? ==>
      && |more| == |done| + |DeployerStart(conf, c)| && refs.value == PullRefs(c, conf.Sources(c))
      && Stored(api.world.objects, conf.Ns(), refs.value)
    ensures old(api.Calm()) ==> (refs.Some? <==> Present(old(api.world).platform, conf.Sources(c)))
  {
    ghost var head, copies := [PutNamespace(Workload, conf.Ns())], CopyPlan(conf, c);
    ghost var first;
    OntoNothing(done, head);
    var ok;
    ok, first := CreateOrUpdate(api, NamespaceKey(Workload, conf.Ns()), NamespaceObject, g, done, head, done);
    more := first;
    OntoFirst(done, first, head, copies);
    if !ok { return None, more; }
    refs, more := SyncPullSecrets(api, conf, c, g, first);
    OntoThen(done, first, more, head, copies);
  }

  function DeployerStart(conf: Configuration, c: Component): seq<Op> {
    DeployerHead(conf, c, Blank(|conf.Sources(c)|))
  }

  /** InstallManifestDeployer and InstallHelmDeployer; what is exported is the name of the Deployment. */
  method InstallDeployer(api: Server, conf: Configuration, c: Component, kcs: Kubeconfigs, ghost g: Start,
                         ghost done: seq<Op>)
    returns (exported: Option<Name>, ghost more: seq<Op>)
    requires api.Valid() && InstallGuard(api.mark, conf.Ns()) && Progress(api, g, done) && (c == Helm || c == Manifest)
    modifies api
    ensures api.Grown() && Progress(api, g, more) && Onto(done, more, DeployerShape(conf, c, kcs))
    ensures exported.Some? ==> exported.value == Default(c) && |more| == |done| + |DeployerShape(conf, c, kcs)|
    ensures old(api.Calm()) ==> (exported.Some? <==> Present(old(api.world).platform, conf.Sources(c)))
  {
    ghost var head, tail := DeployerStart(conf, c), DeployerTail(conf, c, kcs);
    ghost var one;
    var refs;
    refs, one := BeginDeployer(api, conf, c, g, done);
    more := one;
    OntoFirst(done, one, head, tail);
    if refs.None? { return None, more; }
    var ok;
    ok, more := FinishDeployer(api, conf, c, kcs, refs.value, g, one);
    OntoThen(done, one, more, head, tail);
    exported := if ok then Some(Default(c)) else None;
  }

  // ---------------------------------------------------------------- landscaper

  /** The references to the copied pull secrets, in the order of copying. */
  datatype Refs = Refs(main: seq<Name>, central: seq<Name>, webhooks: seq<Name>)

  predicate AllRefs(conf: Configuration, r: Refs) {
    && r.main == PullRefs(Main, conf.Sources(Main)) && r.central == PullRefs(Controller, conf.Sources(Controller))
    && r.webhooks == PullRefs(Webhooks, conf.Sources(Webhooks))
  }

  ghost predicate RefsStored(s: Objects, ns: string, r: Refs) {
    Stored(s, ns, r.main) && Stored(s, ns, r.central) && Stored(s, ns, r.webhooks)
  }

  /** The Secrets that the landscaper's Deployments mount are there. */
  predicate MountsStored(s: Objects, ns: string) {
    && SecretKey(ns, Suffixed(Controller, Config)) in s && SecretKey(ns, Suffixed(Controller, ControllerMcp)) in s
    && SecretKey(ns, Suffixed(Controller, ControllerWorkload)) in s
  }

  /** Everything is there that the landscaper's Deployments refer to. */
  ghost predicate Staged(s: Objects, conf: Configuration, r: Refs) {
    AllRefs(conf, r) && RefsStored(s, conf.Ns(), r) && MountsStored(s, conf.Ns())
  }

  function RefsOf(r: Refs, c: Component): seq<Name> {
    if c == Main then r.main else if c == Controller then r.central else r.webhooks
  }

  lemma LandscaperGuard(s: Objects, conf: Configuration, c: Component, r: Refs)
    requires (c == Controller || c == Main || c == Webhooks) && Staged(s, conf, r)
    ensures PutGuard(s, DeploymentKey(conf.Ns(), c), DeploymentWith(conf, c, RefsOf(r, c)))
  {
    DeploymentGuard(s, conf, c, RefsOf(r, c));
  }

  /** The kubeconfigs of the landscaper itself. */
  method PutKubeconfigs(api: Server, conf: Configuration, kcs: Kubeconfigs, ghost g: Start, ghost done: seq<Op>)
    returns (ok: bool, ghost more: seq<Op>)
    requires api.Valid() && InstallGuard(api.mark, conf.Ns()) && Progress(api, g, done)
    modifies api
    ensures api.Grown() && Progress(api, g, more) && Onto(done, more, LandscaperSecrets(conf, kcs))
    ensures (ok ==> |more| == |done| + 2) && (old(api.Calm()) ==> ok)
    ensures ok ==>
      && SecretKey(conf.Ns(), Suffixed(Controller, ControllerMcp)) in api.world.objects
      && SecretKey(conf.Ns(), Suffixed(Controller, ControllerWorkload)) in api.world.objects
  {
    var ns := conf.Ns();
    ghost var plan := LandscaperSecrets(conf, kcs);
    OntoNothing(done, plan);
    ok, more := PutFixed(api, ns, Suffixed(Controller, ControllerMcp), Kubeconfig(kcs.mcp), g, done, plan, done);
    if !ok { return; }
    ok, more := PutFixed(api, ns, Suffixed(Controller, ControllerWorkload), Kubeconfig(kcs.workload), g, done, plan,
                         more);
  }

  /** The kubeconfigs and the configuration of the landscaper. */
  method PutSecrets(api: Server, conf: Configuration, kcs: Kubeconfigs, checks: seq<Name>, ghost g: Start,
                    ghost done: seq<Op>)
    returns (ok: bool, ghost more: seq<Op>)
    requires api.Valid() && InstallGuard(api.mark, conf.Ns()) && Progress(api, g, done)
    requires checks == HealthChecks()
    modifies api
    ensures api.Grown() && Progress(api, g, more) && Onto(done, more, LandscaperSecrets(conf, kcs))
    ensures (ok ==> |more| == |done| + 4 && MountsStored(api.world.objects, conf.Ns())) && (old(api.Calm()) ==> ok)
  {
    var ns := conf.Ns();
    ghost var plan := LandscaperSecrets(conf, kcs);
    ok, more := PutKubeconfigs(api, conf, kcs, g, done);
    if !ok { return; }
    ok, more := PutFixed(api, ns, Suffixed(Controller, WebhooksMcp), Kubeconfig(kcs.mcp), g, done, plan, more);
    if !ok { return; }
    ok, more := PutFixed(api, ns, Suffixed(Controller, Config), LandscaperConfig(conf.instance, checks), g, done, plan,
                         more);
  }

  /** The central Service and the Service of the webhooks server. */
  method PutServices(api: Server, conf: Configuration, ghost g: Start, ghost done: seq<Op>)
    returns (ok: bool, ghost more: seq<Op>)
    requires api.Valid() && InstallGuard(api.mark, conf.Ns()) && Progress(api, g, done)
    requires WebhooksServiceName(conf.webhooksValues) == Plain(DNS_SERVICE_NAME)
    modifies api
    ensures api.Grown() && Progress(api, g, more) && Onto(done, more, LandscaperServices(conf))
    ensures (ok ==> |more| == |done| + 2) && (old(api.Calm()) ==> ok)
  {
    var ns := conf.Ns();
    ghost var plan := LandscaperServices(conf);
    OntoNothing(done, plan);
    ok, more := CreateOrUpdate(api, ServiceKey(ns, Default(Controller)), CentralService(conf), g, done, plan, done);
    if !ok { return; }
    ok, more := CreateOrUpdate(api, ServiceKey(ns, WebhooksServiceName(Defaulted(conf.webhooksValues))),
                               WebhooksService(conf), g, done, plan, more);
  }

  /** One of the landscaper's Deployments. */
  method PutOne(api: Server, conf: Configuration, c: Component, refs: Refs, ghost g: Start, ghost start: seq<Op>,
                ghost plan: seq<Op>, ghost done: seq<Op>)
    returns (ok: bool, ghost more: seq<Op>)
    requires api.Valid() && InstallGuard(api.mark, conf.Ns()) && Progress(api, g, done) && Onto(start, done, plan)
    requires (c == Controller || c == Main || c == Webhooks) && Staged(api.world.objects, conf, refs)
    requires |done| < |start| + |plan| && plan[|done| - |start|] == PutDeployment(conf, c)
    modifies api
    ensures api.Grown() && Progress(api, g, more) && Onto(start, more, plan) && Staged(api.world.objects, conf, refs)
    ensures (ok ==> |more| == |done| + 1) && (old(api.Calm()) ==> ok)
  {
    LandscaperGuard(api.world.objects, conf, c, refs);
    ok, more := CreateOrUpdate(api, DeploymentKey(conf.Ns(), c), DeploymentWith(conf, c, RefsOf(refs, c)), g, start,
                               plan, done);
  }

  /** The two Deployments of the landscaper's controller. */
  method PutControllers(api: Server, conf: Configuration, refs: Refs, ghost g: Start, ghost done: seq<Op>)
    returns (ok: bool, ghost more: seq<Op>)
    requires api.Valid() && InstallGuard(api.mark, conf.Ns()) && Progress(api, g, done)
    requires Staged(api.world.objects, conf, refs)
    modifies api
    ensures api.Grown() && Progress(api, g, more) && Onto(done, more, LandscaperDeployments(conf))
    ensures ok ==> |more| == |done| + 2 && Staged(api.world.objects, conf, refs)
    ensures old(api.Calm()) ==> ok
  {
    ghost var plan := LandscaperDeployments(conf);
    OntoNothing(done, plan);
    ok, more := PutOne(api, conf, Controller, refs, g, done, plan, done);
    if !ok { return; }
    ok, more := PutOne(api, conf, Main, refs, g, done, plan, more);
  }

  /** The three Deployments, with the pull secrets copied for each. */
  method PutDeployments(api: Server, conf: Configuration, refs: Refs, ghost g: Start, ghost done: seq<Op>)
    returns (ok: bool, ghost more: seq<Op>)
    requires api.Valid() && InstallGuard(api.mark, conf.Ns()) && Progress(api, g, done)
    requires Staged(api.world.objects, conf, refs)
    modifies api
    ensures api.Grown() && Progress(api, g, more) && Onto(done, more, LandscaperDeployments(conf))
    ensures (ok ==> |more| == |done| + 3) && (old(api.Calm()) ==> ok)
  {
    ok, more := PutControllers(api, conf, refs, g, done);
    if !ok { return; }
    ok, more := PutOne(api, conf, Webhooks, refs, g, done, LandscaperDeployments(conf), more);
  }

  /** The three HPAs. */
  method PutHpas(api: Server, conf: Configuration, ghost g: Start, ghost done: seq<Op>)
    returns (ok: bool, ghost more: seq<Op>)
    requires api.Valid() && InstallGuard(api.mark, conf.Ns()) && Progress(api, g, done)
    modifies api
    ensures api.Grown() && Progress(api, g, more) && Onto(done, more, LandscaperHpas(conf))
    ensures (ok ==> |more| == |done| + 3) && (old(api.Calm()) ==> ok)
  {
    var ns := conf.Ns();
    ghost var plan := LandscaperHpas(conf);
    OntoNothing(done, plan);
    ok, more := PutHpaOf(api, ns, Main, g, done, plan, done);
    if !ok { return; }
    ok, more := PutHpaOf(api, ns, Controller, g, done, plan, more);
    if !ok { return; }
    ok, more := PutHpaOf(api, ns, Webhooks, g, done, plan, more);
  }

  function Unread(conf: Configuration): (r: Copies)
    ensures r.Fits(conf)
  {
    var r := Copies(Blank(|conf.Sources(Main)|), Blank(|conf.Sources(Controller)|), Blank(|conf.Sources(Webhooks)|),
                    Blank(|conf.Sources(Manifest)|), Blank(|conf.Sources(Helm)|));
    assert forall c :: |r.Of(c)| == |conf.Sources(c)|;
    r
  }

  function LandscaperShape(conf: Configuration, kcs: Kubeconfigs): seq<Op> { LandscaperPlan(conf, kcs, Unread(conf)) }

  /** The plan of an installation, with the contents of the copies still to be read. */
  function InstallShape(conf: Configuration, kcs: Kubeconfigs): seq<Op> { InstallPlan(conf, kcs, Unread(conf)) }

  function LandscaperCopies(conf: Configuration): seq<Op> {
    CopyPlan(conf, Main) + CopyPlan(conf, Controller) + CopyPlan(conf, Webhooks)
  }

  predicate LandscaperPresent(p: PlatformState, conf: Configuration) {
    Present(p, conf.Sources(Main)) && Present(p, conf.Sources(Controller)) && Present(p, conf.Sources(Webhooks))
  }

  predicate DeployersPresent(p: PlatformState, conf: Configuration) {
    Present(p, conf.Sources(Manifest)) && Present(p, conf.Sources(Helm))
  }

  /** The pull secrets of the landscaper's controller. */
  method SyncControllers(api: Server, conf: Configuration, ghost g: Start, ghost done: seq<Op>)
    returns (main: Option<seq<Name>>, central: Option<seq<Name>>, ghost more: seq<Op>)
    requires api.Valid() && InstallGuard(api.mark, conf.Ns()) && Progress(api, g, done)
    modifies api
    ensures api.Grown() && Progress(api, g, more) && Onto(done, more, CopyPlan(conf, Main) + CopyPlan(conf, Controller))
    ensures central.Some? ==>
      && |more| == |done| + |CopyPlan(conf, Main) + CopyPlan(conf, Controller)|
      && main == Some(PullRefs(Main, conf.Sources(Main))) && Stored(api.world.objects, conf.Ns(), main.value)
      && central == Some(PullRefs(Controller, conf.Sources(Controller)))
        && Stored(api.world.objects, conf.Ns(), central.value)
    ensures old(api.Calm()) ==>
      (central.Some? <==>
        Present(old(api.world).platform, conf.Sources(Main))
          && Present(old(api.world).platform, conf.Sources(Controller)))
  {
    ghost var m, c := CopyPlan(conf, Main), CopyPlan(conf, Controller);
    ghost var one;
    central := None;
    main, one := SyncPullSecrets(api, conf, Main, g, done);
    more := one;
    OntoFirst(done, one, m, c);
    if main.None? { return; }
    central, more := SyncPullSecrets(api, conf, Controller, g, one);
    OntoThen(done, one, more, m, c);
  }

  /** The pull secrets of the landscaper's three components. */
  method SyncLandscaper(api: Server, conf: Configuration, ghost g: Start, ghost done: seq<Op>)
    returns (refs: Option<Refs>, ghost more: seq<Op>)
    requires api.Valid() && InstallGuard(api.mark, conf.Ns()) && Progress(api, g, done)
    modifies api
    ensures api.Grown() && Progress(api, g, more) && Onto(done, more, LandscaperCopies(conf))
    ensures refs.Some? ==> |more| == |done| + |LandscaperCopies(conf)|
    ensures refs.Some? ==> AllRefs(conf, refs.value) && RefsStored(api.world.objects, conf.Ns(), refs.value)
    ensures old(api.Calm()) ==> (refs.Some? <==> LandscaperPresent(old(api.world).platform, conf))
  {
    ghost var first, w := CopyPlan(conf, Main) + CopyPlan(conf, Controller), CopyPlan(conf, Webhooks);
    ghost var one;
    var main, central, webhooks;
    main, central, one := SyncControllers(api, conf, g, done);
    more := one;
    OntoFirst(done, one, first, w);
    if central.None? { return None, more; }
    webhooks, more := SyncPullSecrets(api, conf, Webhooks, g, one);
    OntoThen(done, one, more, first, w);
    refs := if webhooks.Some? then Some(Refs(main.value, central.value, webhooks.value)) else None;
  }

  lemma LandscaperHeadParts(conf: Configuration)
    ensures LandscaperHead(conf, Unread(conf)) == [PutNamespace(Workload, conf.Ns())] + LandscaperCopies(conf)
  {}

  /** The namespace and the pull secrets of the landscaper's three components. */
  method BeginLandscaper(api: Server, conf: Configuration, ghost g: Start, ghost done: seq<Op>)
    returns (refs: Option<Refs>, ghost more: seq<Op>)
    requires api.Valid() && InstallGuard(api.mark, conf.Ns()) && Progress(api, g, done)
    modifies api
    ensures api.Grown() && Progress(api, g, more) && Onto(done, more, LandscaperHead(conf, Unread(conf)))
    ensures refs.Some? ==> |more| == |done| + |LandscaperHead(conf, Unread(conf))|
    ensures refs.Some? ==> AllRefs(conf, refs.value) && RefsStored(api.world.objects, conf.Ns(), refs.value)
    ensures old(api.Calm()) ==> (refs.Some? <==> LandscaperPresent(old(api.world).platform, conf))
  {
    var ok;
    ghost var first, copies := [PutNamespace(Workload, conf.Ns())], LandscaperCopies(conf);
    ghost var one;
    LandscaperHeadParts(conf);
    OntoNothing(done, first);
    ok, one := CreateOrUpdate(api, NamespaceKey(Workload, conf.Ns()), NamespaceObject, g, done, first, done);
    more := one;
    OntoFirst(done, one, first, copies);
    if !ok { return None, more; }
    refs, more := SyncLandscaper(api, conf, g, one);
    OntoThen(done, one, more, first, copies);
  }

  /** The Secrets and the Services of the landscaper. */
  method PrepareLandscaper(api: Server, conf: Configuration, kcs: Kubeconfigs, checks: seq<Name>, refs: Refs,
                           ghost g: Start,
                           ghost done: seq<Op>)
    returns (ok: bool, ghost more: seq<Op>)
    requires api.Valid() && InstallGuard(api.mark, conf.Ns()) && Progress(api, g, done)
    requires checks == HealthChecks() && WebhooksServiceName(conf.webhooksValues) == Plain(DNS_SERVICE_NAME)
    requires AllRefs(conf, refs) && RefsStored(api.world.objects, conf.Ns(), refs)
    modifies api
    ensures api.Grown() && Progress(api, g, more)
      && Onto(done, more, LandscaperSecrets(conf, kcs) + LandscaperServices(conf))
    ensures ok ==> |more| == |done| + 6 && Staged(api.world.objects, conf, refs)
    ensures old(api.Calm()) ==> ok
  {
    ghost var one;
    ok, one := PutSecrets(api, conf, kcs, checks, g, done);
    more := one;
    OntoFirst(done, one, LandscaperSecrets(conf, kcs), LandscaperServices(conf));
    if !ok { return; }
    ok, more := PutServices(api, conf, g, one);
    OntoThen(done, one, more, LandscaperSecrets(conf, kcs), LandscaperServices(conf));
  }

  /** The Deployments and the HPAs of the landscaper. */
  method PutWorkloads(api: Server, conf: Configuration, refs: Refs, ghost g: Start, ghost done: seq<Op>)
    returns (ok: bool, ghost more: seq<Op>)
    requires api.Valid() && InstallGuard(api.mark, conf.Ns()) && Progress(api, g, done)
    requires Staged(api.world.objects, conf, refs)
    modifies api
    ensures api.Grown() && Progress(api, g, more)
    ensures Onto(done, more, LandscaperDeployments(conf) + LandscaperHpas(conf))
    ensures (ok ==> |more| == |done| + 6) && (old(api.Calm()) ==> ok)
  {
    ghost var one;
    ok, one := PutDeployments(api, conf, refs, g, done);
    more := one;
    OntoFirst(done, one, LandscaperDeployments(conf), LandscaperHpas(conf));
    if !ok { return; }
    ok, more := PutHpas(api, conf, g, one);
    OntoThen(done, one, more, LandscaperDeployments(conf), LandscaperHpas(conf));
  }

  lemma LandscaperTailParts(conf: Configuration, kcs: Kubeconfigs)
    ensures LandscaperTail(conf, kcs) ==
      (LandscaperSecrets(conf, kcs) + LandscaperServices(conf)) + (LandscaperDeployments(conf) + LandscaperHpas(conf))
  {}

  /** Everything else the landscaper consists of. */
  method FinishLandscaper(api: Server, conf: Configuration, kcs: Kubeconfigs, checks: seq<Name>, refs: Refs,
                          ghost g: Start, ghost done: seq<Op>)
    returns (ok: bool, ghost more: seq<Op>)
    requires api.Valid() && InstallGuard(api.mark, conf.Ns()) && Progress(api, g, done)
    requires checks == HealthChecks() && WebhooksServiceName(conf.webhooksValues) == Plain(DNS_SERVICE_NAME)
    requires AllRefs(conf, refs) && RefsStored(api.world.objects, conf.Ns(), refs)
    modifies api
    ensures api.Grown() && Progress(api, g, more) && Onto(done, more, LandscaperTail(conf, kcs))
    ensures (ok ==> |more| == |done| + |LandscaperTail(conf, kcs)|) && (old(api.Calm()) ==> ok)
  {
    ghost var a := LandscaperSecrets(conf, kcs) + LandscaperServices(conf);
    ghost var b := LandscaperDeployments(conf) + LandscaperHpas(conf);
    ghost var one;
    LandscaperTailParts(conf, kcs);
    ok, one := PrepareLandscaper(api, conf, kcs, checks, refs, g, done);
    more := one;
    OntoFirst(done, one, a, b);
    if !ok { return; }
    ok, more := PutWorkloads(api, conf, refs, g, one);
    OntoThen(done, one, more, a, b);
  }

  method InstallLandscaper(api: Server, conf: Configuration, kcs: Kubeconfigs, checks: seq<Name>,
                           ghost g: Start, ghost done: seq<Op>)
    returns (ok: bool, ghost more: seq<Op>)
    requires api.Valid() && InstallGuard(api.mark, conf.Ns()) && Progress(api, g, done)
    requires checks == HealthChecks() && WebhooksServiceName(conf.webhooksValues) == Plain(DNS_SERVICE_NAME)
    modifies api
    ensures api.Grown() && Progress(api, g, more) && Onto(done, more, LandscaperShape(conf, kcs))
    ensures ok ==> |more| == |done| + |LandscaperShape(conf, kcs)|
    ensures old(api.Calm()) ==> (ok <==> LandscaperPresent(old(api.world).platform, conf))
  {
    ghost var head, tail := LandscaperHead(conf, Unread(conf)), LandscaperTail(conf, kcs);
    ghost var one;
    var refs;
    refs, one := BeginLandscaper(api, conf, g, done);
    more := one;
    OntoFirst(done, one, head, tail);
    if refs.None? { return false, more; }
    ok, more := FinishLandscaper(api, conf, kcs, checks, refs.value, g, one);
    OntoThen(done, one, more, head, tail);
  }

  // ---------------------------------------------------------------- instances

  /**
   InstallLandscaperInstance: the RBAC namespace, the manifest deployer, the helm deployer, the
   landscaper. The operations that took effect are the first ones of the plan.
   */
  method InstallInstance(api: Server, conf: Configuration) returns (ok: bool, ghost done: seq<Op>)
    requires api.Valid() && InstallGuard(api.mark, conf.Ns())
    requires WebhooksServiceName(conf.webhooksValues) == Plain(DNS_SERVICE_NAME)
    modifies api
    ensures api.Grown() && Progress(api, old(Begin(api)), done)
    ensures Like(done, InstallShape(conf, api.kubeconfigs))
    ensures ok ==> |done| == |InstallShape(conf, api.kubeconfigs)|
    ensures old(api.Calm()) ==>
      (ok <==> DeployersPresent(old(api.world).platform, conf) && LandscaperPresent(old(api.world).platform, conf))
  {
    ghost var g := Begin(api);
    done := [];
    var kcs := api.GetKubeconfigs();
    if kcs.Error? { return false, done; }
    ok, done := InstallParts(api, conf, kcs.value, g, []);
    InstallShapeParts(conf, kcs.value);
  }

  /** InstallLandscaperRBACResources: the namespace on the MCP cluster. */
  method InstallRbac(api: Server, conf: Configuration, ghost g: Start, ghost done: seq<Op>)
    returns (ok: bool, ghost more: seq<Op>)
    requires api.Valid() && InstallGuard(api.mark, conf.Ns()) && Progress(api, g, done)
    modifies api
    ensures api.Grown() && Progress(api, g, more) && Onto(done, more, RbacShape(conf))
    ensures (ok ==> |more| == |done| + 1) && (old(api.Calm()) ==> ok)
  {
    OntoNothing(done, RbacShape(conf));
    ok, more := CreateOrUpdate(api, NamespaceKey(Mcp, conf.Ns()), NamespaceObject, g, done, RbacShape(conf), done);
  }

  /** The manifest deployer, then the helm deployer; the names of both Deployments are returned. */
  method InstallDeployers(api: Server, conf: Configuration, kcs: Kubeconfigs, ghost g: Start,
                          ghost done: seq<Op>)
    returns (exports: Option<seq<Name>>, ghost more: seq<Op>)
    requires api.Valid() && InstallGuard(api.mark, conf.Ns()) && Progress(api, g, done)
    modifies api
    ensures api.Grown() && Progress(api, g, more)
    ensures Onto(done, more, DeployersShape(conf, kcs))
    ensures exports.Some? ==>
      exports.value == HealthChecks() && |more| == |done| + |DeployersShape(conf, kcs)|
    ensures old(api.Calm()) ==> (exports.Some? <==> DeployersPresent(old(api.world).platform, conf))
  {
    ghost var m, h := DeployerShape(conf, Manifest, kcs), DeployerShape(conf, Helm, kcs);
    ghost var one;
    var manifest, helm;
    manifest, one := InstallDeployer(api, conf, Manifest, kcs, g, done);
    more := one;
    OntoFirst(done, one, m, h);
    if manifest.None? { return None, more; }
    helm, more := InstallDeployer(api, conf, Helm, kcs, g, one);
    OntoThen(done, one, more, m, h);
    exports := if helm.Some? then Some([manifest.value, helm.value]) else None;
  }

  function DeployersShape(conf: Configuration, kcs: Kubeconfigs): seq<Op> {
    DeployerShape(conf, Manifest, kcs) + DeployerShape(conf, Helm, kcs)
  }

  function RbacShape(conf: Configuration): seq<Op> { [PutNamespace(Mcp, conf.Ns())] }

  lemma InstallShapeParts(conf: Configuration, kcs: Kubeconfigs)
    ensures InstallShape(conf, kcs) == RbacShape(conf) + DeployersShape(conf, kcs) + LandscaperShape(conf, kcs)
  {}

  /** Everything the landscaper itself builds on. */
  method InstallBase(api: Server, conf: Configuration, kcs: Kubeconfigs, ghost g: Start,
                     ghost done: seq<Op>)
    returns (exports: Option<seq<Name>>, ghost more: seq<Op>)
    requires api.Valid() && InstallGuard(api.mark, conf.Ns()) && Progress(api, g, done)
    modifies api
    ensures api.Grown() && Progress(api, g, more) && Onto(done, more, RbacShape(conf) + DeployersShape(conf, kcs))
    ensures exports.Some? ==>
      exports.value == HealthChecks() && |more| == |done| + |RbacShape(conf) + DeployersShape(conf, kcs)|
    ensures old(api.Calm()) ==> (exports.Some? <==> DeployersPresent(old(api.world).platform, conf))
  {
    ghost var r, d := RbacShape(conf), DeployersShape(conf, kcs);
    ghost var one;
    var ok;
    ok, one := InstallRbac(api, conf, g, done);
    more := one;
    OntoFirst(done, one, r, d);
    if !ok { return None, more; }
    exports, more := InstallDeployers(api, conf, kcs, g, one);
    OntoThen(done, one, more, r, d);
  }

  method InstallParts(api: Server, conf: Configuration, kcs: Kubeconfigs, ghost g: Start,
                      ghost done: seq<Op>)
    returns (ok: bool, ghost more: seq<Op>)
    requires api.Valid() && InstallGuard(api.mark, conf.Ns())
    requires WebhooksServiceName(conf.webhooksValues) == Plain(DNS_SERVICE_NAME)
    requires Progress(api, g, done)
    modifies api
    ensures api.Grown() && Progress(api, g, more)
    ensures Onto(done, more, RbacShape(conf) + DeployersShape(conf, kcs) + LandscaperShape(conf, kcs))
    ensures ok ==> |more| == |done| + |RbacShape(conf) + DeployersShape(conf, kcs) + LandscaperShape(conf, kcs)|
    ensures old(api.Calm()) ==>
      (ok <==> DeployersPresent(old(api.world).platform, conf) && LandscaperPresent(old(api.world).platform, conf))
  {
    ghost var base, l := RbacShape(conf) + DeployersShape(conf, kcs), LandscaperShape(conf, kcs);
    ghost var one;
    var exports;
    exports, one := InstallBase(api, conf, kcs, g, done);
    more := one;
    OntoFirst(done, one, base, l);
    if exports.None? { return false, more; }
    ok, more := InstallLandscaper(api, conf, kcs, exports.value, g, one);
    OntoThen(done, one, more, base, l);
  }
}
