/**
 The copy of the CA bundle and the Deployments that mount it. A delete run removes the copy first;
 this is when that leaves a Deployment without it.
 */
module CaBundle {
  import opened Wrappers
  import opened Identity
  import opened Store
  import opened Plans
  import opened Platform
  import opened Api
  import opened Records
  import opened Dns
  import opened Installation

  predicate MountsCa(o: Object, name: string) {
    o.DeploymentObject? && o.pod.ca.Some? && o.pod.ca.value.name == name
  }

  /** Every Deployment that mounts a CA bundle finds it. */
  ghost predicate CaIntact(s: Objects) {
    forall k, name :: k in s && MountsCa(s[k], name) ==> ConfigMapKey(k.ns, name) in s
  }

  /** Some Deployment in the namespace mounts the CA bundle. */
  ghost predicate CaMounted(s: Objects, ns: string, ca: Option<CaRef>) {
    ca.Some? && exists k :: k in s && k.ns == ns && MountsCa(s[k], ca.value.name)
  }

  // ---------------------------------------------------------------- what a delete run removes

  function CaDels(ns: string, ca: Option<CaRef>): seq<Op> {
    if ca.Some? then [Del(ConfigMapKey(ns, ca.value.name))] else []
  }

  /** How far a delete run has got: the route, the copy of the CA bundle, n deletes of an uninstall plan. */
  datatype Removal = Removal(route: bool, ca: bool, n: nat, m: nat)

  predicate Fits(d: Removal, conf: Configuration, hash: NameHash) {
    d.m <= |conf.Sources(Helm)| && d.n <= |UninstallPlan(conf, hash, d.m)|
  }

  /** The route and the copy of the CA bundle. */
  function RemovalStart(d: Removal, ns: string, ca: Option<CaRef>): seq<Op> {
    (if d.route then [Del(TlsRouteKey(ns))] else []) + (if d.ca then CaDels(ns, ca) else [])
  }

  /** Its operations, in their order. */
  function RemovalOps(d: Removal, conf: Configuration, ca: Option<CaRef>, hash: NameHash): seq<Op>
    requires Fits(d, conf, hash)
  {
    RemovalStart(d, conf.Ns(), ca) + UninstallPlan(conf, hash, d.m)[..d.n]
  }

  /** Operations on record, and their effect, one part after the other. */
  lemma Consecutive(s: Objects, b: seq<Op>, x: seq<Op>, y: seq<Op>)
    ensures b + x + y == b + (x + y) && Apply(Apply(s, x), y) == Apply(s, x + y)
  {
    InOrder(b, x, y);
    ApplyConcat(s, x, y);
  }

  lemma InOrder<T>(a: seq<T>, b: seq<T>, c: seq<T>)
    ensures a + b + c == a + (b + c)
  {}

  lemma ThenUninstalled(s: Objects, b: seq<Op>, d: Removal, conf: Configuration, ca: Option<CaRef>, hash: NameHash,
                        n: nat, m: nat)
    requires Fits(Removal(d.route, d.ca, n, m), conf, hash)
    ensures
      var x, y := RemovalStart(d, conf.Ns(), ca), UninstallPlan(conf, hash, m)[..n];
      var ops := RemovalOps(Removal(d.route, d.ca, n, m), conf, ca, hash);
      b + x + y == b + ops && Apply(Apply(s, x), y) == Apply(s, ops)
  {
    Consecutive(s, b, RemovalStart(d, conf.Ns(), ca), UninstallPlan(conf, hash, m)[..n]);
  }

  lemma OnlyStarted(d: Removal, conf: Configuration, ca: Option<CaRef>, hash: NameHash)
    requires d.n == 0 && Fits(d, conf, hash)
    ensures RemovalOps(d, conf, ca, hash) == RemovalStart(d, conf.Ns(), ca)
  {
    assert UninstallPlan(conf, hash, d.m)[..0] == [];
  }

  lemma PrefixRemoves(plan: seq<Op>, n: nat, k: Key)
    requires Removals(plan) && n <= |plan|
    ensures Removals(plan[..n]) && (Removes(plan[..n], k) ==> Removes(plan, k))
  {
    if i :| 0 <= i < |plan[..n]| && Touches(plan[..n][i], k) { assert Touches(plan[i], k); }
  }

  lemma PartRemoves(conf: Configuration, hash: NameHash, m: nat, n: nat, k: Key)
    requires m <= |conf.Sources(Helm)| && n <= |UninstallPlan(conf, hash, m)|
    ensures Removals(UninstallPlan(conf, hash, m)[..n])
    ensures k.kind == ConfigMap ==> !Removes(UninstallPlan(conf, hash, m)[..n], k)
  {
    UninstallRemoves(conf, hash, m, k);
    PrefixRemoves(UninstallPlan(conf, hash, m), n, k);
  }

  lemma StartRemoves(d: Removal, ns: string, ca: Option<CaRef>, k: Key)
    ensures Removals(RemovalStart(d, ns, ca))
    ensures k.kind == ConfigMap ==>
      (Removes(RemovalStart(d, ns, ca), k) <==> d.ca && ca.Some? && k == ConfigMapKey(ns, ca.value.name))
  {
    var a, b := if d.route then [Del(TlsRouteKey(ns))] else [], if d.ca then CaDels(ns, ca) else [];
    RemovesConcat(a, b, k);
    if d.ca && ca.Some? { assert b[0] == Del(ConfigMapKey(ns, ca.value.name)); }
  }

  lemma RemovalOpsRemove(d: Removal, conf: Configuration, ca: Option<CaRef>, hash: NameHash, k: Key)
    requires Fits(d, conf, hash)
    ensures Removals(RemovalOps(d, conf, ca, hash))
    ensures k.kind == ConfigMap ==>
      (Removes(RemovalOps(d, conf, ca, hash), k) <==> d.ca && ca.Some? && k == ConfigMapKey(conf.Ns(), ca.value.name))
  {
    StartRemoves(d, conf.Ns(), ca, k);
    PartRemoves(conf, hash, d.m, d.n, k);
    RemovesConcat(RemovalStart(d, conf.Ns(), ca), UninstallPlan(conf, hash, d.m)[..d.n], k);
  }

  /** Deletes that leave the ConfigMaps alone which Deployments mount. */
  lemma RemovalsKeepCa(s: Objects, ops: seq<Op>)
    requires Removals(ops) && CaIntact(s)
    requires forall k, name :: k in s && MountsCa(s[k], name) ==> !Removes(ops, ConfigMapKey(k.ns, name))
    ensures CaIntact(Apply(s, ops))
  {
    var t := Apply(s, ops);
    forall k, name | k in t && MountsCa(t[k], name) ensures ConfigMapKey(k.ns, name) in t {
      RemovalResult(s, ops, k);
      RemovalResult(s, ops, ConfigMapKey(k.ns, name));
    }
  }

  /** So does a first part of a delete run that finds its copy unused, or does not remove it. */
  lemma PartIntact(s: Objects, d: Removal, conf: Configuration, ca: Option<CaRef>, hash: NameHash, n: nat)
    requires Fits(d, conf, hash) && n <= |RemovalOps(d, conf, ca, hash)| && CaIntact(s)
    requires !(d.ca && CaMounted(s, conf.Ns(), ca))
    ensures CaIntact(Apply(s, RemovalOps(d, conf, ca, hash)[..n]))
  {
    var ops := RemovalOps(d, conf, ca, hash);
    forall k, name | k in s && MountsCa(s[k], name) ensures !Removes(ops[..n], ConfigMapKey(k.ns, name)) {
      RemovalOpsRemove(d, conf, ca, hash, ConfigMapKey(k.ns, name));
      PrefixRemoves(ops, n, ConfigMapKey(k.ns, name));
    }
    RemovalOpsRemove(d, conf, ca, hash, NamespaceKey(Workload, ""));
    PrefixRemoves(ops, n, NamespaceKey(Workload, ""));
    RemovalsKeepCa(s, ops[..n]);
  }

  lemma MountedBroken(s: Objects, d: Removal, conf: Configuration, ca: Option<CaRef>, hash: NameHash)
    requires Fits(d, conf, hash) && CaIntact(s) && Typed(s) && d.ca && CaMounted(s, conf.Ns(), ca)
    ensures exists n ::
      0 <= n <= |RemovalOps(d, conf, ca, hash)| && !CaIntact(Apply(s, RemovalOps(d, conf, ca, hash)[..n]))
  {
    var a, c := RemovalStart(d, conf.Ns(), ca), ConfigMapKey(conf.Ns(), ca.value.name);
    assert RemovalOps(d, conf, ca, hash)[..|a|] == a;
    var k :| k in s && k.ns == conf.Ns() && MountsCa(s[k], ca.value.name);
    RemovalResult(s, a, k);
    RemovalResult(s, a, c);
    StartRemoves(d, conf.Ns(), ca, c);
    var t := Apply(s, a);
    assert k in t && MountsCa(t[k], ca.value.name) && ConfigMapKey(k.ns, ca.value.name) !in t;
  }

  /**
   A delete run that has removed the copy leaves a Deployment without its CA bundle at some point
   if and only if a Deployment mounted it at the start, and a run that has not never does.
   */
  lemma CaRemovedFirst(s: Objects, d: Removal, conf: Configuration, ca: Option<CaRef>, hash: NameHash)
    requires Fits(d, conf, hash) && CaIntact(s) && Typed(s)
    ensures
      var ops := RemovalOps(d, conf, ca, hash);
      (exists n :: 0 <= n <= |ops| && !CaIntact(Apply(s, ops[..n]))) <==> d.ca && CaMounted(s, conf.Ns(), ca)
  {
    var ops := RemovalOps(d, conf, ca, hash);
    if d.ca && CaMounted(s, conf.Ns(), ca) {
      MountedBroken(s, d, conf, ca, hash);
    } else {
      forall n | 0 <= n <= |ops| ensures CaIntact(Apply(s, ops[..n])) { PartIntact(s, d, conf, ca, hash, n); }
    }
  }

  /** Whether the copy has gone can be seen at the end. */
  lemma CopyGone(s: Objects, d: Removal, conf: Configuration, ca: Option<CaRef>, hash: NameHash)
    requires Fits(d, conf, hash) && ca.Some? && ConfigMapKey(conf.Ns(), ca.value.name) in s
    ensures ConfigMapKey(conf.Ns(), ca.value.name) in Apply(s, RemovalOps(d, conf, ca, hash)) <==> !d.ca
  {
    RemovalOpsRemove(d, conf, ca, hash, ConfigMapKey(conf.Ns(), ca.value.name));
    RemovalResult(s, RemovalOps(d, conf, ca, hash), ConfigMapKey(conf.Ns(), ca.value.name));
  }

  /** From position i on, the trace passes through a world in which a Deployment misses its CA bundle. */
  ghost predicate CaBroken(t: seq<Snap>, i: nat) {
    exists j :: i <= j < |t| && !CaIntact(t[j].world.objects)
  }

  lemma BrokenAfterPart(t: seq<Snap>, i: nat, ops: seq<Op>)
    requires Legal(t) && i < |t| && Ops(t) == Until(t, i) + ops && CaBroken(t, i)
    ensures exists n :: 0 <= n <= |ops| && !CaIntact(Apply(t[i].world.objects, ops[..n]))
  {
    var j :| i <= j < |t| && !CaIntact(t[j].world.objects);
    PartDone(t, i, j, ops);
  }

  lemma BrokenAt(t: seq<Snap>, i: nat, ops: seq<Op>, n: nat)
    requires Legal(t) && i < |t| && Ops(t) == Until(t, i) + ops
    requires n <= |ops| && !CaIntact(Apply(t[i].world.objects, ops[..n]))
    ensures CaBroken(t, i)
  {
    var j := Reached(t, i, ops, n);
  }

  /** The same of the worlds that a delete run passes through. */
  lemma CaBrokenIff(t: seq<Snap>, i: nat, d: Removal, conf: Configuration, ca: Option<CaRef>, hash: NameHash)
    requires Legal(t) && i < |t| && Fits(d, conf, hash) && Ops(t) == Until(t, i) + RemovalOps(d, conf, ca, hash)
    requires CaIntact(t[i].world.objects) && Typed(t[i].world.objects)
    requires t[|t| - 1].world.objects == Apply(t[i].world.objects, RemovalOps(d, conf, ca, hash))
    ensures CaBroken(t, i) <==>
      CaMounted(t[i].world.objects, conf.Ns(), ca)
        && ConfigMapKey(conf.Ns(), ca.value.name) !in t[|t| - 1].world.objects
  {
    var s := t[i].world.objects;
    var ops := RemovalOps(d, conf, ca, hash);
    if CaBroken(t, i) { BrokenAfterPart(t, i, ops); }
    if n :| 0 <= n <= |ops| && !CaIntact(Apply(s, ops[..n])) { BrokenAt(t, i, ops, n); }
    CaRemovedFirst(s, d, conf, ca, hash);
    if CaMounted(s, conf.Ns(), ca) { CopyGone(s, d, conf, ca, hash); }
  }
}
