/**
 The objects an instance consists of, stored by key, and the three operations by which
 the installers change the workload cluster and the MCP cluster.
 */
module Store {
  import opened Wrappers
  import opened Identity

  datatype Cluster = Workload | Mcp
  datatype Kind = NamespaceKind | Secret | ConfigMap | Service | Hpa | Deployment | Route
  datatype Key = Key(cluster: Cluster, kind: Kind, ns: string, name: Name)

  /** Secret contents; the marshalled configurations are kept symbolic. */
  datatype Data =
    | Content(bytes: string)
    | Kubeconfig(text: string)
    | DeployerConfig(c: Component, instance: string)
    | LandscaperConfig(instance: string, deployments: seq<Name>)

  datatype CaRef = CaRef(name: string, key: string)

  datatype Url = Url(host: string, port: nat)

  /** The arguments of the webhooks server; those of the other containers are not modelled. */
  datatype Arg = CertNamespace(ns: string) | WebhookUrl(url: Url) | Verbosity(level: string) | Port(port: nat)

  datatype GatewayRef = GatewayRef(name: string, ns: string)

  datatype TargetPort = Number(n: nat) | Text(text: string)

  /** Where a container image comes from; the path of a component below the repository is fixed. */
  datatype Image =
    | Overridden(image: string, version: string)
    | Located(repository: string, c: Component, version: string)

  datatype PodSpec = PodSpec(
    image: Image,
    args: seq<Arg>,
    secrets: seq<Name>,       // Secrets mounted as volumes
    pullSecrets: seq<Name>,
    ca: Option<CaRef>)        // ConfigMap mounted as the CA bundle

  datatype Object =
    | NamespaceObject
    | SecretObject(data: Data)
    | ConfigMapObject(data: Data)
    | ServiceObject(port: nat, target: TargetPort, selector: Labels)
    | HpaObject(scales: Name)
    | DeploymentObject(selector: Labels, template: Labels, pod: PodSpec)
    | RouteObject(host: string, parent: GatewayRef, backend: Name, backendPort: nat)

  type Objects = map<Key, Object>

  function NamespaceKey(cluster: Cluster, ns: string): Key { Key(cluster, NamespaceKind, ns, Itself) }
  function SecretKey(ns: string, n: Name): Key { Key(Workload, Secret, ns, n) }
  function DeploymentKey(ns: string, c: Component): Key { Key(Workload, Deployment, ns, Default(c)) }
  function HpaKey(ns: string, c: Component): Key { Key(Workload, Hpa, ns, Default(c)) }
  function ServiceKey(ns: string, n: Name): Key { Key(Workload, Service, ns, n) }
  function RouteKey(ns: string, n: Name): Key { Key(Workload, Route, ns, n) }
  function ConfigMapKey(ns: string, n: string): Key { Key(Workload, ConfigMap, ns, Plain(n)) }

  /**
   An upsert, a delete that tolerates absence, and the delete of the Secret with a given
   text for a name, whichever Secret of the namespace that is.
   */
  datatype Op =
    | Put(key: Key, obj: Object)
    | Del(key: Key)
    | DelNamed(ns: string, text: string, hash: NameHash)

  predicate Named(op: Op, k: Key)
    requires op.DelNamed?
  {
    k.cluster == Workload && k.kind == Secret && k.ns == op.ns && Render(op.hash, k.name) == op.text
  }

  function Do(s: Objects, op: Op): Objects {
    match op
    case Put(k, o) => s[k := o]
    case Del(k) => s - {k}
    case DelNamed(_, _, _) => map k | k in s && !Named(op, k) :: s[k]
  }

  function Apply(s: Objects, ops: seq<Op>): Objects {
    if ops == [] then s else Do(Apply(s, ops[..|ops| - 1]), ops[|ops| - 1])
  }

  lemma {:induction false} ApplyConcat(s: Objects, a: seq<Op>, b: seq<Op>)
    ensures Apply(s, a + b) == Apply(Apply(s, a), b)
    decreases b
  {
    if b == [] {
      assert a + b == a;
    } else {
      assert (a + b)[..|a + b| - 1] == a + b[..|b| - 1];
      ApplyConcat(s, a, b[..|b| - 1]);
    }
  }

  /** Whether an operation writes or removes the object at k, given nothing but the key. */
  predicate Touches(op: Op, k: Key) {
    if op.DelNamed? then Named(op, k) else op.key == k
  }

  /** The namespace an operation works in. */
  function Area(op: Op): string {
    if op.DelNamed? then op.ns else op.key.ns
  }

  /** A plan leaves every object alone that none of its operations touches. */
  lemma {:induction false} Frame(s: Objects, ops: seq<Op>, k: Key)
    requires forall i :: 0 <= i < |ops| ==> !Touches(ops[i], k)
    ensures k in Apply(s, ops) <==> k in s
    ensures k in s ==> Apply(s, ops)[k] == s[k]
  {
    if ops != [] {
      var init := ops[..|ops| - 1];
      assert forall i :: 0 <= i < |init| ==> init[i] == ops[i];
      Frame(s, init, k);
    }
  }

  /** A plan whose operations all work in one namespace changes nothing outside it. */
  lemma FrameArea(s: Objects, ops: seq<Op>, ns: string, k: Key)
    requires forall i :: 0 <= i < |ops| ==> Area(ops[i]) == ns
    requires k.ns != ns
    ensures k in Apply(s, ops) <==> k in s
    ensures k in s ==> Apply(s, ops)[k] == s[k]
  {
    Frame(s, ops, k);
  }

  // ---------------------------------------------------------------- upserts only

  predicate Upserts(ops: seq<Op>) {
    forall i :: 0 <= i < |ops| ==> ops[i].Put?
  }

  /** No later upsert overwrites an earlier one with something else. */
  ghost predicate Consistent(ops: seq<Op>)
    requires Upserts(ops)
  {
    forall i, j :: 0 <= i < |ops| && 0 <= j < |ops| && ops[i].key == ops[j].key ==> ops[i].obj == ops[j].obj
  }

  ghost predicate Writes(ops: seq<Op>, k: Key)
    requires Upserts(ops)
  {
    exists i :: 0 <= i < |ops| && ops[i].key == k
  }

  lemma {:induction false} UpsertPresent(s: Objects, ops: seq<Op>, k: Key)
    requires Upserts(ops)
    ensures k in Apply(s, ops) <==> k in s || Writes(ops, k)
  {
    if ops != [] {
      var init, n := ops[..|ops| - 1], |ops| - 1;
      assert forall i :: 0 <= i < n ==> init[i] == ops[i];
      UpsertPresent(s, init, k);
      if Writes(init, k) {
        var i :| 0 <= i < |init| && init[i].key == k;
        assert ops[i].key == k;
      }
      if Writes(ops, k) && ops[n].key != k {
        var i :| 0 <= i < |ops| && ops[i].key == k;
        assert init[i].key == k;
      }
    }
  }

  /** What a key holds is what one of the upserts has written there. */
  lemma {:induction false} LastWrite(s: Objects, ops: seq<Op>, k: Key)
    requires Upserts(ops) && Writes(ops, k)
    ensures k in Apply(s, ops) && exists i :: 0 <= i < |ops| && ops[i].key == k && Apply(s, ops)[k] == ops[i].obj
  {
    var init, n := ops[..|ops| - 1], |ops| - 1;
    assert forall j :: 0 <= j < n ==> init[j] == ops[j];
    if ops[n].key != k {
      var i :| 0 <= i < |ops| && ops[i].key == k;
      assert init[i].key == k;
      LastWrite(s, init, k);
      var j :| 0 <= j < n && init[j].key == k && Apply(s, init)[k] == init[j].obj;
      assert ops[j].key == k;
    }
  }

  /** What a plan leaves at a key it writes does not depend on the store it started from. */
  lemma {:induction false} WrittenAnyway(s: Objects, t: Objects, ops: seq<Op>, k: Key)
    requires Upserts(ops) && Writes(ops, k)
    ensures k in Apply(s, ops) && k in Apply(t, ops) && Apply(s, ops)[k] == Apply(t, ops)[k]
  {
    var init, n := ops[..|ops| - 1], |ops| - 1;
    if ops[n].key != k {
      var i :| 0 <= i < |ops| && ops[i].key == k;
      assert init[i].key == k;
      WrittenAnyway(s, t, init, k);
    }
  }

  /** After a consistent plan every key it names holds exactly what the plan wants there. */
  lemma {:induction false} UpsertValue(s: Objects, ops: seq<Op>, i: nat)
    requires Upserts(ops) && Consistent(ops) && i < |ops|
    ensures ops[i].key in Apply(s, ops) && Apply(s, ops)[ops[i].key] == ops[i].obj
  {
    var init, n := ops[..|ops| - 1], |ops| - 1;
    assert forall j :: 0 <= j < n ==> init[j] == ops[j];
    if ops[n].key == ops[i].key {
      assert ops[n].obj == ops[i].obj;
    } else {
      UpsertValue(s, init, i);
      assert init[i] == ops[i];
    }
  }

  /**
   Convergence: the outcome of a consistent plan depends on the starting store only outside
   the keys of the plan.
   */
  lemma Converges(s: Objects, t: Objects, ops: seq<Op>)
    requires Upserts(ops) && Consistent(ops)
    requires forall k :: !Writes(ops, k) ==> (k in s <==> k in t) && (k in s ==> s[k] == t[k])
    ensures Apply(s, ops) == Apply(t, ops)
  {
    var a, b := Apply(s, ops), Apply(t, ops);
    forall k
      ensures k in a <==> k in b
      ensures k in a ==> a[k] == b[k]
    {
      UpsertPresent(s, ops, k); UpsertPresent(t, ops, k);
      if Writes(ops, k) {
        var i :| 0 <= i < |ops| && ops[i].key == k;
        UpsertValue(s, ops, i); UpsertValue(t, ops, i);
      } else {
        Frame(s, ops, k); Frame(t, ops, k);
      }
    }
  }

  /** What a prefix of a plan has done is done again, so a plan converges from its own failures. */
  lemma ConvergesFromPrefix(s: Objects, ops: seq<Op>, n: nat)
    requires Upserts(ops) && Consistent(ops) && n <= |ops|
    ensures Apply(Apply(s, ops[..n]), ops) == Apply(s, ops)
  {
    var t := Apply(s, ops[..n]);
    forall k | !Writes(ops, k)
      ensures (k in s <==> k in t) && (k in s ==> s[k] == t[k])
    {
      assert forall i :: 0 <= i < n ==> !Touches(ops[..n][i], k);
      Frame(s, ops[..n], k);
    }
    Converges(s, t, ops);
  }

  // ---------------------------------------------------------------- deletes only

  predicate Removals(ops: seq<Op>) {
    forall i :: 0 <= i < |ops| ==> !ops[i].Put?
  }

  ghost predicate Removes(ops: seq<Op>, k: Key) {
    exists i :: 0 <= i < |ops| && Touches(ops[i], k)
  }

  /** A plan of deletes removes exactly the objects its operations touch. */
  lemma {:induction false} RemovalResult(s: Objects, ops: seq<Op>, k: Key)
    requires Removals(ops)
    ensures k in Apply(s, ops) <==> k in s && !Removes(ops, k)
    ensures k in Apply(s, ops) ==> Apply(s, ops)[k] == s[k]
  {
    if ops != [] {
      var init, n := ops[..|ops| - 1], |ops| - 1;
      assert forall i :: 0 <= i < n ==> init[i] == ops[i];
      RemovalResult(s, init, k);
      if Removes(init, k) {
        var i :| 0 <= i < |init| && Touches(init[i], k);
        assert Touches(ops[i], k);
      }
      if Removes(ops, k) && !Touches(ops[n], k) {
        var i :| 0 <= i < |ops| && Touches(ops[i], k);
        assert Touches(init[i], k);
      }
    }
  }

  // ---------------------------------------------------------------- referential integrity

  predicate SecretRef(o: Object, n: Name) {
    o.DeploymentObject? && (n in o.pod.secrets || n in o.pod.pullSecrets)
  }

  /** Every Deployment mounts only Secrets, and names only pull secrets, that exist beside it. */
  ghost predicate Integrity(s: Objects) {
    forall k, n :: k in s && SecretRef(s[k], n) ==> SecretKey(k.ns, n) in s
  }

  /** Deployment objects are stored under keys of their kind. */
  ghost predicate Typed(s: Objects) {
    forall k :: k in s && s[k].DeploymentObject? ==> k.kind == Deployment
  }

  /** A Deployment is stored after the Secrets it refers to, and a Secret is not deleted while one refers to it. */
  ghost predicate Orderly(s: Objects, op: Op) {
    match op
    case Put(k, o) => forall n :: SecretRef(o, n) ==> SecretKey(k.ns, n) in s
    case Del(r) => forall k, n :: k in s && SecretRef(s[k], n) ==> SecretKey(k.ns, n) != r
    case DelNamed(_, _, _) => true
  }

  /** The delete by name meets a Secret that is in use. */
  ghost predicate Clashes(s: Objects, op: Op) {
    op.DelNamed? && exists k, n :: k in s && SecretRef(s[k], n) && Named(op, SecretKey(k.ns, n))
  }

  /** Integrity is lost at an orderly operation if and only if that is a clashing delete by name. */
  lemma OrderlyKeepsIntegrity(s: Objects, op: Op)
    requires Integrity(s) && Typed(s) && Orderly(s, op)
    ensures Integrity(Do(s, op)) <==> !Clashes(s, op)
  {
    var t := Do(s, op);
    if Clashes(s, op) {
      var k, n :| k in s && SecretRef(s[k], n) && Named(op, SecretKey(k.ns, n));
      assert k in t && SecretRef(t[k], n) && SecretKey(k.ns, n) !in t;
    } else {
      forall k, n | k in t && SecretRef(t[k], n) ensures SecretKey(k.ns, n) in t {
        if !(op.Put? && k == op.key) { assert k in s && SecretKey(k.ns, n) in s; }
      }
    }
  }

  /** Each Deployment of the plan comes after the Secrets it refers to. */
  ghost predicate RefsFirst(ops: seq<Op>)
    requires Upserts(ops)
  {
    forall i, n :: 0 <= i < |ops| && SecretRef(ops[i].obj, n) ==>
      exists j :: 0 <= j < i && ops[j].key == SecretKey(ops[i].key.ns, n)
  }

  /** Upserts in that order keep integrity at every point where the plan may stop. */
  lemma {:induction false} UpsertsKeepIntegrity(s: Objects, ops: seq<Op>, n: nat)
    requires Upserts(ops) && RefsFirst(ops) && Integrity(s) && n <= |ops|
    ensures Integrity(Apply(s, ops[..n]))
  {
    if n > 0 {
      UpsertsKeepIntegrity(s, ops, n - 1);
      var before, after := Apply(s, ops[..n - 1]), Apply(s, ops[..n]);
      assert ops[..n][..n - 1] == ops[..n - 1];
      forall k, m | k in after && SecretRef(after[k], m)
        ensures SecretKey(k.ns, m) in after
      {
        if k == ops[n - 1].key {
          var j :| 0 <= j < n - 1 && ops[j].key == SecretKey(ops[n - 1].key.ns, m);
          UpsertPresent(s, ops[..n - 1], ops[j].key);
          assert ops[..n - 1][j].key == ops[j].key;
        }
      }
    }
  }

  lemma RefsFirstConcat(a: seq<Op>, b: seq<Op>)
    requires Upserts(a) && Upserts(b) && RefsFirst(a) && RefsFirst(b)
    ensures Upserts(a + b) && RefsFirst(a + b)
  {
    var c := a + b;
    forall i, n | 0 <= i < |c| && SecretRef(c[i].obj, n)
      ensures exists j :: 0 <= j < i && c[j].key == SecretKey(c[i].key.ns, n)
    {
      if i < |a| {
        assert c[i] == a[i];
        var j :| 0 <= j < i && a[j].key == SecretKey(a[i].key.ns, n);
        assert c[j] == a[j];
      } else {
        assert c[i] == b[i - |a|];
        var j :| 0 <= j < i - |a| && b[j].key == SecretKey(b[i - |a|].key.ns, n);
        assert c[|a| + j] == b[j];
      }
    }
  }

  /** The Secret n that the operation b[i] refers to is written by a, or earlier in b. */
  ghost predicate HasRef(a: seq<Op>, b: seq<Op>, i: nat, n: Name)
    requires Upserts(a) && Upserts(b) && i < |b|
  {
    Writes(a, SecretKey(b[i].key.ns, n)) || exists j :: 0 <= j < i && b[j].key == SecretKey(b[i].key.ns, n)
  }

  lemma RefsFirstAfter(a: seq<Op>, b: seq<Op>)
    requires Upserts(a) && Upserts(b)
    requires forall i :: 0 <= i < |a| ==> !a[i].obj.DeploymentObject?
    requires forall i, n :: 0 <= i < |b| && SecretRef(b[i].obj, n) ==> HasRef(a, b, i, n)
    ensures RefsFirst(a + b)
  {
    var c := a + b;
    forall i, n | 0 <= i < |c| && SecretRef(c[i].obj, n)
      ensures exists j :: 0 <= j < i && c[j].key == SecretKey(c[i].key.ns, n)
    {
      assert c[i] == b[i - |a|];
      if j :| 0 <= j < i - |a| && b[j].key == SecretKey(b[i - |a|].key.ns, n) {
        assert c[|a| + j] == b[j];
      } else {
        var j :| 0 <= j < |a| && a[j].key == SecretKey(b[i - |a|].key.ns, n);
        assert c[j] == a[j];
      }
    }
  }

  /** A Secret goes only after every Deployment of the store that refers to it. */
  ghost predicate RefsLast(s: Objects, ops: seq<Op>) {
    forall i, k, n :: 0 <= i < |ops| && k in s && SecretRef(s[k], n) && Touches(ops[i], SecretKey(k.ns, n)) ==>
      exists j :: 0 <= j < i && Touches(ops[j], k)
  }

  /** The order can be checked segment by segment, each on what the segments before it have left. */
  lemma RefsLastConcat(s: Objects, a: seq<Op>, b: seq<Op>)
    requires Removals(a) && Removals(b)
    ensures RefsLast(s, a + b) <==> RefsLast(s, a) && RefsLast(Apply(s, a), b)
  {
    var c, t := a + b, Apply(s, a);
    forall k
      ensures k in t <==> k in s && !Removes(a, k)
      ensures k in t ==> t[k] == s[k]
    {
      RemovalResult(s, a, k);
    }
    if RefsLast(s, c) {
      forall i, k, n | 0 <= i < |a| && k in s && SecretRef(s[k], n) && Touches(a[i], SecretKey(k.ns, n))
        ensures exists j :: 0 <= j < i && Touches(a[j], k)
      {
        assert c[i] == a[i];
        var j :| 0 <= j < i && Touches(c[j], k);
        assert c[j] == a[j];
      }
      forall i, k, n | 0 <= i < |b| && k in t && SecretRef(t[k], n) && Touches(b[i], SecretKey(k.ns, n))
        ensures exists j :: 0 <= j < i && Touches(b[j], k)
      {
        assert c[|a| + i] == b[i];
        var j :| 0 <= j < |a| + i && Touches(c[j], k);
        assert forall q :: 0 <= q < |a| ==> Touches(a[q], k) == Touches(c[q], k);
        assert c[j] == b[j - |a|];
      }
    }
    if RefsLast(s, a) && RefsLast(t, b) {
      forall i, k, n | 0 <= i < |c| && k in s && SecretRef(s[k], n) && Touches(c[i], SecretKey(k.ns, n))
        ensures exists j :: 0 <= j < i && Touches(c[j], k)
      {
        if i < |a| {
          assert c[i] == a[i];
          var j :| 0 <= j < i && Touches(a[j], k);
          assert Touches(c[j], k);
        } else if Removes(a, k) {
          var j :| 0 <= j < |a| && Touches(a[j], k);
          assert Touches(c[j], k);
        } else {
          assert c[i] == b[i - |a|];
          var j :| 0 <= j < i - |a| && Touches(b[j], k);
          assert Touches(c[|a| + j], k);
        }
      }
    }
  }

  lemma RemovalsKeepIntegrity(s: Objects, ops: seq<Op>, n: nat)
    requires Removals(ops) && Integrity(s) && RefsLast(s, ops) && n <= |ops|
    ensures Integrity(Apply(s, ops[..n]))
  {
    var t := Apply(s, ops[..n]);
    forall k, m | k in t && SecretRef(t[k], m)
      ensures SecretKey(k.ns, m) in t
    {
      var r := SecretKey(k.ns, m);
      assert k in s && s[k] == t[k] by { RemovalResult(s, ops[..n], k); }
      if Removes(ops[..n], r) {
        var i :| 0 <= i < n && Touches(ops[..n][i], r);
        assert Touches(ops[i], SecretKey(k.ns, m));
        var j :| 0 <= j < i && Touches(ops[j], k);
        assert Touches(ops[..n][j], k);
      }
      RemovalResult(s, ops[..n], k);
      RemovalResult(s, ops[..n], r);
    }
  }

  /** The order is not only enough: a plan of deletes that breaks it leaves a dangling reference behind. */
  lemma OutOfOrderBreaksIntegrity(s: Objects, ops: seq<Op>)
    requires Removals(ops) && Typed(s) && !RefsLast(s, ops)
    ensures exists n :: 0 <= n <= |ops| && !Integrity(Apply(s, ops[..n]))
  {
    var i, k, m :| 0 <= i < |ops| && k in s && SecretRef(s[k], m) && Touches(ops[i], SecretKey(k.ns, m)) &&
      forall j :: 0 <= j < i ==> !Touches(ops[j], k);
    var n := i + 1;
    var t := Apply(s, ops[..n]);
    RemovalResult(s, ops[..n], k);
    RemovalResult(s, ops[..n], SecretKey(k.ns, m));
    assert Touches(ops[..n][i], SecretKey(k.ns, m));
    assert k in t && SecretRef(t[k], m) && SecretKey(k.ns, m) !in t;
  }
}
