/**
 What holds over any number of runs: of every trace that the reconciler and the others around
 it can leave, and of a deletion that nobody interferes with.
 */
module Runs {
  import opened Wrappers
  import opened Identity
  import opened Store
  import opened Conditions
  import opened Plans
  import opened Platform
  import opened World
  import opened Api
  import opened Dns
  import opened Knowledge
  import opened Records
  import opened Verdicts
  import opened Reconciler

  // ---------------------------------------------------------------- every reachable state

  /** The world before anything has happened. */
  function Initial(platform: PlatformState, observed: Observed, naming: Naming): World {
    World(None, 0, 0, platform, Absent, Absent, map[], observed, false, naming,
          Book({}, {}, {}, false, false, false, false, {}, None))
  }

  lemma StartsWell(platform: PlatformState, observed: Observed, naming: Naming)
    ensures Inv(Initial(platform, observed, naming))
  {}

  /**
   Any number of runs from there, under any schedule of failures and of steps of others: what the
   lemmas below say of legal traces holds of the trace of all runs together.
   */
  method Operate(schedule: nat -> Tick, hash: NameHash, kubeconfigs: Kubeconfigs, platform: PlatformState,
                 observed: Observed,
                 sha1: Sha1, namespace: string, name: string, n: nat)
    returns (r: LandscaperReconciler)
    requires '%' !in namespace
    ensures fresh(r) && fresh(r.api) && r.api.Valid() && Legal(r.api.trace) && r.api.trace != []
    ensures
      var naming := Naming(ComputeInstanceID(sha1, namespace, name), hash);
      Nth(r.api.trace, 0).world == Initial(platform, observed, naming)
    ensures
      var t, id := r.api.trace, ComputeInstanceID(sha1, namespace, name);
      Assigned(t, id) <==> Unlabelled(t, id)
  {
    var start := Initial(platform, observed, Naming(ComputeInstanceID(sha1, namespace, name), hash));
    StartsWell(platform, observed, start.naming);
    IdentifiesComputed(sha1, namespace, name, start.naming.id);
    var api := new Server(schedule, kubeconfigs, start);
    r := new LandscaperReconciler(api, sha1, namespace, name);
    for i := 0 to n
      invariant api.Valid() && Nth(api.trace, 0).world == start && fresh(api) && fresh(r)
      invariant r.api == api && r.Named()
    {
      ghost var t := api.trace;
      var res, err;
      ghost var found, f;
      res, err, found, f := r.Reconcile();
      assert Nth(t, 0) == Nth(api.trace, 0);
    }
    AssignedUnlessLabelled(api.trace);
  }

  // ---------------------------------------------------------------- one Landscaper through a trace

  function At(t: seq<Snap>, i: nat): World
    requires i < |t|
  {
    Nth(t, i).world
  }

  lemma LinkAt(t: seq<Snap>, i: nat)
    requires Legal(t) && i + 1 < |t|
    ensures Inv(At(t, i)) && Inv(At(t, i + 1)) && Linked(At(t, i), Nth(t, i + 1).step, At(t, i + 1))
  {
    assert Inv(Nth(t, i).world) && Inv(Nth(t, i + 1).world);
  }

  /** Uids are not given out twice: a Landscaper that is there at two points is there all the time between. */
  lemma {:induction false} ThereAllTheTime(t: seq<Snap>, i: nat, j: nat, uid: nat)
    requires Legal(t) && i <= j < |t| && Exists(At(t, i), uid) && Exists(At(t, j), uid)
    ensures forall k :: i <= k <= j ==> Exists(At(t, k), uid)
    decreases j - i
  {
    if i < j {
      ClockGrows(t, i, j - 1);
      LinkAt(t, j - 1);
      assert Inv(Nth(t, i).world);
      ThereAllTheTime(t, i, j - 1, uid);
    }
  }

  lemma {:induction false} ClockGrows(t: seq<Snap>, i: nat, j: nat)
    requires Legal(t) && i <= j < |t|
    ensures At(t, i).clock <= At(t, j).clock
    decreases j - i
  {
    if i < j {
      ClockGrows(t, i, j - 1);
      LinkAt(t, j - 1);
    }
  }

  /** What never goes back while a Landscaper exists. */
  predicate Onwards(a: Landscaper, b: Landscaper) {
    && a.generation <= b.generation && (a.deleting ==> b.deleting)
    && (a.id != "" ==> b.id == a.id)
    && a.status.observedGeneration <= b.status.observedGeneration
    && (a.status.phase == Terminating ==> b.status.phase == Terminating)
  }

  /** The id is never rewritten, Terminating is absorbing, the observed generation never decreases. */
  lemma {:induction false} NeverBack(t: seq<Snap>, i: nat, j: nat, uid: nat)
    requires Legal(t) && i <= j < |t| && Exists(At(t, i), uid) && Exists(At(t, j), uid)
    ensures Onwards(At(t, i).ls.value, At(t, j).ls.value)
    decreases j - i
  {
    if i < j {
      ThereAllTheTime(t, i, j, uid);
      assert Exists(At(t, j - 1), uid);
      NeverBack(t, i, j - 1, uid);
      LinkAt(t, j - 1);
    }
  }

  /** The stored status, in every reachable state. */
  lemma StatusAlways(t: seq<Snap>, i: nat)
    requires Legal(t) && i < |t| && At(t, i).ls.Some?
    ensures
      var ls := At(t, i).ls.value;
      var l := ls.status.conditions;
      && (ls.status.phase == PhaseReady <==> Has(l, Ready, True))
      && (Has(l, Ready, True) || Has(l, Ready, False) ==> Has(l, Installed, True))
      && (ls.status.phase == Terminating <==> Lookup(l, Uninstalled).Some?)
      && (ls.status.phase == Terminating ==> ls.deleting && Lookup(l, Installed).None? && Lookup(l, Ready).None?)
      && ls.status.observedGeneration <= ls.generation
  {
    assert Inv(Nth(t, i).world);
  }

  // ---------------------------------------------------------------- cleanup

  /**
   Cleanup safety: wherever a trace stands, an object that an uninstall has to remove is one the
   uninstall of the stored id would find, with both access requests live and the finalizer set.
   */
  lemma CleanupAlways(t: seq<Snap>, i: nat, k: Key)
    requires Legal(t) && i < |t| && k in At(t, i).objects && Disposable(k)
    ensures HasFinalizer(At(t, i)) && BothLive(At(t, i))
    ensures At(t, i).ls.value.id != "" && Addressed(Namespace(At(t, i).ls.value.id), k)
  {
    assert Inv(Nth(t, i).world);
  }

  /** So the step that takes the finalizer away finds nothing left, neither objects nor requests. */
  lemma FinalizerLast(t: seq<Snap>, i: nat)
    requires Legal(t) && i + 1 < |t| && HasFinalizer(At(t, i)) && !HasFinalizer(At(t, i + 1))
    ensures NoDisposables(At(t, i)) && NoDisposables(At(t, i + 1))
    ensures At(t, i + 1).mcp == Absent && At(t, i + 1).workload == Absent
    ensures forall k :: k in At(t, i).objects ==>
      || k.kind == ConfigMap || (k.kind == Secret && k.name.PullCopy?)
      || (k.kind == NamespaceKind && k.cluster == Workload)
  {
    LinkAt(t, i);
    assert At(t, i + 1).objects == At(t, i).objects;
  }

  /** Once it is on record that a delete run has put a request into deletion, that stays on record. */
  lemma {:induction false} RetiredStays(t: seq<Snap>, i: nat, j: nat, uid: nat)
    requires Legal(t) && i <= j < |t| && Exists(At(t, i), uid) && Exists(At(t, j), uid) && At(t, i).retired
    ensures At(t, j).retired && At(t, j).objects == At(t, i).objects
    ensures forall k :: i < k <= j ==> !Nth(t, k).step.AccessCreate? && !Nth(t, k).step.OnClusters()
    decreases j - i
  {
    if i < j {
      ThereAllTheTime(t, i, j, uid);
      assert Exists(At(t, j - 1), uid);
      RetiredStays(t, i, j - 1, uid);
      LinkAt(t, j - 1);
    }
  }

  /**
   Point of no return: once a request of the Landscaper is in deletion, none of its requests is
   created any more, no call goes to its clusters, its objects stay as they are, and so does the
   need for the two requests: they are never both live again.
   */
  lemma NoReturn(t: seq<Snap>, i: nat, j: nat, uid: nat)
    requires Legal(t) && i <= j < |t| && Exists(At(t, i), uid) && Exists(At(t, j), uid)
    requires At(t, i).mcp == Deleting || At(t, i).workload == Deleting
    ensures At(t, j).objects == At(t, i).objects && !BothLive(At(t, j)) && At(t, j).ls.value.deleting
    ensures forall k :: i < k <= j ==> !Nth(t, k).step.AccessCreate? && !Nth(t, k).step.OnClusters()
  {
    assert Inv(Nth(t, i).world) && Inv(Nth(t, j).world);
    RetiredStays(t, i, j, uid);
  }

  // ---------------------------------------------------------------- referential integrity

  /**
   Integrity after every single call: if every Deployment has its Secrets at the start of a trace,
   then it has them in every world of the trace, if and only if no step is a delete by source name
   that meets a Secret in use.
   */
  lemma IntactUnlessClash(t: seq<Snap>)
    requires Legal(t) && t != [] && Integrity(At(t, 0).objects)
    ensures (forall i :: 0 <= i < |t| ==> Integrity(At(t, i).objects)) <==> NeverClashes(t)
  {
    if forall i :: 0 <= i < |t| ==> Integrity(At(t, i).objects) {
      forall i, j | 0 <= i && j == i + 1 < |t| ensures !ClashAt(t, i, j) { IntactStep(t, i); }
    }
    if NeverClashes(t) {
      forall i | 0 <= i < |t| ensures Integrity(At(t, i).objects) { IntactUntil(t, i); }
    }
  }

  /** The step to position j deletes a Secret in use, by the name of a source. */
  ghost predicate ClashAt(t: seq<Snap>, i: nat, j: nat)
    requires i < |t| && j < |t|
  {
    Nth(t, j).step.ClusterWrite? && Clashes(At(t, i).objects, Nth(t, j).step.op)
  }

  ghost predicate NeverClashes(t: seq<Snap>) {
    forall i, j :: 0 <= i && j == i + 1 < |t| ==> !ClashAt(t, i, j)
  }

  lemma IntactStep(t: seq<Snap>, i: nat)
    requires Legal(t) && i + 1 < |t| && Integrity(At(t, i).objects)
    ensures Integrity(At(t, i + 1).objects) <==> !ClashAt(t, i, i + 1)
  {
    LinkAt(t, i);
    if Nth(t, i + 1).step.ClusterWrite? { OrderlyKeepsIntegrity(At(t, i).objects, Nth(t, i + 1).step.op); }
  }

  lemma {:induction false} IntactUntil(t: seq<Snap>, i: nat)
    requires Legal(t) && i < |t| && Integrity(At(t, 0).objects)
    requires NeverClashes(t)
    ensures Integrity(At(t, i).objects)
  {
    if i > 0 {
      IntactUntil(t, i - 1);
      assert !ClashAt(t, i - 1, i);
      IntactStep(t, i - 1);
    }
  }

  /**
   What it takes is a Secret on the platform cluster with the name of a Secret of an instance: as
   long as there is none, no step of a trace is such a delete, whatever is configured.
   */
  lemma IntactByNames(t: seq<Snap>)
    requires Legal(t) && t != [] && Integrity(At(t, 0).objects) && At(t, 0).book.held.None? && OrdinaryNames(t)
    ensures forall i :: 0 <= i < |t| ==> Integrity(At(t, i).objects)
  {
    forall i, j | 0 <= i && j == i + 1 < |t| ensures !ClashAt(t, i, j) {
      OrdinaryHeld(t, i);
      LinkAt(t, i);
      if Nth(t, j).step.ClusterWrite? { OrdinaryDelete(At(t, i), Nth(t, j).step.op); }
    }
    IntactUnlessClash(t);
  }

  ghost predicate OrdinaryNames(t: seq<Snap>) {
    forall i, n :: 0 <= i < |t| && n in At(t, i).platform.secrets ==> Ordinary(n)
  }

  /** The source read last has an ordinary name. */
  predicate HoldsOrdinary(w: World) {
    w.book.held.Some? && w.book.held.value.source.PullSource? ==> Ordinary(w.book.held.value.source.name)
  }

  lemma {:induction false} OrdinaryHeld(t: seq<Snap>, i: nat)
    requires Legal(t) && i < |t| && At(t, 0).book.held.None? && OrdinaryNames(t)
    ensures HoldsOrdinary(At(t, i))
  {
    if i > 0 {
      OrdinaryHeld(t, i - 1);
      LinkAt(t, i - 1);
    }
  }

  lemma OrdinaryDelete(w: World, op: Op)
    requires AllFormed(w) && SourceRead(w, op) && HoldsOrdinary(w)
    ensures !Clashes(w.objects, op)
  {
    if op.DelNamed? {
      forall k, n | k in w.objects && SecretRef(w.objects[k], n) ensures !Named(op, SecretKey(k.ns, n)) {
        assert Formed(k, w.objects[k]);
        OrdinaryNotUsed(op.text, op.hash, n);
      }
    }
  }

  // ---------------------------------------------------------------- isolation

  /** Every operation of a trace works in the namespace that the stored id leads to at that time. */
  lemma OwnOperation(t: seq<Snap>, i: nat)
    requires Legal(t) && i + 1 < |t| && Nth(t, i + 1).step.ClusterWrite?
    ensures HasFinalizer(At(t, i)) && At(t, i).ls.value.id != ""
    ensures Area(Nth(t, i + 1).step.op) == Namespace(At(t, i).ls.value.id)
    ensures At(t, i + 1).objects == Do(At(t, i).objects, Nth(t, i + 1).step.op)
  {
    LinkAt(t, i);
  }

  /** The stored id is this one, or still missing. */
  ghost predicate Assigned(t: seq<Snap>, id: string) {
    forall k :: 0 <= k < |t| && At(t, k).ls.Some? ==> At(t, k).ls.value.id == "" || At(t, k).ls.value.id == id
  }

  /** Whoever creates the Landscaper sets no id label, unless it is this id. */
  ghost predicate Unlabelled(t: seq<Snap>, id: string) {
    forall i, j :: 0 <= i && j == i + 1 < |t| && At(t, j).ls.Some? && !Same(At(t, i), At(t, j)) ==>
      At(t, j).ls.value.id == "" || At(t, j).ls.value.id == id
  }

  /** The controller never sets another id than the one computed: what the users set is all there is to ask. */
  lemma AssignedUnlessLabelled(t: seq<Snap>)
    requires Legal(t) && t != [] && At(t, 0).ls.None?
    ensures Assigned(t, At(t, 0).naming.id) <==> Unlabelled(t, At(t, 0).naming.id)
  {
    var id := At(t, 0).naming.id;
    if Unlabelled(t, id) {
      forall k | 0 <= k < |t| && At(t, k).ls.Some? ensures At(t, k).ls.value.id == "" || At(t, k).ls.value.id == id {
        AssignedUntil(t, k);
      }
    }
  }

  lemma {:induction false} AssignedUntil(t: seq<Snap>, k: nat)
    requires Legal(t) && k < |t| && At(t, 0).ls.None? && Unlabelled(t, At(t, 0).naming.id)
    ensures At(t, k).ls.Some? ==> At(t, k).ls.value.id == "" || At(t, k).ls.value.id == At(t, 0).naming.id
  {
    if k > 0 {
      AssignedUntil(t, k - 1);
      LinkAt(t, k - 1);
      SameNaming(t, 0, k - 1);
    }
  }

  lemma {:induction false} OnlyOwnNamespace(t: seq<Snap>, j: nat, id: string)
    requires Legal(t) && j < |t| && Assigned(t, id)
    ensures forall k :: 0 <= k < |Between(t, 0, j)| ==> Area(Between(t, 0, j)[k]) == Namespace(id)
  {
    if j > 0 {
      OnlyOwnNamespace(t, j - 1, id);
      if Nth(t, j).step.ClusterWrite? {
        OwnOperation(t, j - 1);
        assert At(t, j - 1).ls.Some?;
      }
    }
  }

  /**
   Instance isolation, in a store that any number of Landscapers share: however the operations of a
   trace are interleaved with operations of others outside its namespace, the others find their
   objects as if the trace did not exist.
   */
  lemma InstanceIsolation(t: seq<Snap>, j: nat, id: string, s: Objects, c: seq<Op>, others: seq<Op>, k: Key)
    requires Legal(t) && j < |t| && Assigned(t, id) && Merge(c, Between(t, 0, j), others)
    requires k.ns != Namespace(id)
    ensures Agree(Apply(s, c), Apply(s, others), k)
  {
    OnlyOwnNamespace(t, j, id);
    MergeSymmetric(c, Between(t, 0, j), others);
    MergeApart(s, c, others, Between(t, 0, j), k);
  }

  /** And the trace finds in the shared store exactly what is in its own, if it did so at the start. */
  lemma OwnObjects(t: seq<Snap>, j: nat, id: string, s: Objects, c: seq<Op>, others: seq<Op>, k: Key)
    requires Legal(t) && j < |t| && Merge(c, Between(t, 0, j), others)
    requires forall i :: 0 <= i < |others| ==> Area(others[i]) != Namespace(id)
    requires k.ns == Namespace(id) && Agree(s, At(t, 0).objects, k)
    ensures Agree(Apply(s, c), At(t, j).objects, k)
  {
    MergeApart(s, c, Between(t, 0, j), others, k);
    ApplyAgrees(s, At(t, 0).objects, Between(t, 0, j), k);
    Replay(t, 0, j);
  }

  /**
   Interleavings: however far the runs for two Landscapers have got, and however their operations
   are interleaved in the store they share, each finds there exactly what it has made, and nothing
   else has changed.
   */
  lemma Interleaving(t: seq<Snap>, i: nat, u: seq<Snap>, j: nat, s: Objects, c: seq<Op>, sha1: Sha1, ns: string,
                     name: string,
                     ns': string, name': string, k: Key)
    requires Legal(t) && Legal(u) && i < |t| && j < |u| && Merge(c, Between(t, 0, i), Between(u, 0, j))
    requires '%' !in ns && '%' !in ns' && (ns, name) != (ns', name')
    requires sha1(HashedText(ns, name)) == sha1(HashedText(ns', name')) ==>
      HashedText(ns, name) == HashedText(ns', name')
    requires Assigned(t, ComputeInstanceID(sha1, ns, name)) && Assigned(u, ComputeInstanceID(sha1, ns', name'))
    ensures
      var a, b := Namespace(ComputeInstanceID(sha1, ns, name)), Namespace(ComputeInstanceID(sha1, ns', name'));
      && (k.ns == a && Agree(s, At(t, 0).objects, k) ==> Agree(Apply(s, c), At(t, i).objects, k))
      && (k.ns == b && Agree(s, At(u, 0).objects, k) ==> Agree(Apply(s, c), At(u, j).objects, k))
      && (k.ns != a && k.ns != b ==> Agree(Apply(s, c), s, k))
  {
    var id, id' := ComputeInstanceID(sha1, ns, name), ComputeInstanceID(sha1, ns', name');
    var x, y := Between(t, 0, i), Between(u, 0, j);
    DistinctNamespaces(sha1, ns, name, ns', name');
    OnlyOwnNamespace(t, i, id);
    OnlyOwnNamespace(u, j, id');
    MergeSymmetric(c, x, y);
    if k.ns == Namespace(id) && Agree(s, At(t, 0).objects, k) {
      OwnObjects(t, i, id, s, c, y, k);
    } else if k.ns == Namespace(id') && Agree(s, At(u, 0).objects, k) {
      OwnObjects(u, j, id', s, c, x, k);
    } else if k.ns != Namespace(id) && k.ns != Namespace(id') {
      InstanceIsolation(t, i, id, s, c, y, k);
      FrameArea(s, y, Namespace(id'), k);
    }
  }

  // ---------------------------------------------------------------- hosts

  /** The routes in a store have hosts of the instances in whose namespaces they are. */
  predicate RoutesNamed(hash: NameHash, o: Objects) {
    forall k :: k in o && o[k].RouteObject? ==> HostOf(hash, k.ns, o[k].host)
  }

  lemma {:induction false} RoutesKept(t: seq<Snap>, i: nat)
    requires Legal(t) && i < |t| && RoutesNamed(At(t, 0).naming.hash, At(t, 0).objects)
    ensures RoutesNamed(At(t, 0).naming.hash, At(t, i).objects)
  {
    if i > 0 {
      RoutesKept(t, i - 1);
      LinkAt(t, i - 1);
      SameNaming(t, 0, i - 1);
    }
  }

  /** A route is an object an uninstall has to remove, so it lies in the namespace that the id leads to. */
  lemma OwnRoute(t: seq<Snap>, i: nat, id: string, k: Key)
    requires Legal(t) && i < |t| && Assigned(t, id) && RoutesNamed(At(t, 0).naming.hash, At(t, 0).objects)
    requires k in At(t, i).objects && At(t, i).objects[k].RouteObject? && k.kind == Route
    ensures k.ns == Namespace(id) && HostOf(At(t, 0).naming.hash, Namespace(id), At(t, i).objects[k].host)
  {
    RoutesKept(t, i);
    CleanupAlways(t, i, k);
  }

  /**
   No two instances are published under the same host: however far the runs for two Landscapers have got,
   and whatever base domains their gateways have reported, the hosts of their routes differ.
   */
  lemma HostsDiffer(t: seq<Snap>, i: nat, u: seq<Snap>, j: nat, id: string, id': string, k: Key, l: Key)
    requires Legal(t) && Legal(u) && i < |t| && j < |u| && Assigned(t, id) && Assigned(u, id') && id != id'
    requires At(t, 0).objects == map[] && At(u, 0).objects == map[] && At(u, 0).naming.hash == At(t, 0).naming.hash
    requires HostsSeparated(At(t, 0).naming.hash, Namespace(id), Namespace(id'))
    requires k in At(t, i).objects && At(t, i).objects[k].RouteObject? && k.kind == Route
    requires l in At(u, j).objects && At(u, j).objects[l].RouteObject? && l.kind == Route
    ensures At(t, i).objects[k].host != At(u, j).objects[l].host
  {
    OwnRoute(t, i, id, k);
    OwnRoute(u, j, id', l);
    if At(t, i).objects[k].host == At(u, j).objects[l].host {
      HostIdentifies(At(t, 0).naming.hash, Namespace(id), Namespace(id'), At(t, i).objects[k].host);
      NamespaceInjective(id, id');
    }
  }

  // ---------------------------------------------------------------- triggers

  /**
   No lost trigger: a copy that a complete run would make is current, or a change of its source is
   on its way, or the run is to be repeated, or the running reconcile has still to read the source.
   */
  lemma NoLostTrigger(t: seq<Snap>, i: nat, target: Target)
    requires Legal(t) && i < |t| && At(t, i).ls.Some? && !At(t, i).ls.value.deleting && Desired(At(t, i), target)
    ensures
      var w := At(t, i);
      Copied(w, target) || Underway(w, target.Origin()) || w.book.retry || Ahead(w, target)
  {
    assert Inv(Nth(t, i).world);
  }

  /** Nothing is on its way, and nothing is being done or to be repeated. */
  predicate Settled(w: World) {
    var b := w.book;
    && b.events == {} && b.listing == {} && b.patching == {} && !b.queued && !b.retry && !b.lapsed && !b.running
    && (w.ls.Some? ==> !w.ls.value.annotated)
  }

  /** So whenever things have settled, every copy is what its source is. */
  lemma SettledIsCurrent(t: seq<Snap>, i: nat, target: Target)
    requires Legal(t) && i < |t| && Settled(At(t, i))
    requires At(t, i).ls.Some? && !At(t, i).ls.value.deleting && Desired(At(t, i), target)
    ensures
      var w := At(t, i);
      var k := target.Key(Namespace(w.ls.value.id));
      Current(w, target.Origin()).Some? && k in w.objects
        && w.objects[k] == target.Copy(Current(w, target.Origin()).value)
  {
    NoLostTrigger(t, i, target);
  }

  /** The same spelled out: what is to be copied, what the copies are called, and what they hold. */
  lemma SettledCopies(t: seq<Snap>, i: nat, pc: ProviderConfig, provider: seq<string>)
    requires Legal(t) && i < |t| && Settled(At(t, i)) && At(t, i).ls.Some? && !At(t, i).ls.value.deleting
    requires ResolvedConfig(At(t, i)) == Some(pc) && At(t, i).platform.serviceProvider == Some(provider)
    ensures
      var p, o, ns := At(t, i).platform, At(t, i).objects, Namespace(At(t, i).ls.value.id);
      && (forall c, n :: n in Applicable(pc, provider, c) ==>
            && n in p.secrets && SecretKey(ns, PullCopy(c, n)) in o
            && o[SecretKey(ns, PullCopy(c, n))] == SecretObject(p.secrets[n]))
      && (pc.ca.Some? ==>
            && pc.ca.value.name in p.configMaps && ConfigMapKey(ns, pc.ca.value.name) in o
            && o[ConfigMapKey(ns, pc.ca.value.name)] == ConfigMapObject(p.configMaps[pc.ca.value.name]))
  {
    var p, o, ns := At(t, i).platform, At(t, i).objects, Namespace(At(t, i).ls.value.id);
    forall c, n | n in Applicable(pc, provider, c)
      ensures n in p.secrets && SecretKey(ns, PullCopy(c, n)) in o
      ensures o[SecretKey(ns, PullCopy(c, n))] == SecretObject(p.secrets[n])
    {
      CreateConfigSources("", "", pc, provider, "", c);
      SettledIsCurrent(t, i, PullTarget(c, n));
    }
    if pc.ca.Some? { SettledIsCurrent(t, i, CaTarget(pc.ca.value.name)); }
  }

  // ---------------------------------------------------------------- deletion comes to an end

  /** The controller is in charge of its Landscaper, and from here on no call fails and nobody interferes. */
  ghost predicate AtPeace(r: LandscaperReconciler)
    reads r.api
  {
    r.api.Valid() && r.api.Calm() && r.Named()
  }

  /** What the access operator does until it has nothing more to do. */
  const SERVE: seq<Event> := [OperatorActs(true, Grants), OperatorActs(false, Grants), OperatorActs(true, Finishes),
                              OperatorActs(false, Finishes)]

  function Served(r: Request): Request {
    match r
    case Pending => Granted
    case Deleting => Absent
    case _ => r
  }

  lemma StepsMore(w: World, events: seq<Event>, e: Event)
    ensures Steps(w, events + [e]) == EnvStep(Steps(w, events), e)
  {
    assert (events + [e])[..|events|] == events;
  }

  lemma ServeEffect(w: World)
    ensures Steps(w, SERVE) == w.(mcp := Served(w.mcp), workload := Served(w.workload))
  {
    var one := [OperatorActs(true, Grants)];
    var two := one + [OperatorActs(false, Grants)];
    var three := two + [OperatorActs(true, Finishes)];
    assert SERVE == three + [OperatorActs(false, Finishes)];
    StepsMore(w, three, OperatorActs(false, Finishes));
    StepsMore(w, two, OperatorActs(true, Finishes));
    StepsMore(w, one, OperatorActs(false, Grants));
    StepsMore(w, [], OperatorActs(true, Grants));
    assert [] + one == one;
  }

  /**
   The condition under which a deletion can be completed: the provider configuration is found,
   and, as long as both access requests are live, so are the service provider and the pull
   secrets of the landscaper's components and of the manifest deployer on the platform cluster.
   */
  predicate Completable(w: World) {
    w.ls.Some? && ResolvedConfig(w).Some? && (BothLive(w) ==> Uninstallable(w, ResolvedConfig(w).value))
  }

  /** How many more rounds a deletion takes that can be completed. */
  function RoundsLeft(w: World): nat {
    if !HasFinalizer(w) then 0 else if Live(w.mcp) || Live(w.workload) then 2 else 1
  }

  /** One round, on the worlds before the operator, between the two, and after the run. */
  lemma RoundMoves(u: World, w: World, v: World)
    requires Dying(u) && HasFinalizer(u) && w == u.(mcp := Served(u.mcp), workload := Served(u.workload))
    requires HasFinalizer(v) ==> Dying(v) && Progressed(w, v, Blocked(w))
    ensures HasFinalizer(v) ==> (Completable(v) <==> Completable(u))
    ensures Completable(u) ==> RoundsLeft(v) < RoundsLeft(u)
    ensures !Completable(u) ==> Blocked(w)
  {
    assert ResolvedConfig(w) == ResolvedConfig(u);
  }

  /** The access operator serves the requests, then the controller reconciles, and nothing fails. */
  method Round(r: LandscaperReconciler)
    requires AtPeace(r) && Dying(r.api.world) && HasFinalizer(r.api.world)
    modifies r, r.api
    ensures AtPeace(r) && (HasFinalizer(r.api.world) ==> Dying(r.api.world))
    ensures HasFinalizer(r.api.world) ==> (Completable(r.api.world) <==> Completable(old(r.api.world)))
    ensures Completable(old(r.api.world)) ==> RoundsLeft(r.api.world) < RoundsLeft(old(r.api.world))
    ensures !Completable(old(r.api.world)) ==> HasFinalizer(r.api.world)
  {
    ghost var u := r.api.world;
    ServeEffect(u);
    r.api.Interfere(SERVE);
    ghost var w := r.api.world;
    var res, err;
    ghost var found, f;
    res, err, found, f := r.Reconcile();
    RoundMoves(u, w, r.api.world);
  }

  /**
   Deletion comes to an end if and only if it can: two rounds are enough under the condition, and
   without it no number of rounds is.
   */
  method Delete(r: LandscaperReconciler, rounds: nat)
    requires AtPeace(r) && Dying(r.api.world) && HasFinalizer(r.api.world)
    requires rounds >= 2
    modifies r, r.api
    ensures AtPeace(r) && (!HasFinalizer(r.api.world) <==> Completable(old(r.api.world)))
  {
    var i := 0;
    while i < rounds && r.api.world.ls.Some? && r.api.world.ls.value.finalizer
      invariant AtPeace(r) && i <= rounds && (HasFinalizer(r.api.world) ==> Dying(r.api.world))
      invariant HasFinalizer(r.api.world) ==> (Completable(r.api.world) <==> Completable(old(r.api.world)))
      invariant Completable(old(r.api.world)) ==> RoundsLeft(r.api.world) + i <= 2 || RoundsLeft(r.api.world) == 0
      invariant !Completable(old(r.api.world)) ==> HasFinalizer(r.api.world)
    {
      Round(r);
      i := i + 1;
    }
  }

  // ---------------------------------------------------------------- a run does not retrigger itself

  /** Time passes, and nothing else happens. */
  function Wait(n: nat): seq<Event> { seq(n, _ => TimePasses) }

  lemma {:induction false} Waited(w: World, n: nat)
    ensures Steps(w, Wait(n)) == w.(now := w.now + n)
  {
    if n > 0 {
      assert Wait(n)[..n - 1] == Wait(n - 1);
      Waited(w, n - 1);
    }
  }

  /** One more run, some time after an undisturbed one that began in w. */
  method AgainLiving(r: LandscaperReconciler, wait: nat, ghost w: World) returns (res: nat, err: bool)
    requires AtPeace(r) && Living(w) && SameSight(w, r.api.world) && Concluding(w, r.api.world)
    modifies r, r.api
    ensures AtPeace(r) && r.api.world.ls == old(r.api.world).ls && SameSight(w, r.api.world)
    ensures res == Judge(w).res && err == Judge(w).failed
  {
    Waited(r.api.world, wait);
    r.api.Interfere(Wait(wait));
    ghost var v := r.api.world;
    SameVerdict(w, v);
    StillAfterwards(w, v);
    ghost var found, f;
    res, err, found, f := r.Reconcile();
  }

  /** Runs that have all come to the end judged in w, with the same stored Landscaper after each of them. */
  ghost predicate AllConclude(w: World, worlds: seq<World>, ends: seq<(nat, bool)>) {
    && w.ls.Some? && |ends| == |worlds|
    && forall i :: 0 <= i < |worlds| ==>
         && Concluding(w, worlds[i]) && worlds[i].ls == worlds[0].ls
         && ends[i] == (Judge(w).res, Judge(w).failed)
  }

  lemma AllConcludeMore(w: World, worlds: seq<World>, ends: seq<(nat, bool)>, v: World, end: (nat, bool))
    requires AllConclude(w, worlds, ends) && worlds != [] && Concluding(w, v) && v.ls == worlds[|worlds| - 1].ls
    requires end == (Judge(w).res, Judge(w).failed)
    ensures AllConclude(w, worlds + [v], ends + [end])
  {
    forall i | 0 <= i <= |worlds|
      ensures
        var u := (worlds + [v])[i];
        Concluding(w, u) && u.ls == worlds[0].ls && (ends + [end])[i] == (Judge(w).res, Judge(w).failed)
    {
      if i < |worlds| { assert (worlds + [v])[i] == worlds[i] && (ends + [end])[i] == ends[i]; }
    }
  }

  /**
   After one undisturbed create or update run, whatever it has come to, any number of further runs
   that see the same write nothing to the Landscaper, however much time passes in between, so that
   none of them is the cause of another; and each of them comes to the same end as the first.
   */
  method RepeatLiving(r: LandscaperReconciler, waits: seq<nat>)
    returns (ghost worlds: seq<World>, ghost ends: seq<(nat, bool)>)
    requires AtPeace(r) && Living(r.api.world)
    modifies r, r.api
    ensures AtPeace(r) && |worlds| == |waits| + 1 && worlds[|waits|] == r.api.world
    ensures AllConclude(old(r.api.world), worlds, ends)
  {
    ghost var w := r.api.world;
    var res, err;
    ghost var found, f;
    res, err, found, f := r.Reconcile();
    worlds, ends := [r.api.world], [(res, err)];
    for i := 0 to |waits|
      invariant AtPeace(r) && |worlds| == i + 1 && worlds[i] == r.api.world
      invariant SameSight(w, r.api.world) && Concluding(w, r.api.world) && AllConclude(w, worlds, ends)
    {
      res, err := AgainLiving(r, waits[i], w);
      AllConcludeMore(w, worlds, ends, r.api.world, (res, err));
      worlds, ends := worlds + [r.api.world], ends + [(res, err)];
    }
  }

  /** Uninstalled is True after exactly those undisturbed delete runs that uninstall the instance, else False. */
  lemma UninstalledTold(w: World)
    requires Dying(w)
    ensures Has(DeletedStatus(w).conditions, Uninstalled, True) <==> Clears(w)
    ensures Has(DeletedStatus(w).conditions, Uninstalled, False) <==> !Clears(w)
  {
    var s := w.ls.value.status.(configRef := NotedRef(w));
    ConvertedHas(JudgeDelete(w), s, w.now, Uninstalled, True);
    ConvertedHas(JudgeDelete(w), s, w.now, Uninstalled, False);
  }

  /**
   So the success of an uninstall does not stay in the status: whatever happens in between, every
   later undisturbed run for the same Landscaper puts False in its place.
   */
  lemma SuccessForgotten(t: seq<Snap>, i: nat, j: nat, uid: nat, w: World, x: World, first: bool, later: bool)
    requires Legal(t) && i <= j < |t| && Exists(At(t, i), uid) && Exists(At(t, j), uid)
    requires Clears(w) && Passed(w, At(t, i), first) && Passed(At(t, j), x, later) && x.ls.Some?
    ensures Has(At(t, i).ls.value.status.conditions, Uninstalled, True)
    ensures Has(x.ls.value.status.conditions, Uninstalled, False)
  {
    NoReturn(t, i, j, uid);
    UninstalledTold(w);
    UninstalledTold(At(t, j));
  }

  /**
   After an undisturbed delete run that leaves the Landscaper there, a run that finds nothing else
   changed has nothing to write, unless the first one has uninstalled the instance: it has told
   so in the status, and has put the requests into deletion, so that the next one does not tell it.
   */
  lemma RestsAfterwards(w: World, v: World, err: bool, later: nat)
    requires Dying(w) && Passed(w, v, err) && v.ls.Some?
    ensures Rests(v.(now := later)) <==> !Clears(w)
    ensures !Clears(v.(now := later))
  {
    var u, s := v.(now := later), w.ls.value.status;
    if ResolvedConfig(w).Some? {
      FoundNamed(w.platform.configs, ConfigName(w.platform.configs, w.ls.value.configRef, s.configRef));
    }
    assert NotedRef(u) == v.ls.value.status.configRef;
    if Clears(w) {
      UninstalledTold(w);
      UninstalledTold(u);
    } else {
      assert JudgeDelete(u) == JudgeDelete(w);
      ConvertedTwice(JudgeDelete(w), s.(configRef := NotedRef(w)), w.now, later);
    }
  }

  /** Unless the Landscaper has gone, an undisturbed delete run has begun in w and ended in v. */
  predicate HasPassed(w: World, v: World) {
    v.ls.Some? ==> Dying(w) && Passed(w, v, Blocked(w))
  }

  /** One more run, some time after an undisturbed delete run that began in w; it begins in u. */
  method AgainDying(r: LandscaperReconciler, wait: nat, ghost w: World) returns (ghost u: World)
    requires AtPeace(r) && HasPassed(w, r.api.world)
    modifies r, r.api
    ensures AtPeace(r) && HasPassed(u, r.api.world)
    ensures old(r.api.world).ls.None? ==> r.api.world.ls.None?
    ensures old(r.api.world).ls.Some? ==> !Clears(u) && (r.api.world.ls == old(r.api.world).ls <==> !Clears(w))
  {
    ghost var v := r.api.world;
    Waited(v, wait);
    r.api.Interfere(Wait(wait));
    u := r.api.world;
    if v.ls.Some? { RestsAfterwards(w, v, Blocked(w), u.now); }
    var res, err;
    ghost var found, f;
    res, err, found, f := r.Reconcile();
    if v.ls.Some? { WritesUnlessRests(u, r.api.world, err); }
  }

  /** In the worlds after the runs: no run but the first has written to the Landscaper, or the second has too. */
  ghost predicate LeftAlone(worlds: seq<World>, second: bool) {
    forall i, j :: 0 <= i && j == i + 1 < |worlds| ==> (worlds[j].ls == worlds[i].ls <==> j > 1 || !second)
  }

  lemma LeftAloneMore(worlds: seq<World>, v: World, second: bool)
    requires worlds != [] && LeftAlone(worlds, second)
    requires v.ls == worlds[|worlds| - 1].ls <==> |worlds| > 1 || !second
    ensures LeftAlone(worlds + [v], second)
  {}

  /**
   After one undisturbed delete run, whatever it has come to, further runs with only time passing in
   between write nothing to the Landscaper, with one exception: the run after one that has
   uninstalled the instance writes to it.
   */
  method RepeatDying(r: LandscaperReconciler, waits: seq<nat>) returns (ghost worlds: seq<World>)
    requires AtPeace(r) && !Living(r.api.world)
    modifies r, r.api
    ensures AtPeace(r) && |worlds| == |waits| + 1
    ensures Dying(old(r.api.world)) ==> Passed(old(r.api.world), worlds[0], Blocked(old(r.api.world)))
    ensures worlds[|waits|] == r.api.world && LeftAlone(worlds, Clears(old(r.api.world)))
  {
    ghost var w, clears := r.api.world, Clears(r.api.world);
    var res, err;
    ghost var found, f;
    res, err, found, f := r.Reconcile();
    ghost var first := r.api.world;
    worlds := [first];
    for n := 0 to |waits|
      invariant AtPeace(r) && |worlds| == n + 1 && worlds[n] == r.api.world
      invariant worlds[0] == first && LeftAlone(worlds, clears) && HasPassed(w, r.api.world)
      invariant r.api.world.ls.Some? ==> (Clears(w) <==> n == 0 && clears)
    {
      w := AgainDying(r, waits[n], w);
      LeftAloneMore(worlds, r.api.world, clears);
      worlds := worlds + [r.api.world];
    }
  }

  /**
   No run is the cause of another: of any number of undisturbed runs with only time passing in
   between, none but the first writes to the Landscaper, unless the first one has uninstalled the
   instance; then exactly the second one does as well.
   */
  method Repeat(r: LandscaperReconciler, waits: seq<nat>) returns (ghost worlds: seq<World>)
    requires AtPeace(r)
    modifies r, r.api
    ensures AtPeace(r) && |worlds| == |waits| + 1
    ensures worlds[|waits|] == r.api.world && LeftAlone(worlds, Clears(old(r.api.world)))
  {
    if r.api.world.ls.Some? && !r.api.world.ls.value.deleting {
      ghost var ends;
      worlds, ends := RepeatLiving(r, waits);
    } else {
      worlds := RepeatDying(r, waits);
    }
  }

  /** A run writes to the Landscaper unless it finds everything as it would leave it. */
  lemma WritesUnlessStill(w: World, v: World, res: nat, err: bool)
    requires Lived(w, v, res, err)
    ensures v.ls == w.ls <==> Still(w)
  {}

  // ---------------------------------------------------------------- what a run comes to

  /** When nobody interferes, a create or update run ends with Ready if and only if everything is there. */
  lemma ReadyWhenAttainable(w: World, v: World, res: nat, err: bool)
    requires Lived(w, v, res, err)
    ensures !err && res == 600 <==> Attainable(w)
    ensures v.ls.value.status.phase == PhaseReady <==> Attainable(w)
  {
    ReadyIffAttainable(w);
  }

  /**
   No Ready without the gateway: as long as every Accepted condition of the route has another status, or is that
   of another gateway or of a parent without a namespace, an undisturbed run does not end with Ready.
   */
  lemma NotReadyUnaccepted(w: World, v: World, res: nat, err: bool)
    requires Lived(w, v, res, err)
    requires forall p, c :: p in w.observed.parents && c in p.conditions && c.kind == "Accepted" && c.status == "True"
               ==> p.name != "default" || p.ns != Some("openmcp-system")
    ensures !(!err && res == 600) && v.ls.value.status.phase != PhaseReady
  {
    AcceptedExactly(w.observed.parents);
    ReadyIffAttainable(w);
  }

  /** And whatever happens in between, a run that ends with Ready has seen the default gateway accept the route. */
  lemma ReadyIsAccepted(t: seq<Snap>, n: nat, o: Objects, hash: NameHash, kcs: Kubeconfigs, ls: Landscaper, f: Findings)
    requires Sound(t, n, o, hash, kcs, ls, f)
    ensures exists j, p, c :: n <= j < |t| && p in At(t, j).observed.parents && c in p.conditions && Accepts(p, c)
  {
    var j :| n <= j < |t| && TlsRouteKey(Namespace(ls.id)) in t[j].world.objects
      && Accepted(t[j].world.observed.parents);
    assert At(t, j) == t[j].world;
    AcceptedExactly(At(t, j).observed.parents);
  }

  /**
   Such a run has published the instance through the default gateway, under a host of its own, below a base domain
   that the gateway had while it ran, and so is the host in the URL that the webhooks server is told.
   */
  lemma ReadyIsPublished(t: seq<Snap>, n: nat, o: Objects, hash: NameHash, kcs: Kubeconfigs, ls: Landscaper,
                         f: Findings)
    requires Sound(t, n, o, hash, kcs, ls, f)
    ensures
      var k := RouteKey(Namespace(ls.id), Plain("webhooks-tls"));
      && k in o && o[k].RouteObject? && f.conf.domain.host == f.host
      && o[k] == RouteObject(o[k].host, GatewayRef("default", "openmcp-system"), Plain("webhooks-tls"), 9443)
      && forall host :: host == o[k].host || host == f.host ==>
           && HostOf(hash, Namespace(ls.id), host)
           && exists j, base :: n <= j < |t| && At(t, j).observed.gateway == Some(Some(base)) && Below(base, host)
  {
    forall host | host == f.routeHost || host == f.host
      ensures HostOf(hash, Namespace(ls.id), host)
      ensures exists j, base :: n <= j < |t| && At(t, j).observed.gateway == Some(Some(base)) && Below(base, host)
    {
      var j :| n <= j < |t| && GivesHost(t[j].world, hash, Namespace(ls.id), host);
      GivenHost(t[j].world, hash, Namespace(ls.id), host);
      assert At(t, j).observed.gateway == Some(Some(t[j].world.observed.gateway.value.value));
    }
  }

  /** A reference in the spec to a configuration that is there has its way, whatever the status says. */
  lemma SpecHasItsWay(w: World, v: World, n: string)
    requires w.ls.Some? && v.ls.Some? && w.ls.value.configRef == Some(n) && n != ""
    requires exists i :: 0 <= i < |w.platform.configs| && w.platform.configs[i].name == n
    requires (exists res, err :: Lived(w, v, res, err)) || exists err :: Passed(w, v, err)
    ensures v.ls.value.status.configRef == Some(n)
    ensures ResolvedConfig(w).Some? && ResolvedConfig(w).value.name == n
  {
    var i :| 0 <= i < |w.platform.configs| && w.platform.configs[i].name == n;
    assert Chosen(w.platform.configs, Some(n), w.ls.value.status.configRef, w.platform.configs[i].name);
    NotedIsChosen(w);
  }
}
