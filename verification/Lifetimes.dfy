/**
 Referential integrity over the life of an instance: installs, re-installs and uninstalls with
 changing configurations and sources, each of which may stop after any of its calls.
 */
module Lifetimes {
  import opened Identity
  import opened Store
  import opened Plans
  import opened Installation
  import opened Installers
  import opened Outcomes
  import opened Records

  /** What a run has done to the objects of an instance when it stops. */
  datatype Run =
    | Installed(conf: Configuration, kcs: Kubeconfigs, done: seq<Op>)
    | Uninstalled(conf: Configuration, m: nat, n: nat)
    | Aside(op: Op)   // the TLS route, the CA bundle, or the namespace for it

  /** That is what the installers do: the first operations of their plans, on whatever they have read. */
  ghost predicate Possible(ns: string, hash: NameHash, run: Run) {
    match run
    case Installed(conf, kcs, done) => conf.Ns() == ns && Like(done, InstallShape(conf, kcs))
    case Uninstalled(conf, m, n) => conf.Ns() == ns && m <= |conf.Sources(Helm)| && n <= |UninstallPlan(conf, hash, m)|
    case Aside(op) =>
      && !op.DelNamed? && (op.key.kind == Route || op.key.kind == ConfigMap || op.key.kind == NamespaceKind)
      && (op.Put? ==> !op.obj.DeploymentObject?)
  }

  /** An uninstall finds no source named like a Secret that is in use when it gets to it. */
  ghost predicate Harmless(s: Objects, hash: NameHash, run: Run) {
    run.Uninstalled? && run.m <= |run.conf.Sources(Helm)| ==> NoClash(s, run.conf, hash, run.m)
  }

  function AfterRun(s: Objects, ns: string, hash: NameHash, run: Run): Objects
    requires Possible(ns, hash, run)
  {
    match run
    case Installed(_, _, done) => Apply(s, done)
    case Uninstalled(conf, m, n) => Apply(s, UninstallPlan(conf, hash, m)[..n])
    case Aside(op) => Do(s, op)
  }

  /** A lifetime: each run is possible where the one before has stopped. */
  ghost predicate Lifetime(s: Objects, ns: string, hash: NameHash, runs: seq<Run>) {
    runs == [] || (Lifetime(s, ns, hash, runs[..|runs| - 1])
      && Possible(ns, hash, runs[|runs| - 1])
      && Harmless(Reached(s, ns, hash, runs[..|runs| - 1]), hash, runs[|runs| - 1]))
  }

  ghost function Reached(s: Objects, ns: string, hash: NameHash, runs: seq<Run>): Objects {
    if runs == [] then s
    else
      var before := Reached(s, ns, hash, runs[..|runs| - 1]);
      if Possible(ns, hash, runs[|runs| - 1]) then AfterRun(before, ns, hash, runs[|runs| - 1]) else before
  }

  lemma WantedDeployment(conf: Configuration, kcs: Kubeconfigs, k: Key)
    requires Footprint(conf, k) && Wanted(conf, kcs, BlankSources(conf), k).DeploymentObject?
    ensures FromPlan(conf, k, Wanted(conf, kcs, BlankSources(conf), k))
  {}

  /** A Deployment as an installer of conf stores it. */
  predicate FromPlan(conf: Configuration, k: Key, o: Object) {
    && k.name.Default? && k == DeploymentKey(conf.Ns(), k.name.c) && o.DeploymentObject?
    && o.pod.secrets == Mounts(k.name.c) && o.pod.pullSecrets == PullRefs(k.name.c, conf.Sources(k.name.c))
  }

  lemma InstallShaped(s: Objects, conf: Configuration, kcs: Kubeconfigs, done: seq<Op>)
    requires Shaped(s, conf.Ns(), {}) && Like(done, InstallShape(conf, kcs))
    ensures Shaped(Apply(s, done), conf.Ns(), {})
  {
    var t := Apply(s, done);
    forall k | k in t && t[k].DeploymentObject?
      ensures (k in s && t[k] == s[k]) || FromPlan(conf, k, t[k])
    {
      InstallShapedAt(s, conf, kcs, done, k);
    }
    StillShaped(s, t, conf);
  }

  lemma StillShaped(s: Objects, t: Objects, conf: Configuration)
    requires Shaped(s, conf.Ns(), {})
    requires forall k :: k in t && t[k].DeploymentObject? ==> (k in s && t[k] == s[k]) || FromPlan(conf, k, t[k])
    ensures Shaped(t, conf.Ns(), {})
  {}

  lemma InstallShapedAt(s: Objects, conf: Configuration, kcs: Kubeconfigs, done: seq<Op>, k: Key)
    requires Like(done, InstallShape(conf, kcs)) && k in Apply(s, done) && Apply(s, done)[k].DeploymentObject?
    ensures (k in s && Apply(s, done)[k] == s[k]) || FromPlan(conf, k, Apply(s, done)[k])
  {
    LikeUpserts(done, conf, kcs);
    UpsertPresent(s, done, k);
    if Writes(done, k) {
      LastWrite(s, done, k);
      var i :| 0 <= i < |done| && done[i].key == k && Apply(s, done)[k] == done[i].obj;
      WantedDeployment(conf, kcs, k);
    } else {
      Frame(s, done, k);
    }
  }

  lemma AsideKeeps(s: Objects, ns: string, hash: NameHash, op: Op)
    requires Integrity(s) && Shaped(s, ns, {}) && Possible(ns, hash, Aside(op))
    ensures Integrity(Do(s, op)) && Shaped(Do(s, op), ns, {})
  {
    var t := Do(s, op);
    forall k, n | k in t && SecretRef(t[k], n) ensures SecretKey(k.ns, n) in t {
      assert k in s && s[k] == t[k] && SecretKey(k.ns, n) in s;
    }
  }

  lemma RunKeeps(s: Objects, ns: string, hash: NameHash, run: Run)
    requires Integrity(s) && Shaped(s, ns, {}) && Possible(ns, hash, run) && Harmless(s, hash, run)
    ensures Integrity(AfterRun(s, ns, hash, run)) && Shaped(AfterRun(s, ns, hash, run), ns, {})
  {
    match run
    case Installed(conf, kcs, done) =>
      assert done[..|done|] == done;
      LikeKeepsIntegrity(s, done, conf, kcs, |done|);
      InstallShaped(s, conf, kcs, done);
    case Uninstalled(conf, m, n) =>
      var plan := UninstallPlan(conf, hash, m);
      UninstallIntegrity(s, conf, hash, m);
      UninstallRemoves(conf, hash, m, NamespaceKey(Mcp, ns));
      assert Integrity(Apply(s, plan[..n]));
      ShapedAfter(s, ns, {}, plan[..n], {});
    case Aside(op) => AsideKeeps(s, ns, hash, op);
  }

  /**
   Every Deployment of an instance finds the Secrets it mounts and the pull secrets it names, at
   every point at which any sequence of runs may have stopped.
   */
  lemma {:induction false} AlwaysIntact(s: Objects, ns: string, hash: NameHash, runs: seq<Run>)
    requires Integrity(s) && Shaped(s, ns, {}) && Lifetime(s, ns, hash, runs)
    ensures Integrity(Reached(s, ns, hash, runs)) && Shaped(Reached(s, ns, hash, runs), ns, {})
  {
    if runs != [] {
      AlwaysIntact(s, ns, hash, runs[..|runs| - 1]);
      RunKeeps(Reached(s, ns, hash, runs[..|runs| - 1]), ns, hash, runs[|runs| - 1]);
    }
  }

  // ---------------------------------------------------------------- residue

  /** Configurations of the same instance with the same pull secrets; versions, images and anything else may differ. */
  ghost predicate Kin(conf: Configuration, other: Configuration) {
    && other.instance == conf.instance && (forall c :: other.Sources(c) == conf.Sources(c))
    && WebhooksServiceName(other.webhooksValues) == WebhooksServiceName(conf.webhooksValues)
  }

  lemma KinFootprint(conf: Configuration, other: Configuration, hash: NameHash, m: nat, k: Key)
    requires Kin(conf, other) && m <= |conf.Sources(Helm)|
    ensures (Footprint(other, k) <==> Footprint(conf, k)) && (Removable(other, k) <==> Removable(conf, k))
    ensures HitBySource(other, hash, m, k) <==> HitBySource(conf, hash, m, k)
  {
    assert other.Sources(Main) == conf.Sources(Main) && other.Sources(Webhooks) == conf.Sources(Webhooks);
    assert other.Sources(Helm) == conf.Sources(Helm) && other.Sources(Manifest) == conf.Sources(Manifest);
  }

  /** An install or an uninstall of the instance that has stopped somewhere. */
  ghost predicate Attempt(conf: Configuration, hash: NameHash, run: Run) {
    !run.Aside? && Kin(conf, run.conf) && Possible(conf.Ns(), hash, run)
  }

  lemma LikeWithin(done: seq<Op>, conf: Configuration, kcs: Kubeconfigs)
    requires Like(done, InstallShape(conf, kcs))
    ensures forall i :: 0 <= i < |done| ==> done[i].Put? && Footprint(conf, done[i].key)
  {
    var plan := InstallShape(conf, kcs);
    BlankShape(conf, kcs);
    InstallAims(conf, kcs, BlankSources(conf));
    forall i | 0 <= i < |done| ensures done[i].Put? && Footprint(conf, done[i].key) {
      assert Alike(done[i], plan[i]) && plan[i].Put?;
    }
  }

  lemma AttemptFrame(s: Objects, conf: Configuration, hash: NameHash, run: Run, k: Key)
    requires Attempt(conf, hash, run) && !Footprint(conf, k) && (k.ns == conf.Ns() ==> k !in s)
    ensures Agree(AfterRun(s, conf.Ns(), hash, run), s, k)
  {
    match run
    case Installed(other, kcs, done) =>
      KinFootprint(conf, other, hash, 0, k);
      LikeWithin(done, other, kcs);
      Frame(s, done, k);
    case Uninstalled(other, m, n) => RemovedFrame(s, other, hash, m, n, k);
  }

  lemma RemovedFrame(s: Objects, conf: Configuration, hash: NameHash, m: nat, n: nat, k: Key)
    requires m <= |conf.Sources(Helm)| && n <= |UninstallPlan(conf, hash, m)| && (k.ns == conf.Ns() ==> k !in s)
    ensures Agree(Apply(s, UninstallPlan(conf, hash, m)[..n]), s, k)
  {
    var ops := UninstallPlan(conf, hash, m)[..n];
    UninstallRemoves(conf, hash, m, k);
    UninstallWithin(conf, hash, m);
    RemovalResult(s, ops, k);
    if k.ns != conf.Ns() { FrameArea(s, ops, conf.Ns(), k); }
  }

  lemma {:induction false} AttemptsFrame(s: Objects, conf: Configuration, hash: NameHash, runs: seq<Run>, k: Key)
    requires forall i :: 0 <= i < |runs| ==> Attempt(conf, hash, runs[i])
    requires !Footprint(conf, k) && (k.ns == conf.Ns() ==> k !in s)
    ensures Agree(Reached(s, conf.Ns(), hash, runs), s, k)
  {
    if runs != [] {
      AttemptsFrame(s, conf, hash, runs[..|runs| - 1], k);
      AttemptFrame(Reached(s, conf.Ns(), hash, runs[..|runs| - 1]), conf, hash, runs[|runs| - 1], k);
    }
  }

  /**
   Exact residue: after any failed and successful attempts with any versions, images and contents of
   the sources, one more install that succeeds and an uninstall that succeeds leave the original
   objects, the workload namespace and the pull-secret copies as the last install has written them,
   and nothing else. The copies stay although the uninstaller means to delete them: it deletes by
   the name of the source.
   */
  lemma Residue(s: Objects, runs: seq<Run>, conf: Configuration, kcs: Kubeconfigs, done: seq<Op>, last: Configuration,
                hash: NameHash, m: nat, k: Key)
    requires forall i :: 0 <= i < |runs| ==> Attempt(conf, hash, runs[i])
    requires Like(done, InstallShape(conf, kcs)) && |done| == |InstallShape(conf, kcs)|
    requires Kin(conf, last) && m <= |conf.Sources(Helm)| && m <= |last.Sources(Helm)|
    requires k.ns == conf.Ns() ==> k !in s
    ensures Left(conf, hash, m, k) ==> k in Apply(map[], done)
    ensures
      var installed := Apply(Reached(s, conf.Ns(), hash, runs), done);
      var t := Apply(installed, UninstallPlan(last, hash, m));
      && (k in t <==> k in s || Left(conf, hash, m, k))
      && (k in t ==> t[k] == if Left(conf, hash, m, k) then Apply(map[], done)[k] else s[k])
  {
    var before := Reached(s, conf.Ns(), hash, runs);
    UninstallResult(Apply(before, done), last, hash, m, k);
    KinFootprint(conf, last, hash, m, k);
    LikeWithin(done, conf, kcs);
    if Footprint(conf, k) {
      LikeWrites(done, conf, kcs, k);
      WrittenAnyway(before, map[], done, k);
      LeftOrRemoved(conf, hash, m, k);
    } else {
      AttemptsFrame(s, conf, hash, runs, k);
      Frame(before, done, k);
      NotHitOutside(conf, hash, m, k);
    }
  }
}
