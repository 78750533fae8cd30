/**
 Inputs for which the code does not do what it is meant to do: a deletion that never completes, an
 uninstall that takes a Secret away from a running Deployment, and copies of pull secrets that stay.
 */
module Witnesses {
  import opened Wrappers
  import opened Identity
  import opened Store
  import opened Conditions
  import opened Plans
  import opened Platform
  import opened World
  import opened Installation
  import opened Installers
  import opened Outcomes
  import opened Lifetimes
  import opened Reconciler
  import opened Runs

  // ---------------------------------------------------------------- deletion

  /** The pull secret "registry" is configured for the landscaper, and missing on the platform cluster. */
  const PROVIDER := ProviderConfig("default", true, "images", ["v1"], None,
                                   Some(ImageConfiguration("image", ["registry"])),
                                   None, None, None)

  const STUCK := World(
    Some(Landscaper(1, 1, 1, true, true, false, false, "id", "v1", None, FRESH_STATUS)), 1, 0,
    PlatformState([PROVIDER], Some([]), map[], map[]), Granted, Granted, map[], Observed(None, [], {}), false,
    Naming("id", text => text),
    Book({}, {}, {}, false, false, false, false, {}, None))

  /** A deletion does not always complete: from this world on, no number of undisturbed rounds completes it. */
  lemma DeletionStuck()
    ensures Inv(STUCK) && Dying(STUCK) && HasFinalizer(STUCK) && !Completable(STUCK)
  {
    var configs := [PROVIDER];
    assert Defaults(configs) == [PROVIDER] by { assert configs[1..] == []; }
    assert ResolvedConfig(STUCK) == Some(PROVIDER);
    assert PullSecretsOf(PROVIDER, [], Main)[0] !in STUCK.platform.secrets;
  }

  // ---------------------------------------------------------------- integrity

  const CLASHING := "manifest-deployer-config"

  lemma ManifestDeployed(s: Objects, conf: Configuration, kcs: Kubeconfigs, done: seq<Op>)
    requires Like(done, InstallShape(conf, kcs)) && |done| == |InstallShape(conf, kcs)|
    ensures
      var t, k := Apply(s, done), DeploymentKey(conf.Ns(), Manifest);
      k in t && SecretRef(t[k], Suffixed(Manifest, Config))
  {
    var k := DeploymentKey(conf.Ns(), Manifest);
    LikeUpserts(done, conf, kcs);
    LikeWrites(done, conf, kcs, k);
    LastWrite(s, done, k);
    assert Suffixed(Manifest, Config) == Mounts(Manifest)[0];
  }

  lemma InstalledIntact(s: Objects, conf: Configuration, kcs: Kubeconfigs, done: seq<Op>)
    requires Integrity(s) && Shaped(s, conf.Ns(), {}) && Like(done, InstallShape(conf, kcs))
    ensures Integrity(Apply(s, done)) && Shaped(Apply(s, done), conf.Ns(), {})
  {
    assert done[..|done|] == done;
    LikeKeepsIntegrity(s, done, conf, kcs, |done|);
    InstallShaped(s, conf, kcs, done);
  }

  lemma ManifestClashes(s: Objects, conf: Configuration, kcs: Kubeconfigs, done: seq<Op>, hash: NameHash, m: nat)
    requires CLASHING in conf.Sources(Main) && m <= |conf.Sources(Helm)|
    requires Like(done, InstallShape(conf, kcs)) && |done| == |InstallShape(conf, kcs)|
    ensures !NoClash(Apply(s, done), conf, hash, m)
  {
    ManifestDeployed(s, conf, kcs, done);
    NotSpared(Apply(s, done), conf, hash);
  }

  lemma NotSpared(t: Objects, conf: Configuration, hash: NameHash)
    requires CLASHING in conf.Sources(Main)
    requires DeploymentKey(conf.Ns(), Manifest) in t
    requires SecretRef(t[DeploymentKey(conf.Ns(), Manifest)], Suffixed(Manifest, Config))
    ensures !Spared(t, conf.Ns(), {Helm, Manifest}, LandscaperSources(conf), hash)
  {
    assert Render(hash, Suffixed(Manifest, Config)) == CLASHING;
    assert CLASHING in LandscaperSources(conf);
  }

  /**
   A pull secret of the landscaper that is named like the manifest deployer's configuration: every
   uninstall after a complete install deletes the configuration while the manifest deployer runs.
   */
  lemma ClashBreaks(s: Objects, conf: Configuration, kcs: Kubeconfigs, done: seq<Op>, hash: NameHash, m: nat)
    requires Integrity(s) && Shaped(s, conf.Ns(), {}) && CLASHING in conf.Sources(Main) && m <= |conf.Sources(Helm)|
    requires Like(done, InstallShape(conf, kcs)) && |done| == |InstallShape(conf, kcs)|
    ensures
      var t, plan := Apply(s, done), UninstallPlan(conf, hash, m);
      Integrity(t) && !NoClash(t, conf, hash, m) && exists n :: 0 <= n <= |plan| && !Integrity(Apply(t, plan[..n]))
  {
    InstalledIntact(s, conf, kcs, done);
    ManifestClashes(s, conf, kcs, done, hash, m);
    UninstallIntegrity(Apply(s, done), conf, hash, m);
  }

  /** There is such a configuration, and the empty store is a place to begin. */
  lemma ClashExists(kcs: Kubeconfigs, hash: NameHash)
    ensures exists conf, done, n ::
      && Like(done, InstallShape(conf, kcs)) && 0 <= n <= |UninstallPlan(conf, hash, 0)|
      && !Integrity(Apply(Apply(map[], done), UninstallPlan(conf, hash, 0)[..n]))
  {
    var pc := PROVIDER.(controller := Some(ImageConfiguration("image", [CLASHING])));
    var conf := CreateConfig("id", "v1", pc, [], "host");
    CreateConfigSources("id", "v1", pc, [], "host", Main);
    assert CLASHING == conf.Sources(Main)[0];
    var done := InstallShape(conf, kcs);
    ClashBreaks(map[], conf, kcs, done, hash, 0);
    var n :| 0 <= n <= |UninstallPlan(conf, hash, 0)|
      && !Integrity(Apply(Apply(map[], done), UninstallPlan(conf, hash, 0)[..n]));
  }

  // ---------------------------------------------------------------- copies

  /** A copy has at least 22 characters in its name, so sources with shorter names meet none. */
  lemma ShortNamesSpare(conf: Configuration, hash: NameHash)
    requires forall c, i :: 0 <= i < |conf.Sources(c)| ==> |conf.Sources(c)[i]| < 22
    ensures CopiesSpared(conf, hash)
  {
    forall c, d, i, j | 0 <= i < |conf.Sources(c)| && 0 <= j < |conf.Sources(d)|
      ensures Render(hash, PullCopy(c, conf.Sources(c)[i])) != conf.Sources(d)[j]
    {
      assert |Render(hash, PullCopy(c, conf.Sources(c)[i]))| >= 22;
    }
  }

  /** With such names every copy that the last install has made stays, although the uninstall succeeds. */
  lemma CopiesStay(s: Objects, runs: seq<Run>, conf: Configuration, kcs: Kubeconfigs, done: seq<Op>, hash: NameHash,
                   m: nat,
                   c: Component, i: nat)
    requires forall j :: 0 <= j < |runs| ==> Attempt(conf, hash, runs[j])
    requires Like(done, InstallShape(conf, kcs)) && |done| == |InstallShape(conf, kcs)|
    requires m <= |conf.Sources(Helm)| && i < |conf.Sources(c)|
    requires forall d, j :: 0 <= j < |conf.Sources(d)| ==> |conf.Sources(d)[j]| < 22
    requires SecretKey(conf.Ns(), PullCopy(c, conf.Sources(c)[i])) !in s
    ensures SecretKey(conf.Ns(), PullCopy(c, conf.Sources(c)[i])) in
      Apply(Apply(Reached(s, conf.Ns(), hash, runs), done), UninstallPlan(conf, hash, m))
  {
    var k := SecretKey(conf.Ns(), PullCopy(c, conf.Sources(c)[i]));
    ShortNamesSpare(conf, hash);
    CopyNotHit(conf, hash, m, k);
    Residue(s, runs, conf, kcs, done, conf, hash, m, k);
  }
}
