/** What a run of an installer leaves behind, with the contents of the copies as they were read. */
module Outcomes {
  import opened Wrappers
  import opened Identity
  import opened Store
  import opened Plans
  import opened World
  import opened Api
  import opened Installation
  import opened Installers

  function Names(conf: Configuration): set<string> {
    set c: Component, i | 0 <= i < |conf.Sources(c)| :: conf.Sources(c)[i]
  }

  function BlankSources(conf: Configuration): (r: Sources)
    ensures HasSources(conf, r)
  {
    map s | s in Names(conf) :: Content("")
  }

  lemma BlankShape(conf: Configuration, kcs: Kubeconfigs)
    ensures InstallShape(conf, kcs) == InstallPlan(conf, kcs, CopiesFrom(conf, BlankSources(conf)))
  {
    var src := BlankSources(conf);
    forall c ensures ReadAll(conf.Sources(c), src) == Blank(|conf.Sources(c)|) {}
    assert CopiesFrom(conf, src) == Unread(conf);
  }

  predicate CopyKey(k: Key) { k.kind == Secret && k.name.PullCopy? }

  /** The copy of the CA bundle is there, if one is configured, with contents its source had from position n on. */
  ghost predicate CaPlaced(o: Objects, t: seq<Snap>, n: nat, conf: Configuration) {
    conf.ca.Some? ==>
      var k := ConfigMapKey(conf.Ns(), conf.ca.value.name);
      k in o && o[k].ConfigMapObject? && ReadAt(t, n, CaSource(conf.ca.value.name), o[k].data)
  }

  /**
   Every key of the footprint is there: a copy with contents its source had from position n of
   the trace on, anything else as the configuration wants it; and so is the copy of the CA bundle.
   */
  ghost predicate Footprinted(o: Objects, t: seq<Snap>, n: nat, conf: Configuration, kcs: Kubeconfigs) {
    && CaPlaced(o, t, n, conf)
    && forall k :: Footprint(conf, k) ==>
         && k in o
         && if CopyKey(k) then o[k].SecretObject? && ReadAt(t, n, PullSource(k.name.source), o[k].data)
            else o[k] == Wanted(conf, kcs, BlankSources(conf), k)
  }

  lemma ReadEarlier(t: seq<Snap>, u: seq<Snap>, n: nat, m: nat, s: Source, d: Data)
    requires ReadAt(t, n, s, d) && t <= u && m <= n
    ensures ReadAt(u, m, s, d)
  {
    var j :| n <= j < |t| && Current(t[j].world, s) == Some(d);
    assert u[j] == t[j];
  }

  /** An installation does not touch the copy of the CA bundle. */
  lemma CaStays(s: Objects, done: seq<Op>, t: seq<Snap>, u: seq<Snap>, n: nat, conf: Configuration, kcs: Kubeconfigs)
    requires Like(done, InstallShape(conf, kcs)) && CaPlaced(s, t, n, conf) && t <= u
    ensures CaPlaced(Apply(s, done), u, n, conf)
  {
    if conf.ca.Some? {
      var k := ConfigMapKey(conf.Ns(), conf.ca.value.name);
      LikeUpserts(done, conf, kcs);
      Frame(s, done, k);
      ReadEarlier(t, u, n, n, CaSource(conf.ca.value.name), s[k].data);
    }
  }

  lemma LikeUpserts(done: seq<Op>, conf: Configuration, kcs: Kubeconfigs)
    requires Like(done, InstallShape(conf, kcs))
    ensures Upserts(done)
    ensures forall i :: 0 <= i < |done| && CopyKey(done[i].key) ==> done[i].obj.SecretObject?
    ensures forall i :: 0 <= i < |done| && !CopyKey(done[i].key) ==>
      Footprint(conf, done[i].key) && done[i].obj == Wanted(conf, kcs, BlankSources(conf), done[i].key)
  {
    var plan := InstallShape(conf, kcs);
    BlankShape(conf, kcs);
    InstallAims(conf, kcs, BlankSources(conf));
    forall i | 0 <= i < |done|
      ensures done[i].Put? && (CopyKey(done[i].key) ==> done[i].obj.SecretObject?)
      ensures !CopyKey(done[i].key) ==>
        Footprint(conf, done[i].key) && done[i].obj == Wanted(conf, kcs, BlankSources(conf), done[i].key)
    {
      assert Alike(done[i], plan[i]) && plan[i].Put?;
    }
  }

  lemma LikeWrites(done: seq<Op>, conf: Configuration, kcs: Kubeconfigs, k: Key)
    requires Like(done, InstallShape(conf, kcs)) && |done| == |InstallShape(conf, kcs)| && Upserts(done)
    requires Footprint(conf, k)
    ensures Writes(done, k)
  {
    var plan := InstallShape(conf, kcs);
    InstallWrites(conf, kcs, Unread(conf), k);
    var i :| 0 <= i < |plan| && plan[i].Put? && plan[i].key == k;
    assert Alike(done[i], plan[i]);
  }

  lemma InstalledAt(s: Objects, done: seq<Op>, t: seq<Snap>, n: nat, written: set<Target>, conf: Configuration,
                    kcs: Kubeconfigs, k: Key)
    requires Like(done, InstallShape(conf, kcs)) && |done| == |InstallShape(conf, kcs)| && Evident(t, n, written, done)
    requires Footprint(conf, k)
    ensures k in Apply(s, done)
    ensures CopyKey(k) ==>
      && Apply(s, done)[k].SecretObject? && ReadAt(t, n, PullSource(k.name.source), Apply(s, done)[k].data)
      && PullTarget(k.name.c, k.name.source) in written
    ensures !CopyKey(k) ==> Apply(s, done)[k] == Wanted(conf, kcs, BlankSources(conf), k)
  {
    LikeUpserts(done, conf, kcs);
    LikeWrites(done, conf, kcs, k);
    LastWrite(s, done, k);
    var i :| 0 <= i < |done| && done[i].key == k && Apply(s, done)[k] == done[i].obj;
    assert CopyKey(k) ==> IsCopy(done[i]);
  }

  predicate CopiesWritten(conf: Configuration, written: set<Target>) {
    forall c, i :: 0 <= i < |conf.Sources(c)| ==> PullTarget(c, conf.Sources(c)[i]) in written
  }

  lemma CopiesAnyway(conf: Configuration, ca: Option<CaRef>, written: set<Target>)
    ensures CopiesWritten(conf.(ca := ca), written) <==> CopiesWritten(conf, written)
  {
    assert forall c :: conf.(ca := ca).Sources(c) == conf.Sources(c);
  }

  /** A complete installation has written the whole footprint; the CA bundle has been copied since position m. */
  lemma InstalledFootprint(s: Objects, done: seq<Op>, before: seq<Snap>, m: nat, t: seq<Snap>, written: set<Target>,
                           conf: Configuration, kcs: Kubeconfigs)
    requires Like(done, InstallShape(conf, kcs)) && |done| == |InstallShape(conf, kcs)|
    requires Evident(t, |before|, written, done)
    requires CaPlaced(s, before, m, conf) && before <= t && m <= |before|
    ensures Footprinted(Apply(s, done), t, m, conf, kcs)
    ensures CopiesWritten(conf, written)
  {
    var n := |before|;
    CaStays(s, done, before, t, m, conf, kcs);
    forall k | Footprint(conf, k)
      ensures k in Apply(s, done)
      ensures if CopyKey(k) then
                Apply(s, done)[k].SecretObject? && ReadAt(t, m, PullSource(k.name.source), Apply(s, done)[k].data)
              else Apply(s, done)[k] == Wanted(conf, kcs, BlankSources(conf), k)
    {
      InstalledAt(s, done, t, n, written, conf, kcs, k);
      if CopyKey(k) { ReadEarlier(t, t, n, m, PullSource(k.name.source), Apply(s, done)[k].data); }
    }
    forall c, i | 0 <= i < |conf.Sources(c)| ensures PullTarget(c, conf.Sources(c)[i]) in written {
      InstalledAt(s, done, t, n, written, conf, kcs, SecretKey(conf.Ns(), PullCopy(c, conf.Sources(c)[i])));
    }
  }

  /** Later writes to other keys leave the footprint as it is. */
  lemma FootprintStays(o: Objects, p: Objects, t: seq<Snap>, u: seq<Snap>, n: nat, m: nat, conf: Configuration,
                       kcs: Kubeconfigs)
    requires Footprinted(o, t, n, conf, kcs) && t <= u && m <= n
    requires forall k :: (Footprint(conf, k) || k.kind == ConfigMap) && k in o ==> k in p && p[k] == o[k]
    ensures Footprinted(p, u, m, conf, kcs)
  {
    if conf.ca.Some? {
      var k := ConfigMapKey(conf.Ns(), conf.ca.value.name);
      ReadEarlier(t, u, n, m, CaSource(conf.ca.value.name), o[k].data);
    }
    forall k | Footprint(conf, k) && CopyKey(k)
      ensures k in p && p[k].SecretObject? && ReadAt(u, m, PullSource(k.name.source), p[k].data)
    {
      ReadEarlier(t, u, n, m, PullSource(k.name.source), o[k].data);
    }
  }

  /** Whatever was read in between, no install that stops anywhere leaves a Deployment without its Secrets. */
  lemma LikeKeepsIntegrity(s: Objects, done: seq<Op>, conf: Configuration, kcs: Kubeconfigs, n: nat)
    requires Like(done, InstallShape(conf, kcs)) && Integrity(s) && n <= |done|
    ensures Integrity(Apply(s, done[..n]))
  {
    var plan := InstallShape(conf, kcs);
    LikeUpserts(done, conf, kcs);
    InstallRefsFirst(conf, kcs, Unread(conf));
    forall i, m | 0 <= i < |done| && SecretRef(done[i].obj, m)
      ensures exists j :: 0 <= j < i && done[j].key == SecretKey(done[i].key.ns, m)
    {
      assert Alike(done[i], plan[i]) && done[i] == plan[i];
      var j :| 0 <= j < i && plan[j].key == SecretKey(plan[i].key.ns, m);
      assert Alike(done[j], plan[j]) && done[j].key == plan[j].key;
    }
    UpsertsKeepIntegrity(s, done, n);
  }
}
