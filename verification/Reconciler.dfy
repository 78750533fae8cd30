/**
 The reconciler (internal/controller/reconcile.go), step by step on the API servers.
 */
module Reconciler {
  import opened Wrappers
  import opened Identity
  import opened Store
  import opened Conditions
  import opened Plans
  import opened Platform
  import opened World
  import opened Calls
  import opened Api
  import opened Dns
  import opened ConfigMaps
  import opened Readiness
  import opened Installation
  import opened Installers
  import opened Uninstallers
  import opened Knowledge
  import opened Outcomes
  import opened CaBundle
  import opened Records
  import opened Verdicts

  /** At some point of the trace from position n on, this was the configuration with that name. */
  ghost predicate ConfigAt(t: seq<Snap>, n: nat, name: string, pc: ProviderConfig) {
    exists j :: n <= j < |t| && FindConfig(t[j].world.platform.configs, name) == Some(pc)
  }

  ghost predicate AcceptedAt(t: seq<Snap>, n: nat, ns: string) {
    exists j :: n <= j < |t| && TlsRouteKey(ns) in t[j].world.objects && Accepted(t[j].world.observed.parents)
  }

  /** What has been seen of route and Deployments has been seen since any earlier position. */
  lemma ReadyEarlier(t: seq<Snap>, n: nat, m: nat, ns: string)
    requires m <= n && AcceptedAt(t, n, ns) && forall c :: UpAt(t, n, ns, c)
    ensures AcceptedAt(t, m, ns) && forall c :: UpAt(t, m, ns, c)
  {
    AcceptedStays(t, t, n, m, ns);
    forall c ensures UpAt(t, m, ns, c) { UpStays(t, t, n, m, ns, c); }
  }

  lemma SeenEarlier(t: seq<Snap>, u: seq<Snap>, n: nat, ns: string)
    requires t <= u && n <= |t| && AcceptedAt(t, n, ns) && forall c :: UpAt(u, |t|, ns, c)
    ensures AcceptedAt(u, n, ns) && forall c :: UpAt(u, n, ns, c)
  {
    AcceptedStays(t, u, n, n, ns);
    forall c ensures UpAt(u, n, ns, c) { UpStays(u, u, |t|, n, ns, c); }
  }

  lemma ConfigStays(t: seq<Snap>, u: seq<Snap>, n: nat, m: nat, name: string, pc: ProviderConfig)
    requires ConfigAt(t, n, name, pc) && t <= u && m <= n
    ensures ConfigAt(u, m, name, pc)
  {
    var j :| n <= j < |t| && FindConfig(t[j].world.platform.configs, name) == Some(pc);
    assert u[j] == t[j];
  }

  lemma HostStays(t: seq<Snap>, u: seq<Snap>, n: nat, m: nat, hash: NameHash, ns: string, host: string)
    requires HostAt(t, n, hash, ns, host) && t <= u && m <= n
    ensures HostAt(u, m, hash, ns, host)
  {
    var j :| n <= j < |t| && GivesHost(t[j].world, hash, ns, host);
    assert u[j] == t[j];
  }

  lemma AcceptedStays(t: seq<Snap>, u: seq<Snap>, n: nat, m: nat, ns: string)
    requires AcceptedAt(t, n, ns) && t <= u && m <= n
    ensures AcceptedAt(u, m, ns)
  {
    var j :| n <= j < |t| && TlsRouteKey(ns) in t[j].world.objects && Accepted(t[j].world.observed.parents);
    assert u[j] == t[j];
  }

  /** What a run that has come to the end has found. */
  datatype Findings = Findings(pc: ProviderConfig, provider: seq<string>, host: string, conf: Configuration,
                               routeHost: string)

  const NOTHING := Findings(
    ProviderConfig("", false, "", [], None, None, None, None, None), [], "",
    Configuration("", Url("", 0), None, ImageValues(Overridden("", ""), []), ImageValues(Overridden("", ""), []),
                  ImageValues(Overridden("", ""), []), ImageValues(Overridden("", ""), []), WebhooksValues(None, 0)),
    "")

  /**
   Ready is sound: from position n of the trace on, the run has found the version in the list of
   the resolved configuration, written the whole footprint of the configuration computed from
   it, found the route accepted by the default gateway, and seen all five Deployments ready.
   */
  ghost predicate Sound(t: seq<Snap>, n: nat, o: Objects, hash: NameHash, kcs: Kubeconfigs, ls: Landscaper,
                        f: Findings) {
    && ls.status.configRef.Some? && ConfigAt(t, n, ls.status.configRef.value, f.pc) && ls.version in f.pc.versions
    && Deployed(t, n, o, hash, kcs, ls, f)
  }

  /** Everything has been copied that the resolved configuration wants. */
  ghost predicate Complete(w: World, written: set<Target>, base: Landscaper, f: Findings) {
    && base.status.configRef.Some? && Resolves(w, base, base.status.configRef.value)
    && Found(w, base.status.configRef.value, f.pc) && Provides(w, f.provider)
    && forall t :: Wants(f.pc, f.provider, t) ==> t in written
  }

  lemma CompleteStays(m: World, v: World, written: set<Target>, base: Landscaper, after: Landscaper, f: Findings)
    requires Complete(m, written, base, f) && Later(m, v)
    requires after.configRef == base.configRef && after.status.configRef == base.status.configRef
    ensures Complete(v, written, after, f)
  {}

  lemma WantsWritten(id: string, version: string, pc: ProviderConfig, provider: seq<string>, host: string,
                     written: set<Target>)
    requires CopiesWritten(CreateConfig(id, version, pc, provider, host), written)
    requires pc.ca.Some? ==> CaTarget(pc.ca.value.name) in written
    ensures forall t :: Wants(pc, provider, t) ==> t in written
  {
    var conf := CreateConfig(id, version, pc, provider, host);
    forall t | Wants(pc, provider, t) ensures t in written {
      if t.PullTarget? {
        CreateConfigSources(id, version, pc, provider, host, t.c);
        var i :| 0 <= i < |conf.Sources(t.c)| && conf.Sources(t.c)[i] == t.name;
        assert PullTarget(t.c, conf.Sources(t.c)[i]) in written;
      }
    }
  }

  /** A Landscaper before it is read. */
  const EMPTY := Landscaper(0, 0, 0, false, false, false, false, "", "", None, FRESH_STATUS)

  /** What others report, and the time, are the same. */
  predicate SameReports(w: World, v: World) {
    v.platform == w.platform && v.observed == w.observed && v.now == w.now
  }

  class LandscaperReconciler {
    const api: Server
    const sha1: Sha1
    const namespace: string
    const name: string
    var ls: Landscaper          // the Landscaper in memory
    ghost var base: Landscaper  // the stored version it goes back to

    constructor (api: Server, sha1: Sha1, namespace: string, name: string)
      ensures this.api == api && this.sha1 == sha1 && this.namespace == namespace && this.name == name
    {
      this.api, this.sha1, this.namespace, this.name, ls, base := api, sha1, namespace, name, EMPTY, EMPTY;
    }

    /** The Landscaper's namespace is a valid name, and the id of the world is the one computed for it. */
    ghost predicate Named()
      reads api
    {
      Identifies(sha1, namespace, name, api.mark.naming.id)
    }

    /** The Landscaper in memory is the one last read or written. */
    ghost predicate Sure()
      reads this, api
    {
      api.Valid() && Knows(api.mark, base) && ls == base && Settled(base) && '%' !in namespace
    }

    /** It has been changed in memory, or a write may or may not have been stored. */
    ghost predicate Unsure()
      reads this, api
    {
      api.Valid() && Tracks(api.mark, base) && ls.uid == base.uid && ls.rv == base.rv && Settled(base)
    }

    /** Calls have been served that concern only the Landscaper itself, and it is still the same one. */
    twostate predicate SameRun()
      reads this, api
    {
      && old(api.trace) <= api.trace
      && api.world.objects == old(api.world).objects && api.world.book.written == old(api.world).book.written
      && Later(old(api.mark), api.mark)
      && base.uid == old(base).uid && base.generation >= old(base).generation
    }

    /** Nobody interferes, and the stored version is the one that base says. */
    ghost predicate Alone()
      reads this, api
    {
      api.Calm() && api.world.ls == Some(base)
    }

    /** In that case only the run itself has done something, and only to the status of the Landscaper. */
    twostate predicate StillAlone()
      reads this, api
    {
      old(Alone()) ==>
        && Alone() && SameReports(old(api.world), api.world)
        && api.world.mcp == old(api.world).mcp && api.world.workload == old(api.world).workload
        && base == old(base).(rv := base.rv, status := base.status)
    }

    /** The same with the onboarding steps, and with access requests created. */
    twostate predicate LeftAlone()
      reads this, api
    {
      old(Alone()) ==>
        && Alone() && SameReports(old(api.world), api.world)
        && (BothGranted(api.world) <==> BothGranted(old(api.world)))
        && base == old(base).(rv := base.rv, finalizer := base.finalizer, annotated := base.annotated, id := base.id,
                              status := base.status)
    }

    /** Nobody interferes, and the Landscaper is gone. */
    ghost predicate Gone()
      reads api
    {
      api.Calm() && api.world.ls.None?
    }

    // ---------------------------------------------------------------- onboarding steps

    /** Update, and from then on the returned version. */
    method Update() returns (ok: bool)
      requires Unsure() && Knows(api.mark, base) && UpdateGuard(api.mark, ls) && '%' !in namespace
      requires ls == base.(finalizer := ls.finalizer, id := ls.id)
      modifies this, api
      ensures Unsure() && SameRun()
      ensures ls == old(ls).(rv := ls.rv)
      ensures ok ==> Sure()
      ensures !ok ==> base == old(base) && ls == old(ls)
      ensures api.world.book.held == old(api.world).book.held
      ensures old(api.Calm()) && UpToDate(old(api.world), old(ls)) ==>
        ok && api.Calm() && api.world == UpdateEffect(old(api.world), old(ls))
          && (api.world.ls.Some? ==> api.world.ls == Some(base))
    {
      var r := api.UpdateLandscaper(ls);
      ghost var b := api.before;
      KnowsLasts(old(api.mark), b, base);
      UpdateTracked(old(api.mark), b, api.world, base, ls);
      ok := r.Ok?;
      if ok {
        UpdateKnown(b, base, ls);
        ls := r.value;
        base := ls;
      }
    }

    method EnsureFinalizer() returns (ok: bool)
      requires Sure() && !ls.deleting
      modifies this, api
      ensures Unsure() && SameRun() && Follows(base, ls)
      ensures ls.status == old(ls).status && base.status == old(base).status
      ensures ok ==> Sure() && ls == old(ls).(rv := ls.rv, finalizer := true)
      ensures api.world.book.held == old(api.world).book.held
      ensures LeftAlone() && (old(Alone()) ==> ok) && (old(ls).finalizer ==> base == old(base) && ls == old(ls))
    {
      ok := true;
      if !ls.finalizer && !ls.deleting {
        ls := ls.(finalizer := true);
        ok := Update();
      }
    }

    /** Clears the reconcile annotation, before anything else is read. */
    method CheckReconcileAnnotation() returns (ok: bool)
      requires Sure() && ls.finalizer && api.world.book.written == {} && api.world.book.held.None?
      modifies this, api
      ensures Unsure() && SameRun() && Follows(base, ls)
      ensures ls.status == old(ls).status && base.status == old(base).status
      ensures ok ==> Sure() && ls.finalizer && ls.id == old(ls).id && !ls.annotated
      ensures LeftAlone() && (old(Alone()) ==> ok) && (!old(ls).annotated ==> base == old(base) && ls == old(ls))
    {
      if !ls.annotated { return true; }
      var r := api.PatchAnnotation();
      ghost var b := api.before;
      KnowsLasts(old(api.mark), b, base);
      PatchTracked(old(api.mark), b, api.world, base);
      PatchKnown(b, base);
      if r.Error? { return false; }
      ls := r.value;
      base := ls;
      api.StatusHolds();
      return true;
    }

    method EnsureInstanceID() returns (ok: bool)
      requires Sure() && Named() && ls.finalizer
      modifies this, api
      ensures Unsure() && SameRun() && Follows(base, ls)
      ensures ls.status == old(ls).status && base.status == old(base).status
      ensures ok ==> Sure() && ls.finalizer && ls.id != ""
      ensures ok ==> ls.id == (if old(ls).id == "" then ComputeInstanceID(sha1, namespace, name) else old(ls).id)
      ensures ok ==> ls.annotated == old(ls).annotated
      ensures LeftAlone() && (old(Alone()) ==> ok) && (old(ls).id != "" ==> base == old(base) && ls == old(ls))
    {
      ok := true;
      if ls.id == "" {
        ls := ls.(id := ComputeInstanceID(sha1, namespace, name));
        assert ls.id != "" && ls.id == api.mark.naming.id by {
          InstanceNamespaceValid(sha1, namespace, name);
          IdentifiesComputed(sha1, namespace, name, api.mark.naming.id);
        }
        ok := Update();
      }
    }

    // ---------------------------------------------------------------- status

    /** Status().Update: the status is stored, or the object is gone, or nothing is known of either. */
    method SendStatus() returns (r: Result<Landscaper>)
      requires Unsure() && StatusGuard(api.mark, ls)
      modifies api
      ensures Unsure() && SameRun() && api.mark == api.world
      ensures r.Ok? ==>
        && api.world.ls == Some(r.value) && r.value == base.(rv := r.value.rv, status := ls.status)
        && Knows(api.mark, r.value) && Settled(r.value)
      ensures r.Error? && r.failure == NotFound ==>
        api.world.ls.None? && (old(Knows(api.mark, base)) ==> Knows(api.mark, base))
      ensures !HasFinalizer(old(api.mark)) ==> !HasFinalizer(api.mark)
      ensures old(Alone()) ==>
        && r.Ok? && api.Calm() && SameReports(old(api.world), api.world)
        && api.world.mcp == old(api.world).mcp && api.world.workload == old(api.world).workload
      ensures old(Gone()) ==> r == Error(NotFound) && api.Calm() && api.world == old(api.world)
    {
      r := api.UpdateLandscaperStatus(ls);
      ghost var b := api.before;
      StatusTracked(old(api.mark), b, api.world, base, ls);
      if r.Ok? {
        StatusKnown(b, base, ls);
        api.StatusHolds();
      } else if r.failure == NotFound && Knows(old(api.mark), base) {
        KnowsLasts(old(api.mark), b, base);
      }
    }

    /** Writes the status; that the object is gone is no error. */
    method WriteStatus() returns (ok: bool)
      requires Unsure() && StatusGuard(api.mark, ls) && '%' !in namespace
      modifies this, api
      ensures Unsure() && SameRun() && ls.status == old(ls).status
      ensures !ok ==> ls == old(ls) && base == old(base)
      ensures !HasFinalizer(old(api.mark)) ==> !HasFinalizer(api.mark)
      ensures ok && Exists(api.world, ls.uid) ==> api.world.ls.value.status == ls.status
      ensures ok && old(Knows(api.mark, base) && ls == base.(status := ls.status) && Settled(ls)) ==>
        Sure() && ls == old(ls).(rv := ls.rv)
      ensures old(Alone()) ==> ok && StillAlone() && base.status == ls.status
      ensures old(Gone()) ==> ok && api.Calm() && api.world == old(api.world)
    {
      ghost var known := Knows(api.mark, base) && ls == base.(status := ls.status) && Settled(ls);
      var r := SendStatus();
      ok := r.Ok? || r.failure == NotFound;
      if r.Ok? {
        ls := r.value;
        base := ls;
      } else if ok && known {
        GoneKnown(api.mark, base, ls);
        base := ls;
      }
    }

    /** Writes the status if it is different from oldStatus. */
    method UpdateStatus(oldStatus: LandscaperStatus) returns (ok: bool)
      requires Unsure() && Follows(base, ls) && Settled(ls) && RefOk(api.mark, base, ls) && '%' !in namespace
      modifies this, api
      ensures Unsure() && SameRun() && ls.status == old(ls).status
      ensures ls.status == oldStatus ==>
        ok && ls == old(ls) && base == old(base) && api.world == old(api.world) && api.mark == old(api.mark)
      ensures !ok ==> ls == old(ls) && base == old(base)
      ensures !HasFinalizer(old(api.mark)) ==> !HasFinalizer(api.mark)
      ensures ok && ls.status != oldStatus && Exists(api.world, ls.uid) ==> api.world.ls.value.status == ls.status
      ensures ok && ls.status != oldStatus && old(Knows(api.mark, base)) && old(ls == base.(status := ls.status)) ==>
        Sure() && ls == old(ls).(rv := ls.rv)
      ensures old(Alone()) ==> ok && StillAlone() && (ls.status != oldStatus ==> base.status == ls.status)
      ensures old(Gone()) ==> ok && api.Calm() && api.world == old(api.world)
    {
      if ls.status == oldStatus { return true; }
      StatusAllowed(api.mark, base, ls);
      ok := WriteStatus();
    }

    // ---------------------------------------------------------------- provider configuration

    /** A call that has only read: the run compares with the present world from now on. */
    ghost method Note()
      requires api.Valid() && Knows(api.mark, base)
      modifies api`mark
      ensures api.Valid() && Knows(api.mark, base) && api.mark == api.world
      ensures Onward(old(api.mark), api.mark) && Later(old(api.mark), api.mark)
    {
      KnowsLasts(api.mark, api.world, base);
      OnwardLater(api.mark, api.world);
      api.Mark();
    }

    /** The name of the first default configuration. */
    method DefaultName() returns (r: Result<string>)
      requires Sure()
      modifies api
      ensures Sure() && SameRun() && StillAlone()
      ensures r.Ok? ==>
        Defaults(api.mark.platform.configs) != [] && r.value == Defaults(api.mark.platform.configs)[0].name
      ensures old(Alone()) ==> api.mark == api.world && (r.Error? ==> Defaults(old(api.world).platform.configs) == [])
    {
      var list := api.ListDefaultConfigs();
      Note();
      if list.Error? { return Error(Failed); }
      if list.value == [] { return Error(Failed); }
      return Ok(list.value[0].name);
    }

    /** The name of the configuration: that in the spec, else that in the status, else that of the first default. */
    method ResolveName() returns (r: Result<string>)
      requires Sure()
      modifies api
      ensures Sure() && SameRun() && StillAlone()
      ensures r.Ok? ==> Resolves(api.mark, base, r.value)
      ensures old(Alone()) && r.Ok? ==>
        r.value == ConfigName(old(api.world).platform.configs, base.configRef, base.status.configRef)
      ensures old(Alone()) && r.Error? ==>
        ConfigName(old(api.world).platform.configs, base.configRef, base.status.configRef) == ""
      ensures old(Alone()) && r.Ok? && r.value != "" ==>
        Chosen(old(api.world).platform.configs, base.configRef, base.status.configRef, r.value)
    {
      var n := "";
      if ls.status.configRef.Some? { n := ls.status.configRef.value; }
      if ls.configRef.Some? { n := ls.configRef.value; }
      assert n == NamedConfig(ls.configRef, ls.status.configRef);
      ghost var configs := api.world.platform.configs;
      r := Ok(n);
      if n == "" { r := DefaultName(); }
      if r.Ok? && r.value != "" { NameChosen(configs, base.configRef, base.status.configRef, r.value); }
    }

    /** Reads the configuration with that name. */
    method ReadConfig(n: string) returns (r: Result<ProviderConfig>)
      requires Sure() && Resolves(api.mark, base, n)
      modifies api
      ensures Sure() && SameRun() && StillAlone() && Resolves(api.mark, base, n)
      ensures r.Ok? ==> n != "" && Found(api.mark, n, r.value) && ConfigAt(api.trace, |old(api.trace)|, n, r.value)
      ensures old(Alone()) ==> (r.Ok? <==> FindConfig(old(api.world).platform.configs, n).Some?)
      ensures old(Alone()) && r.Ok? ==> FindConfig(old(api.world).platform.configs, n) == Some(r.value)
    {
      r := api.GetProviderConfig(n);
      Note();
      if r.Ok? {
        FoundNamed(api.world.platform.configs, n);
        assert FindConfig(api.trace[|api.trace| - 1].world.platform.configs, n) == Some(r.value);
      }
    }

    /** What a configuration that has been found is known to be. */
    ghost predicate Known(t: seq<Snap>, n: nat, name: string, pc: ProviderConfig)
      reads this, api
    {
      name != "" && Resolves(api.mark, base, name) && Found(api.mark, name, pc) && ConfigAt(t, n, name, pc)
    }

    /** Finds the configuration that the references of the Landscaper lead to. */
    method FindConfiguration() returns (r: Result<(string, ProviderConfig)>)
      requires Sure()
      modifies api
      ensures Sure() && SameRun() && StillAlone()
      ensures r.Ok? ==> Known(api.trace, |old(api.trace)|, r.value.0, r.value.1)
      ensures old(Alone()) ==> (r.Ok? <==> Configured(old(api.world)))
      ensures old(Alone()) && r.Ok? ==>
        && NamesConfig(old(api.world), r.value.0, r.value.1)
        && Chosen(old(api.world).platform.configs, base.configRef, base.status.configRef, r.value.0)
        && r.value.1 in old(api.world).platform.configs && r.value.1.name == r.value.0
    {
      var n := ResolveName();
      if n.Error? { return Error(Failed); }
      ghost var t := api.trace;
      var pc := ReadConfig(n.value);
      if pc.Ok? {
        ConfigStays(api.trace, api.trace, |t|, |old(api.trace)|, n.value, pc.value);
        FindConfigMember(old(api.world).platform.configs, n.value);
      }
      return if pc.Ok? then Ok((n.value, pc.value)) else Error(Failed);
    }

    /** Gets the configuration, and notes its name in the status. */
    method GetProviderConfigForLandscaper() returns (r: Result<ProviderConfig>)
      requires Sure()
      modifies this, api
      ensures Unsure() && SameRun() && StillAlone()
      ensures ls == old(ls).(rv := ls.rv, status := old(ls).status.(configRef := ls.status.configRef))
      ensures Follows(base, ls) && base.status.phase == old(base).status.phase && RefOk(api.mark, base, ls)
      ensures r.Ok? ==>
        Sure() && ls.status.configRef.Some? && Known(api.trace, |old(api.trace)|, ls.status.configRef.value, r.value)
      ensures old(Alone()) ==> (r.Ok? <==> Configured(old(api.world))) && ls.status == base.status
      ensures old(Alone()) && r.Ok? ==>
        ResolvedConfig(old(api.world)) == Some(r.value) && SameResolution(old(api.world), api.world)
      ensures old(Alone()) ==> ls.status.configRef == NotedRef(old(api.world))
      ensures ls.status.configRef == old(ls).status.configRef ==> base == old(base)
      ensures old(Alone()) && r.Error? ==> api.world.ls == old(api.world).ls
    {
      ghost var n, w, calm := |api.trace|, api.world, Alone();
      var found := FindConfiguration();
      if found.Error? { return Error(Failed); }
      assert calm ==> api.world.ls == w.ls && api.world.platform == w.platform;
      var ok := NoteFound(found.value.0, found.value.1, n);
      return if ok then Ok(found.value.1) else Error(Failed);
    }

    /** Notes the name of a configuration that has been found. */
    method NoteFound(name: string, pc: ProviderConfig, ghost n: nat) returns (ok: bool)
      requires Sure() && Known(api.trace, n, name, pc)
      modifies this, api
      ensures Unsure() && SameRun() && StillAlone() && (old(Alone()) ==> ok)
      ensures ls == old(ls).(rv := ls.rv, status := old(ls).status.(configRef := Some(name)))
      ensures Follows(base, ls) && base.status.phase == old(base).status.phase && RefOk(api.mark, base, ls)
      ensures ok ==> Sure() && Known(api.trace, n, name, pc)
      ensures old(ls).status.configRef == Some(name) ==> base == old(base)
      ensures old(Alone()) && NamesConfig(old(api.world), name, pc) ==> SameResolution(old(api.world), api.world)
    {
      ok := NoteConfig(name);
      FoundLasts(old(api.mark), api.mark, name, pc);
      ConfigStays(old(api.trace), api.trace, n, n, name, pc);
      if old(Alone()) && NamesConfig(old(api.world), name, pc) {
        Renamed(old(api.world), old(api.world), api.world, name, pc);
      }
    }

    /** Writes the name of the configuration into the status. */
    method NoteConfig(n: string) returns (ok: bool)
      requires Sure() && Resolves(api.mark, base, n) && n != ""
      modifies this, api
      ensures Unsure() && SameRun() && StillAlone() && (old(Alone()) ==> ok)
      ensures ls == old(ls).(rv := ls.rv, status := old(ls).status.(configRef := Some(n)))
      ensures Follows(base, ls) && base.status.phase == old(base).status.phase && RefOk(api.mark, base, ls)
      ensures ok ==> Sure() && Resolves(api.mark, base, n)
      ensures old(Alone()) ==> base.status.configRef == Some(n)
      ensures old(ls).status.configRef == Some(n) ==> base == old(base)
    {
      var oldStatus := ls.status;
      ls := ls.(status := ls.status.(configRef := Some(n)));
      ok := UpdateStatus(oldStatus);
      ResolvesAgain(api.mark, old(base), n);
    }

    // ---------------------------------------------------------------- create or update

    /** A draft of a run that has not installed the instance yet. */
    ghost predicate Drafted(d: Draft, generation: nat) {
      Undecided(d, generation) && !Is(d.install, True)
    }

    /** A draft of a run that has not come to the readiness check yet. */
    ghost predicate Undecided(d: Draft, generation: nat) {
      CoherentDraft(d) && d.observedGeneration == generation && d.phase == Progressing && Is(d.ready, Unknown)
    }

    /** The steps that need the finalizer: the annotation, and the id. */
    method Identify() returns (ok: bool)
      requires Sure() && Named() && ls.finalizer && api.world.book.written == {} && api.world.book.held.None?
      modifies this, api
      ensures Unsure() && SameRun() && Follows(base, ls)
      ensures ls.status == old(ls).status && base.status == old(base).status
      ensures ok ==> Sure() && Onboarded(ls)
      ensures LeftAlone() && (old(Alone()) ==> ok) && (Onboarded(old(ls)) ==> base == old(base))
    {
      ghost var id := api.mark.naming.id;
      ok := CheckReconcileAnnotation();
      if !ok { return; }
      assert api.mark.naming.id == id;
      ok := EnsureInstanceID();
    }

    /** The steps that make the Landscaper the controller's own. */
    method Claim() returns (ok: bool)
      requires Sure() && Named() && !ls.deleting && api.world.book.written == {} && api.world.book.held.None?
      modifies this, api
      ensures Unsure() && SameRun() && Follows(base, ls)
      ensures ls.status == old(ls).status && base.status == old(base).status
      ensures ok ==> Sure() && Onboarded(ls)
      ensures LeftAlone() && (old(Alone()) ==> ok) && (Onboarded(old(ls)) ==> base == old(base))
    {
      ghost var id := api.mark.naming.id;
      ok := EnsureFinalizer();
      if !ok { return; }
      assert api.mark.naming.id == id;
      ok := Identify();
    }

    /** The configuration, which has to list the version. */
    method FindVersion(status: ReconcileStatus) returns (pc: Option<ProviderConfig>)
      requires Sure() && status.Value() == CreateOrUpdateDraft(status.observedGeneration)
      modifies this, api, status
      ensures Unsure() && SameRun() && StillAlone()
      ensures ls == old(ls).(rv := ls.rv, status := old(ls).status.(configRef := ls.status.configRef))
      ensures Follows(base, ls) && base.status.phase == old(base).status.phase && RefOk(api.mark, base, ls)
      ensures ls.status.configRef == old(ls).status.configRef ==> base == old(base)
      ensures pc.None? ==> status.Value() == Failing(old(status.observedGeneration), ProviderConfigError).draft
      ensures pc.Some? ==>
        && Sure() && ls.version in pc.value.versions && ls.status.configRef.Some?
        && Known(api.trace, |old(api.trace)|, ls.status.configRef.value, pc.value)
        && status.Value() == old(status.Value())
      ensures old(Alone()) ==>
        && ls.status == base.status && ls.status.configRef == NotedRef(old(api.world))
        && (pc.Some? <==> VersionListed(old(api.world)))
        && (pc.Some? ==> ResolvedConfig(old(api.world)) == pc)
    {
      var r := GetProviderConfigForLandscaper();
      if r.Error? || ls.version !in r.value.versions {
        status.SetInstall(False, ProviderConfigError, "");
        return None;
      }
      return Some(r.value);
    }

    /** The steps up to the version check. Whenever they stop, it is with an error. */
    method Onboard(status: ReconcileStatus) returns (pc: Option<ProviderConfig>)
      requires Sure() && Named() && !ls.deleting && status.Value() == CreateOrUpdateDraft(ls.generation)
      requires api.world.book.written == {} && api.world.book.held.None?
      modifies this, api, status
      ensures Unsure() && SameRun() && Follows(base, ls) && RefOk(api.mark, base, ls)
      ensures base.status.phase == old(base).status.phase
      ensures ls.status == old(ls).status.(configRef := ls.status.configRef)
      ensures pc.None? ==> Drafted(status.Value(), old(ls).generation)
      ensures pc.Some? ==>
        && Sure() && Onboarded(ls) && ls.version in pc.value.versions && ls.status.configRef.Some?
        && Known(api.trace, |old(api.trace)|, ls.status.configRef.value, pc.value)
        && status.Value() == old(status.Value())
      ensures Onboarded(old(ls)) && ls.status.configRef == old(ls).status.configRef ==> base == old(base)
      ensures LeftAlone()
      ensures old(Alone()) ==>
        && ls.status == base.status && ls.status.configRef == NotedRef(old(api.world))
        && (pc.Some? <==> VersionListed(old(api.world))) && Onboarded(base)
        && (pc.Some? ==> ResolvedConfig(old(api.world)) == pc)
        && (pc.None? ==> status.Value() == Failing(old(ls).generation, ProviderConfigError).draft)
    {
      var ok := Claim();
      if !ok { return None; }
      ghost var t := api.trace;
      if old(Alone()) { ClaimedSame(old(api.world), api.world); }
      pc := FindVersion(status);
      if pc.Some? { ConfigStays(api.trace, api.trace, |t|, |old(api.trace)|, ls.status.configRef.value, pc.value); }
    }

    /** The clients for both clusters. */
    method GetClusters() returns (ok: bool)
      requires api.Valid()
      modifies api
      ensures api.Idle() && (ok ==> old(api.trace) < api.trace)
      ensures old(api.Calm()) ==> (ok <==> BothGranted(old(api.world)))
    {
      ok := api.GetCluster(true);
      if !ok { return; }
      ok := api.GetCluster(false);
    }

    /** Access to both clusters; Ok(false) as long as the requests are not granted. */
    method Connect() returns (r: Result<bool>)
      requires Sure() && AccessGuard(api.mark)
      modifies api
      ensures Sure() && SameRun() && AccessGuard(api.mark)
      ensures r.Ok? && r.value ==> BothLive(api.mark)
      ensures old(Alone()) && BothLive(old(api.world)) ==>
        StillAlone() && r.Ok? && (r.value <==> BothGranted(old(api.world)))
      ensures LeftAlone() && (old(Alone()) ==> r.Ok? && (r.value <==> BothGranted(old(api.world))))
    {
      r := api.ReconcileAccess();
      ghost var b := api.before;
      ghost var m, k :| api.world == AccessEffect(b, m, k);
      AccessKnown(old(api.mark), b, api.world, base, m, k);
      if r.Error? || !r.value { return; }
      var ok := GetClusters();
      if !ok { r := Error(Failed); }
    }

    /** createConfig: the configuration of the instance, with what the service provider contributes. */
    method MakeConfig(pc: ProviderConfig, host: string) returns (r: Result<Configuration>, ghost provider: seq<string>)
      requires Sure()
      modifies api
      ensures Sure() && SameRun() && StillAlone() && Onward(old(api.mark), api.mark)
      ensures r.Ok? ==> r.value == CreateConfig(ls.id, ls.version, pc, provider, host) && Provides(api.mark, provider)
      ensures old(Alone()) ==>
        && (r.Ok? <==> old(api.world).platform.serviceProvider.Some?)
        && (r.Ok? ==> provider == old(api.world).platform.serviceProvider.value)
    {
      var p := api.GetServiceProvider();
      Note();
      if p.Error? { return Error(Failed), []; }
      return Ok(CreateConfig(ls.id, ls.version, pc, p.value, host)), p.value;
    }

    /** The host name from the gateway. Without a gateway the run is repeated after 20 seconds. */
    method AskGateway(status: ReconcileStatus) returns (r: Option<string>, res: nat, failed: bool)
      requires Sure() && InstallGuard(api.mark, Namespace(ls.id))
      requires status.Value() == CreateOrUpdateDraft(status.observedGeneration)
      modifies api, status
      ensures Sure() && api.Looked()
      ensures r.None? ==> Drafted(status.Value(), old(status.observedGeneration)) && (failed || res == 20)
      ensures r.Some? ==>
        && status.Value() == old(status.Value())
        && HostAt(api.trace, |old(api.trace)|, api.hash, Namespace(ls.id), r.value)
      ensures old(api.Calm()) ==>
        var o, g := old(api.world).observed, old(status.observedGeneration);
        && (r.Some? <==> GatewayReady(o))
        && (r.None? ==> Verdict(res, failed, status.Value()) == JudgeGateway(o, g))
    {
      r, res, failed := None, 0, true;
      var gateway := ReconcileGateway(api, Namespace(ls.id));
      if gateway.Error? {
        status.SetInstall(False, DNSConfigFailed, "");
        return;
      }
      if gateway.value.None? {
        status.SetInstall(False, WaitForDNSReady, "Waiting for DNS to be ready");
        res, failed := 20, false;
        return;
      }
      r := gateway.value;
    }

    /** The configuration for a create or update run. */
    method Configure(pc: ProviderConfig, name: string, status: ReconcileStatus)
      returns (conf: Option<Configuration>, ghost provider: seq<string>)
      requires Sure() && status.Value() == CreateOrUpdateDraft(status.observedGeneration)
      modifies api, status
      ensures Sure() && SameRun() && Onward(old(api.mark), api.mark) && StillAlone()
      ensures conf.None? ==>
        var g := old(status.observedGeneration);
        status.Value() == Failing(g, ConfigurationError).draft && Drafted(status.Value(), g)
      ensures conf.Some? ==>
        && status.Value() == old(status.Value()) && conf.value == CreateConfig(ls.id, ls.version, pc, provider, name)
        && Provides(api.mark, provider)
      ensures old(Alone()) ==>
        var p := old(api.world).platform;
        (conf.Some? <==> p.serviceProvider.Some?) && (conf.Some? ==> p.serviceProvider == Some(provider))
    {
      var r;
      r, provider := MakeConfig(pc, name);
      if r.Error? {
        status.SetInstall(False, ConfigurationError, "");
        return None, provider;
      }
      conf := Some(r.value);
    }

    /** The host name, and the configuration. */
    method PlanInstall(pc: ProviderConfig, status: ReconcileStatus)
      returns (conf: Option<Configuration>, res: nat, failed: bool, ghost provider: seq<string>, ghost host: string)
      requires Sure() && InstallGuard(api.mark, Namespace(ls.id))
      requires status.Value() == CreateOrUpdateDraft(status.observedGeneration)
      modifies api, status
      ensures Sure() && SameRun() && InstallGuard(api.mark, Namespace(ls.id))
      ensures conf.None? ==> Drafted(status.Value(), old(status.observedGeneration)) && (failed || res == 20)
      ensures conf.Some? ==>
        && status.Value() == old(status.Value()) && conf.value == CreateConfig(ls.id, ls.version, pc, provider, host)
        && Provides(api.mark, provider) && HostAt(api.trace, |old(api.trace)|, api.hash, Namespace(ls.id), host)
      ensures StillAlone()
      ensures old(Alone()) ==>
        var p, o, g := old(api.world).platform, old(api.world).observed, old(status.observedGeneration);
        && (conf.Some? <==> GatewayReady(o) && p.serviceProvider.Some?)
        && (conf.Some? ==> p.serviceProvider == Some(provider))
        && (conf.None? ==> Verdict(res, failed, status.Value()) == JudgeInstall(o, p, pc, g))
    {
      var gateway;
      conf, provider, host := None, [], "";
      gateway, res, failed := AskGateway(status);
      if gateway.None? { return; }
      host := gateway.value;
      ghost var t := api.trace;
      conf, provider := Configure(pc, gateway.value, status);
      res, failed := 0, conf.None?;
      InstallGuardLasts(old(api.mark), api.mark, Namespace(ls.id));
      HostStays(t, api.trace, |old(api.trace)|, |old(api.trace)|, api.hash, Namespace(ls.id), host);
    }

    /** The CA bundle, if the provider configuration names one: its copy goes into the workload namespace. */
    method SyncCa(pc: ProviderConfig, conf: Configuration) returns (r: Option<Configuration>)
      requires Sure() && InstallGuard(api.mark, conf.Ns()) && conf.ca.None?
      modifies api
      ensures Sure() && api.Grown() && (old(api.Calm()) ==> (r.Some? <==> CaPresent(old(api.world).platform, pc)))
      ensures r.Some? ==>
        && r.value == conf.(ca := pc.ca) && CaPlaced(api.world.objects, api.trace, |old(api.trace)|, r.value)
        && (pc.ca.Some? ==> CaTarget(pc.ca.value.name) in api.world.book.written)
    {
      ghost var n := |api.trace|;
      if pc.ca.None? { return Some(conf); }
      var ok;
      ghost var took, data;
      ok, took := api.Put(NamespaceKey(Workload, conf.Ns()), NamespaceObject);
      if !ok { return None; }
      var copy;
      ghost var m := |api.trace|;
      copy, data := SyncConfigMap(api, conf.Ns(), pc.ca.value);
      if copy.None? { return None; }
      ReadEarlier(api.trace, api.trace, m, n, CaSource(pc.ca.value.name), data.value);
      return Some(conf.(ca := copy));
    }

    /** The instance, with its footprint complete if the installers succeed. */
    method InstallFootprint(conf: Configuration, status: ReconcileStatus, ghost m: nat) returns (ok: bool)
      requires m <= |api.trace| && CaPlaced(api.world.objects, api.trace, m, conf)
      requires Sure() && InstallGuard(api.mark, conf.Ns())
      requires WebhooksServiceName(conf.webhooksValues) == Plain(DNS_SERVICE_NAME)
      requires status.Value() == CreateOrUpdateDraft(status.observedGeneration)
      modifies api, status
      ensures Sure() && api.Grown() && (old(api.Calm()) ==> (ok <==> AllPresent(old(api.world).platform, conf)))
      ensures ok ==>
        && Footprinted(api.world.objects, api.trace, m, conf, api.kubeconfigs)
        && CopiesWritten(conf, api.world.book.written)
      ensures status.observedGeneration == old(status.observedGeneration)
      ensures status.Value() ==
        var g := old(status.observedGeneration);
        if ok then InstalledDraft(g) else Failing(g, InstallFailed).draft
    {
      ghost var o, t := api.world.objects, api.trace;
      ghost var done;
      ok, done := InstallInstance(api, conf);
      if ok {
        InstalledFootprint(o, done, t, m, api.trace, api.world.book.written, conf, api.kubeconfigs);
        status.SetInstall(True, LandscaperInstalled, "Landscaper has been installed successfully");
      } else {
        status.SetInstall(False, InstallFailed, "");
      }
    }

    /** The CA bundle and the instance. */
    method InstallAll(pc: ProviderConfig, conf: Configuration, status: ReconcileStatus)
      returns (r: Option<Configuration>)
      requires Sure() && InstallGuard(api.mark, conf.Ns()) && conf.ca.None?
      requires status.Value() == CreateOrUpdateDraft(status.observedGeneration)
      requires WebhooksServiceName(conf.webhooksValues) == Plain(DNS_SERVICE_NAME)
      modifies api, status
      ensures Sure() && api.Grown() && status.observedGeneration == old(status.observedGeneration)
      ensures r.None? ==> Drafted(status.Value(), old(status.observedGeneration))
      ensures r.Some? ==>
        && status.Value() == InstalledDraft(old(status.observedGeneration))
        && r.value == conf.(ca := pc.ca)
        && Footprinted(api.world.objects, api.trace, |old(api.trace)|, r.value, api.kubeconfigs)
        && CopiesWritten(r.value, api.world.book.written)
        && (pc.ca.Some? ==> CaTarget(pc.ca.value.name) in api.world.book.written)
      ensures old(api.Calm()) ==>
        var p, g := old(api.world).platform, old(status.observedGeneration);
        && (r.Some? <==> CaPresent(p, pc) && AllPresent(p, conf))
        && (r.None? ==>
          status.Value() == if CaPresent(p, pc) then Failing(g, InstallFailed).draft else old(status.Value()))
    {
      ghost var m := |api.trace|;
      var full := SyncCa(pc, conf);
      if full.None? { return None; }
      PresentAnyway(api.world.platform, conf, pc.ca);
      var ok := InstallFootprint(full.value, status, m);
      return if ok then full else None;
    }

    /** A draft that says Ready exactly when the run has come to the end. */
    ghost predicate Finished(d: Draft, generation: nat, ready: bool) {
      CoherentDraft(d) && d.observedGeneration == generation && d.phase == if ready then PhaseReady else Progressing
    }

    /** The Deployments of the instance are there. */
    ghost predicate Standing(ns: string)
      reads api
    {
      forall c :: DeploymentKey(ns, c) in api.world.objects
    }

    /** The route, its acceptance, and the readiness of the instance. */
    method Expose(ns: string, status: ReconcileStatus) returns (res: nat, failed: bool, ghost host: string)
      requires Sure() && InstallGuard(api.mark, ns) && status.Value() == InstalledDraft(status.observedGeneration)
      modifies api, status
      ensures Sure() && api.Grown() && (failed || res == 20 || res == 40 || res == 600)
      ensures Finished(status.Value(), old(status.observedGeneration), !failed && res == 600)
      ensures || api.world.objects == old(api.world).objects
              || api.world.objects == old(api.world).objects[TlsRouteKey(ns) := TlsRoute(host)]
      ensures !failed && res == 600 ==>
        && api.world.objects == old(api.world).objects[TlsRouteKey(ns) := TlsRoute(host)]
        && HostAt(api.trace, |old(api.trace)|, api.hash, ns, host)
        && AcceptedAt(api.trace, |old(api.trace)|, ns) && forall c :: UpAt(api.trace, |old(api.trace)|, ns, c)
      ensures old(api.Calm() && Standing(ns) && GatewayReady(api.world.observed)) ==>
        Verdict(res, failed, status.Value()) == JudgeExposed(old(api.world).observed, old(status.observedGeneration))
    {
      res, failed := 0, true;
      var ok;
      ok, host := ReconcileTLSRoute(api, ns);
      if !ok {
        status.SetInstall(False, DNSConfigFailed, "");
        return;
      }
      ghost var t := api.trace;
      res, failed := Await(ns, status);
      if !failed && res == 600 {
        HostStays(t, api.trace, |old(api.trace)|, |old(api.trace)|, api.hash, ns, host);
        ReadyEarlier(api.trace, |t|, |old(api.trace)|, ns);
      }
    }

    /** Waits for the route. */
    method AwaitRoute(ns: string, status: ReconcileStatus) returns (ok: bool, res: nat, failed: bool)
      requires Sure() && InstallGuard(api.mark, ns) && status.Value() == InstalledDraft(status.observedGeneration)
      modifies api, status
      ensures Sure() && api.Looked()
      ensures if ok then status.Value() == old(status.Value()) && AcceptedAt(api.trace, |old(api.trace)|, ns)
              else Finished(status.Value(), old(status.observedGeneration), false) && (failed || res == 20)
      ensures old(api.Calm() && TlsRouteKey(ns) in api.world.objects) ==>
        && (ok <==> Accepted(old(api.world).observed.parents))
        && (!ok ==> Verdict(res, failed, status.Value()) == WaitingForDns(old(status.observedGeneration)))
    {
      ok, res, failed := false, 0, true;
      var accepted := IsTLSRouteReady(api, ns);
      if accepted.Error? {
        status.SetInstall(False, DNSConfigFailed, "");
        return;
      }
      if !accepted.value {
        status.SetInstall(False, WaitForDNSReady, "Waiting for DNS to be ready");
        return false, 20, false;
      }
      ok := true;
      ghost var t := api.trace;
      assert TlsRouteKey(ns) in t[|t| - 1].world.objects && Accepted(t[|t| - 1].world.observed.parents);
    }

    /** Waits for the route, then for the Deployments. */
    method Await(ns: string, status: ReconcileStatus) returns (res: nat, failed: bool)
      requires Sure() && InstallGuard(api.mark, ns) && status.Value() == InstalledDraft(status.observedGeneration)
      modifies api, status
      ensures Sure() && api.Idle() && (failed || res == 20 || res == 40 || res == 600)
      ensures Finished(status.Value(), old(status.observedGeneration), !failed && res == 600)
      ensures !failed && res == 600 ==>
        AcceptedAt(api.trace, |old(api.trace)|, ns) && forall c :: UpAt(api.trace, |old(api.trace)|, ns, c)
      ensures old(api.Calm() && Standing(ns) && TlsRouteKey(ns) in api.world.objects) ==>
        Verdict(res, failed, status.Value()) == JudgeExposed(old(api.world).observed, old(status.observedGeneration))
    {
      var ok;
      ok, res, failed := AwaitRoute(ns, status);
      if !ok { return; }
      ghost var t := api.trace;
      res, failed := AwaitDeployments(ns, status);
      if res == 600 { SeenEarlier(t, api.trace, |old(api.trace)|, ns); }
    }

    /** Waits for the Deployments. */
    method AwaitDeployments(ns: string, status: ReconcileStatus) returns (res: nat, failed: bool)
      requires Sure() && InstallGuard(api.mark, ns) && status.Value() == InstalledDraft(status.observedGeneration)
      modifies api, status
      ensures Sure() && api.Idle() && !failed && (res == 40 || res == 600)
      ensures Finished(status.Value(), old(status.observedGeneration), res == 600)
      ensures res == 600 ==> forall c :: UpAt(api.trace, |old(api.trace)|, ns, c)
      ensures old(api.Calm() && Standing(ns)) ==>
        Verdict(res, failed, status.Value()) == JudgeReadiness(old(api.world).observed, old(status.observedGeneration))
    {
      var result := CheckReadiness(api, ns);
      if old(Standing(ns)) { UpIffReady(old(api.world), ns); }
      if !IsReady(result) {
        status.SetWaitForReadinessCheck("");
        return 40, false;
      }
      status.SetReady();
      return 600, false;
    }

    /** Any number of calls have been served, and the Landscaper in memory has not been touched. */
    twostate predicate Proceeded()
      reads this, api
    {
      && old(api.trace) <= api.trace && Later(old(api.mark), api.mark)
      && old(api.world).book.written <= api.world.book.written
    }

    /** Everything after cluster access has been granted. */
    method Deploy(pc: ProviderConfig, status: ReconcileStatus) returns (res: nat, failed: bool, ghost f: Findings)
      requires Sure() && InstallGuard(api.mark, Namespace(ls.id))
      requires status.Value() == CreateOrUpdateDraft(status.observedGeneration)
      modifies api, status
      ensures StillAlone()
      ensures old(Alone()) ==>
        Verdict(res, failed, status.Value()) ==
          JudgeInstall(old(api.world).observed, old(api.world).platform, pc, old(status.observedGeneration))
      ensures Sure() && Proceeded() && (failed || res == 20 || res == 40 || res == 600)
      ensures Finished(status.Value(), old(status.observedGeneration), !failed && res == 600)
      ensures f.pc == pc && (!failed && res == 600 ==> Provides(api.mark, f.provider))
      ensures Delivered(api.trace, |old(api.trace)|, api.world, api.hash, api.kubeconfigs, ls, f, status.Value(),
                        !failed && res == 600)
    {
      f := NOTHING.(pc := pc);
      ghost var calm, n := Alone(), |api.trace|;
      var plan;
      ghost var host;
      ghost var provider;
      plan, res, failed, provider, host := PlanInstall(pc, status);
      if plan.None? { return; }
      ghost var t, routeHost := api.trace, "";
      if calm { PresentSources(api.world.platform, ls, pc, provider, host); }
      res, failed, routeHost := InstallAndExpose(pc, plan.value, status);
      f := Findings(pc, provider, host, plan.value.(ca := pc.ca), routeHost);
      Deliver(t, api.trace, n, api.world, api.hash, api.kubeconfigs, ls, f, status.Value(), !failed && res == 600);
    }

    method InstallAndExpose(pc: ProviderConfig, conf: Configuration, status: ReconcileStatus)
      returns (res: nat, failed: bool, ghost host: string)
      requires Sure() && InstallGuard(api.mark, conf.Ns()) && conf.ca.None?
      requires status.Value() == CreateOrUpdateDraft(status.observedGeneration)
      requires WebhooksServiceName(conf.webhooksValues) == Plain(DNS_SERVICE_NAME)
      modifies api, status
      ensures old(api.Calm() && GatewayReady(api.world.observed)) ==>
        var p, o, g := old(api.world).platform, old(api.world).observed, old(status.observedGeneration);
        Verdict(res, failed, status.Value()) == JudgeObjects(o, CaPresent(p, pc), AllPresent(p, conf), g)
      ensures Sure() && api.Grown() && (failed || res == 20 || res == 40 || res == 600)
      ensures Finished(status.Value(), old(status.observedGeneration), !failed && res == 600)
      ensures !failed && res == 600 ==>
        && CopiesWritten(conf.(ca := pc.ca), api.world.book.written)
        && (pc.ca.Some? ==> CaTarget(pc.ca.value.name) in api.world.book.written)
        && Exposed(api.trace, |old(api.trace)|, api.world.objects, api.hash, api.kubeconfigs, conf.Ns(),
                   conf.(ca := pc.ca), host)
      ensures Is(status.installCondition, True) ==>
        Footprinted(api.world.objects, api.trace, |old(api.trace)|, conf.(ca := pc.ca), api.kubeconfigs)
    {
      res, failed, host := 0, true, "";
      var full := InstallAll(pc, conf, status);
      if full.None? { return; }
      ghost var t, o, n := api.trace, api.world.objects, |old(api.trace)|;
      FootprintStands(o, t, n, full.value, api.kubeconfigs);
      res, failed, host := Expose(conf.Ns(), status);
      RouteAside(o, api.world.objects, t, api.trace, n, full.value, api.kubeconfigs, host);
      if !failed && res == 600 {
        HostStays(api.trace, api.trace, |t|, n, api.hash, conf.Ns(), host);
        ReadyEarlier(api.trace, |t|, n, conf.Ns());
      }
    }

    /** Cluster access in a create or update run; without it, the run is repeated after 10 seconds. */
    method GainAccess(status: ReconcileStatus) returns (ok: bool, res: nat, failed: bool)
      requires Sure() && AccessGuard(api.mark) && ls.finalizer && ls.id != ""
      requires status.Value() == CreateOrUpdateDraft(status.observedGeneration)
      modifies api, status
      ensures Sure() && SameRun() && LeftAlone() && (ok ==> InstallGuard(api.mark, Namespace(ls.id)))
      ensures if ok then status.Value() == old(status.Value())
              else Drafted(status.Value(), old(status.observedGeneration)) && (failed || res == 10)
      ensures old(Alone()) ==>
        && (ok <==> BothGranted(old(api.world)))
        && (!ok ==> Verdict(res, failed, status.Value()) == WaitingForAccess(old(status.observedGeneration)))
    {
      ok, res, failed := false, 0, true;
      ghost var g := status.observedGeneration;
      var access := Connect();
      assert status.Value() == CreateOrUpdateDraft(g);
      if access.Error? {
        status.SetInstall(False, ClusterAccessError, "");
        return;
      }
      if !access.value {
        status.SetInstall(False, InstallationPending, "Waiting for cluster access to be ready");
        return false, 10, false;
      }
      ok := true;
    }

    /** Cluster access, and then the instance. */
    method AccessAndDeploy(pc: ProviderConfig, status: ReconcileStatus)
      returns (res: nat, failed: bool, ghost f: Findings)
      requires Sure() && AccessGuard(api.mark) && ls.finalizer && ls.id != ""
      requires status.Value() == CreateOrUpdateDraft(status.observedGeneration)
      modifies api, status
      ensures LeftAlone()
      ensures old(Alone()) ==>
        Verdict(res, failed, status.Value()) == JudgeAccess(old(api.world), pc, old(status.observedGeneration))
      ensures Sure() && Proceeded() && (failed || res == 10 || res == 20 || res == 40 || res == 600)
      ensures Finished(status.Value(), old(status.observedGeneration), !failed && res == 600)
      ensures f.pc == pc && (!failed && res == 600 ==> Provides(api.mark, f.provider))
      ensures Delivered(api.trace, |old(api.trace)|, api.world, api.hash, api.kubeconfigs, ls, f, status.Value(),
                        !failed && res == 600)
    {
      f := NOTHING.(pc := pc);
      var ok;
      ok, res, failed := GainAccess(status);
      if !ok { return; }
      ghost var n := |api.trace|;
      res, failed, f := Deploy(pc, status);
      DeliveredEarlier(api.trace, n, |old(api.trace)|, api.world, api.hash, api.kubeconfigs, ls, f, status.Value(),
                       !failed && res == 600);
    }

    /** The steps of a create or update run, on its status. */
    method RunLive(status: ReconcileStatus) returns (res: nat, failed: bool, ghost f: Findings)
      requires status.Value() == CreateOrUpdateDraft(ls.generation)
      requires Sure() && Named() && !ls.deleting && !api.mark.retired
      requires api.world.book.written == {} && api.world.book.held.None?
      modifies this, api, status
      ensures Unsure() && Proceeded() && base.uid == old(base).uid && base.generation >= old(base).generation
      ensures Follows(base, ls) && RefOk(api.mark, base, ls) && base.status.phase == old(base).status.phase
      ensures ls.status == old(ls).status.(configRef := ls.status.configRef)
      ensures Finished(status.Value(), old(ls).generation, !failed && res == 600)
      ensures !failed ==> Sure() && (res == 10 || res == 20 || res == 40 || res == 600)
      ensures !failed && res == 600 ==>
        && Complete(api.mark, api.world.book.written, base, f)
        && Sound(api.trace, |old(api.trace)|, api.world.objects, api.hash, api.kubeconfigs, ls, f)
      ensures Is(status.installCondition, True) ==>
        Sure() && Placed(api.trace, |old(api.trace)|, api.world.objects, api.kubeconfigs, ls, f)
      ensures Onboarded(old(ls)) && ls.status.configRef == old(ls).status.configRef ==> base == old(base)
      ensures LeftAlone()
      ensures old(Alone()) ==>
        Onboarded(base) && ls.status == base.status && ls.status.configRef == NotedRef(old(api.world))
      ensures old(Alone()) ==> Verdict(res, failed, status.Value()) == Judge(old(api.world))
    {
      ghost var n := |api.trace|;
      res, failed, f := 0, true, NOTHING;
      var pc := Onboard(status);
      if pc.None? { return; }
      ghost var m, t := api.mark, api.trace;
      res, failed, f := AccessAndDeploy(pc.value, status);
      DeliveredSound(t, api.trace, n, api.world, api.hash, api.kubeconfigs, ls, f, status.Value(),
                     !failed && res == 600);
      ResolvedLasts(m, api.mark, base, ls.status.configRef.value, pc.value);
    }

    /**
     handleCreateUpdateOperation. Without an error the run is always to be repeated: soon, or after
     ten minutes if the instance is ready.
     */
    method HandleCreateUpdateOperation() returns (res: nat, status: ReconcileStatus, failed: bool, ghost f: Findings)
      requires Sure() && Named() && !ls.deleting && !api.mark.retired
      requires api.world.book.written == {} && api.world.book.held.None?
      modifies this, api
      ensures fresh(status) && Unsure() && Proceeded() && base.uid == old(base).uid
      ensures base.generation >= old(base).generation
      ensures Follows(base, ls) && RefOk(api.mark, base, ls) && base.status.phase == old(base).status.phase
      ensures ls.status == old(ls).status.(configRef := ls.status.configRef)
      ensures Finished(status.Value(), old(ls).generation, !failed && res == 600)
      ensures !failed ==> Sure() && (res == 10 || res == 20 || res == 40 || res == 600)
      ensures !failed && res == 600 ==>
        && Complete(api.mark, api.world.book.written, base, f)
        && Sound(api.trace, |old(api.trace)|, api.world.objects, api.hash, api.kubeconfigs, ls, f)
      ensures Is(status.installCondition, True) ==>
        Sure() && Placed(api.trace, |old(api.trace)|, api.world.objects, api.kubeconfigs, ls, f)
      ensures Onboarded(old(ls)) && ls.status.configRef == old(ls).status.configRef ==> base == old(base)
      ensures LeftAlone()
      ensures old(Alone()) ==>
        Onboarded(base) && ls.status == base.status && ls.status.configRef == NotedRef(old(api.world))
      ensures old(Alone()) ==> Verdict(res, failed, status.Value()) == Judge(old(api.world))
    {
      status := new ReconcileStatus.CreateOrUpdate(ls.generation);
      res, failed, f := RunLive(status);
    }

    // ---------------------------------------------------------------- delete

    /**
     Whether an access request is in deletion or gone. The two requests are read one after the
     other; a live one stays live until the run itself deletes it, so the answer still holds.
     */
    method AreAccessRequestsInDeletion() returns (r: Result<bool>)
      requires Sure()
      modifies api
      ensures Sure() && SameRun() && StillAlone() && api.mark == api.world
      ensures r.Ok? ==> (r.value <==> !BothLive(api.mark))
      ensures old(Alone()) ==> r.Ok?
    {
      var mcp := InDeletion(true);
      if mcp.Error? || mcp.value { return mcp; }
      r := InDeletion(false);
    }

    /** Whether one of the requests is in deletion or gone. */
    method InDeletion(ofMcp: bool) returns (r: Result<bool>)
      requires Sure()
      modifies api
      ensures Sure() && SameRun() && StillAlone() && api.mark == api.world && RelyRequests(old(api.mark), api.mark)
      ensures r.Ok? ==> (r.value <==> !Live(if ofMcp then api.mark.mcp else api.mark.workload))
      ensures old(Alone()) ==> r.Ok?
    {
      var q := api.GetRequest(ofMcp);
      Note();
      if q.Error? { return if q.failure == NotFound then Ok(true) else Error(Failed); }
      return Ok(q.value == Deleting);
    }

    /** A draft of a delete run; Uninstalled is True only if nothing is left that has to go. */
    ghost predicate Ending(d: Draft, generation: nat, clean: bool) {
      && CoherentDraft(d) && d.observedGeneration == generation && d.phase == Terminating
      && (Is(d.uninstall, True) ==> clean)
    }

    /** The copy of the CA bundle, if the configuration names one. */
    method RemoveCa(pc: ProviderConfig, ns: string) returns (ok: bool, ghost took: bool)
      requires Sure() && RemoveGuard(api.mark, ns)
      modifies api
      ensures Sure() && api.Shrunk() && (old(api.Calm()) ==> ok)
      ensures Ops(api.trace) == Ops(old(api.trace)) + (if took then CaDels(ns, pc.ca) else [])
      ensures api.world.objects == Apply(old(api.world).objects, if took then CaDels(ns, pc.ca) else [])
      ensures ok && pc.ca.Some? ==> ConfigMapKey(ns, pc.ca.value.name) !in api.world.objects
    {
      took := false;
      if pc.ca.None? { return true, false; }
      var failure;
      failure, took := DeleteConfigMap(api, ns, pc.ca.value);
      ApplyOne(old(api.world).objects, ClusterWrite(Del(ConfigMapKey(ns, pc.ca.value.name))));
      ok := failure.None? || failure == Some(NotFound);
    }

    /** The first operations of a delete run, as far as it has got, and no others. */
    twostate predicate Removed(d: Removal, conf: Configuration, ca: Option<CaRef>)
      requires Fits(d, conf, api.hash)
      reads api
    {
      && Ops(api.trace) == Ops(old(api.trace)) + RemovalOps(d, conf, ca, api.hash)
      && api.world.objects == Apply(old(api.world).objects, RemovalOps(d, conf, ca, api.hash))
    }

    /**
     The route, the CA bundle and the instance, in this order. A run that starts with every CA bundle
     in its place passes through a world where a Deployment misses it if and only if, at the start,
     a Deployment mounts the one that the provider configuration names, and its copy is gone at the end.
     */
    method Dismantle(pc: ProviderConfig, conf: Configuration, status: ReconcileStatus)
      returns (ok: bool, ghost d: Removal)
      requires Sure() && RemoveGuard(api.mark, conf.Ns())
      requires WebhooksServiceName(conf.webhooksValues) == Plain(DNS_SERVICE_NAME)
      requires Ending(status.Value(), status.observedGeneration, false)
      modifies api, status
      ensures Sure() && api.Shrunk()
      ensures Ending(status.Value(), old(status.observedGeneration), NoDisposables(api.world))
      ensures Fits(d, conf, api.hash) && Removed(d, conf, pc.ca)
      ensures ok ==>
        NoDisposables(api.world) && (pc.ca.Some? ==> ConfigMapKey(conf.Ns(), pc.ca.value.name) !in api.world.objects)
      ensures old(api.Calm()) ==>
        && (ok <==> SourcesPresent(old(api.world).platform, conf))
        && status.Value() == Dismantling(old(status.observedGeneration), ok)
      ensures old(CaIntact(api.world.objects)) ==>
        (CaBroken(api.trace, |old(api.trace)| - 1) <==>
          CaMounted(old(api.world).objects, conf.Ns(), pc.ca)
            && ConfigMapKey(conf.Ns(), pc.ca.value.name) !in api.world.objects)
    {
      ghost var s := api.world.objects;
      ok, d := DismantleParts(pc, conf, status);
      if CaIntact(s) { CaPassed(s, old(api.trace), d, pc.ca, conf); }
    }

    lemma CaPassed(s: Objects, before: seq<Snap>, d: Removal, ca: Option<CaRef>, conf: Configuration)
      requires api.Valid() && before != [] && before <= api.trace && before[|before| - 1].world.objects == s
        && CaIntact(s)
      requires Fits(d, conf, api.hash)
      requires Ops(api.trace) == Ops(before) + RemovalOps(d, conf, ca, api.hash)
      requires api.world.objects == Apply(s, RemovalOps(d, conf, ca, api.hash))
      ensures CaBroken(api.trace, |before| - 1) <==>
        CaMounted(s, conf.Ns(), ca) && ConfigMapKey(conf.Ns(), ca.value.name) !in api.world.objects
    {
      var t, i := api.trace, |before| - 1;
      assert t[..i + 1] == before;
      assert Inv(Nth(t, i).world);
      CaBrokenIff(t, i, d, conf, ca, api.hash);
    }

    method DismantleParts(pc: ProviderConfig, conf: Configuration, status: ReconcileStatus)
      returns (ok: bool, ghost d: Removal)
      requires Sure() && RemoveGuard(api.mark, conf.Ns())
      requires WebhooksServiceName(conf.webhooksValues) == Plain(DNS_SERVICE_NAME)
      requires Ending(status.Value(), status.observedGeneration, false)
      modifies api, status
      ensures Sure() && api.Shrunk()
      ensures Ending(status.Value(), old(status.observedGeneration), NoDisposables(api.world))
      ensures Fits(d, conf, api.hash) && Removed(d, conf, pc.ca)
      ensures ok ==>
        NoDisposables(api.world) && (pc.ca.Some? ==> ConfigMapKey(conf.Ns(), pc.ca.value.name) !in api.world.objects)
      ensures old(api.Calm()) ==>
        && (ok <==> SourcesPresent(old(api.world).platform, conf))
        && status.Value() == Dismantling(old(status.observedGeneration), ok)
    {
      d := Removal(false, false, 0, 0);
      ghost var s, b, n, m := api.world.objects, Ops(api.trace), 0, 0;
      ok, d := RemoveAround(pc, conf.Ns(), status);
      OnlyStarted(d, conf, pc.ca, api.hash);
      if !ok { return; }
      ok, n, m := RemoveObjects(conf, status);
      ThenUninstalled(s, b, d, conf, pc.ca, api.hash, n, m);
      d := Removal(d.route, d.ca, n, m);
    }

    /** The route, and the CA bundle. */
    method RemoveAround(pc: ProviderConfig, ns: string, status: ReconcileStatus) returns (ok: bool, ghost d: Removal)
      requires Sure() && RemoveGuard(api.mark, ns) && Ending(status.Value(), status.observedGeneration, false)
      modifies api, status
      ensures Sure() && api.Shrunk() && (old(api.Calm()) ==> ok) && d.n == 0 && d.m == 0
      ensures Ending(status.Value(), old(status.observedGeneration), false)
      ensures status.observedGeneration == old(status.observedGeneration)
      ensures Ops(api.trace) == Ops(old(api.trace)) + RemovalStart(d, ns, pc.ca)
      ensures api.world.objects == Apply(old(api.world).objects, RemovalStart(d, ns, pc.ca))
      ensures ok ==> TlsRouteKey(ns) !in api.world.objects
      ensures ok && pc.ca.Some? ==> ConfigMapKey(ns, pc.ca.value.name) !in api.world.objects
    {
      ghost var s, b, route, ca := api.world.objects, Ops(api.trace), false, false;
      ok, route := DeleteTLSRoute(api, ns);
      ghost var x := if route then [Del(TlsRouteKey(ns))] else [];
      ApplyOne(s, ClusterWrite(Del(TlsRouteKey(ns))));
      if ok {
        ok, ca := RemoveCa(pc, ns);
      } else {
        status.SetUninstall(False, DNSConfigFailed, "");
      }
      d := Removal(route, ca, 0, 0);
      Consecutive(s, b, x, if ca then CaDels(ns, pc.ca) else []);
    }

    /** The instance. */
    method RemoveObjects(conf: Configuration, status: ReconcileStatus) returns (ok: bool, ghost n: nat, ghost m: nat)
      requires Sure() && RemoveGuard(api.mark, conf.Ns())
      requires WebhooksServiceName(conf.webhooksValues) == Plain(DNS_SERVICE_NAME)
      requires TlsRouteKey(conf.Ns()) !in api.world.objects
      requires Ending(status.Value(), status.observedGeneration, false)
      modifies api, status
      ensures Ending(status.Value(), old(status.observedGeneration), NoDisposables(api.world))
      ensures Sure() && api.Shrunk() && Fits(Removal(false, false, n, m), conf, api.hash)
      ensures Carried(api, old(Begin(api)), UninstallPlan(conf, api.hash, m)[..n])
      ensures ok ==> NoDisposables(api.world)
      ensures old(api.Calm()) ==> (ok <==> SourcesPresent(old(api.world).platform, conf))
      ensures status.Value() == Dismantling(old(status.observedGeneration), ok)
    {
      ghost var before := api.world.objects;
      ok, n, m := UninstallInstance(api, conf);
      if ok {
        api.Holds();
        RemoveGuardLasts(api.mark, api.world, conf.Ns());
        assert UninstallPlan(conf, api.hash, m)[..n] == UninstallPlan(conf, api.hash, m);
        UninstalledClean(api.world, before, conf, api.hash, m);
        status.SetUninstall(True, LandscaperInstalled, "Landscaper has been uninstalled successfully");
      } else {
        status.SetUninstall(False, InstallFailed, "");
      }
    }

    /** Access to the clusters, then the uninstall; done when nothing is left that has to go. */
    method Uninstall(pc: ProviderConfig, status: ReconcileStatus) returns (done: bool, res: nat, failed: bool)
      requires Sure() && ls.deleting && BothLive(api.mark) && api.mark == api.world
      requires Ending(status.Value(), status.observedGeneration, false)
      modifies api, status
      ensures Sure() && Proceeded() && Ending(status.Value(), old(status.observedGeneration), NoDisposables(api.world))
      ensures done ==> NoDisposables(api.world)
      ensures !done ==> failed || res == 10
      ensures old(Alone()) ==> StillAlone()
      ensures old(Alone()) ==> (!done && !failed <==> !BothGranted(old(api.world)))
      ensures old(Alone()) && BothGranted(old(api.world)) ==> (done <==> Uninstallable(old(api.world), pc))
      ensures old(Alone()) ==> status.Value() == JudgeRemoval(old(api.world), pc, old(status.observedGeneration))
    {
      done, res, failed := false, 0, true;
      var access := ConnectToRemove();
      if access.Error? {
        status.SetUninstall(False, ClusterAccessError, "");
        return;
      }
      if !access.value {
        status.SetUninstall(False, InstallationPending, "Waiting for cluster access to be ready");
        return false, 10, false;
      }
      done := RemoveInstance(pc, status);
    }

    /** Cluster access in a delete run: the Landscaper must still have its finalizer. */
    method ConnectToRemove() returns (r: Result<bool>)
      requires Sure() && ls.deleting && BothLive(api.mark) && api.mark == api.world
      modifies api
      ensures Sure() && SameRun()
      ensures r.Ok? && r.value ==> RemoveGuard(api.mark, Namespace(ls.id))
      ensures old(Alone()) ==> StillAlone() && r.Ok? && (r.value <==> BothGranted(old(api.world)))
    {
      api.Holds();
      r := Connect();
    }

    /** The configuration for a delete run. */
    method ConfigureRemoval(pc: ProviderConfig, status: ReconcileStatus)
      returns (conf: Option<Configuration>, ghost provider: seq<string>)
      requires Sure() && Ending(status.Value(), status.observedGeneration, false)
      modifies api, status
      ensures Sure() && SameRun() && Onward(old(api.mark), api.mark) && StillAlone()
      ensures conf.None? ==>
        status.Value() == Uninstalling(old(status.observedGeneration), False, ConfigurationError, "")
      ensures conf.Some? ==>
        status.Value() == old(status.Value()) && conf.value == CreateConfig(ls.id, ls.version, pc, provider, "")
      ensures old(Alone()) ==>
        var p := old(api.world).platform;
        (conf.Some? <==> p.serviceProvider.Some?) && (conf.Some? ==> p.serviceProvider == Some(provider))
    {
      var r;
      r, provider := MakeConfig(pc, "");
      if r.Error? {
        status.SetUninstall(False, ConfigurationError, "");
        return None, provider;
      }
      conf := Some(r.value);
    }

    /** The configuration, and the uninstall it describes. */
    method RemoveInstance(pc: ProviderConfig, status: ReconcileStatus) returns (done: bool)
      requires Sure() && RemoveGuard(api.mark, Namespace(ls.id))
      requires Ending(status.Value(), status.observedGeneration, false)
      modifies api, status
      ensures Sure() && Proceeded() && Ending(status.Value(), old(status.observedGeneration), NoDisposables(api.world))
      ensures done ==> NoDisposables(api.world)
      ensures old(Alone()) ==> StillAlone() && (done <==> Uninstallable(old(api.world), pc))
      ensures old(Alone()) ==> status.Value() == JudgeGranted(old(api.world), pc, old(status.observedGeneration))
    {
      var conf;
      ghost var provider;
      conf, provider := ConfigureRemoval(pc, status);
      if conf.None? { return false; }
      RemoveGuardLasts(old(api.mark), api.mark, Namespace(ls.id));
      ghost var d;
      done, d := Dismantle(pc, conf.value, status);
      if old(Alone()) { UninstallableSources(old(api.world), ls, pc, provider); }
    }

    /** Gives up the finalizer; both requests are gone by then. */
    method RemoveFinalizer() returns (ok: bool)
      requires Sure() && ls.deleting && api.mark.mcp == Absent && api.mark.workload == Absent
      modifies this, api
      ensures Unsure() && SameRun() && Follows(base, ls)
      ensures ls.status == old(ls).status && base.status == old(base).status && ls.deleting
      ensures ok ==> Sure() && !ls.finalizer
      ensures old(Alone()) ==>
        && ok && api.Calm() && SameReports(old(api.world), api.world)
        && api.world.mcp == old(api.world).mcp && api.world.workload == old(api.world).workload
        && Parted(old(api.world), api.world, base, old(base).finalizer)
    {
      ok := true;
      if ls.finalizer {
        ls := ls.(finalizer := false);
        ok := Update();
      }
    }

    /** Deletes the access requests; when both are gone, gives up the finalizer. */
    method Release(status: ReconcileStatus) returns (res: nat, failed: bool)
      requires Sure() && ls.deleting && NoDisposables(api.world)
      requires Ending(status.Value(), status.observedGeneration, true)
      modifies this, api, status
      ensures Unsure() && Follows(base, ls) && ls.status == old(ls).status && base.status == old(base).status
      ensures old(api.trace) <= api.trace && SameConfigs(old(api.mark), api.mark)
      ensures base.uid == old(base).uid && base.generation >= old(base).generation && ls.deleting
      ensures Ending(status.Value(), old(status.observedGeneration), NoDisposables(api.world))
      ensures !failed ==> Sure() && (res == 0 || res == 10) && (res == 0 ==> !ls.finalizer)
      ensures old(Alone()) ==>
        && !failed && Released(old(api.world), api.world, res) && api.Calm() && SameReports(old(api.world), api.world)
        && Parted(old(api.world), api.world, base, GivesUp(old(api.world))) && status.Value() == old(status.Value())
    {
      var gone := DeleteAccess();
      if gone.Error? {
        status.SetUninstall(False, ClusterAccessError, "");
        return 0, true;
      }
      if !gone.value { return 10, false; }
      var ok := RemoveFinalizer();
      return 0, !ok;
    }

    /** ClusterAccessReconciler.ReconcileDelete, in a run that knows the Landscaper to be in deletion. */
    method DeleteAccess() returns (r: Result<bool>)
      requires Sure() && ls.deleting && NoDisposables(api.world)
      modifies api
      ensures Sure() && old(api.trace) <= api.trace && SameConfigs(old(api.mark), api.mark)
      ensures api.world.objects == old(api.world).objects
      ensures r.Ok? && r.value ==> api.mark.mcp == Absent && api.mark.workload == Absent
      ensures old(Alone()) ==>
        && r.Ok? && Alone() && SameReports(old(api.world), api.world) && api.world.ls == old(api.world).ls
        && api.world.mcp == Retired(old(api.world).mcp) && api.world.workload == Retired(old(api.world).workload)
        && (r.value <==> old(api.world).mcp == Absent && old(api.world).workload == Absent)
    {
      r := api.ReconcileAccessDelete();
      ghost var b := api.before;
      ghost var m, k :| api.world == AccessDeleteEffect(b, m, k);
      AccessDeleteKnown(old(api.mark), b, api.world, base, m, k);
    }

    /**
     handleDeleteOperation. As long as both requests are live the instance is uninstalled; then
     the requests are deleted; when they are gone, so is the finalizer.
     */
    method HandleDeleteOperation() returns (res: nat, status: ReconcileStatus, failed: bool)
      requires Sure() && ls.deleting
      modifies this, api
      ensures fresh(status) && Unsure() && Follows(base, ls) && RefOk(api.mark, base, ls)
      ensures old(api.trace) <= api.trace && base.uid == old(base).uid && base.generation >= old(base).generation
      ensures ls.deleting
      ensures ls.status == old(ls).status.(configRef := ls.status.configRef)
      ensures base.status.phase == old(base).status.phase
      ensures Ending(status.Value(), old(ls).generation, NoDisposables(api.world))
      ensures !failed ==> Sure() && (res == 0 || res == 10) && (res == 0 ==> !ls.finalizer)
      ensures old(Alone()) ==>
        && Progressed(old(api.world), api.world, failed) && api.Calm() && SameReports(old(api.world), api.world)
        && Handled(old(api.world), api.world, base) && ls.status == base.status
      ensures old(Alone()) ==> status.Value() == JudgeDelete(old(api.world))
    {
      status := new ReconcileStatus.Delete(ls.generation);
      var pc := GetProviderConfigForLandscaper();
      if pc.Error? {
        status.SetUninstall(False, ProviderConfigError, "");
        if old(Alone()) { ProgressedNot(old(api.world), api.world); }
        return 0, status, true;
      }
      ghost var w := api.world;
      res, failed := UninstallAndRelease(pc.value, status);
      if old(Alone()) {
        ProgressedBy(old(api.world), w, api.world, pc.value, res, failed);
        JudgedBefore(old(api.world), w, pc.value);
        HandledBy(old(api.world), w, api.world, base);
      }
    }

    method UninstallAndRelease(pc: ProviderConfig, status: ReconcileStatus) returns (res: nat, failed: bool)
      requires Sure() && ls.deleting && status.Value() == DeleteDraft(status.observedGeneration)
      modifies this, api, status
      ensures Unsure() && Follows(base, ls) && ls.status == old(ls).status && base.status == old(base).status
      ensures old(api.trace) <= api.trace && SameConfigs(old(api.mark), api.mark)
      ensures base.uid == old(base).uid && base.generation >= old(base).generation && ls.deleting
      ensures Ending(status.Value(), old(status.observedGeneration), NoDisposables(api.world))
      ensures !failed ==> Sure() && (res == 0 || res == 10) && (res == 0 ==> !ls.finalizer)
      ensures old(Alone()) ==>
        && Removing(old(api.world), api.world, pc, res, failed) && api.Calm()
        && SameReports(old(api.world), api.world)
        && Parted(old(api.world), api.world, base, GivesUp(old(api.world)))
      ensures old(Alone()) ==> status.Value() == JudgeUninstall(old(api.world), pc, old(status.observedGeneration))
    {
      var done;
      done, res, failed := UninstallIfLive(pc, status);
      if !done { return; }
      res, failed := Release(status);
    }

    /** The uninstall, as long as both access requests are live. */
    method UninstallIfLive(pc: ProviderConfig, status: ReconcileStatus) returns (done: bool, res: nat, failed: bool)
      requires Sure() && ls.deleting && status.Value() == DeleteDraft(status.observedGeneration)
      modifies api, status
      ensures Sure() && old(api.trace) <= api.trace && SameConfigs(old(api.mark), api.mark)
      ensures Ending(status.Value(), old(status.observedGeneration), NoDisposables(api.world))
      ensures if done then NoDisposables(api.world) else failed || res == 10
      ensures StillAlone()
      ensures old(Alone()) ==>
        && status.Value() == JudgeUninstall(old(api.world), pc, old(status.observedGeneration))
        && (!done && failed <==> BothGranted(old(api.world)) && !Uninstallable(old(api.world), pc))
        && (!done && !failed <==> BothLive(old(api.world)) && !BothGranted(old(api.world)))
    {
      var gone := AreAccessRequestsInDeletion();
      if gone.Error? {
        status.SetUninstall(False, ClusterAccessError, "");
        return false, 0, true;
      }
      if !gone.value {
        done, res, failed := Uninstall(pc, status);
      } else {
        NothingLeft();
        done, res, failed := true, 0, false;
      }
    }

    /** Without both requests live, there is nothing left to uninstall. */
    lemma NothingLeft()
      requires api.Valid() && !BothLive(api.mark)
      ensures NoDisposables(api.world)
    {
      api.Holds();
    }

    // ---------------------------------------------------------------- reconcile

    /** The status in memory is the one that the draft says. */
    method Convert(status: ReconcileStatus, ghost s: LandscaperStatus)
      requires Unsure() && Follows(base, ls) && RefOk(api.mark, base, ls) && Coherent(s)
      requires ls.status == s.(configRef := ls.status.configRef)
      requires s.observedGeneration <= status.observedGeneration <= base.generation && CoherentDraft(status.Value())
      requires (status.phase == Terminating ==> ls.deleting)
      requires (base.status.phase == Terminating ==> status.phase == Terminating)
      modifies this`ls
      ensures Unsure() && Follows(base, ls) && Settled(ls) && RefOk(api.mark, base, ls)
      ensures ls == old(ls).(status := Converted(status.Value(), old(ls).status, api.world.now))
    {
      DraftSettles(base, ls, s, status.Value(), api.world.now);
      var r := status.ConvertToLandscaperStatus(ls.status, api.world.now);
      ls := ls.(status := r);
    }

    /** A run that has drawn its status may come to an end with this result. */
    ghost predicate Concluded(s: LandscaperStatus, res: nat, f: Findings)
      reads this, api
    {
      && Drawn(s) && (res == 0 || res == 10 || res == 20 || res == 40 || res == 600)
      && (res == 0 ==> !base.finalizer && base.deleting)
      && (res == 600 ==> Complete(api.mark, api.world.book.written, base, f))
    }

    /** The handler for a Landscaper that is not in deletion, and the status it comes to. */
    method HandleLive() returns (res: nat, failed: bool, ghost f: Findings)
      requires Sure() && Named() && !ls.deleting && !api.mark.retired
      requires api.world.book.written == {} && api.world.book.held.None?
      modifies this, api
      ensures Unsure() && Follows(base, ls) && Settled(ls) && RefOk(api.mark, base, ls)
      ensures old(api.trace) <= api.trace && base.uid == old(base).uid
      ensures !failed ==> Concluded(old(ls).status, res, f) && res > 0
      ensures ls.status.phase == PhaseReady <==> !failed && res == 600
      ensures Claims(ls.status) ==> Drawn(old(ls).status)
      ensures Truthful(api.trace, |old(api.trace)|, api.world.objects, api.hash, api.kubeconfigs, ls, f)
      ensures Onboarded(old(ls)) && ls.status.configRef == old(ls).status.configRef ==> base == old(base)
      ensures LeftAlone()
      ensures old(Alone()) ==>
        && Onboarded(base) && base.status == old(ls).status.(configRef := NotedRef(old(api.world)))
        && ls.status == JudgedStatus(old(api.world))
        && res == Judge(old(api.world)).res && failed == Judge(old(api.world)).failed
    {
      var status;
      res, status, failed, f := HandleCreateUpdateOperation();
      ConvertedHas(status.Value(), ls.status, api.world.now, Installed, True);
      ConvertedHas(status.Value(), ls.status, api.world.now, Uninstalled, True);
      Convert(status, old(ls).status);
    }

    /** The handler for a Landscaper in deletion, and the status it comes to. */
    method HandleDeleted() returns (res: nat, failed: bool)
      requires Sure() && ls.deleting
      modifies this, api
      ensures Unsure() && Follows(base, ls) && Settled(ls) && RefOk(api.mark, base, ls)
      ensures old(api.trace) <= api.trace && base.uid == old(base).uid && ls.status.phase == Terminating
      ensures !Has(ls.status.conditions, Installed, True)
      ensures Has(ls.status.conditions, Uninstalled, True) ==> NoDisposables(api.world)
      ensures !failed ==>
        Drawn(old(ls).status) && (res == 0 || res == 10) && (res == 0 ==> !base.finalizer && base.deleting)
      ensures old(Alone()) ==>
        && Progressed(old(api.world), api.world, failed) && api.Calm() && SameReports(old(api.world), api.world)
        && Handled(old(api.world), api.world, base) && ls.status == DeletedStatus(old(api.world))
    {
      var status;
      res, status, failed := HandleDeleteOperation();
      ConvertedHas(status.Value(), ls.status, api.world.now, Installed, True);
      ConvertedHas(status.Value(), ls.status, api.world.now, Uninstalled, True);
      Convert(status, old(ls).status);
    }

    /** Only the status in memory is new, and if it is what it was at the beginning, so is the stored one. */
    ghost predicate Drawn(s: LandscaperStatus)
      reads this, api
    {
      && Knows(api.mark, base) && ls == base.(status := ls.status)
      && ls.status.configRef == base.status.configRef && (ls.status == s ==> base.status == s)
    }

    /** What is known after the status has been stored. */
    method Store(oldStatus: LandscaperStatus) returns (ok: bool)
      requires Unsure() && Follows(base, ls) && Settled(ls) && RefOk(api.mark, base, ls) && '%' !in namespace
      modifies this, api
      ensures Unsure() && SameRun() && ls.status == old(ls).status
      ensures ok && old(Drawn(oldStatus)) ==>
        && Knows(api.mark, base) && base == old(base).(rv := base.rv, status := ls.status)
        && (Exists(api.world, ls.uid) ==> api.world.ls.value.status == ls.status)
      ensures old(Drawn(oldStatus)) ==> ls == old(ls).(rv := ls.rv)
      ensures !HasFinalizer(old(api.mark)) ==> !HasFinalizer(api.mark)
      ensures old(Alone()) ==> ok && StillAlone() && (ls.status != oldStatus ==> base.status == ls.status)
      ensures old(Gone()) ==> ok && api.Calm() && api.world == old(api.world)
      ensures ls.status == oldStatus ==> base == old(base)
    {
      ghost var drawn := Drawn(oldStatus);
      ok := UpdateStatus(oldStatus);
      if ok && drawn { StoredNow(api.mark, api.world, base, ls); }
    }

    /** When the run may end for good. */
    lemma MayEnd(res: nat, f: Findings)
      requires Unsure() && Knows(api.mark, base) && (res == 0 || res == 600)
      requires res == 0 ==> !base.finalizer && base.deleting
      requires res == 600 ==> Complete(api.mark, api.world.book.written, base, f)
      ensures EndGuard(api.world, false)
      ensures res == 0 ==> !HasFinalizer(api.world)
    {
      KnowsLasts(api.mark, api.world, base);
      OnwardLater(api.mark, api.world);
      if res == 600 {
        var n := base.status.configRef.value;
        ResolvedLasts(api.mark, api.world, base, n, f.pc);
        CompleteEnds(api.world, base, n, f.pc, f.provider);
      }
    }

    /** Ends the run: it is to be repeated soon, or after ten minutes, or not at all. */
    method Finish(res: nat, err: bool, ghost f: Findings)
      requires Unsure() && (!err ==> res <= 600) && (!err && (res == 0 || res == 600) ==> Knows(api.mark, base))
      requires !err && res == 0 ==> !base.finalizer && base.deleting
      requires !err && res == 600 ==> Complete(api.mark, api.world.book.written, base, f)
      modifies api
      ensures api.Valid() && old(api.trace) <= api.trace && SameButBook(old(api.world), api.world)
      ensures api.tick == old(api.tick)
      ensures !err && res == 0 ==> !HasFinalizer(api.world)
      ensures !HasFinalizer(old(api.mark)) ==> !HasFinalizer(api.world)
    {
      if !err && (res == 0 || res == 600) { MayEnd(res, f); }
      Without(api.mark, api.world);
      api.End(err || 0 < res < 600);
    }

    /** Stores the status; when that goes well, the run may end with its result. */
    method Keep(oldStatus: LandscaperStatus, res: nat, failed: bool, ghost f: Findings) returns (err: bool)
      requires Unsure() && Follows(base, ls) && Settled(ls) && RefOk(api.mark, base, ls) && '%' !in namespace
      requires !failed ==> Concluded(oldStatus, res, f)
      modifies this, api
      ensures Unsure() && SameRun() && ls.status == old(ls).status
      ensures (failed ==> err) && (old(Drawn(oldStatus)) ==> ls == old(ls).(rv := ls.rv))
      ensures !err ==> res <= 600 && Knows(api.mark, base)
      ensures !err ==> Exists(api.world, ls.uid) ==> api.world.ls.value.status == ls.status
      ensures !err && res == 0 ==> !base.finalizer && base.deleting
      ensures !err && res == 600 ==> Complete(api.mark, api.world.book.written, base, f)
      ensures !HasFinalizer(old(api.mark)) ==> !HasFinalizer(api.mark)
      ensures old(Alone()) ==> err == failed && StillAlone() && (ls.status != oldStatus ==> base.status == ls.status)
      ensures old(Gone()) ==> err == failed && api.Calm() && api.world == old(api.world)
      ensures ls.status == oldStatus ==> base == old(base)
    {
      ghost var m, b := api.mark, base;
      var ok := Store(oldStatus);
      err := failed || !ok;
      if !err && res == 600 { CompleteStays(m, api.mark, api.world.book.written, b, base, f); }
    }

    /** Stores the status, and ends the run. */
    method Conclude(oldStatus: LandscaperStatus, res: nat, failed: bool, ghost f: Findings) returns (err: bool)
      requires Unsure() && Follows(base, ls) && Settled(ls) && RefOk(api.mark, base, ls) && '%' !in namespace
      requires !failed ==> Concluded(oldStatus, res, f)
      modifies this, api
      ensures api.Valid() && old(api.trace) <= api.trace && api.world.objects == old(api.world).objects
      ensures ls.status == old(ls).status
      ensures (failed ==> err) && (old(Drawn(oldStatus)) ==> ls == old(ls).(rv := ls.rv))
      ensures !err ==> Exists(api.world, ls.uid) ==> api.world.ls.value.status == ls.status
      ensures !err && res == 0 ==> !HasFinalizer(api.world)
      ensures !HasFinalizer(old(api.mark)) ==> !HasFinalizer(api.world)
      ensures old(Alone()) ==> err == failed && StillAlone() && (ls.status != oldStatus ==> base.status == ls.status)
      ensures old(Gone()) ==> err == failed && api.Calm() && SameButBook(old(api.world), api.world)
      ensures ls.status == oldStatus ==> base == old(base)
    {
      err := Keep(oldStatus, res, failed, f);
      Finish(res, err, f);
    }

    method ProcessLive() returns (res: nat, err: bool, ghost f: Findings)
      requires Sure() && Named() && !ls.deleting && !api.mark.retired
      requires api.world.book.written == {} && api.world.book.held.None?
      modifies this, api
      ensures api.Valid() && old(api.trace) <= api.trace && (!err ==> res > 0)
      ensures !err ==> Exists(api.world, ls.uid) ==> api.world.ls.value.status == ls.status
      ensures Truthful(api.trace, |old(api.trace)|, api.world.objects, api.hash, api.kubeconfigs, ls, f)
      ensures old(Alone()) ==> api.Calm() && Lived(old(api.world), api.world, res, err)
    {
      var oldStatus := ls.status;
      ghost var w, a, calm := api.world, base, Alone();
      var failed;
      res, failed, f := HandleLive();
      ghost var t, o, l := api.trace, api.world.objects, ls;
      ghost var mid := base;
      err := Conclude(oldStatus, res, failed, f);
      TruthfulLater(t, |old(api.trace)|, api.trace, o, api.hash, api.kubeconfigs, l, ls, f);
      if calm { LivedSo(w, api.world, a, mid, base, res, err); }
    }

    method ProcessDeleted() returns (res: nat, err: bool)
      requires Sure() && ls.deleting
      modifies this, api
      ensures api.Valid() && old(api.trace) <= api.trace
      ensures Truthful(api.trace, |old(api.trace)|, api.world.objects, api.hash, api.kubeconfigs, ls, NOTHING)
      ensures !err ==> Exists(api.world, ls.uid) ==> api.world.ls.value.status == ls.status
      ensures !err && res == 0 ==> !HasFinalizer(api.world)
      ensures old(Alone()) ==> api.Calm() && Passed(old(api.world), api.world, err)
    {
      var oldStatus := ls.status;
      ghost var w, calm := api.world, Alone();
      var failed;
      res, failed := HandleDeleted();
      ghost var m, b := api.world, base;
      err := Conclude(oldStatus, res, failed, NOTHING);
      if calm { PassedSo(w, m, api.world, b, base, err); }
    }

    /** A run for a Landscaper that has been read. */
    method Process() returns (res: nat, err: bool, ghost f: Findings)
      requires Sure() && Named() && api.mark == api.world && api.world.ls == Some(base)
      requires api.world.book.written == {} && api.world.book.held.None?
      modifies this, api
      ensures api.Valid() && old(api.trace) <= api.trace
      ensures !err ==> Exists(api.world, ls.uid) ==> api.world.ls.value.status == ls.status
      ensures !err && res == 0 ==> !HasFinalizer(api.world)
      ensures Truthful(api.trace, |old(api.trace)|, api.world.objects, api.hash, api.kubeconfigs, ls, f)
      ensures old(api.Calm()) && old(ls).deleting ==> api.Calm() && Passed(old(api.world), api.world, err)
      ensures old(api.Calm()) && !old(ls).deleting ==> api.Calm() && Lived(old(api.world), api.world, res, err)
    {
      if ls.deleting {
        res, err := ProcessDeleted();
        f := NOTHING;
      } else {
        api.Holds();
        res, err, f := ProcessLive();
      }
    }

    /** The beginning of a run: the Landscaper as it is stored now, if it is there. */
    method Read() returns (r: Result<bool>)
      requires api.Valid() && '%' !in namespace
      modifies this, api
      ensures api.Valid() && old(api.trace) < api.trace && api.world.objects == old(api.world).objects
      ensures r.Ok? && r.value ==>
        && Sure() && api.mark == api.world && api.world.ls == Some(base)
        && api.world.book.written == {} && api.world.book.held.None?
      ensures r.Ok? && !r.value ==> EndGuard(api.world, false) && !HasFinalizer(api.world)
      ensures old(api.Calm()) ==>
        api.Calm() && SameButBook(old(api.world), api.world) && (r.Ok? && (r.value <==> api.world.ls.Some?))
    {
      api.Begin();
      var g := api.GetLandscaper();
      if g.Error? {
        return if g.failure == NotFound then Ok(false) else Error(Failed);
      }
      ls := g.value;
      base := ls;
      api.StatusHolds();
      KnowsStored(api.world);
      api.Mark();
      return Ok(true);
    }

    /**
     Reconcile: one run, whatever fails and whatever others do in between. Without an error the
     status in memory is the stored one, or the object is gone; without an error and without a
     repetition, no Landscaper with the controller's finalizer is left; and Ready is sound.
     */
    method Reconcile() returns (res: nat, err: bool, ghost found: bool, ghost f: Findings)
      requires api.Valid() && Named()
      modifies this, api
      ensures api.Valid() && Named() && old(api.trace) < api.trace
      ensures !err && found && Exists(api.world, ls.uid) ==> api.world.ls.value.status == ls.status
      ensures !err && res == 0 ==> !HasFinalizer(api.world)
      ensures found ==> Truthful(api.trace, |old(api.trace)|, api.world.objects, api.hash, api.kubeconfigs, ls, f)
      ensures old(api.Calm()) && old(api.world).ls.None? ==>
        api.Calm() && SameButBook(old(api.world), api.world) && !err && res == 0
      ensures old(api.Calm()) && Dying(old(api.world)) ==> api.Calm() && Passed(old(api.world), api.world, err)
      ensures old(api.Calm()) && Living(old(api.world)) ==> api.Calm() && Lived(old(api.world), api.world, res, err)
    {
      found, f := false, NOTHING;
      ghost var w, m, s := api.world, api.mark, api.trace;
      var there := Read();
      api.NamingHolds(s, m);
      if there.Error? {
        api.End(true);
        return 0, true, false, f;
      }
      if !there.value {
        api.End(false);
        return 0, false, false, f;
      }
      found := true;
      ghost var t, v := api.trace, api.world;
      res, err, f := Process();
      api.NamingHolds(s, m);
      if old(api.Calm()) && Living(w) { LivedFrom(w, v, api.world, res, err); }
      if old(api.Calm()) && Dying(w) { PassedFrom(w, v, api.world, err); }
      TruthfulEarlier(api.trace, |t|, api.trace, |old(api.trace)|, api.world.objects, api.hash, api.kubeconfigs, ls, ls,
                      f);
    }
  }

  /**
   The status tells the truth about the run that computed it: Ready and Installed are sound, and
   Uninstalled is True only when no object is left that an uninstall has to remove.
   */
  ghost predicate Truthful(t: seq<Snap>, n: nat, o: Objects, hash: NameHash, kcs: Kubeconfigs, ls: Landscaper,
                           f: Findings) {
    && (ls.status.phase == PhaseReady ==> Sound(t, n, o, hash, kcs, ls, f))
    && (Has(ls.status.conditions, Installed, True) ==> Placed(t, n, o, kcs, ls, f))
    && (Has(ls.status.conditions, Uninstalled, True) ==> forall k :: k in o ==> !Disposable(k))
  }

  /** The status says something of the instance. */
  predicate Claims(s: LandscaperStatus) {
    s.phase == PhaseReady || Has(s.conditions, Installed, True)
  }

  lemma TruthfulLater(t: seq<Snap>, n: nat, u: seq<Snap>, o: Objects, hash: NameHash, kcs: Kubeconfigs, ls: Landscaper,
                      after: Landscaper, f: Findings)
    requires Truthful(t, n, o, hash, kcs, ls, f) && t <= u && after.status == ls.status
    requires Claims(ls.status) ==> after.id == ls.id && after.version == ls.version
    ensures Truthful(u, n, o, hash, kcs, after, f)
  {
    if Claims(ls.status) { TruthfulEarlier(t, n, u, n, o, hash, kcs, ls, after, f); }
  }

  lemma TruthfulEarlier(t: seq<Snap>, n: nat, u: seq<Snap>, m: nat, o: Objects, hash: NameHash, kcs: Kubeconfigs,
                        ls: Landscaper, after: Landscaper, f: Findings)
    requires Truthful(t, n, o, hash, kcs, ls, f) && t <= u && m <= n
    requires after.id == ls.id && after.version == ls.version && after.status == ls.status
    ensures Truthful(u, m, o, hash, kcs, after, f)
  {
    if ls.status.phase == PhaseReady { SoundEarlier(t, n, u, m, o, hash, kcs, ls, after, f); }
    if Has(ls.status.conditions, Installed, True) { FootprintStays(o, o, t, u, n, m, f.conf, kcs); }
  }

  lemma SoundEarlier(t: seq<Snap>, n: nat, u: seq<Snap>, m: nat, o: Objects, hash: NameHash, kcs: Kubeconfigs,
                     ls: Landscaper, after: Landscaper, f: Findings)
    requires Sound(t, n, o, hash, kcs, ls, f) && t <= u && m <= n
    requires after.id == ls.id && after.version == ls.version && after.status.configRef == ls.status.configRef
    ensures Sound(u, m, o, hash, kcs, after, f)
  {
    ConfigStays(t, u, n, m, ls.status.configRef.value, f.pc);
    HostStays(t, u, n, m, hash, Namespace(ls.id), f.host);
    HostStays(t, u, n, m, hash, Namespace(ls.id), f.routeHost);
    FootprintStays(o, o, t, u, n, m, f.conf, kcs);
    AcceptedStays(t, u, n, m, Namespace(ls.id));
    forall c ensures UpAt(u, m, Namespace(ls.id), c) { UpStays(t, u, n, m, Namespace(ls.id), c); }
  }

  /** The onboarding steps do not change what the references lead to. */
  lemma ClaimedSame(w: World, v: World)
    requires w.ls.Some? && v.ls.Some? && v.platform == w.platform
    requires v.ls.value.version == w.ls.value.version && v.ls.value.configRef == w.ls.value.configRef
    requires v.ls.value.status.configRef == w.ls.value.status.configRef
    ensures ResolvedConfig(v) == ResolvedConfig(w) && NotedRef(v) == NotedRef(w)
    ensures VersionListed(v) == VersionListed(w) && Configured(v) == Configured(w)
  {}

  predicate AllPresent(p: PlatformState, conf: Configuration) {
    DeployersPresent(p, conf) && LandscaperPresent(p, conf)
  }

  lemma PresentAnyway(p: PlatformState, conf: Configuration, ca: Option<CaRef>)
    ensures AllPresent(p, conf.(ca := ca)) <==> AllPresent(p, conf)
  {
    assert forall c :: conf.(ca := ca).Sources(c) == conf.Sources(c);
  }

  lemma PresentSources(p: PlatformState, ls: Landscaper, pc: ProviderConfig, provider: seq<string>, host: string)
    requires p.serviceProvider == Some(provider)
    ensures AllPresent(p, CreateConfig(ls.id, ls.version, pc, provider, host)) <==> PullSecretsPresent(p, pc)
  {
    var conf := CreateConfig(ls.id, ls.version, pc, provider, host);
    forall c ensures conf.Sources(c) == PullSecretsOf(pc, provider, c) {
      CreateConfigSources(ls.id, ls.version, pc, provider, host, c);
    }
    if AllPresent(p, conf) {
      forall c ensures Present(p, PullSecretsOf(pc, provider, c)) { assert Present(p, conf.Sources(c)); }
    }
  }

  /** Writing the route leaves the footprint as it is. */
  lemma RouteAside(o: Objects, p: Objects, t: seq<Snap>, u: seq<Snap>, n: nat, conf: Configuration, kcs: Kubeconfigs,
                   host: string)
    requires Footprinted(o, t, n, conf, kcs) && t <= u && (p == o || p == o[TlsRouteKey(conf.Ns()) := TlsRoute(host)])
    ensures Footprinted(p, u, n, conf, kcs)
  {
    FootprintStays(o, p, t, u, n, n, conf, kcs);
  }

  lemma FootprintStands(o: Objects, t: seq<Snap>, n: nat, conf: Configuration, kcs: Kubeconfigs)
    requires Footprinted(o, t, n, conf, kcs)
    ensures forall c :: DeploymentKey(conf.Ns(), c) in o
  {
    forall c ensures DeploymentKey(conf.Ns(), c) in o { assert Footprint(conf, DeploymentKey(conf.Ns(), c)); }
  }

  lemma UpIffReady(w: World, ns: string)
    requires forall c :: DeploymentKey(ns, c) in w.objects
    ensures (forall c :: Up(w.objects, w.observed, ns, c)) <==> forall c :: c in w.observed.ready
  {
    if forall c :: Up(w.objects, w.observed, ns, c) {
      forall c ensures c in w.observed.ready { assert Up(w.objects, w.observed, ns, c); }
    }
  }

  /** What a run has delivered that gave its draft this value. */
  ghost predicate Delivered(t: seq<Snap>, n: nat, w: World, hash: NameHash, kcs: Kubeconfigs, ls: Landscaper,
                            f: Findings,
                            d: Draft, ready: bool) {
    && (Is(d.install, True) ==> Placed(t, n, w.objects, kcs, ls, f))
    && (ready ==>
          && (forall t :: Wants(f.pc, f.provider, t) ==> t in w.book.written)
          && Deployed(t, n, w.objects, hash, kcs, ls, f))
  }

  lemma DeliveredEarlier(t: seq<Snap>, n: nat, m: nat, w: World, hash: NameHash, kcs: Kubeconfigs, ls: Landscaper,
                         f: Findings, d: Draft, ready: bool)
    requires Delivered(t, n, w, hash, kcs, ls, f, d, ready) && m <= n
    ensures Delivered(t, m, w, hash, kcs, ls, f, d, ready)
  {
    if Is(d.install, True) { PlacedEarlier(t, n, m, w.objects, kcs, ls, f); }
    if ready { DeployedEarlier(t, n, m, w.objects, hash, kcs, ls, f); }
  }

  lemma Deliver(t: seq<Snap>, u: seq<Snap>, n: nat, w: World, hash: NameHash, kcs: Kubeconfigs, ls: Landscaper,
                f: Findings, d: Draft, ready: bool)
    requires t <= u && n <= |t| && HostAt(t, n, hash, Namespace(ls.id), f.host)
    requires f.conf == CreateConfig(ls.id, ls.version, f.pc, f.provider, f.host).(ca := f.pc.ca)
    requires Is(d.install, True) ==> Footprinted(w.objects, u, |t|, f.conf, kcs)
    requires ready ==>
      && CopiesWritten(f.conf, w.book.written) && (f.pc.ca.Some? ==> CaTarget(f.pc.ca.value.name) in w.book.written)
      && Exposed(u, |t|, w.objects, hash, kcs, Namespace(ls.id), f.conf, f.routeHost)
    ensures Delivered(u, n, w, hash, kcs, ls, f, d, ready)
  {
    if Is(d.install, True) { PlacedEarlier(u, |t|, n, w.objects, kcs, ls, f); }
    if ready {
      CopiesAnyway(CreateConfig(ls.id, ls.version, f.pc, f.provider, f.host), f.pc.ca, w.book.written);
      WantsWritten(ls.id, ls.version, f.pc, f.provider, f.host, w.book.written);
      HostStays(t, u, n, n, hash, Namespace(ls.id), f.host);
      ExposedEarlier(u, |t|, n, w.objects, hash, kcs, Namespace(ls.id), f.conf, f.routeHost);
    }
  }

  /** With the configuration that has been found before, what has been delivered is sound. */
  lemma DeliveredSound(t: seq<Snap>, u: seq<Snap>, n: nat, w: World, hash: NameHash, kcs: Kubeconfigs, ls: Landscaper,
                       f: Findings, d: Draft, ready: bool)
    requires t <= u && n <= |t| && Delivered(u, |t|, w, hash, kcs, ls, f, d, ready)
    requires ls.status.configRef.Some? && ConfigAt(t, n, ls.status.configRef.value, f.pc) && ls.version in f.pc.versions
    ensures Is(d.install, True) ==> Placed(u, n, w.objects, kcs, ls, f)
    ensures ready ==> Sound(u, n, w.objects, hash, kcs, ls, f)
  {
    DeliveredEarlier(u, |t|, n, w, hash, kcs, ls, f, d, ready);
    ConfigStays(t, u, n, n, ls.status.configRef.value, f.pc);
  }

  predicate Living(w: World) {
    w.ls.Some? && !w.ls.value.deleting
  }

  /**
   What a create or update run does to the Landscaper when nobody interferes: it ends as judged and
   stores the status judged; and it does not write at all if there is nothing new to write.
   */
  predicate Lived(w: World, v: World, res: nat, err: bool) {
    && Concluding(w, v) && SameSight(w, v) && v.now == w.now
    && err == Judge(w).failed && res == Judge(w).res
    && (Still(w) ==> v.ls == w.ls)
  }

  /**
   From a, the stored version at the beginning, over b, the one before the status is stored, to c,
   the one at the end.
   */
  lemma LivedSo(w: World, v: World, a: Landscaper, b: Landscaper, c: Landscaper, res: nat, err: bool)
    requires w.ls == Some(a) && v.ls == Some(c) && SameSight(w, v) && v.now == w.now
    requires err == Judge(w).failed && res == Judge(w).res
    requires Onboarded(b) && b.status == a.status.(configRef := NotedRef(w))
    requires b == a.(rv := b.rv, finalizer := b.finalizer, annotated := b.annotated, id := b.id, status := b.status)
    requires Onboarded(a) && NotedRef(w) == a.status.configRef ==> b == a
    requires c == b.(rv := c.rv, status := c.status)
    requires if JudgedStatus(w) == a.status then c == b else c.status == JudgedStatus(w)
    ensures Lived(w, v, res, err)
  {}

  lemma LivedFrom(u: World, w: World, v: World, res: nat, err: bool)
    requires SameButBook(u, w) && Living(w) && Lived(w, v, res, err)
    ensures Lived(u, v, res, err)
  {
    assert Judge(u) == Judge(w) && NotedRef(u) == NotedRef(w);
  }

  predicate Dying(w: World) {
    w.ls.Some? && w.ls.value.deleting
  }

  predicate SameButBook(w: World, v: World) {
    && v.ls == w.ls && v.platform == w.platform && v.mcp == w.mcp && v.workload == w.workload && v.objects == w.objects
    && v.observed == w.observed && v.now == w.now
  }

  lemma Without(w: World, v: World)
    requires Onward(w, v)
    ensures !HasFinalizer(w) ==> !HasFinalizer(v)
  {}

  /**
   The service provider is there, and the pull secrets that an uninstall looks up. The helm
   deployer's are not among them.
   */
  predicate Uninstallable(w: World, pc: ProviderConfig) {
    && w.platform.serviceProvider.Some?
    && Present(w.platform, PullSecretsOf(pc, w.platform.serviceProvider.value, Main))
    && Present(w.platform, PullSecretsOf(pc, w.platform.serviceProvider.value, Webhooks))
    && Present(w.platform, PullSecretsOf(pc, w.platform.serviceProvider.value, Manifest))
  }

  function Uninstalling(g: nat, status: ConditionStatus, reason: Reason, message: string): Draft {
    Draft(None, None, Some(Condition(Uninstalled, status, g, reason, message, 0)), g, Terminating)
  }

  /** The draft after the uninstallers. */
  function Dismantling(g: nat, ok: bool): Draft {
    if ok then Uninstalling(g, True, LandscaperInstalled, "Landscaper has been uninstalled successfully")
    else Uninstalling(g, False, InstallFailed, "")
  }

  function JudgeGranted(w: World, pc: ProviderConfig, g: nat): Draft {
    if w.platform.serviceProvider.None? then Uninstalling(g, False, ConfigurationError, "")
    else Dismantling(g, Uninstallable(w, pc))
  }

  function JudgeRemoval(w: World, pc: ProviderConfig, g: nat): Draft {
    if BothGranted(w) then JudgeGranted(w, pc, g)
    else Uninstalling(g, False, InstallationPending, "Waiting for cluster access to be ready")
  }

  function JudgeUninstall(w: World, pc: ProviderConfig, g: nat): Draft {
    if BothLive(w) then JudgeRemoval(w, pc, g) else DeleteDraft(g)
  }

  /** The draft that a delete run comes to when nobody interferes. */
  function JudgeDelete(w: World): Draft
    requires w.ls.Some?
  {
    var g := w.ls.value.generation;
    if ResolvedConfig(w).None? then Uninstalling(g, False, ProviderConfigError, "")
    else JudgeUninstall(w, ResolvedConfig(w).value, g)
  }

  lemma JudgedBefore(u: World, w: World, pc: ProviderConfig)
    requires u.ls.Some? && ResolvedConfig(u) == Some(pc) && w.platform == u.platform
    requires w.mcp == u.mcp && w.workload == u.workload
    ensures JudgeDelete(u) == JudgeUninstall(w, pc, u.ls.value.generation)
  {}

  /** Why a delete run that nobody interferes with can fail. */
  predicate Blocked(w: World) {
    w.ls.Some? && (ResolvedConfig(w).None? || (BothGranted(w) && !Uninstallable(w, ResolvedConfig(w).value)))
  }

  /** What a delete run does when nobody interferes, once it has found its configuration. */
  predicate Removing(w: World, v: World, pc: ProviderConfig, res: nat, failed: bool) {
    && (failed <==> BothGranted(w) && !Uninstallable(w, pc))
    && if failed || (BothLive(w) && !BothGranted(w)) then
         v.platform == w.platform && v.ls == w.ls && v.mcp == w.mcp && v.workload == w.workload
           && (!failed ==> res == 10)
       else
         Released(w, v, res)
  }

  /** What a delete run does when nobody interferes. */
  predicate Progressed(w: World, v: World, failed: bool) {
    && v.platform == w.platform && (v.ls.Some? ==> SameResolution(w, v))
    && (failed <==> Blocked(w))
    && if failed || (BothLive(w) && !BothGranted(w)) then
         v.ls.Some? && v.mcp == w.mcp && v.workload == w.workload && HasFinalizer(v) == HasFinalizer(w)
       else
         v.mcp == Retired(w.mcp) && v.workload == Retired(w.workload)
         && (w.mcp == Absent && w.workload == Absent ==> !HasFinalizer(v))
  }

  /** A delete run gives up the finalizer when both requests are gone. */
  predicate GivesUp(w: World) { HasFinalizer(w) && w.mcp == Absent && w.workload == Absent }

  /** Nothing else is done to the Landscaper; without any finalizer it goes. */
  predicate Parted(w: World, v: World, b: Landscaper, gives: bool) {
    && w.ls.Some?
    && var a := w.ls.value;
       && b == (if gives then a.(rv := b.rv, finalizer := false) else a)
       && v.ls == (if gives && !a.foreign then None else Some(b))
  }

  /** The delete run that nobody interferes with gives up the finalizer. */
  predicate Leaves(w: World) { GivesUp(w) && !Blocked(w) }

  /** The Landscaper before the status is stored: the reference has been noted. */
  predicate Handled(w: World, v: World, b: Landscaper) {
    && w.ls.Some?
    && var a := w.ls.value;
       && b == a.(rv := b.rv, finalizer := a.finalizer && !Leaves(w),
                  status := a.status.(configRef := NotedRef(w)))
       && v.ls == (if Leaves(w) && !a.foreign then None else Some(b))
       && (!Leaves(w) && NotedRef(w) == a.status.configRef ==> b == a)
  }

  lemma HandledBy(u: World, w: World, v: World, b: Landscaper)
    requires u.ls.Some? && w.ls.Some? && ResolvedConfig(u).Some? && w.mcp == u.mcp && w.workload == u.workload
    requires
      var a, m := u.ls.value, w.ls.value;
      && m == a.(rv := m.rv, status := a.status.(configRef := NotedRef(u)))
      && (NotedRef(u) == a.status.configRef ==> m == a)
    requires Parted(w, v, b, GivesUp(w))
    ensures Handled(u, v, b)
  {}

  /** The status after a delete run that nobody interferes with. */
  function DeletedStatus(w: World): LandscaperStatus
    requires w.ls.Some?
  {
    Converted(JudgeDelete(w), w.ls.value.status.(configRef := NotedRef(w)), w.now)
  }

  /** Such a run would not write to the Landscaper. */
  predicate Rests(w: World) {
    w.ls.Some? && !Leaves(w) && NotedRef(w) == w.ls.value.status.configRef && DeletedStatus(w) == w.ls.value.status
  }

  /**
   What a delete run does when nobody interferes, to the requests and to the Landscaper. That is
   gone exactly when the run has given up its last finalizer; else its status is the one judged.
   */
  predicate Passed(w: World, v: World, err: bool) {
    && w.ls.Some? && Progressed(w, v, err) && SameReports(w, v)
    && var a := w.ls.value;
       && (v.ls.None? <==> Leaves(w) && !a.foreign)
       && (v.ls.Some? ==>
             var b := v.ls.value;
             b == a.(rv := b.rv, finalizer := a.finalizer && !Leaves(w), status := DeletedStatus(w)))
       && (Rests(w) ==> v.ls == w.ls)
  }

  /** It writes to the Landscaper unless it finds everything as it would leave it. */
  lemma WritesUnlessRests(w: World, v: World, err: bool)
    requires Passed(w, v, err)
    ensures v.ls == w.ls <==> Rests(w)
  {}

  /** Undisturbed, the run uninstalls the instance. */
  predicate Clears(w: World) {
    Dying(w) && BothGranted(w) && ResolvedConfig(w).Some? && Uninstallable(w, ResolvedConfig(w).value)
  }

  /** From the world w over m, the one before the status is stored, to v. */
  lemma PassedSo(w: World, m: World, v: World, b: Landscaper, c: Landscaper, err: bool)
    requires w.ls.Some? && Progressed(w, m, err) && SameReports(w, m) && Handled(w, m, b)
    requires SameReports(m, v) && v.mcp == m.mcp && v.workload == m.workload
    requires m.ls.None? ==> v.ls.None?
    requires m.ls.Some? ==>
      && v.ls == Some(c) && c == b.(rv := c.rv, status := c.status)
      && if DeletedStatus(w) == w.ls.value.status then c == b else c.status == DeletedStatus(w)
    ensures Passed(w, v, err)
  {}

  lemma PassedFrom(u: World, w: World, v: World, err: bool)
    requires SameButBook(u, w) && Dying(w) && Passed(w, v, err)
    ensures Passed(u, v, err)
  {
    assert JudgeDelete(u) == JudgeDelete(w) && NotedRef(u) == NotedRef(w);
  }

  lemma ProgressedNot(w: World, v: World)
    requires w.ls.Some? && ResolvedConfig(w).None? && v.ls == w.ls && v.platform == w.platform && v.mcp == w.mcp
    requires v.workload == w.workload
    ensures Progressed(w, v, true)
  {}

  lemma ProgressedBy(u: World, w: World, v: World, pc: ProviderConfig, res: nat, failed: bool)
    requires SameResolution(u, w) && ResolvedConfig(u) == Some(pc) && w.platform == u.platform
    requires w.mcp == u.mcp && w.workload == u.workload && HasFinalizer(w) == HasFinalizer(u)
    requires Removing(w, v, pc, res, failed)
    ensures Progressed(u, v, failed)
  {}

  lemma UninstallableSources(w: World, ls: Landscaper, pc: ProviderConfig, provider: seq<string>)
    requires w.platform.serviceProvider == Some(provider)
    ensures Uninstallable(w, pc) <==> SourcesPresent(w.platform, CreateConfig(ls.id, ls.version, pc, provider, ""))
  {
    CreateConfigSources(ls.id, ls.version, pc, provider, "", Main);
    CreateConfigSources(ls.id, ls.version, pc, provider, "", Webhooks);
    CreateConfigSources(ls.id, ls.version, pc, provider, "", Manifest);
  }

  /** The part of the findings that concerns the instance. */
  ghost predicate Exposed(t: seq<Snap>, n: nat, o: Objects, hash: NameHash, kcs: Kubeconfigs, ns: string,
                          conf: Configuration, host: string) {
    && Footprinted(o, t, n, conf, kcs)
    && TlsRouteKey(ns) in o && o[TlsRouteKey(ns)] == TlsRoute(host) && HostAt(t, n, hash, ns, host)
    && AcceptedAt(t, n, ns)
    && forall c :: UpAt(t, n, ns, c)
  }

  lemma ExposedEarlier(t: seq<Snap>, n: nat, m: nat, o: Objects, hash: NameHash, kcs: Kubeconfigs, ns: string,
                       conf: Configuration, host: string)
    requires Exposed(t, n, o, hash, kcs, ns, conf, host) && m <= n
    ensures Exposed(t, m, o, hash, kcs, ns, conf, host)
  {
    FootprintStays(o, o, t, t, n, m, conf, kcs);
    HostStays(t, t, n, m, hash, ns, host);
    AcceptedStays(t, t, n, m, ns);
    forall c ensures UpAt(t, m, ns, c) { UpStays(t, t, n, m, ns, c); }
  }

  /** Installed is sound: the run has written the whole footprint of a configuration of this instance. */
  ghost predicate Placed(t: seq<Snap>, n: nat, o: Objects, kcs: Kubeconfigs, ls: Landscaper, f: Findings) {
    f.conf.instance == ls.id && Footprinted(o, t, n, f.conf, kcs)
  }

  lemma PlacedEarlier(t: seq<Snap>, n: nat, m: nat, o: Objects, kcs: Kubeconfigs, ls: Landscaper, f: Findings)
    requires f.conf.instance == ls.id && Footprinted(o, t, n, f.conf, kcs) && m <= n
    ensures Placed(t, m, o, kcs, ls, f)
  {
    FootprintStays(o, o, t, t, n, m, f.conf, kcs);
  }

  ghost predicate Deployed(t: seq<Snap>, n: nat, o: Objects, hash: NameHash, kcs: Kubeconfigs, ls: Landscaper,
                           f: Findings) {
    && f.conf == CreateConfig(ls.id, ls.version, f.pc, f.provider, f.host).(ca := f.pc.ca)
      && HostAt(t, n, hash, Namespace(ls.id), f.host)
    && Exposed(t, n, o, hash, kcs, Namespace(ls.id), f.conf, f.routeHost)
  }

  lemma DeployedEarlier(t: seq<Snap>, n: nat, m: nat, o: Objects, hash: NameHash, kcs: Kubeconfigs, ls: Landscaper,
                        f: Findings)
    requires Deployed(t, n, o, hash, kcs, ls, f) && m <= n
    ensures Deployed(t, m, o, hash, kcs, ls, f)
  {
    HostStays(t, t, n, m, hash, Namespace(ls.id), f.host);
    ExposedEarlier(t, n, m, o, hash, kcs, Namespace(ls.id), f.conf, f.routeHost);
  }
}
