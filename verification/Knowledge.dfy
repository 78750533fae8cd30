/**
 What a running reconcile knows of the stored Landscaper from the version it has read or
 written last, and that this lasts while others act.
 */
module Knowledge {
  import opened Wrappers
  import opened Identity
  import opened Store
  import opened Conditions
  import opened Plans
  import opened Platform
  import opened World
  import opened Calls
  import opened Api
  import opened Dns
  import opened Installation

  predicate Exists(w: World, uid: nat) {
    w.ls.Some? && w.ls.value.uid == uid
  }

  /** The stored object is either this version, or a later one. */
  predicate Tracks(w: World, base: Landscaper) {
    && base.uid <= w.clock && base.rv <= w.clock && (UpToDate(w, base) ==> w.ls.value == base)
    && w.book.running && !w.book.retry
  }

  /** What every stored version satisfies. */
  predicate Settled(base: Landscaper) {
    && Coherent(base.status) && base.status.observedGeneration <= base.generation
    && (base.status.phase == Terminating ==> base.deleting)
  }

  /**
   Only the controller changes finalizer, id and status; others add to the generation, and queue
   the key when they change the spec. With the finalizer the object cannot go.
   */
  predicate Knows(w: World, base: Landscaper) {
    && Tracks(w, base)
    && (base.finalizer ==> Exists(w, base.uid))
    && (Exists(w, base.uid) ==>
          var s := w.ls.value;
          && s.finalizer == base.finalizer && s.id == base.id && s.status == base.status
          && base.generation <= s.generation && (base.deleting ==> s.deleting)
          && (!w.book.queued ==> s.version == base.version && s.configRef == base.configRef))
    && (!Exists(w, base.uid) && w.ls.Some? ==> w.book.queued && !w.ls.value.finalizer)
  }

  lemma KnowsLasts(w: World, v: World, base: Landscaper)
    requires Knows(w, base) && Onward(w, v)
    ensures Knows(v, base)
  {}

  /** Whoever has just seen the object knows it. */
  lemma KnowsStored(w: World)
    requires Stamped(w) && w.ls.Some? && w.book.running && !w.book.retry
    ensures Knows(w, w.ls.value)
  {}

  /** The provider configurations are the same, or a lapse is on record. */
  predicate SameConfigs(w: World, v: World) {
    && (w.book.lapsed ==> v.book.lapsed)
    && (!v.book.lapsed ==>
      v.platform.configs == w.platform.configs && v.platform.serviceProvider == w.platform.serviceProvider)
  }

  /** The Landscaper's requests have not gone in between either. */
  ghost predicate Later(w: World, v: World) {
    SameConfigs(w, v) && (!w.retired ==> !v.retired) && v.naming == w.naming
  }

  lemma OnwardLater(w: World, v: World)
    requires Onward(w, v)
    ensures Later(w, v)
  {}

  /** A write leaves nobody with a wrong idea of the version it was meant for. */
  lemma UpdateTracked(m: World, b: World, w: World, base: Landscaper, ls: Landscaper)
    requires Stamped(b) && Onward(m, b) && Tracks(m, base) && ls.uid == base.uid && ls.rv == base.rv
    requires w == b || (UpToDate(b, ls) && w == UpdateEffect(b, ls))
    ensures Tracks(w, base) && Later(m, w) && Quiet(b, w)
  {}

  lemma UpdateKnown(b: World, base: Landscaper, ls: Landscaper)
    requires Stamped(b) && Knows(b, base) && UpToDate(b, ls) && ls == base.(finalizer := ls.finalizer, id := ls.id)
    ensures Knows(UpdateEffect(b, ls), ls.(rv := b.clock + 1, status := b.ls.value.status))
    ensures b.ls.value.status == ls.status
  {}

  lemma PatchTracked(m: World, b: World, w: World, base: Landscaper)
    requires Stamped(b) && Onward(m, b) && Tracks(m, base) && (w == b || (b.ls.Some? && w == PatchEffect(b)))
    ensures Tracks(w, base) && Later(m, w) && Quiet(b, w)
  {}

  /** The object is still the same one, whatever else has happened to it. */
  lemma PatchKnown(b: World, base: Landscaper)
    requires Stamped(b) && Knows(b, base) && base.finalizer
    ensures b.ls.Some?
    ensures
      var w := PatchEffect(b);
      var v := w.ls.value;
      && Knows(w, v) && v.uid == base.uid && v.finalizer && v.id == base.id && v.status == base.status
        && v.generation >= base.generation
  {}

  lemma StatusTracked(m: World, b: World, w: World, base: Landscaper, ls: Landscaper)
    requires Stamped(b) && Onward(m, b) && Tracks(m, base) && ls.uid == base.uid && ls.rv == base.rv
    requires w == b || (UpToDate(b, ls) && w == StatusEffect(b, ls))
    ensures Tracks(w, base) && Later(m, w) && Quiet(b, w)
  {}

  lemma StatusKnown(b: World, base: Landscaper, ls: Landscaper)
    requires Stamped(b) && Tracks(b, base) && UpToDate(b, ls) && ls.uid == base.uid && ls.rv == base.rv
    ensures
      var v := base.(rv := b.clock + 1, status := ls.status);
      StatusEffect(b, ls).ls == Some(v) && Knows(StatusEffect(b, ls), v)
  {}

  lemma StoredNow(m: World, w: World, base: Landscaper, ls: Landscaper)
    requires Knows(m, base) && Onward(m, w) && ls.uid == base.uid && ls.status == base.status
    ensures Exists(w, ls.uid) ==> w.ls.value.status == ls.status
  {
    KnowsLasts(m, w, base);
  }

  lemma GoneKnown(w: World, base: Landscaper, ls: Landscaper)
    requires Knows(w, base) && w.ls.None? && ls == base.(status := ls.status)
    ensures Knows(w, ls)
  {}

  /** The status in memory names the configuration that the references lead to, if it differs at all. */
  predicate RefOk(w: World, base: Landscaper, ls: Landscaper) {
    || ls.status.configRef == base.status.configRef
    || (ls.status.configRef.Some? && ls.status.configRef.value != "" && Resolves(w, base, ls.status.configRef.value))
  }

  /** A status that follows the stored one. */
  predicate Follows(base: Landscaper, ls: Landscaper) {
    && ls.uid == base.uid && ls.rv == base.rv && ls.generation == base.generation && ls.deleting == base.deleting
    && base.status.observedGeneration <= ls.status.observedGeneration
    && (base.status.phase == Terminating ==> ls.status.phase == Terminating)
  }

  lemma StatusAllowed(m: World, base: Landscaper, ls: Landscaper)
    requires Tracks(m, base) && Follows(base, ls) && Settled(ls) && RefOk(m, base, ls)
    ensures StatusGuard(m, ls)
  {}

  lemma AccessKnown(m: World, b: World, w: World, base: Landscaper, forMcp: bool, forWorkload: bool)
    requires Knows(m, base) && Onward(m, b) && w == AccessEffect(b, forMcp, forWorkload)
    ensures Knows(w, base) && Later(m, w) && Quiet(b, w) && (AccessGuard(m) ==> AccessGuard(w))
  {}

  lemma AccessDeleteKnown(m: World, b: World, w: World, base: Landscaper, forMcp: bool, forWorkload: bool)
    requires Knows(m, base) && Onward(m, b) && w == AccessDeleteEffect(b, forMcp, forWorkload)
    ensures Knows(w, base) && SameConfigs(m, w) && Quiet(b, w)
  {}

  predicate BothGranted(w: World) { w.mcp == Granted && w.workload == Granted }

  // ---------------------------------------------------------------- the provider configuration

  /** n is the name that the Landscaper's references and the provider configurations lead to. */
  predicate Resolves(w: World, base: Landscaper, n: string) {
    w.book.lapsed || ConfigName(w.platform.configs, base.configRef, base.status.configRef) == n
  }

  predicate Configured(w: World) {
    w.ls.Some? && ResolvedConfig(w).Some?
  }

  predicate NamesConfig(w: World, n: string, pc: ProviderConfig) {
    w.ls.Some? && ConfigName(w.platform.configs, w.ls.value.configRef, w.ls.value.status.configRef) == n
      && ResolvedConfig(w) == Some(pc)
  }

  /** The Landscaper still leads to the same configuration. */
  predicate SameResolution(w: World, v: World) {
    w.ls.Some? && v.ls.Some? && ResolvedConfig(v) == ResolvedConfig(w)
  }

  lemma Renamed(u: World, w: World, v: World, n: string, pc: ProviderConfig)
    requires NamesConfig(u, n, pc) && n != "" && w.ls.Some? && v.ls.Some? && w.ls == u.ls
    requires w.platform == u.platform && v.platform == w.platform
    requires v.ls.value.configRef == w.ls.value.configRef && v.ls.value.status.configRef == Some(n)
    ensures SameResolution(u, v) && ResolvedConfig(u) == Some(pc)
  {}

  predicate Found(w: World, n: string, pc: ProviderConfig) {
    w.book.lapsed || FindConfig(w.platform.configs, n) == Some(pc)
  }

  predicate Provides(w: World, provider: seq<string>) {
    w.book.lapsed || w.platform.serviceProvider == Some(provider)
  }

  lemma ResolvedLasts(w: World, v: World, base: Landscaper, n: string, pc: ProviderConfig)
    requires SameConfigs(w, v) && Resolves(w, base, n) && Found(w, n, pc)
    ensures Resolves(v, base, n) && Found(v, n, pc)
  {}

  lemma FoundLasts(w: World, v: World, n: string, pc: ProviderConfig)
    requires SameConfigs(w, v) && Found(w, n, pc)
    ensures Found(v, n, pc)
  {}

  lemma FoundNamed(configs: seq<ProviderConfig>, n: string)
    requires FindConfig(configs, n).Some?
    ensures n != ""
  {}

  /** Writing the resolved name into the status does not change what the references lead to. */
  lemma ResolvesAgain(w: World, base: Landscaper, n: string)
    requires Resolves(w, base, n) && n != ""
    ensures Resolves(w, base.(status := base.status.(configRef := Some(n))), n)
  {}

  /** What a complete run of a create reconcile has to copy. */
  predicate Wants(pc: ProviderConfig, provider: seq<string>, t: Target) {
    match t
    case PullTarget(c, n) => n in PullSecretsOf(pc, provider, c)
    case CaTarget(n) => pc.ca.Some? && pc.ca.value.name == n
  }

  /** Having copied all that the resolved configuration wants, a run may end for good. */
  lemma CompleteEnds(w: World, base: Landscaper, n: string, pc: ProviderConfig, provider: seq<string>)
    requires Knows(w, base) && Resolves(w, base, n) && Found(w, n, pc) && Provides(w, provider)
    requires forall t :: Wants(pc, provider, t) ==> t in w.book.written
    ensures EndGuard(w, false)
  {
    if w.ls.Some? && !w.ls.value.deleting && !w.book.queued && !w.book.lapsed {
      forall t | Desired(w, t) ensures t in w.book.written {
        assert Wants(pc, provider, t);
      }
    }
  }

  /** The status computed from a coherent draft may be stored. */
  lemma DraftSettles(base: Landscaper, ls: Landscaper, s: LandscaperStatus, d: Draft, now: nat)
    requires Follows(base, ls) && ls.status == s.(configRef := ls.status.configRef) && Coherent(s)
    requires s.observedGeneration <= d.observedGeneration <= base.generation && CoherentDraft(d)
    requires (d.phase == Terminating ==> ls.deleting) && (base.status.phase == Terminating ==> d.phase == Terminating)
    ensures
      var l := ls.(status := Converted(d, ls.status, now));
      Settled(l) && Follows(base, l)
  {
    ConvertedCoherent(d, ls.status, now);
  }

  // ---------------------------------------------------------------- the end

  function Retired(r: Request): Request { if Live(r) then Deleting else r }

  /** What the last step of a delete run does when nobody interferes. */
  predicate Released(w: World, v: World, res: nat) {
    && v.platform == w.platform && (v.ls.Some? ==> SameResolution(w, v))
    && v.mcp == Retired(w.mcp) && v.workload == Retired(w.workload)
    && (res == 0 <==> w.mcp == Absent && w.workload == Absent) && (res == 0 ==> !HasFinalizer(v))
    && (res != 0 ==> v.ls == w.ls)
  }

  // ---------------------------------------------------------------- objects after an uninstall

  /** After a complete uninstall nothing is left that has to go before the access requests. */
  lemma UninstalledClean(w: World, before: Objects, conf: Configuration, hash: NameHash, m: nat)
    requires Inv(w) && m <= |conf.Sources(Helm)| && w.objects == Apply(before, UninstallPlan(conf, hash, m))
    requires HasFinalizer(w) ==> Namespace(w.ls.value.id) == conf.Ns()
    requires TlsRouteKey(conf.Ns()) !in before && WebhooksServiceName(conf.webhooksValues) == Plain(DNS_SERVICE_NAME)
    ensures NoDisposables(w)
  {
    forall k | k in w.objects ensures !Disposable(k) {
      UninstallResult(before, conf, hash, m, k);
    }
  }
}
