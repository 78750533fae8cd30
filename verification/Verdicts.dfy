/**
 What a create or update run comes to when nobody interferes and no call fails, read off the world
 in which it begins. The reconciler is proved to come to it; that running again comes to it again
 is proved here.
 */
module Verdicts {
  import opened Wrappers
  import opened Identity
  import opened Store
  import opened Conditions
  import opened Plans
  import opened Platform
  import opened World
  import opened Dns
  import opened Installers
  import opened Knowledge

  /** The seconds after which the run is repeated, whether it fails, and the draft of its status. */
  datatype Verdict = Verdict(res: nat, failed: bool, draft: Draft)

  function Installing(g: nat, status: ConditionStatus, reason: Reason, message: string): Draft {
    CreateOrUpdateDraft(g).(install := Some(Condition(Installed, status, g, reason, message, 0)))
  }

  function InstalledDraft(g: nat): Draft {
    Installing(g, True, LandscaperInstalled, "Landscaper has been installed successfully")
  }

  function Failing(g: nat, reason: Reason): Verdict { Verdict(0, true, Installing(g, False, reason, "")) }

  function WaitingForDns(g: nat): Verdict {
    Verdict(20, false, Installing(g, False, WaitForDNSReady, "Waiting for DNS to be ready"))
  }

  function WaitingForAccess(g: nat): Verdict {
    Verdict(10, false, Installing(g, False, InstallationPending, "Waiting for cluster access to be ready"))
  }

  /** The route is there, and so are the Deployments. */
  function JudgeReadiness(o: Observed, g: nat): Verdict {
    if forall c :: c in o.ready then
      Verdict(600, false, InstalledDraft(g).(
        ready := Some(Condition(Ready, True, g, LandscaperReady, "Landscaper is ready", 0)), phase := PhaseReady))
    else
      Verdict(40, false, InstalledDraft(g).(ready := Some(Condition(Ready, False, g, WaitForLandscaperReady, "", 0))))
  }

  function JudgeExposed(o: Observed, g: nat): Verdict {
    if !Accepted(o.parents) then WaitingForDns(g) else JudgeReadiness(o, g)
  }

  predicate CaPresent(p: PlatformState, pc: ProviderConfig) {
    pc.ca.Some? ==> pc.ca.value.name in p.configMaps
  }

  /** The pull secrets of every component are there. */
  predicate PullSecretsPresent(p: PlatformState, pc: ProviderConfig)
    requires p.serviceProvider.Some?
  {
    forall c :: Present(p, PullSecretsOf(pc, p.serviceProvider.value, c))
  }

  /** A missing CA bundle leaves the draft as it is. */
  function JudgeObjects(o: Observed, ca: bool, secrets: bool, g: nat): Verdict {
    if !ca then Verdict(0, true, CreateOrUpdateDraft(g))
    else if !secrets then Failing(g, InstallFailed)
    else JudgeExposed(o, g)
  }

  function JudgeGateway(o: Observed, g: nat): Verdict {
    if o.gateway.None? then WaitingForDns(g) else Failing(g, DNSConfigFailed)
  }

  function JudgeConfigured(o: Observed, p: PlatformState, pc: ProviderConfig, g: nat): Verdict {
    if p.serviceProvider.None? then Failing(g, ConfigurationError)
    else JudgeObjects(o, CaPresent(p, pc), PullSecretsPresent(p, pc), g)
  }

  /** With access to both clusters. */
  function JudgeInstall(o: Observed, p: PlatformState, pc: ProviderConfig, g: nat): Verdict {
    if GatewayReady(o) then JudgeConfigured(o, p, pc, g) else JudgeGateway(o, g)
  }

  function JudgeAccess(w: World, pc: ProviderConfig, g: nat): Verdict {
    if !BothGranted(w) then WaitingForAccess(g) else JudgeInstall(w.observed, w.platform, pc, g)
  }

  predicate VersionListed(w: World) {
    w.ls.Some? && ResolvedConfig(w).Some? && w.ls.value.version in ResolvedConfig(w).value.versions
  }

  function Judge(w: World): Verdict
    requires w.ls.Some?
  {
    var g := w.ls.value.generation;
    if VersionListed(w) then JudgeAccess(w, ResolvedConfig(w).value, g) else Failing(g, ProviderConfigError)
  }

  /** The reference in the status after the run: the name of the resolved configuration, if there is one. */
  function NotedRef(w: World): Option<string>
    requires w.ls.Some?
  {
    var ls := w.ls.value;
    if ResolvedConfig(w).Some? then Some(ConfigName(w.platform.configs, ls.configRef, ls.status.configRef))
      else ls.status.configRef
  }

  /**
   The configuration a run resolves is the chosen one, and its name is noted: it fails to resolve one
   exactly if no configuration has a chosen name.
   */
  lemma NotedIsChosen(w: World)
    requires w.ls.Some?
    ensures
      var configs, specRef, statusRef := w.platform.configs, w.ls.value.configRef, w.ls.value.status.configRef;
      && (ResolvedConfig(w).Some? <==>
            exists i :: 0 <= i < |configs|
              && configs[i].name != "" && Chosen(configs, specRef, statusRef, configs[i].name))
      && (ResolvedConfig(w).Some? ==>
            && NotedRef(w).Some? && Chosen(configs, specRef, statusRef, NotedRef(w).value)
            && ResolvedConfig(w).value in configs && ResolvedConfig(w).value.name == NotedRef(w).value)
  {
    var configs, specRef, statusRef := w.platform.configs, w.ls.value.configRef, w.ls.value.status.configRef;
    var n := ConfigName(configs, specRef, statusRef);
    FoundIff(configs, n);
    FindConfigMember(configs, n);
    if n != "" { NameChosen(configs, specRef, statusRef, n); }
    forall i | 0 <= i < |configs| && configs[i].name != "" && Chosen(configs, specRef, statusRef, configs[i].name)
      ensures n == configs[i].name
    {
      NameChosen(configs, specRef, statusRef, configs[i].name);
    }
  }

  /** The status after the run. */
  function JudgedStatus(w: World): LandscaperStatus
    requires w.ls.Some?
  {
    var s := w.ls.value.status;
    Converted(Judge(w).draft, s.(configRef := NotedRef(w)), w.now)
  }

  /** Nothing is left of the onboarding steps. */
  predicate Onboarded(ls: Landscaper) { ls.finalizer && ls.id != "" && !ls.annotated }

  /** A run would not write to the Landscaper. */
  predicate Still(w: World) {
    w.ls.Some? && Onboarded(w.ls.value) && NotedRef(w) == w.ls.value.status.configRef
      && JudgedStatus(w) == w.ls.value.status
  }

  /**
   Ready is reached exactly when everything is there: configuration with the version, access,
   base domain, service provider, CA bundle, pull secrets, acceptance and ready Deployments.
   */
  predicate Attainable(w: World) {
    && VersionListed(w) && BothGranted(w) && GatewayReady(w.observed)
    && w.platform.serviceProvider.Some? && CaPresent(w.platform, ResolvedConfig(w).value)
    && PullSecretsPresent(w.platform, ResolvedConfig(w).value)
    && Accepted(w.observed.parents) && forall c :: c in w.observed.ready
  }

  lemma ReadyIffAttainable(w: World)
    requires w.ls.Some?
    ensures !Judge(w).failed && Judge(w).res == 600 <==> Attainable(w)
    ensures !Judge(w).failed && Judge(w).res == 600 <==> JudgedStatus(w).phase == PhaseReady
  {}

  lemma JudgedProper(w: World)
    requires w.ls.Some?
    ensures Proper(Judge(w).draft)
  {}

  /** What a run sees besides the Landscaper. */
  predicate SameSight(w: World, v: World) {
    v.platform == w.platform && v.observed == w.observed && (BothGranted(v) <==> BothGranted(w))
  }

  /** The Landscaper as a calm run for w leaves it. */
  predicate Concluding(w: World, v: World) {
    && w.ls.Some? && v.ls.Some?
    && var a, b := w.ls.value, v.ls.value;
       && Onboarded(b) && b.version == a.version && b.configRef == a.configRef && b.generation == a.generation
       && b.deleting == a.deleting && b.status == JudgedStatus(w)
  }

  lemma SameVerdict(w: World, v: World)
    requires SameSight(w, v) && Concluding(w, v)
    ensures Judge(v) == Judge(w) && ResolvedConfig(v) == ResolvedConfig(w) && NotedRef(v) == v.ls.value.status.configRef
  {
    if ResolvedConfig(w).Some? {
      FoundNamed(w.platform.configs, ConfigName(w.platform.configs, w.ls.value.configRef, w.ls.value.status.configRef));
    }
  }

  /** Whatever the verdict was: the next run that sees the same comes to the same status, at any later time. */
  lemma StillAfterwards(w: World, v: World)
    requires SameSight(w, v) && Concluding(w, v)
    ensures Still(v)
  {
    SameVerdict(w, v);
    JudgedProper(w);
    ConvertedTwice(Judge(w).draft, w.ls.value.status.(configRef := NotedRef(w)), w.now, v.now);
  }
}
