/**
 The platform cluster: provider configurations, the service provider, and the sources of
 pull secrets and CA bundles; the instance configuration computed from them; and the
 reference checks of the watch handlers.
 */
module Platform {
  import opened Wrappers
  import opened Identity
  import opened Store
  import opened Plans

  datatype ImageConfiguration = ImageConfiguration(image: string, pullSecrets: seq<string>)

  datatype ProviderConfig = ProviderConfig(
    name: string,
    isDefault: bool,
    repository: string,
    versions: seq<string>,
    ca: Option<CaRef>,
    controller: Option<ImageConfiguration>,
    webhooks: Option<ImageConfiguration>,
    helm: Option<ImageConfiguration>,
    manifest: Option<ImageConfiguration>)
  {
    function Override(c: Component): Option<ImageConfiguration> {
      match c
      case Controller => controller
      case Main => controller
      case Webhooks => webhooks
      case Helm => helm
      case Manifest => manifest
    }
  }

  /** Secrets and ConfigMaps are those of the provider's namespace. */
  datatype PlatformState = PlatformState(
    configs: seq<ProviderConfig>,
    serviceProvider: Option<seq<string>>,
    secrets: map<string, Data>,
    configMaps: map<string, Data>)

  /** A get by name; no object has the empty name. */
  function FindConfig(configs: seq<ProviderConfig>, name: string): Option<ProviderConfig> {
    if configs == [] || name == "" then None
    else if configs[0].name == name then Some(configs[0])
    else FindConfig(configs[1..], name)
  }

  function Defaults(configs: seq<ProviderConfig>): seq<ProviderConfig> {
    if configs == [] then []
    else if configs[0].isDefault then [configs[0]] + Defaults(configs[1..])
    else Defaults(configs[1..])
  }

  /** The reference in the spec overrides the one in the status; without either, the default is taken. */
  function NamedConfig(specRef: Option<string>, statusRef: Option<string>): string {
    if specRef.Some? then specRef.value else if statusRef.Some? then statusRef.value else ""
  }

  function ConfigName(configs: seq<ProviderConfig>, specRef: Option<string>, statusRef: Option<string>): string {
    var n := NamedConfig(specRef, statusRef);
    if n != "" then n
    else if Defaults(configs) == [] then ""
    else Defaults(configs)[0].name
  }

  /**
   Which configuration applies, read off the references: the one in the spec wins, whatever the status
   says; without one, that in the status; and where the winner is empty or there is none, the first
   of the default configurations.
   */
  ghost predicate Chosen(configs: seq<ProviderConfig>, specRef: Option<string>, statusRef: Option<string>, n: string) {
    && (specRef.Some? && specRef.value != "" ==> n == specRef.value)
    && (specRef.None? && statusRef.Some? && statusRef.value != "" ==> n == statusRef.value)
    && (specRef == Some("") || (specRef.None? && (statusRef.None? || statusRef == Some(""))) ==>
          exists i :: 0 <= i < |configs| && configs[i].isDefault && configs[i].name == n
            && forall j :: 0 <= j < i ==> !configs[j].isDefault)
  }

  lemma SpecFirst(specRef: Option<string>, statusRef: Option<string>)
    ensures specRef.Some? ==> NamedConfig(specRef, statusRef) == specRef.value
    ensures specRef.None? && statusRef.Some? ==> NamedConfig(specRef, statusRef) == statusRef.value
    ensures specRef.None? && statusRef.None? ==> NamedConfig(specRef, statusRef) == ""
  {}

  lemma {:induction false} FirstDefault(configs: seq<ProviderConfig>) returns (i: nat)
    requires Defaults(configs) != []
    ensures i < |configs| && configs[i].isDefault && configs[i] == Defaults(configs)[0]
    ensures forall j :: 0 <= j < i ==> !configs[j].isDefault
  {
    if configs[0].isDefault {
      i := 0;
    } else {
      i := FirstDefault(configs[1..]);
      i := i + 1;
      assert forall j :: 0 < j < i ==> configs[j] == configs[1..][j - 1];
    }
  }

  lemma {:induction false} NoDefault(configs: seq<ProviderConfig>)
    ensures Defaults(configs) == [] <==> forall i :: 0 <= i < |configs| ==> !configs[i].isDefault
  {
    if configs != [] {
      NoDefault(configs[1..]);
      assert forall i :: 0 < i < |configs| ==> configs[i] == configs[1..][i - 1];
      assert forall i :: 0 <= i < |configs[1..]| ==> configs[1..][i] == configs[i + 1];
    }
  }

  /** A name that is not empty has been chosen by these rules, and every name chosen by them is that one. */
  lemma NameChosen(configs: seq<ProviderConfig>, specRef: Option<string>, statusRef: Option<string>, n: string)
    requires n != ""
    ensures ConfigName(configs, specRef, statusRef) == n <==> Chosen(configs, specRef, statusRef, n)
  {
    SpecFirst(specRef, statusRef);
    NoDefault(configs);
    if Defaults(configs) != [] {
      var i := FirstDefault(configs);
      forall k | 0 <= k < |configs| && configs[k].isDefault && forall j :: 0 <= j < k ==> !configs[j].isDefault
        ensures k == i
      {}
    }
  }

  /** A configuration is found exactly if there is one with that name. */
  lemma {:induction false} FoundIff(configs: seq<ProviderConfig>, name: string)
    ensures FindConfig(configs, name).Some? <==>
      name != "" && exists i :: 0 <= i < |configs| && configs[i].name == name
  {
    if configs != [] && name != "" {
      FoundIff(configs[1..], name);
      assert forall i :: 0 < i < |configs| ==> configs[i] == configs[1..][i - 1];
      assert forall i :: 0 <= i < |configs[1..]| ==> configs[1..][i] == configs[i + 1];
    }
  }

  lemma {:induction false} FindConfigMember(configs: seq<ProviderConfig>, name: string)
    ensures FindConfig(configs, name).Some? ==>
      FindConfig(configs, name).value in configs && FindConfig(configs, name).value.name == name
  {
    if configs != [] { FindConfigMember(configs[1..], name); }
  }

  /**
   A component with an override takes the override's pull secrets, even none, and the service
   provider's otherwise.
   */
  function PullSecretsOf(pc: ProviderConfig, provider: seq<string>, c: Component): seq<string> {
    if pc.Override(c).Some? then pc.Override(c).value.pullSecrets else provider
  }

  function ImageOf(pc: ProviderConfig, version: string, c: Component): Image {
    if pc.Override(c).Some? then Overridden(pc.Override(c).value.image, version) else Located(pc.repository, c, version)
  }

  const DNS_SERVICE_NAME := "webhooks-tls"
  const DNS_SERVICE_PORT: nat := 9443

  /** The host name of the instance in ns, under the base domain of the gateway. */
  function HostName(hash: NameHash, ns: string, base: string): string {
    "landscaper-webhooks" + "-" + hash(DNS_SERVICE_NAME + "/" + ns) + "." + base
  }

  /** What is hashed for the host of the instance in ns. */
  function HostText(ns: string): string { "webhooks-tls/" + ns }

  /** How every host of the instance in ns begins. */
  predicate HostOf(hash: NameHash, ns: string, host: string) {
    "landscaper-webhooks-" + hash(HostText(ns)) + "." <= host
  }

  /** The host is one below the base domain. */
  predicate Below(base: string, host: string) {
    |base| < |host| && host[|host| - |base| - 1..] == "." + base
  }

  lemma HostNameParts(hash: NameHash, ns: string, base: string)
    ensures HostOf(hash, ns, HostName(hash, ns, base)) && Below(base, HostName(hash, ns, base))
  {
    assert DNS_SERVICE_NAME + "/" == "webhooks-tls/" && "landscaper-webhooks" + "-" == "landscaper-webhooks-";
    assert DNS_SERVICE_NAME + "/" + ns == HostText(ns);
    var front := "landscaper-webhooks-" + hash(HostText(ns));
    assert HostName(hash, ns, base) == (front + ".") + base == front + ("." + base);
  }

  lemma FirstDot(a: string, b: string, x: string, y: string)
    requires '.' !in a && '.' !in b && a + "." + x == b + "." + y
    ensures a == b
  {
    var s, t := a + "." + x, b + "." + y;
    assert s[|a|] == '.' && t[|b|] == '.';
    assert forall i :: 0 <= i < |a| ==> s[i] == a[i] && a[i] in a;
    assert forall i :: 0 <= i < |b| ==> t[i] == b[i] && b[i] in b;
    assert a == s[..|a|] && b == t[..|b|];
  }

  /** The hash tells the two instances apart; it makes letters and digits, and no dots. */
  predicate HostsSeparated(hash: NameHash, ns: string, ns': string) {
    && (hash(HostText(ns)) == hash(HostText(ns')) ==> HostText(ns) == HostText(ns'))
    && '.' !in hash(HostText(ns)) && '.' !in hash(HostText(ns'))
  }

  /** The host identifies the instance, whatever base domains the gateways report. */
  lemma HostIdentifies(hash: NameHash, ns: string, ns': string, host: string)
    requires HostOf(hash, ns, host) && HostOf(hash, ns', host) && HostsSeparated(hash, ns, ns')
    ensures ns == ns'
  {
    var p := "landscaper-webhooks-";
    var a, b := p + hash(HostText(ns)), p + hash(HostText(ns'));
    FirstDot(a, b, host[|a| + 1..], host[|b| + 1..]);
    assert a[|p|..] == hash(HostText(ns)) && b[|p|..] == hash(HostText(ns'));
    assert HostText(ns)[13..] == ns && HostText(ns')[13..] == ns';
  }

  /** Under one base domain that holds without a word about dots: the host identifies the instance. */
  lemma HostNameInjective(hash: NameHash, ns: string, ns': string, base: string)
    requires hash(HostText(ns)) == hash(HostText(ns')) ==> HostText(ns) == HostText(ns')
    requires HostName(hash, ns, base) == HostName(hash, ns', base)
    ensures ns == ns'
  {
    var p, a, b := "landscaper-webhooks-", hash(HostText(ns)), hash(HostText(ns'));
    HostNameParts(hash, ns, base); HostNameParts(hash, ns', base);
    assert DNS_SERVICE_NAME + "/" + ns == HostText(ns) && DNS_SERVICE_NAME + "/" + ns' == HostText(ns');
    assert "landscaper-webhooks" + "-" == p;
    assert p + a + ("." + base) == HostName(hash, ns, base) && p + b + ("." + base) == HostName(hash, ns', base);
    SameInside(p, a, b, "." + base);
    assert HostText(ns)[13..] == ns && HostText(ns')[13..] == ns';
  }

  function CreateConfig(instance: string, version: string, pc: ProviderConfig, provider: seq<string>,
                        host: string): Configuration {
    var images := (c: Component) => ImageValues(ImageOf(pc, version, c), PullSecretsOf(pc, provider, c));
    Configuration(
      instance, Url(host, DNS_SERVICE_PORT), None,
      images(Controller), images(Webhooks), images(Manifest), images(Helm),
      WebhooksValues(Some(ServiceValues(DNS_SERVICE_NAME, "", DNS_SERVICE_PORT)), DNS_SERVICE_PORT))
  }

  function Effective(o: Option<ImageConfiguration>, provider: seq<string>): seq<string> {
    match o
    case Some(i) => i.pullSecrets
    case None => provider
  }

  /** The pull secrets of each component by name of the field, for the specifications alone. */
  function Applicable(pc: ProviderConfig, provider: seq<string>, c: Component): seq<string> {
    match c
    case Controller => Effective(pc.controller, provider)
    case Main => Effective(pc.controller, provider)
    case Webhooks => Effective(pc.webhooks, provider)
    case Helm => Effective(pc.helm, provider)
    case Manifest => Effective(pc.manifest, provider)
  }

  lemma CreateConfigSources(instance: string, version: string, pc: ProviderConfig, provider: seq<string>,
                            host: string, c: Component)
    ensures CreateConfig(instance, version, pc, provider, host).Sources(c) == PullSecretsOf(pc, provider, c)
    ensures PullSecretsOf(pc, provider, c) == Applicable(pc, provider, c)
  {}

  /** What a component gets that the provider configuration overrides, and what it gets otherwise. */
  predicate Overrides(o: Option<ImageConfiguration>, repository: string, version: string, provider: seq<string>,
                      c: Component, v: ImageValues) {
    match o
    case Some(i) => v.image == Overridden(i.image, version) && v.pullSecrets == i.pullSecrets
    case None => v.image == Located(repository, c, version) && v.pullSecrets == provider
  }

  /**
   The computed configuration, field by field: an override takes the place of image and pull secrets,
   even with no pull secrets at all, and concerns its own component alone; the controller's also serves main.
   */
  lemma ConfigFields(instance: string, version: string, pc: ProviderConfig, provider: seq<string>, host: string)
    ensures
      var conf := CreateConfig(instance, version, pc, provider, host);
      && Overrides(pc.controller, pc.repository, version, provider, Controller, conf.controller)
      && Overrides(pc.webhooks, pc.repository, version, provider, Webhooks, conf.webhooks)
      && Overrides(pc.helm, pc.repository, version, provider, Helm, conf.helm)
      && Overrides(pc.manifest, pc.repository, version, provider, Manifest, conf.manifest)
      && conf.Sources(Main) == conf.controller.pullSecrets && conf.Sources(Controller) == conf.controller.pullSecrets
      && conf.Sources(Webhooks) == conf.webhooks.pullSecrets && conf.Sources(Helm) == conf.helm.pullSecrets
      && conf.Sources(Manifest) == conf.manifest.pullSecrets
      && conf.instance == instance && conf.domain == Url(host, 9443) && conf.ca.None?
      && conf.webhooksValues == WebhooksValues(Some(ServiceValues("webhooks-tls", "", 9443)), 9443)
  {}

  // ---------------------------------------------------------------- references

  /** The image configurations of a provider configuration, as the watch handler goes through them. */
  function ImageConfigurations(pc: ProviderConfig): seq<Option<ImageConfiguration>> {
    [pc.controller, pc.webhooks, pc.helm, pc.manifest]
  }

  predicate ReferencedBy(pc: ProviderConfig, secret: string) {
    exists i :: 0 <= i < 4 && ImageConfigurations(pc)[i].Some? && secret in ImageConfigurations(pc)[i].value.pullSecrets
  }

  /** Some reference of the service provider or of a provider configuration has this name. */
  predicate ReferencesPullSecret(p: PlatformState, secret: string) {
    || (p.serviceProvider.Some? && secret in p.serviceProvider.value)
    || exists pc :: pc in p.configs && ReferencedBy(pc, secret)
  }

  /** The same, spelled out. */
  lemma ReferencedExactly(p: PlatformState, secret: string)
    ensures ReferencesPullSecret(p, secret) <==>
      || (p.serviceProvider.Some? && secret in p.serviceProvider.value)
      || (exists pc :: pc in p.configs && Lists(pc, secret))
  {
    ReferencedByLists(secret);
  }

  lemma ReferencedByLists(secret: string)
    ensures forall pc :: ReferencedBy(pc, secret) <==> Lists(pc, secret)
  {
    forall pc ensures ReferencedBy(pc, secret) <==> Lists(pc, secret) {
      var l := ImageConfigurations(pc);
      assert l[0] == pc.controller && l[1] == pc.webhooks && l[2] == pc.helm && l[3] == pc.manifest;
    }
  }

  /** One of the four overrides lists the pull secret. */
  predicate Lists(pc: ProviderConfig, secret: string) {
    || (pc.controller.Some? && secret in pc.controller.value.pullSecrets)
    || (pc.webhooks.Some? && secret in pc.webhooks.value.pullSecrets)
    || (pc.helm.Some? && secret in pc.helm.value.pullSecrets)
    || (pc.manifest.Some? && secret in pc.manifest.value.pullSecrets)
  }

  predicate ReferencesCa(p: PlatformState, name: string) {
    exists pc :: pc in p.configs && pc.ca.Some? && pc.ca.value.name == name
  }

  /** Trigger completeness: whatever pull secret an instance can be configured with is recognised as referenced. */
  lemma PullSecretsReferenced(p: PlatformState, pc: ProviderConfig, c: Component, secret: string)
    requires pc in p.configs && p.serviceProvider.Some?
    requires secret in PullSecretsOf(pc, p.serviceProvider.value, c)
    ensures ReferencesPullSecret(p, secret)
  {
    if pc.Override(c).Some? {
      var l := ImageConfigurations(pc);
      assert l[0] == pc.Override(c) || l[1] == pc.Override(c) || l[2] == pc.Override(c) || l[3] == pc.Override(c);
      assert ReferencedBy(pc, secret);
    }
  }

  method ReferencesSecret(refs: seq<string>, name: string) returns (found: bool)
    ensures found <==> name in refs
  {
    for i := 0 to |refs|
      invariant name !in refs[..i]
    {
      if refs[i] == name { return true; }
    }
    return false;
  }

  /** The reference check of the pull-secret handler: a read that fails is skipped, a list that fails ends it. */
  predicate SeesPullSecret(p: PlatformState, secret: string, getFails: bool, listFails: bool) {
    || (!getFails && p.serviceProvider.Some? && secret in p.serviceProvider.value)
    || (!listFails && exists pc :: pc in p.configs && ReferencedBy(pc, secret))
  }

  /** The nested search of the pull-secret handler. */
  method IsReferencedImagePullSecret(p: PlatformState, secret: string, getFails: bool, listFails: bool)
    returns (found: bool)
    ensures found <==> SeesPullSecret(p, secret, getFails, listFails)
    ensures found ==> ReferencesPullSecret(p, secret)
    ensures !getFails && !listFails ==> (found <==> ReferencesPullSecret(p, secret))
    ensures found <==>
      || (!getFails && p.serviceProvider.Some? && secret in p.serviceProvider.value)
      || (!listFails && exists pc :: pc in p.configs && Lists(pc, secret))
  {
    ReferencedByLists(secret);
    if !getFails && p.serviceProvider.Some? {
      var listed := ReferencesSecret(p.serviceProvider.value, secret);
      if listed { return true; }
    }
    if listFails { return false; }
    for i := 0 to |p.configs|
      invariant forall j :: 0 <= j < i ==> !ReferencedBy(p.configs[j], secret)
    {
      var images := ImageConfigurations(p.configs[i]);
      for j := 0 to |images|
        invariant forall q :: 0 <= q < j ==> !(images[q].Some? && secret in images[q].value.pullSecrets)
      {
        if images[j].Some? {
          var listed := ReferencesSecret(images[j].value.pullSecrets, secret);
          if listed {
            assert ReferencedBy(p.configs[i], secret);
            return true;
          }
        }
      }
    }
    return false;
  }

  method IsReferencedCaConfigMap(p: PlatformState, name: string, listFails: bool) returns (found: bool)
    ensures found <==> !listFails && ReferencesCa(p, name)
    ensures found <==> !listFails && exists pc :: pc in p.configs && pc.ca.Some? && pc.ca.value.name == name
  {
    if listFails { return false; }
    for i := 0 to |p.configs|
      invariant forall j :: 0 <= j < i ==> !(p.configs[j].ca.Some? && p.configs[j].ca.value.name == name)
    {
      if p.configs[i].ca.Some? && p.configs[i].ca.value.name == name { return true; }
    }
    return false;
  }
}
