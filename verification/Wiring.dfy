/** How the webhooks server of a ready instance is reached. */
module Wiring {
  import opened Wrappers
  import opened Identity
  import opened Store
  import opened Plans
  import opened Platform
  import opened World
  import opened Api
  import opened Dns
  import opened Installation
  import opened Outcomes
  import opened Reconciler

  /** The webhook Service of an instance selects the pods of its webhooks server and no other pods of any instance. */
  lemma ServiceSelectsWebhooks(conf: Configuration, other: Configuration, c: Component)
    ensures Identity.Matches(WebhooksService(conf).selector, DeploymentFor(other, c).template) <==>
      other.instance == conf.instance && c == Webhooks
  {
    SelectorExact(conf.instance, ComponentName(Webhooks), other.instance, ComponentName(c), c == Controller);
    if ComponentName(c) == ComponentName(Webhooks) { DefaultNamesDistinct(c, Webhooks); }
  }

  /** The objects that take part in a call of the webhooks server, as they are on the cluster. */
  ghost predicate Wired(o: Objects, ns: string) {
    var s, r, d := ServiceKey(ns, Plain(DNS_SERVICE_NAME)), TlsRouteKey(ns), DeploymentKey(ns, Webhooks);
    && s in o && o[s].ServiceObject? && r in o && o[r].RouteObject? && d in o && o[d].DeploymentObject?
    && o[r].backend == s.name && o[r].backendPort == o[s].port && o[s].target == Number(o[s].port)
    && Identity.Matches(o[s].selector, o[d].template)
    && Port(o[s].port) in o[d].pod.args
    && WebhookUrl(Url(o[r].host, o[r].backendPort)) in o[d].pod.args
  }

  lemma WebhooksKeys(conf: Configuration, o: Objects, t: seq<Snap>, n: nat, kcs: Kubeconfigs)
    requires Footprinted(o, t, n, conf, kcs)
    requires conf.webhooksValues.service == Some(ServiceValues(DNS_SERVICE_NAME, "", DNS_SERVICE_PORT))
    ensures
      var s, d := ServiceKey(conf.Ns(), Plain(DNS_SERVICE_NAME)), DeploymentKey(conf.Ns(), Webhooks);
      s in o && o[s] == WebhooksService(conf) && d in o && o[d] == DeploymentFor(conf, Webhooks)
  {
    assert Footprint(conf, ServiceKey(conf.Ns(), Plain(DNS_SERVICE_NAME)));
    assert Footprint(conf, DeploymentKey(conf.Ns(), Webhooks));
  }

  /**
   Webhook wiring: when a run has found an instance ready, and the gateway gave the same host name
   both times it was asked, the URL that the webhooks server is told is the one the route serves,
   and route, Service and server agree on the port.
   */
  lemma ReadyIsWired(t: seq<Snap>, n: nat, o: Objects, hash: NameHash, kcs: Kubeconfigs, ls: Landscaper, f: Findings)
    requires Sound(t, n, o, hash, kcs, ls, f) && f.routeHost == f.host
    ensures Wired(o, Namespace(ls.id))
  {
    WebhooksKeys(f.conf, o, t, n, kcs);
    ServiceSelectsWebhooks(f.conf, f.conf, Webhooks);
    var args := WebhooksArgs(f.conf);
    assert args[1] == WebhookUrl(Url(f.host, DNS_SERVICE_PORT)) && args[3] == Port(DNS_SERVICE_PORT);
  }
}
