/**
 The TLS route of an instance (internal/dns): its host name comes from the default gateway,
 its backend is the Service of the webhooks server.
 */
module Dns {
  import opened Wrappers
  import opened Identity
  import opened Store
  import opened Plans
  import opened Platform
  import opened World
  import opened Calls
  import opened Api

  const DEFAULT_GATEWAY_NAME := "default"
  const DEFAULT_GATEWAY_NAMESPACE := "openmcp-system"

  function TlsRouteKey(ns: string): Key { RouteKey(ns, Plain(DNS_SERVICE_NAME)) }

  function TlsRoute(host: string): Object {
    RouteObject(host, GatewayRef(DEFAULT_GATEWAY_NAME, DEFAULT_GATEWAY_NAMESPACE), Plain(DNS_SERVICE_NAME),
                DNS_SERVICE_PORT)
  }

  /** The host name that the gateway gives the instance in ns. */
  ghost predicate GivesHost(w: World, hash: NameHash, ns: string, host: string) {
    w.observed.gateway.Some? && w.observed.gateway.value.Some?
      && host == HostName(hash, ns, w.observed.gateway.value.value)
  }

  /** Such a host is that of the instance, below the base domain that the gateway is annotated with. */
  lemma GivenHost(w: World, hash: NameHash, ns: string, host: string)
    requires GivesHost(w, hash, ns, host)
    ensures HostOf(hash, ns, host) && Below(w.observed.gateway.value.value, host)
  {
    HostNameParts(hash, ns, w.observed.gateway.value.value);
  }

  /** Some world of the trace from position n on had a gateway that gives this host name. */
  ghost predicate HostAt(t: seq<Snap>, n: nat, hash: NameHash, ns: string, host: string) {
    exists j :: n <= j < |t| && GivesHost(t[j].world, hash, ns, host)
  }

  /** The host name, or none as long as there is no default gateway. */
  method ReconcileGateway(api: Server, ns: string) returns (r: Result<Option<string>>)
    requires api.Valid() && HasFinalizer(api.mark) && !api.mark.retired
    modifies api
    ensures api.Looked()
    ensures r.Ok? && r.value.Some? ==>
      && GivesHost(api.world, api.hash, ns, r.value.value)
      && HostAt(api.trace, |old(api.trace)|, api.hash, ns, r.value.value)
    ensures r.Ok? && r.value.Some? ==>
      HostOf(api.hash, ns, r.value.value) && Below(api.world.observed.gateway.value.value, r.value.value)
    ensures r.Ok? && r.value.None? ==> api.world.observed.gateway.None?
    ensures old(api.Calm()) && r.Error? ==> api.world.observed.gateway == Some(None)
  {
    var gateway := api.GetGateway();
    if gateway.Error? {
      if gateway.failure == NotFound { return Ok(None); }
      return Error(gateway.failure);
    }
    if gateway.value.None? { return Error(Failed); }
    ghost var t := api.trace;
    assert GivesHost(t[|t| - 1].world, api.hash, ns, HostName(api.hash, ns, gateway.value.value));
    GivenHost(api.world, api.hash, ns, HostName(api.hash, ns, gateway.value.value));
    return Ok(Some(HostName(api.hash, ns, gateway.value.value)));
  }

  /** There is a default gateway, and it is annotated with its base domain. */
  predicate GatewayReady(o: Observed) {
    o.gateway.Some? && o.gateway.value.Some?
  }

  /** Creates or updates the route with the host name the gateway gives at this time. */
  method ReconcileTLSRoute(api: Server, ns: string) returns (ok: bool, ghost host: string)
    requires api.Valid() && InstallGuard(api.mark, ns)
    modifies api
    ensures api.Grown()
    ensures || api.world.objects == old(api.world).objects
            || api.world.objects == old(api.world).objects[TlsRouteKey(ns) := TlsRoute(host)]
    ensures old(api.Calm()) ==> (ok <==> GatewayReady(old(api.world).observed))
    ensures ok ==>
      && api.world.objects == old(api.world).objects[TlsRouteKey(ns) := TlsRoute(host)]
      && HostAt(api.trace, |old(api.trace)|, api.hash, ns, host) && HostOf(api.hash, ns, host)
  {
    host := "";
    var gateway := api.GetGateway();
    if gateway.Error? || gateway.value.None? { return false, host; }
    var name := HostName(api.hash, ns, gateway.value.value);
    HostNameParts(api.hash, ns, gateway.value.value);
    host := name;
    ghost var t := api.trace;
    assert GivesHost(t[|t| - 1].world, api.hash, ns, host);
    ghost var took;
    ok, took := api.Put(TlsRouteKey(ns), TlsRoute(name));
    assert t[|t| - 1] == api.trace[|t| - 1];
  }

  predicate FromDefaultGateway(p: RouteParent) {
    p.name == DEFAULT_GATEWAY_NAME && p.ns == Some(DEFAULT_GATEWAY_NAMESPACE)
  }

  predicate AcceptedCondition(c: RouteCondition) { c.kind == "Accepted" && c.status == "True" }

  /** Some parent is the default gateway and accepts the route. */
  predicate Accepted(parents: seq<RouteParent>) {
    exists i, j :: 0 <= i < |parents| && 0 <= j < |parents[i].conditions|
      && FromDefaultGateway(parents[i]) && AcceptedCondition(parents[i].conditions[j])
  }

  /**
   What counts as acceptance, for the specifications alone: a condition of type Accepted with the status
   True, of a parent that is named default in openmcp-system. A parent without a namespace does not count.
   */
  predicate Accepts(p: RouteParent, c: RouteCondition) {
    p.name == "default" && p.ns == Some("openmcp-system") && c.kind == "Accepted" && c.status == "True"
  }

  lemma AcceptedExactly(parents: seq<RouteParent>)
    ensures Accepted(parents) <==> exists p, c :: p in parents && c in p.conditions && Accepts(p, c)
  {
    if p, c :| p in parents && c in p.conditions && Accepts(p, c) {
      var i :| 0 <= i < |parents| && parents[i] == p;
      var j :| 0 <= j < |p.conditions| && p.conditions[j] == c;
      assert FromDefaultGateway(parents[i]) && AcceptedCondition(parents[i].conditions[j]);
    }
    if Accepted(parents) {
      var i, j :| 0 <= i < |parents| && 0 <= j < |parents[i].conditions|
        && FromDefaultGateway(parents[i]) && AcceptedCondition(parents[i].conditions[j]);
      assert parents[i] in parents && parents[i].conditions[j] in parents[i].conditions;
    }
  }

  /** The search through the status of the route. */
  method FindAcceptance(parents: seq<RouteParent>) returns (found: bool)
    ensures found <==> Accepted(parents)
    ensures found <==> exists p, c :: p in parents && c in p.conditions && Accepts(p, c)
  {
    AcceptedExactly(parents);
    for i := 0 to |parents|
      invariant forall p, j :: 0 <= p < i && 0 <= j < |parents[p].conditions| ==>
        !(FromDefaultGateway(parents[p]) && AcceptedCondition(parents[p].conditions[j]))
    {
      if FromDefaultGateway(parents[i]) {
        var conditions := parents[i].conditions;
        for j := 0 to |conditions|
          invariant forall q :: 0 <= q < j ==> !AcceptedCondition(conditions[q])
        {
          if AcceptedCondition(conditions[j]) { return true; }
        }
      }
    }
    return false;
  }

  method IsTLSRouteReady(api: Server, ns: string) returns (r: Result<bool>)
    requires api.Valid() && ReadGuard(api.mark, ns)
    modifies api
    ensures api.Looked()
    ensures old(api.Calm()) && r.Error? ==> TlsRouteKey(ns) !in old(api.world).objects
    ensures r.Ok? ==> TlsRouteKey(ns) in api.world.objects && (r.value <==> Accepted(api.world.observed.parents))
    ensures r.Ok? ==>
      (r.value <==> exists p, c :: p in api.world.observed.parents && c in p.conditions && Accepts(p, c))
  {
    var route := api.GetRoute(TlsRouteKey(ns));
    if route.Error? { return Error(route.failure); }
    var found := FindAcceptance(route.value);
    return Ok(found);
  }

  /** Deletes the route, if it is there. */
  method DeleteTLSRoute(api: Server, ns: string) returns (ok: bool, ghost took: bool)
    requires api.Valid() && RemoveGuard(api.mark, ns)
    modifies api
    ensures api.Shrunk() && (old(api.Calm()) ==> ok)
    ensures Ops(api.trace) == Ops(old(api.trace)) + (if took then [Del(TlsRouteKey(ns))] else [])
    ensures api.world.objects == if took then old(api.world).objects - {TlsRouteKey(ns)} else old(api.world).objects
    ensures ok ==> TlsRouteKey(ns) !in api.world.objects
  {
    took := false;
    var route := api.Get(TlsRouteKey(ns));
    if route.Error? { return route.failure == NotFound, false; }
    ok, took := api.Remove(Del(TlsRouteKey(ns)));
  }
}
