/** The readiness checks of the installers, and their aggregation. */
module Readiness {
  import opened Wrappers
  import opened Identity
  import opened Store
  import opened Plans
  import opened World
  import opened Calls
  import opened Api

  datatype Problem = Unavailable(c: Component) | Unready(c: Component)

  /** The problems found; ready if there is none. */
  type CheckResult = seq<Problem>

  predicate IsReady(r: CheckResult) { r == [] }

  function Aggregate(rs: seq<CheckResult>): (r: CheckResult)
    ensures IsReady(r) <==> forall i :: 0 <= i < |rs| ==> IsReady(rs[i])
  {
    if rs == [] then [] else rs[0] + Aggregate(rs[1..])
  }

  lemma AggregateTwo(a: CheckResult, b: CheckResult)
    ensures IsReady(Aggregate([a, b])) <==> IsReady(a) && IsReady(b)
  {
    assert [a, b][0] == a && [a, b][1] == b;
  }

  lemma AggregateThree(a: CheckResult, b: CheckResult, c: CheckResult)
    ensures IsReady(Aggregate([a, b, c])) <==> IsReady(a) && IsReady(b) && IsReady(c)
  {
    assert [a, b, c][0] == a && [a, b, c][1] == b && [a, b, c][2] == c;
  }

  predicate Up(s: Objects, o: Observed, ns: string, c: Component) {
    DeploymentKey(ns, c) in s && c in o.ready
  }

  /** At some point of the trace from position n on, the Deployment of c was there and ready. */
  ghost predicate UpAt(t: seq<Snap>, n: nat, ns: string, c: Component) {
    exists j :: n <= j < |t| && Up(t[j].world.objects, t[j].world.observed, ns, c)
  }

  lemma UpStays(t: seq<Snap>, u: seq<Snap>, n: nat, m: nat, ns: string, c: Component)
    requires UpAt(t, n, ns, c) && t <= u && m <= n
    ensures UpAt(u, m, ns, c)
  {
    var j :| n <= j < |t| && Up(t[j].world.objects, t[j].world.observed, ns, c);
    assert u[j] == t[j];
  }

  method CheckDeployment(api: Server, ns: string, c: Component) returns (r: CheckResult)
    requires api.Valid() && ReadGuard(api.mark, ns)
    modifies api
    ensures api.Looked()
    ensures IsReady(r) ==> UpAt(api.trace, |old(api.trace)|, ns, c)
    ensures old(api.Calm()) ==> (IsReady(r) <==> Up(old(api.world).objects, old(api.world).observed, ns, c))
  {
    var d := api.GetDeployment(ns, c);
    if d.Error? { return [Unavailable(c)]; }
    assert d.value ==> Up(api.trace[|api.trace| - 1].world.objects, api.trace[|api.trace| - 1].world.observed, ns, c);
    r := if d.value then [] else [Unready(c)];
  }

  /** The components whose Deployments the landscaper's check goes through. */
  predicate OfLandscaper(c: Component) { c == Controller || c == Main || c == Webhooks }

  /** One round of the landscaper's check; a Deployment that cannot be read ends it. */
  method CheckNext(api: Server, ns: string, c: Component, r: CheckResult) returns (more: CheckResult, found: bool)
    requires api.Valid() && ReadGuard(api.mark, ns)
    modifies api
    ensures api.Looked()
    ensures !found ==> !IsReady(more)
    ensures found && IsReady(more) ==> IsReady(r) && UpAt(api.trace, |old(api.trace)|, ns, c)
    ensures old(api.Calm()) ==>
      if found then (IsReady(more) <==> IsReady(r) && Up(old(api.world).objects, old(api.world).observed, ns, c))
        else !Up(old(api.world).objects, old(api.world).observed, ns, c)
  {
    var d := api.GetDeployment(ns, c);
    if d.Error? { return [Unavailable(c)], false; }
    assert d.value ==> Up(api.trace[|api.trace| - 1].world.objects, api.trace[|api.trace| - 1].world.observed, ns, c);
    var result := if d.value then [] else [Unready(c)];
    AggregateTwo(r, result);
    return Aggregate([r, result]), true;
  }

  const LANDSCAPER_COMPONENTS := [Controller, Main, Webhooks]

  predicate AllUp(s: Objects, o: Observed, ns: string, cs: seq<Component>) {
    forall i :: 0 <= i < |cs| ==> Up(s, o, ns, cs[i])
  }

  ghost predicate AllUpAt(t: seq<Snap>, n: nat, ns: string, cs: seq<Component>) {
    forall i :: 0 <= i < |cs| ==> UpAt(t, n, ns, cs[i])
  }

  lemma AllUpMore(s: Objects, o: Observed, ns: string, cs: seq<Component>, i: nat)
    requires i < |cs|
    ensures AllUp(s, o, ns, cs[..i + 1]) <==> AllUp(s, o, ns, cs[..i]) && Up(s, o, ns, cs[i])
    ensures !Up(s, o, ns, cs[i]) ==> !AllUp(s, o, ns, cs)
  {
    assert cs[..i + 1] == cs[..i] + [cs[i]];
  }

  lemma AllUpAtMore(t: seq<Snap>, u: seq<Snap>, n: nat, ns: string, cs: seq<Component>, i: nat)
    requires t <= u && n <= |t| && i < |cs| && AllUpAt(t, n, ns, cs[..i]) && UpAt(u, |t|, ns, cs[i])
    ensures AllUpAt(u, n, ns, cs[..i + 1])
  {
    var more := cs[..i + 1];
    forall j | 0 <= j < |more| ensures UpAt(u, n, ns, more[j]) {
      if j < i {
        assert cs[..i][j] == cs[j];
        UpStays(t, u, n, n, ns, cs[j]);
      } else {
        UpStays(u, u, |t|, n, ns, cs[i]);
      }
    }
  }

  /** The landscaper's check: a Deployment that cannot be read ends the loop, and only that problem is reported. */
  method CheckComponents(api: Server, ns: string, components: seq<Component>) returns (r: CheckResult)
    requires api.Valid() && ReadGuard(api.mark, ns)
    modifies api
    ensures api.Idle()
    ensures IsReady(r) ==> AllUpAt(api.trace, |old(api.trace)|, ns, components)
    ensures old(api.Calm()) ==> (IsReady(r) <==> AllUp(old(api.world).objects, old(api.world).observed, ns, components))
  {
    ghost var calm, n, o, seen := api.Calm(), |api.trace|, api.world.objects, api.world.observed;
    r := [];
    for i := 0 to |components|
      invariant api.Idle() && api.world.objects == o && (calm ==> api.world.observed == seen)
      invariant IsReady(r) ==> AllUpAt(api.trace, n, ns, components[..i])
      invariant calm ==> (IsReady(r) <==> AllUp(o, seen, ns, components[..i]))
    {
      ghost var t := api.trace;
      var found;
      AllUpMore(o, seen, ns, components, i);
      r, found := CheckNext(api, ns, components[i], r);
      if !found { return; }
      if IsReady(r) { AllUpAtMore(t, api.trace, n, ns, components, i); }
    }
    assert components[..|components|] == components;
  }

  method CheckLandscaper(api: Server, ns: string) returns (r: CheckResult)
    requires api.Valid() && ReadGuard(api.mark, ns)
    modifies api
    ensures api.Idle()
    ensures IsReady(r) ==> forall c :: OfLandscaper(c) ==> UpAt(api.trace, |old(api.trace)|, ns, c)
    ensures old(api.Calm()) ==>
      (IsReady(r) <==> forall c :: OfLandscaper(c) ==> Up(old(api.world).objects, old(api.world).observed, ns, c))
  {
    r := CheckComponents(api, ns, LANDSCAPER_COMPONENTS);
    var cs := LANDSCAPER_COMPONENTS;
    assert cs[0] == Controller && cs[1] == Main && cs[2] == Webhooks;
    assert OfLandscaper(Controller) && OfLandscaper(Main) && OfLandscaper(Webhooks);
  }

  lemma Conjunction(s: Objects, o: Observed, ns: string, manifest: CheckResult, helm: CheckResult,
                    landscaper: CheckResult)
    requires (IsReady(manifest) <==> Up(s, o, ns, Manifest)) && (IsReady(helm) <==> Up(s, o, ns, Helm))
    requires IsReady(landscaper) <==> forall c :: OfLandscaper(c) ==> Up(s, o, ns, c)
    ensures IsReady(Aggregate([manifest, helm, landscaper])) <==> forall c :: Up(s, o, ns, c)
  {
    AggregateThree(manifest, helm, landscaper);
    assert forall c :: OfLandscaper(c) || c == Manifest || c == Helm;
  }

  /** The check of an instance: exactly the conjunction over its five Deployments. */
  method CheckReadiness(api: Server, ns: string) returns (r: CheckResult)
    requires api.Valid() && ReadGuard(api.mark, ns)
    modifies api
    ensures api.Idle()
    ensures IsReady(r) ==> forall c :: UpAt(api.trace, |old(api.trace)|, ns, c)
    ensures old(api.Calm()) ==> (IsReady(r) <==> forall c :: Up(old(api.world).objects, old(api.world).observed, ns, c))
  {
    ghost var n := |api.trace|;
    var manifest := CheckDeployment(api, ns, Manifest);
    ghost var t1 := api.trace;
    var helm := CheckDeployment(api, ns, Helm);
    ghost var t2 := api.trace;
    var landscaper := CheckLandscaper(api, ns);
    r := Aggregate([manifest, helm, landscaper]);
    if IsReady(r) {
      AggregateThree(manifest, helm, landscaper);
      EveryoneUp(t1, t2, api.trace, n, ns);
    }
    if old(api.Calm()) { Conjunction(old(api.world).objects, old(api.world).observed, ns, manifest, helm, landscaper); }
  }

  lemma EveryoneUp(t1: seq<Snap>, t2: seq<Snap>, t: seq<Snap>, n: nat, ns: string)
    requires n <= |t1| && t1 <= t2 <= t && UpAt(t1, n, ns, Manifest) && UpAt(t2, |t1|, ns, Helm)
    requires forall c :: OfLandscaper(c) ==> UpAt(t, |t2|, ns, c)
    ensures forall c :: UpAt(t, n, ns, c)
  {
    forall c ensures UpAt(t, n, ns, c) {
      match c
      case Manifest => UpStays(t1, t, n, n, ns, c);
      case Helm => UpStays(t2, t, |t1|, n, ns, c);
      case _ => UpStays(t, t, |t2|, n, ns, c);
    }
  }
}
