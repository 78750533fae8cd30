/**
 The API servers as the controller meets them: every call may be preceded by any steps of the
 environment, may fail, and may take effect and fail nevertheless. A process that stops is a
 run whose remaining calls are all refused.
 */
module Api {
  import opened Wrappers
  import opened Identity
  import opened Store
  import opened Plans
  import opened Platform
  import opened World
  import opened Calls

  datatype Outcome = Done | Refused | Unanswered

  /**
   What happens around one call: the steps of others before it, its outcome, and which of the
   access requests a partly successful call of the access library deals with.
   */
  datatype Tick = Tick(events: seq<Event>, outcome: Outcome, forMcp: bool, forWorkload: bool)

  const CALM := Tick([], Done, true, true)

  datatype Failure = NotFound | Conflict | Failed

  datatype Result<+T> = Ok(value: T) | Error(failure: Failure)

  /** A step and the world after it. */
  datatype Snap = Snap(step: Label, world: World)

  function Nth(t: seq<Snap>, i: nat): Snap
    requires i < |t|
  {
    t[i]
  }

  /** The recorded steps of any number of runs: all worlds satisfy the invariants, all steps are linked. */
  ghost predicate Legal(t: seq<Snap>) {
    && (forall i :: 0 <= i < |t| ==> Inv(Nth(t, i).world))
    && (forall i, j :: 0 <= i && j == i + 1 < |t| ==> Linked(Nth(t, i).world, Nth(t, j).step, Nth(t, j).world))
  }

  /** What names are computed from is the same all the time. */
  lemma {:induction false} SameNaming(t: seq<Snap>, i: nat, j: nat)
    requires Legal(t) && i <= j < |t|
    ensures Nth(t, j).world.naming == Nth(t, i).world.naming
    decreases j - i
  {
    if i < j { SameNaming(t, i, j - 1); }
  }

  /** The operation of a step that wrote to the clusters. */
  function OpOf(l: Label): seq<Op> { if l.ClusterWrite? then [l.op] else [] }

  /** The operations that have taken effect on the clusters, in order. */
  function Ops(t: seq<Snap>): seq<Op> {
    if t == [] then [] else Ops(t[..|t| - 1]) + OpOf(t[|t| - 1].step)
  }

  lemma OpsMore(t: seq<Snap>, l: Label, v: World)
    ensures Ops(t + [Snap(l, v)]) == Ops(t) + OpOf(l)
  {
    assert (t + [Snap(l, v)])[..|t|] == t;
  }

  lemma LegalMore(t: seq<Snap>, l: Label, v: World)
    requires Legal(t) && Inv(v) && (t != [] ==> Linked(Nth(t, |t| - 1).world, l, v))
    ensures Legal(t + [Snap(l, v)])
  {
    var u := t + [Snap(l, v)];
    forall i | 0 <= i < |u| ensures Inv(Nth(u, i).world) {
      if i < |t| { assert Nth(u, i) == Nth(t, i); }
    }
    forall i, j | 0 <= i && j == i + 1 < |u| ensures Linked(Nth(u, i).world, Nth(u, j).step, Nth(u, j).world) {
      assert Nth(u, i) == Nth(t, i);
      if j < |t| { assert Nth(u, j) == Nth(t, j); }
    }
  }

  /** The steps of others, one after the other. */
  function Steps(w: World, events: seq<Event>): World {
    if events == [] then w else EnvStep(Steps(w, events[..|events| - 1]), events[|events| - 1])
  }

  /** Others have acted, and left alone what only the run itself changes. */
  predicate Quiet(w: World, v: World) {
    v.objects == w.objects && v.book.held == w.book.held && v.book.written == w.book.written
      && v.book.running == w.book.running
  }

  /** Nobody has acted, and the run has only read and worked on the clusters. */
  predicate Undisturbed(w: World, v: World) {
    && v.ls == w.ls && v.clock == w.clock && v.now == w.now && v.platform == w.platform
    && v.mcp == w.mcp && v.workload == w.workload && v.observed == w.observed && v.retired == w.retired
    && v.book.running == w.book.running
    && v.book.queued == w.book.queued && v.book.retry == w.book.retry && v.book.lapsed == w.book.lapsed
  }

  class Server {
    const schedule: nat -> Tick
    const hash: NameHash
    const kubeconfigs: Kubeconfigs
    var world: World
    var tick: nat
    ghost var trace: seq<Snap>
    ghost var before: World   // the world in which the last call arrived
    ghost var mark: World     // a world the running reconcile has seen, and knows how it can have changed

    ghost predicate Valid()
      reads this
    {
      && trace != [] && trace[|trace| - 1].world == world && Legal(trace) && Onward(mark, world)
      && world.naming.hash == hash
    }

    /** The present world satisfies the invariants. */
    lemma Holds()
      requires Valid()
      ensures Inv(world)
    {
      assert Inv(Nth(trace, |trace| - 1).world);
    }

    /** The run compares with a world of the same Landscaper all the time. */
    lemma NamingHolds(t: seq<Snap>, m: World)
      requires Valid() && t != [] && t <= trace && Onward(m, t[|t| - 1].world)
      ensures mark.naming == m.naming
    {
      SameNaming(trace, |t| - 1, |trace| - 1);
      assert Nth(trace, |t| - 1) == t[|t| - 1];
    }

    lemma StatusHolds()
      requires Valid()
      ensures StatusKept(world) && Stamped(world)
    {
      Holds();
    }

    /** From here on nobody interferes and no call fails. */
    ghost predicate Calm()
      reads this
    {
      forall i :: tick <= i ==> schedule(i) == CALM
    }

    /** A call has been served that may have changed the Landscaper, its requests or the queue. */
    twostate predicate Stepped()
      reads this
    {
      && Valid() && old(trace) < trace && Onward(old(mark), before) && Quiet(old(world), before) && mark == world
      && Ops(trace) == Ops(old(trace))
      && (old(Calm()) ==> Calm() && before == old(world))
    }

    /** Any number of calls have been served that read and work on the clusters. */
    twostate predicate Worked()
      reads this
    {
      Valid() && old(trace) <= trace && mark == old(mark) && old(world).book.written <= world.book.written
    }

    /** If nobody interferes, nothing has changed but by those calls. */
    twostate predicate Steady()
      reads this
    {
      old(Calm()) ==> Calm() && Undisturbed(old(world), world)
    }

    /** Beside reads only upserts have been made, if anything. */
    twostate predicate Grown()
      reads this
    {
      Worked() && Steady() && forall k :: k in old(world).objects ==> k in world.objects
    }

    /** Beside reads only deletes have been made, if anything. */
    twostate predicate Shrunk()
      reads this
    {
      Worked() && Steady() && forall k :: k in world.objects ==> k in old(world).objects
    }

    /** Nothing has been done but to read, if anything. */
    twostate predicate Idle()
      reads this
    {
      Worked() && Steady() && world.objects == old(world).objects && world.book.written == old(world).book.written
      && Ops(trace) == Ops(old(trace))
    }

    /** A call that has only read. */
    twostate predicate Looked()
      reads this
    {
      Idle() && old(trace) < trace
    }

    constructor (schedule: nat -> Tick, kubeconfigs: Kubeconfigs, world: World)
      requires Inv(world)
      ensures Valid() && this.world == world && trace == [Snap(Environment, world)] && tick == 0
      ensures this.schedule == schedule && hash == world.naming.hash && this.kubeconfigs == kubeconfigs
    {
      this.schedule, hash, this.kubeconfigs, this.world, tick := schedule, world.naming.hash, kubeconfigs, world, 0;
      trace, before, mark := [Snap(Environment, world)], world, world;
      LegalMore([], Environment, world);
      assert [] + [Snap(Environment, world)] == [Snap(Environment, world)];
      OnwardReflexive(world);
    }

    /** From here on the run compares with the present world. */
    ghost method Mark()
      requires Valid()
      modifies this`mark
      ensures Valid() && mark == world
    {
      Holds();
      OnwardReflexive(world);
      mark := world;
    }

    method Record(l: Label, v: World)
      requires Valid() && Kept(world, l, v) && Onward(world, v)
      modifies this`world, this`trace
      ensures Valid() && world == v && trace == old(trace) + [Snap(l, v)] && Ops(trace) == Ops(old(trace)) + OpOf(l)
    {
      OpsMore(trace, l, v);
      OnwardTransitive(mark, world, v);
      LegalMore(trace, l, v);
      trace := trace + [Snap(l, v)];
      world := v;
    }

    /** Records a step that the run has to compare with from now on. */
    method RecordMarked(l: Label, v: World)
      requires Valid() && Kept(world, l, v)
      modifies this`world, this`trace, this`mark
      ensures Valid() && world == v && mark == v && trace == old(trace) + [Snap(l, v)]
      ensures Ops(trace) == Ops(old(trace)) + OpOf(l)
    {
      OpsMore(trace, l, v);
      LegalMore(trace, l, v);
      trace := trace + [Snap(l, v)];
      world := v;
      OnwardReflexive(v);
      mark := v;
    }

    /** Ends a call on the onboarding cluster that would make the world v, if it takes effect. */
    method Conduct(took: bool, v: World)
      requires Valid() && (took ==> Kept(world, Onboarding, v))
      modifies this`world, this`trace, this`mark
      ensures Valid() && old(trace) < trace && Ops(trace) == Ops(old(trace))
      ensures mark == world && world == if took then v else old(world)
    {
      Holds();
      RecordMarked(Onboarding, if took then v else world);
    }

    /** The steps others take before the next call arrives. */
    method Interfere(events: seq<Event>)
      requires Valid()
      modifies this`world, this`trace, this`before
      ensures Valid() && old(trace) <= trace && Quiet(old(world), world) && before == world
      ensures world == Steps(old(world), events) && Ops(trace) == Ops(old(trace))
    {
      for i := 0 to |events|
        invariant Valid() && old(trace) <= trace && Quiet(old(world), world)
        invariant world == Steps(old(world), events[..i]) && Ops(trace) == Ops(old(trace))
      {
        assert events[..i + 1][..i] == events[..i];
        var v := EnvStep(world, events[i]);
        Holds();
        EnvKeepsInv(world, events[i]);
        Record(Environment, v);
      }
      assert events[..|events|] == events;
      before := world;
    }

    method Arrive() returns (t: Tick)
      requires Valid()
      modifies this`world, this`trace, this`before, this`tick
      ensures Valid() && old(trace) <= trace && Quiet(old(world), world) && before == world
      ensures t == schedule(old(tick)) && tick == old(tick) + 1 && Ops(trace) == Ops(old(trace))
      ensures old(Calm()) ==> t == CALM && Calm() && world == old(world)
    {
      t := schedule(tick);
      Interfere(t.events);
      tick := tick + 1;
    }

    /** A call that reads; touching a cluster is not allowed once the Landscaper is retired. */
    method Read(l: Label) returns (ok: bool)
      requires Valid() && MayRead(mark, l)
      modifies this
      ensures Looked() && (old(Calm()) ==> ok) && world.book.held == old(world).book.held
    {
      var t := Arrive();
      ok := t.outcome == Done;
      Holds();
      LookKeeps(mark, world, l);
      Record(l, world);
    }

    // -------------------------------------------------------------- work queue

    method Begin()
      requires Valid()
      modifies this
      ensures Valid() && old(trace) < trace && tick == old(tick) && world == BeginEffect(old(world)) && mark == world
      ensures Ops(trace) == Ops(old(trace))
    {
      Holds();
      BeginKeeps(world);
      RecordMarked(Bookkeeping, BeginEffect(world));
    }

    method End(retry: bool)
      requires Valid() && EndGuard(world, retry)
      modifies this
      ensures Valid() && old(trace) < trace && tick == old(tick) && world == EndEffect(old(world), retry)
      ensures Ops(trace) == Ops(old(trace))
    {
      Holds();
      EndKeeps(world, retry);
      RecordMarked(Bookkeeping, EndEffect(world, retry));
    }

    // -------------------------------------------------------------- the Landscaper

    method GetLandscaper() returns (r: Result<Landscaper>)
      requires Valid()
      modifies this
      ensures Looked() && world.book.held == old(world).book.held
      ensures r.Ok? ==> world.ls == Some(r.value)
      ensures r.Error? && r.failure == NotFound ==> world.ls.None?
      ensures old(Calm()) ==> (r.Ok? <==> world.ls.Some?) && (r.Error? ==> r.failure == NotFound)
    {
      var ok := Read(Onboarding);
      if !ok { return Error(Failed); }
      if world.ls.None? { return Error(NotFound); }
      return Ok(world.ls.value);
    }

    /** Carries out an update that has arrived, unless the stored version is another one. */
    method Replace(outcome: Outcome, ls: Landscaper) returns (r: Result<Landscaper>)
      requires Valid() && UpdateGuard(world, ls)
      modifies this`world, this`trace, this`mark
      ensures Valid() && old(trace) < trace && Ops(trace) == Ops(old(trace)) && mark == world
      ensures world == old(world) || (UpToDate(old(world), ls) && world == UpdateEffect(old(world), ls))
      ensures r.Ok? ==>
        && UpToDate(old(world), ls) && world == UpdateEffect(old(world), ls)
        && r.value == ls.(rv := old(world).clock + 1, status := old(world).ls.value.status)
      ensures r.Ok? <==> outcome == Done && UpToDate(old(world), ls)
    {
      var found := UpToDate(world, ls);
      var took := outcome != Refused && found;
      r := Error(if outcome == Refused || found then Failed else if world.ls.None? then NotFound else Conflict);
      if took && outcome == Done { r := Ok(ls.(rv := world.clock + 1, status := world.ls.value.status)); }
      Holds();
      if took { UpdateKeeps(world, ls); }
      Conduct(took, if took then UpdateEffect(world, ls) else world);
    }

    method UpdateLandscaper(ls: Landscaper) returns (r: Result<Landscaper>)
      requires Valid() && UpdateGuard(mark, ls)
      modifies this
      ensures Stepped()
      ensures world == before || (UpToDate(before, ls) && world == UpdateEffect(before, ls))
      ensures r.Ok? ==>
        && UpToDate(before, ls) && world == UpdateEffect(before, ls)
        && r.value == ls.(rv := before.clock + 1, status := before.ls.value.status)
      ensures old(Calm()) && UpToDate(old(world), ls) ==> r.Ok?
    {
      var t := Arrive();
      UpdateGuardLasts(mark, world, ls);
      r := Replace(t.outcome, ls);
    }

    /** Removes the reconcile annotation, and returns the object as it is then. */
    method PatchAnnotation() returns (r: Result<Landscaper>)
      requires Valid() && PatchGuard(world)
      modifies this
      ensures Stepped()
      ensures world == before || (before.ls.Some? && world == PatchEffect(before))
      ensures r.Ok? ==> before.ls.Some? && world == PatchEffect(before) && world.ls == Some(r.value)
      ensures old(Calm()) && old(world).ls.Some? ==> r.Ok?
    {
      var t := Arrive();
      Holds();
      var took := t.outcome != Refused && world.ls.Some?;
      r := Error(if t.outcome == Refused || world.ls.Some? then Failed else NotFound);
      if took { PatchKeeps(world); }
      Conduct(took, if took then PatchEffect(world) else world);
      if took && t.outcome == Done { r := Ok(world.ls.value); }
    }

    method UpdateLandscaperStatus(ls: Landscaper) returns (r: Result<Landscaper>)
      requires Valid() && StatusGuard(mark, ls)
      modifies this
      ensures Stepped()
      ensures world == before || (UpToDate(before, ls) && world == StatusEffect(before, ls))
      ensures r.Ok? ==> UpToDate(before, ls) && world == StatusEffect(before, ls) && world.ls == Some(r.value)
      ensures r.Error? && r.failure == NotFound ==> world == before && world.ls.None?
      ensures old(Calm()) && UpToDate(old(world), ls) ==> r.Ok?
      ensures old(Calm()) && old(world).ls.None? ==> r == Error(NotFound)
    {
      var t := Arrive();
      Holds();
      StatusGuardLasts(mark, world, ls);
      var found, took := UpToDate(world, ls), t.outcome != Refused && UpToDate(world, ls);
      r := Error(if t.outcome == Refused || found then Failed else if world.ls.None? then NotFound else Conflict);
      if took { StatusKeeps(world, ls); }
      Conduct(took, if took then StatusEffect(world, ls) else world);
      if took && t.outcome == Done { r := Ok(world.ls.value); }
    }

    // -------------------------------------------------------------- platform cluster

    method ListDefaultConfigs() returns (r: Result<seq<ProviderConfig>>)
      requires Valid()
      modifies this
      ensures Looked()
      ensures r.Ok? ==> r.value == Defaults(world.platform.configs)
      ensures old(Calm()) ==> r.Ok?
    {
      var ok := Read(PlatformRead);
      if !ok { return Error(Failed); }
      return Ok(Defaults(world.platform.configs));
    }

    method GetProviderConfig(name: string) returns (r: Result<ProviderConfig>)
      requires Valid()
      modifies this
      ensures Looked()
      ensures r.Ok? ==> FindConfig(world.platform.configs, name) == Some(r.value)
      ensures old(Calm()) ==> (r.Ok? <==> FindConfig(world.platform.configs, name).Some?)
    {
      var ok := Read(PlatformRead);
      if !ok { return Error(Failed); }
      var c := FindConfig(world.platform.configs, name);
      if c.None? { return Error(NotFound); }
      return Ok(c.value);
    }

    method GetServiceProvider() returns (r: Result<seq<string>>)
      requires Valid()
      modifies this
      ensures Looked()
      ensures r.Ok? ==> world.platform.serviceProvider == Some(r.value)
      ensures old(Calm()) ==> (r.Ok? <==> world.platform.serviceProvider.Some?)
    {
      var ok := Read(PlatformRead);
      if !ok { return Error(Failed); }
      if world.platform.serviceProvider.None? { return Error(NotFound); }
      return Ok(world.platform.serviceProvider.value);
    }

    /** Reads a pull secret or a CA ConfigMap. */
    method GetSource(s: Source) returns (r: Result<Data>)
      requires Valid()
      modifies this
      ensures Looked()
      ensures r.Ok? ==> Current(world, s) == Some(r.value) && world.book.held == Some(Held(s, r.value))
      ensures old(Calm()) ==> (r.Ok? <==> Current(world, s).Some?)
    {
      var t := Arrive();
      Holds();
      ReadKeeps(world, s);
      WorkOnward(world, ReadEffect(world, s));
      Record(PlatformRead, ReadEffect(world, s));
      if t.outcome != Done { return Error(Failed); }
      if Current(world, s).None? { return Error(NotFound); }
      return Ok(Current(world, s).value);
    }

    // -------------------------------------------------------------- access requests

    /** ClusterAccessReconciler.Reconcile: Ok(true) when both requests are granted. */
    method ReconcileAccess() returns (r: Result<bool>)
      requires Valid() && AccessGuard(mark)
      modifies this
      ensures Stepped() && exists m, k :: world == AccessEffect(before, m, k)
      ensures r.Ok? ==> (r.value <==> world.mcp == Granted && world.workload == Granted)
      ensures old(Calm()) ==> r.Ok?
    {
      var t := Arrive();
      var m, k := t.outcome != Refused && t.forMcp, t.outcome != Refused && t.forWorkload;
      assert Kept(world, AccessCreate, AccessEffect(world, m, k)) by {
        Holds();
        AccessGuardLasts(mark, world);
        AccessKeeps(world, m, k);
      }
      RecordMarked(AccessCreate, AccessEffect(world, m, k));
      assert world == AccessEffect(before, m, k);
      if t.outcome != Done { return Error(Failed); }
      return Ok(world.mcp == Granted && world.workload == Granted);
    }

    /** Reads one access request; NotFound if it is absent. */
    method GetRequest(ofMcp: bool) returns (r: Result<Request>)
      requires Valid()
      modifies this
      ensures Looked()
      ensures r.Ok? ==> r.value == (if ofMcp then world.mcp else world.workload) && r.value != Absent
      ensures r.Error? && r.failure == NotFound ==> (if ofMcp then world.mcp else world.workload) == Absent
      ensures old(Calm()) && r.Error? ==> r.failure == NotFound
    {
      var ok := Read(PlatformRead);
      if !ok { return Error(Failed); }
      var q := if ofMcp then world.mcp else world.workload;
      if q == Absent { return Error(NotFound); }
      return Ok(q);
    }

    /** ClusterAccessReconciler.ReconcileDelete: Ok(true) when both requests are gone. */
    method ReconcileAccessDelete() returns (r: Result<bool>)
      requires Valid() && NoDisposables(world) && (HasFinalizer(mark) ==> mark.ls.value.deleting)
      modifies this
      ensures Stepped() && exists m, k :: world == AccessDeleteEffect(before, m, k)
      ensures r.Ok? ==> world == AccessDeleteEffect(before, true, true)
      ensures r.Ok? ==> (r.value <==> world.mcp == Absent && world.workload == Absent)
      ensures old(Calm()) ==> r.Ok?
    {
      var t := Arrive();
      var m := t.outcome == Done || (t.outcome == Unanswered && t.forMcp);
      var k := t.outcome == Done || (t.outcome == Unanswered && t.forWorkload);
      assert Kept(world, AccessDelete, AccessDeleteEffect(world, m, k)) by {
        Holds();
        AccessDeleteKeeps(world, m, k);
      }
      RecordMarked(AccessDelete, AccessDeleteEffect(world, m, k));
      assert world == AccessDeleteEffect(before, m, k);
      if t.outcome != Done { return Error(Failed); }
      return Ok(world.mcp == Absent && world.workload == Absent);
    }

    // -------------------------------------------------------------- workload and MCP clusters

    /** Ends a call that would make the world v: refused, it does not take effect. */
    method Settle(t: Tick, op: Op, v: World) returns (ok: bool, ghost took: bool)
      requires Valid() && Works(world, op, v)
      modifies this`world, this`trace
      ensures Valid() && old(trace) < trace && world == (if took then v else old(world))
      ensures Ops(trace) == Ops(old(trace)) + (if took then [op] else [])
      ensures (ok <==> t.outcome == Done) && (took <==> t.outcome != Refused)
    {
      if t.outcome == Refused {
        WorkOnward(world, world);
        Record(ClusterRead, world);
      } else {
        Record(ClusterWrite(op), v);
      }
      ok, took := t.outcome == Done, t.outcome != Refused;
    }

    /** An upsert. */
    method Put(k: Key, o: Object) returns (ok: bool, ghost took: bool)
      requires Valid() && InstallGuard(mark, k.ns) && PutGuard(world.objects, k, o)
      requires RouteNamed(hash, Store.Put(k, o))
      modifies this
      ensures Worked() && Steady() && (ok ==> took) && (old(Calm()) ==> ok)
      ensures Ops(trace) == Ops(old(trace)) + (if took then [Store.Put(k, o)] else [])
      ensures !took ==> world.objects == old(world).objects
      ensures took ==> world.objects == old(world).objects[k := o]
    {
      var op := Store.Put(k, o);
      var t := Arrive();
      var v := PutEffect(world, k, o);
      assert Works(world, op, v) by {
        Holds();
        PutWorks(mark, world, k, o);
      }
      ok, took := Settle(t, op, v);
    }

    /** An upsert of the copy of the source read last. */
    method PutCopy(c: Target, ns: string, data: Data) returns (ok: bool, ghost took: bool)
      requires Valid() && InstallGuard(mark, ns) && world.book.held == Some(Held(c.Origin(), data))
      modifies this
      ensures Worked() && Steady() && (ok ==> took) && (old(Calm()) ==> ok)
      ensures Ops(trace) == Ops(old(trace)) + (if took then [CopyOp(c, ns, data)] else [])
      ensures !took ==> world.objects == old(world).objects
      ensures took ==> world.objects == old(world).objects[c.Key(ns) := c.Copy(data)] && c in world.book.written
    {
      var t := Arrive();
      var v := CopyEffect(world, c, ns);
      assert Works(world, CopyOp(c, ns, data), v) by {
        Holds();
        CopyWorks(mark, world, c, ns);
      }
      ok, took := Settle(t, CopyOp(c, ns, data), v);
    }

    /** A delete that tolerates absence. */
    method Remove(op: Op) returns (ok: bool, ghost took: bool)
      requires Valid() && RemoveGuard(mark, Area(op)) && !op.Put? && Orderly(world.objects, op)
      requires SourceRead(world, op)
      modifies this
      ensures Worked() && Steady() && (ok ==> took) && (old(Calm()) ==> ok)
      ensures Ops(trace) == Ops(old(trace)) + (if took then [op] else [])
      ensures !took ==> world.objects == old(world).objects
      ensures took ==> world.objects == Do(old(world).objects, op)
    {
      var t := Arrive();
      var v := RemoveEffect(world, op);
      assert Works(world, op, v) by {
        Holds();
        RemoveWorks(mark, world, op);
      }
      ok, took := Settle(t, op, v);
    }

    // -------------------------------------------------------------- reads of the two clusters

    /** The client for one of the clusters; there is none without a granted request. */
    method GetCluster(ofMcp: bool) returns (ok: bool)
      requires Valid()
      modifies this
      ensures Looked()
      ensures ok ==> (if ofMcp then world.mcp else world.workload) == Granted
      ensures old(Calm()) ==> (ok <==> (if ofMcp then world.mcp else world.workload) == Granted)
    {
      ok := Read(PlatformRead);
      ok := ok && (if ofMcp then world.mcp else world.workload) == Granted;
    }

    method GetKubeconfigs() returns (r: Result<Kubeconfigs>)
      requires Valid()
      modifies this
      ensures Looked()
      ensures r.Ok? ==> r.value == kubeconfigs
      ensures old(Calm()) ==> r.Ok?
    {
      var ok := Read(PlatformRead);
      if !ok { return Error(Failed); }
      return Ok(kubeconfigs);
    }

    /** The default gateway: its base domain, if it is annotated with one. */
    method GetGateway() returns (r: Result<Option<string>>)
      requires Valid() && HasFinalizer(mark) && !mark.retired
      modifies this
      ensures Looked()
      ensures r.Ok? ==> world.observed.gateway == Some(r.value)
      ensures r.Error? && r.failure == NotFound ==> world.observed.gateway.None?
      ensures old(Calm()) && r.Error? ==> r.failure == NotFound
    {
      var ok := Read(ClusterRead);
      if !ok { return Error(Failed); }
      if world.observed.gateway.None? { return Error(NotFound); }
      return Ok(world.observed.gateway.value);
    }

    /** An object of the workload cluster. */
    method Get(k: Key) returns (r: Result<Object>)
      requires Valid() && ReadGuard(mark, k.ns)
      modifies this
      ensures Looked()
      ensures r.Ok? ==> k in world.objects && world.objects[k] == r.value
      ensures r.Error? && r.failure == NotFound ==> k !in world.objects
      ensures old(Calm()) && r.Error? ==> r.failure == NotFound
    {
      var ok := Read(ClusterRead);
      if !ok { return Error(Failed); }
      if k !in world.objects { return Error(NotFound); }
      return Ok(world.objects[k]);
    }

    /** The TLS route with the status the gateway controller has given it. */
    method GetRoute(k: Key) returns (r: Result<seq<RouteParent>>)
      requires Valid() && ReadGuard(mark, k.ns)
      modifies this
      ensures Looked()
      ensures r.Ok? ==> k in world.objects && world.observed.parents == r.value
      ensures old(Calm()) && r.Error? ==> k !in world.objects
    {
      var ok := Read(ClusterRead);
      if !ok { return Error(Failed); }
      if k !in world.objects { return Error(NotFound); }
      return Ok(world.observed.parents);
    }

    /** The Deployment of a component: whether it reports to be ready. */
    method GetDeployment(ns: string, c: Component) returns (r: Result<bool>)
      requires Valid() && ReadGuard(mark, ns)
      modifies this
      ensures Looked()
      ensures r.Ok? ==> DeploymentKey(ns, c) in world.objects && (r.value <==> c in world.observed.ready)
      ensures old(Calm()) && r.Error? ==> DeploymentKey(ns, c) !in world.objects
    {
      var ok := Read(ClusterRead);
      if !ok { return Error(Failed); }
      if DeploymentKey(ns, c) !in world.objects { return Error(NotFound); }
      return Ok(c in world.observed.ready);
    }
  }
}
