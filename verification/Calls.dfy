/**
 What each API call of the controller does to the world when it takes effect, when the
 controller may make it, and that it keeps the invariants then.
 */
module Calls {
  import opened Wrappers
  import opened Identity
  import opened Store
  import opened Conditions
  import opened Plans
  import opened Platform
  import opened World

  /** The stored Landscaper is the version the controller has in memory. */
  predicate UpToDate(w: World, ls: Landscaper) {
    w.ls.Some? && w.ls.value.uid == ls.uid && w.ls.value.rv == ls.rv
  }

  ghost predicate Kept(w: World, l: Label, v: World) {
    Inv(v) && Linked(w, l, v)
  }

  // ---------------------------------------------------------------- the Landscaper

  /** Update replaces metadata and spec, and leaves the status subresource alone. */
  function UpdateEffect(w: World, ls: Landscaper): World
    requires w.ls.Some?
  {
    StampOrRemove(w, ls.(status := w.ls.value.status))
  }

  /**
   The controller changes its finalizer and the instance id only, the latter to the one computed; it
   gives up the finalizer last.
   */
  predicate UpdateGuard(w: World, ls: Landscaper) {
    && ls.uid <= w.clock && ls.rv <= w.clock
    && (UpToDate(w, ls) ==>
          var s := w.ls.value;
          && ls.(finalizer := s.finalizer, id := s.id) == s
          && (ls.id == s.id || (s.id == "" && ls.id == w.naming.id))
          && (s.finalizer && !ls.finalizer ==> w.mcp == Absent && w.workload == Absent))
  }

  lemma UpdateKeeps(w: World, ls: Landscaper)
    requires Inv(w) && UpToDate(w, ls) && UpdateGuard(w, ls)
    ensures Kept(w, Onboarding, UpdateEffect(w, ls))
  {
    var v := UpdateEffect(w, ls);
    forall t | v.ls.Some? && !v.ls.value.deleting && Desired(v, t) ensures Covered(v, t) {
      assert Desired(w, t) && Covered(w, t);
    }
  }

  /** The merge patch that removes the annotation is not conditional on the resource version. */
  function PatchEffect(w: World): World
    requires w.ls.Some?
  {
    Stamp(w, w.ls.value.(annotated := false))
  }

  /** The annotation is cleared before anything is read. */
  predicate PatchGuard(w: World) {
    w.book.running && w.book.written == {} && w.book.held.None?
  }

  lemma PatchKeeps(w: World)
    requires Inv(w) && w.ls.Some? && PatchGuard(w)
    ensures Kept(w, Onboarding, PatchEffect(w))
  {}

  function StatusEffect(w: World, ls: Landscaper): World
    requires w.ls.Some?
  {
    Stamp(w, w.ls.value.(status := ls.status))
  }

  predicate StatusGuard(w: World, ls: Landscaper) {
    && ls.uid <= w.clock && ls.rv <= w.clock
    && (UpToDate(w, ls) ==>
          var s := w.ls.value;
          && Coherent(ls.status)
          && s.status.observedGeneration <= ls.status.observedGeneration <= s.generation
          && (s.status.phase == Terminating ==> ls.status.phase == Terminating)
          && (ls.status.phase == Terminating ==> s.deleting)
          && (ls.status.configRef == s.status.configRef || w.book.lapsed
              || (ls.status.configRef.Some? && ls.status.configRef.value != ""
                  && ConfigName(w.platform.configs, s.configRef, s.status.configRef) == ls.status.configRef.value)))
  }

  lemma StatusKeeps(w: World, ls: Landscaper)
    requires Inv(w) && UpToDate(w, ls) && StatusGuard(w, ls)
    ensures Kept(w, Onboarding, StatusEffect(w, ls))
  {
    var v := StatusEffect(w, ls);
    forall t | !v.ls.value.deleting && Desired(v, t) ensures Covered(v, t) {
      if !w.book.lapsed {
        assert ResolvedConfig(v) == ResolvedConfig(w);
        assert Desired(w, t) && Covered(w, t);
      }
    }
  }

  // ---------------------------------------------------------------- access requests

  function Created(r: Request): Request { if r == Absent then Pending else r }

  /** Creates missing requests. */
  function AccessEffect(w: World, forMcp: bool, forWorkload: bool): World {
    w.(mcp := if forMcp then Created(w.mcp) else w.mcp,
       workload := if forWorkload then Created(w.workload) else w.workload)
  }

  predicate AccessGuard(w: World) { HasFinalizer(w) && w.ls.value.id != "" && !w.retired }

  lemma AccessKeeps(w: World, forMcp: bool, forWorkload: bool)
    requires Inv(w) && AccessGuard(w)
    ensures Kept(w, AccessCreate, AccessEffect(w, forMcp, forWorkload))
  {
    var v := AccessEffect(w, forMcp, forWorkload);
    forall t | !v.ls.value.deleting && Desired(v, t) ensures Covered(v, t) { assert Desired(w, t); }
  }

  /** Moves live requests to deletion. */
  function AccessDeleteEffect(w: World, forMcp: bool, forWorkload: bool): World {
    w.(mcp := if forMcp && Live(w.mcp) then Deleting else w.mcp,
       workload := if forWorkload && Live(w.workload) then Deleting else w.workload,
       retired := w.retired || (forMcp && Live(w.mcp)) || (forWorkload && Live(w.workload)))
  }

  /** Requests go only for a Landscaper in deletion whose objects are gone. */
  predicate AccessDeleteGuard(w: World) {
    NoDisposables(w) && (HasFinalizer(w) ==> w.ls.value.deleting)
  }

  lemma AccessDeleteKeeps(w: World, forMcp: bool, forWorkload: bool)
    requires Inv(w) && AccessDeleteGuard(w)
    ensures Kept(w, AccessDelete, AccessDeleteEffect(w, forMcp, forWorkload))
  {
    var v := AccessDeleteEffect(w, forMcp, forWorkload);
    forall t | v.ls.Some? && !v.ls.value.deleting && Desired(v, t) ensures Covered(v, t) { assert Desired(w, t); }
  }

  // ---------------------------------------------------------------- objects

  predicate TargetKey(k: Key) {
    k.kind == ConfigMap || (k.kind == Secret && k.name.PullCopy?)
  }

  function PutEffect(w: World, k: Key, o: Object): World { w.(objects := w.objects[k := o]) }

  /** Whoever creates objects holds live access for a Landscaper that is marked as theirs. */
  predicate InstallGuard(w: World, ns: string) {
    HasFinalizer(w) && BothLive(w) && !w.retired && w.ls.value.id != "" && ns == Namespace(w.ls.value.id)
  }

  /** Whoever reads objects does so for a Landscaper that still has its access, in its namespace. */
  predicate ReadGuard(w: World, ns: string) {
    HasFinalizer(w) && !w.retired && w.ls.value.id != "" && ns == Namespace(w.ls.value.id)
  }

  /** What may be stored at a key: something a delete run names, and a Deployment only after its Secrets. */
  ghost predicate PutGuard(s: Objects, k: Key, o: Object) {
    !TargetKey(k) && (Disposable(k) ==> Addressed(k.ns, k)) && Formed(k, o) && Orderly(s, Put(k, o))
  }

  lemma PutKeeps(w: World, k: Key, o: Object)
    requires Inv(w) && InstallGuard(w, k.ns) && PutGuard(w.objects, k, o) && RouteNamed(w.naming.hash, Put(k, o))
    ensures Kept(w, ClusterWrite(Put(k, o)), PutEffect(w, k, o))
  {
    var v := PutEffect(w, k, o);
    forall t | !v.ls.value.deleting && Desired(v, t) ensures Covered(v, t) { assert Desired(w, t); }
  }

  function CopyOp(t: Target, ns: string, data: Data): Op { Put(t.Key(ns), t.Copy(data)) }

  /** Writes the copy of the source that has just been read. */
  function CopyEffect(w: World, t: Target, ns: string): World
    requires w.book.held.Some?
  {
    w.(objects := w.objects[t.Key(ns) := t.Copy(w.book.held.value.data)],
       book := w.book.(written := w.book.written + {t}, held := None))
  }

  predicate CopyGuard(w: World, t: Target, ns: string) {
    InstallGuard(w, ns) && w.book.held.Some? && w.book.held.value.source == t.Origin()
  }

  lemma CopyKeeps(w: World, t: Target, ns: string)
    requires Inv(w) && CopyGuard(w, t, ns)
    ensures Kept(w, ClusterWrite(CopyOp(t, ns, w.book.held.value.data)), CopyEffect(w, t, ns))
  {
    var v := CopyEffect(w, t, ns);
    forall u | !v.ls.value.deleting && Desired(v, u) ensures Covered(v, u) {
      assert Desired(w, u) && Covered(w, u);
      DesiredIsReferenced(w, u);
    }
  }

  function RemoveEffect(w: World, op: Op): World { w.(objects := Do(w.objects, op)) }

  /** Objects are removed only for a Landscaper in deletion, in its namespace, before its requests go. */
  predicate RemoveGuard(w: World, ns: string) {
    && HasFinalizer(w) && w.ls.value.deleting && !w.retired
    && w.ls.value.id != "" && ns == Namespace(w.ls.value.id)
  }

  lemma RemoveKeeps(w: World, op: Op)
    requires Inv(w) && RemoveGuard(w, Area(op)) && !op.Put? && Orderly(w.objects, op) && SourceRead(w, op)
    ensures Kept(w, ClusterWrite(op), RemoveEffect(w, op))
  {}

  // ---------------------------------------------------------------- reads and bookkeeping

  /** Whoever touches a cluster knows that the Landscaper has not been retired. */
  predicate MayRead(m: World, l: Label) {
    l == PlatformRead || l == Onboarding || (l == ClusterRead && HasFinalizer(m) && !m.retired)
  }

  lemma LookKeeps(m: World, w: World, l: Label)
    requires Inv(w) && Onward(m, w) && MayRead(m, l)
    ensures Kept(w, l, w) && Onward(w, w)
  {}

  function ReadEffect(w: World, s: Source): World {
    w.(book := w.book.(held := if Current(w, s).Some? then Some(Held(s, Current(w, s).value)) else None))
  }

  lemma ReadCovers(w: World, s: Source, t: Target)
    requires Inv(w) && w.ls.Some? && !w.ls.value.deleting && Desired(w, t)
    ensures Covered(ReadEffect(w, s), t)
  {
    var v := ReadEffect(w, s);
    assert Covered(w, t);
    assert Ahead(w, t) ==> Ahead(v, t);
    assert Copied(w, t) ==> Copied(v, t);
  }

  lemma ReadKeeps(w: World, s: Source)
    requires Inv(w)
    ensures Kept(w, PlatformRead, ReadEffect(w, s))
  {
    if w.ls.Some? && !w.ls.value.deleting {
      forall t | Desired(w, t) ensures Covered(ReadEffect(w, s), t) { ReadCovers(w, s, t); }
    }
  }

  function BeginEffect(w: World): World {
    w.(book := w.book.(queued := false, retry := false, lapsed := false, running := true, written := {}, held := None))
  }

  lemma BeginKeeps(w: World)
    requires Inv(w)
    ensures Kept(w, Bookkeeping, BeginEffect(w))
  {}

  function EndEffect(w: World, retry: bool): World {
    w.(book := w.book.(retry := retry, running := false, held := None))
  }

  /** A run that is not to be repeated has made every copy, unless a change is on its way anyhow. */
  ghost predicate EndGuard(w: World, retry: bool) {
    retry || (!w.book.retry && (w.ls.None? || w.ls.value.deleting || w.book.queued || w.book.lapsed
      || forall t :: Desired(w, t) ==> t in w.book.written))
  }

  lemma EndKeeps(w: World, retry: bool)
    requires Inv(w) && EndGuard(w, retry)
    ensures Kept(w, Bookkeeping, EndEffect(w, retry))
  {
    var v := EndEffect(w, retry);
    forall t | v.ls.Some? && !v.ls.value.deleting && Desired(v, t) ensures Covered(v, t) {
      assert Desired(w, t) && Covered(w, t);
    }
  }

  // ---------------------------------------------------------------- guards last while others act

  lemma UpdateGuardLasts(w: World, v: World, ls: Landscaper)
    requires UpdateGuard(w, ls) && Onward(w, v)
    ensures UpdateGuard(v, ls)
  {}

  lemma StatusGuardLasts(w: World, v: World, ls: Landscaper)
    requires StatusGuard(w, ls) && Onward(w, v)
    ensures StatusGuard(v, ls)
  {}

  lemma AccessGuardLasts(w: World, v: World)
    requires AccessGuard(w) && Onward(w, v)
    ensures AccessGuard(v)
  {}

  lemma InstallGuardLasts(w: World, v: World, ns: string)
    requires InstallGuard(w, ns) && Onward(w, v)
    ensures InstallGuard(v, ns)
  {}

  lemma RemoveGuardLasts(w: World, v: World, ns: string)
    requires RemoveGuard(w, ns) && Onward(w, v)
    ensures RemoveGuard(v, ns)
  {}

  /** A write to the clusters that a run may make in w, and after which it still knows what it knew. */
  ghost predicate Works(w: World, op: Op, v: World) {
    Inv(w) && !w.retired && Kept(w, ClusterWrite(op), v) && Onward(w, v)
  }

  lemma PutWorks(m: World, w: World, k: Key, o: Object)
    requires Inv(w) && Onward(m, w) && InstallGuard(m, k.ns) && PutGuard(w.objects, k, o)
    requires RouteNamed(w.naming.hash, Put(k, o))
    ensures Works(w, Put(k, o), PutEffect(w, k, o))
  {
    InstallGuardLasts(m, w, k.ns);
    PutKeeps(w, k, o);
    WorkOnward(w, PutEffect(w, k, o));
  }

  lemma CopyWorks(m: World, w: World, t: Target, ns: string)
    requires Inv(w) && Onward(m, w) && InstallGuard(m, ns)
    requires w.book.held.Some? && w.book.held.value.source == t.Origin()
    ensures Works(w, CopyOp(t, ns, w.book.held.value.data), CopyEffect(w, t, ns))
  {
    InstallGuardLasts(m, w, ns);
    CopyKeeps(w, t, ns);
    WorkOnward(w, CopyEffect(w, t, ns));
  }

  lemma RemoveWorks(m: World, w: World, op: Op)
    requires Inv(w) && Onward(m, w) && RemoveGuard(m, Area(op)) && !op.Put? && Orderly(w.objects, op)
    requires SourceRead(w, op)
    ensures Works(w, op, RemoveEffect(w, op))
  {
    RemoveGuardLasts(m, w, Area(op));
    RemoveKeeps(w, op);
    WorkOnward(w, RemoveEffect(w, op));
  }
}
