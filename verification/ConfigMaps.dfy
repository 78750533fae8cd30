/** The copy of the CA bundle (internal/shared/configmaps). */
module ConfigMaps {
  import opened Wrappers
  import opened Identity
  import opened Store
  import opened Plans
  import opened World
  import opened Calls
  import opened Api
  import opened Installers

  /**
   ConfigMapSync.CreateOrUpdate: the copy keeps the name of its source, and its contents are those
   of the source during the call.
   */
  method SyncConfigMap(api: Server, ns: string, ref: CaRef) returns (copy: Option<CaRef>, ghost data: Option<Data>)
    requires api.Valid() && InstallGuard(api.mark, ns)
    modifies api
    ensures api.Grown()
    ensures old(api.Calm()) ==> (copy.Some? <==> ref.name in old(api.world).platform.configMaps)
    ensures data.None? ==> api.world.objects == old(api.world).objects
    ensures data.Some? ==>
      && api.world.objects == old(api.world).objects[ConfigMapKey(ns, ref.name) := ConfigMapObject(data.value)]
      && ReadAt(api.trace, |old(api.trace)|, CaSource(ref.name), data.value)
    ensures copy.Some? ==> copy.value == ref && data.Some? && CaTarget(ref.name) in api.world.book.written
  {
    var read := api.GetSource(CaSource(ref.name));
    if read.Error? { return None, None; }
    ghost var t := api.trace;
    assert Current(t[|t| - 1].world, CaSource(ref.name)) == Some(read.value);
    var ok;
    ghost var took;
    ok, took := api.PutCopy(CaTarget(ref.name), ns, read.value);
    assert t[|t| - 1] == api.trace[|t| - 1];
    return if ok then Some(CaRef(ref.name, ref.key)) else None, if took then Some(read.value) else None;
  }

  /** ConfigMapSync.Delete: fails with NotFound if there is no copy. */
  method DeleteConfigMap(api: Server, ns: string, ref: CaRef) returns (failure: Option<Failure>, ghost took: bool)
    requires api.Valid() && RemoveGuard(api.mark, ns)
    modifies api
    ensures api.Shrunk()
    ensures Ops(api.trace) == Ops(old(api.trace)) + (if took then [Del(ConfigMapKey(ns, ref.name))] else [])
    ensures api.world.objects ==
      if took then old(api.world).objects - {ConfigMapKey(ns, ref.name)} else old(api.world).objects
    ensures failure.None? || failure == Some(NotFound) ==> ConfigMapKey(ns, ref.name) !in api.world.objects
    ensures old(api.Calm()) ==> failure.None? || failure == Some(NotFound)
  {
    took := false;
    var copy := api.Get(ConfigMapKey(ns, ref.name));
    if copy.Error? { return Some(copy.failure), false; }
    var ok;
    ok, took := api.Remove(Del(ConfigMapKey(ns, ref.name)));
    failure := if ok then None else Some(Failed);
  }
}
