/**
 The watch handlers (internal/controller/landscaper_controller.go), over all Landscapers of the
 onboarding cluster: which of them a change on the platform cluster annotates, patch by patch.
 */
module Handlers {
  import opened Wrappers
  import opened Platform
  import opened World
  import opened Api

  /** A Landscaper as a handler sees it. */
  datatype Entry = Entry(configRef: Option<string>, annotated: bool)

  /**
   Which calls of one handler fail: the read of the service provider, the list of the provider
   configurations, the list of the Landscapers, and the patch for each Landscaper.
   */
  datatype Faults = Faults(provider: bool, configs: bool, list: bool, patch: seq<bool>)

  /** The handler for a source comes to the conclusion that it is referenced. */
  predicate Sees(p: PlatformState, s: Source, faults: Faults) {
    match s
    case PullSource(n) => SeesPullSecret(p, n, faults.provider, faults.configs)
    case CaSource(n) => !faults.configs && ReferencesCa(p, n)
  }

  class Onboarding {
    var entries: seq<Entry>

    constructor (entries: seq<Entry>)
      ensures this.entries == entries
    {
      this.entries := entries;
    }

    /** EnsureAnnotation: no call is made for a Landscaper that is listed with the annotation. */
    method EnsureAnnotation(i: nat, fails: bool) returns (ok: bool)
      requires i < |entries|
      modifies this
      ensures ok <==> old(entries)[i].annotated || !fails
      ensures entries == old(entries)[i := old(entries)[i].(annotated := old(entries)[i].annotated || !fails)]
    {
      if entries[i].annotated { return true; }
      if fails { return false; }
      entries := entries[i := entries[i].(annotated := true)];
      return true;
    }

    /** Annotates every Landscaper; a failing patch does not keep the others from theirs. */
    method AnnotateAll(faults: Faults)
      requires |faults.patch| == |entries|
      modifies this
      ensures |entries| == |old(entries)|
      ensures forall i :: 0 <= i < |entries| ==>
        entries[i] == old(entries)[i].(annotated := old(entries)[i].annotated || (!faults.list && !faults.patch[i]))
    {
      if faults.list { return; }
      for i := 0 to |entries|
        invariant |entries| == |old(entries)|
        invariant forall j :: i <= j < |entries| ==> entries[j] == old(entries)[j]
        invariant forall j :: 0 <= j < i ==>
          entries[j] == old(entries)[j].(annotated := old(entries)[j].annotated || !faults.patch[j])
      {
        var ok := EnsureAnnotation(i, faults.patch[i]);
      }
    }

    /** The handler for Secrets: those of other namespaces, and those nobody refers to, trigger nothing. */
    method MapImagePullSecret(p: PlatformState, inProviderNamespace: bool, secret: string, faults: Faults)
      requires |faults.patch| == |entries|
      modifies this
      ensures |entries| == |old(entries)|
      ensures forall i :: 0 <= i < |entries| ==>
        entries[i] == old(entries)[i].(annotated := old(entries)[i].annotated
          || (inProviderNamespace && Sees(p, PullSource(secret), faults) && !faults.list && !faults.patch[i]))
    {
      if !inProviderNamespace { return; }
      var referenced := IsReferencedImagePullSecret(p, secret, faults.provider, faults.configs);
      if !referenced { return; }
      AnnotateAll(faults);
    }

    /** The handler for ConfigMaps. */
    method MapCABundleConfigMap(p: PlatformState, inProviderNamespace: bool, name: string, faults: Faults)
      requires |faults.patch| == |entries|
      modifies this
      ensures |entries| == |old(entries)|
      ensures forall i :: 0 <= i < |entries| ==>
        entries[i] == old(entries)[i].(annotated := old(entries)[i].annotated
          || (inProviderNamespace && Sees(p, CaSource(name), faults) && !faults.list && !faults.patch[i]))
    {
      if !inProviderNamespace { return; }
      var referenced := IsReferencedCaConfigMap(p, name, faults.configs);
      if !referenced { return; }
      AnnotateAll(faults);
    }

    /** The handler for provider configurations: the first failing patch ends it. */
    method MapProviderConfig(name: string, faults: Faults)
      requires |faults.patch| == |entries|
      modifies this
      ensures |entries| == |old(entries)|
      ensures forall i :: 0 <= i < |entries| ==>
        entries[i] == old(entries)[i].(annotated := old(entries)[i].annotated || Reaches(old(entries), name, faults, i))
    {
      if faults.list { return; }
      for i := 0 to |entries|
        invariant |entries| == |old(entries)|
        invariant forall j :: i <= j < |entries| ==> entries[j] == old(entries)[j]
        invariant forall j :: 0 <= j < i ==> !Stops(old(entries), name, faults, j)
        invariant forall j :: 0 <= j < i ==>
          entries[j] ==
            old(entries)[j].(annotated := old(entries)[j].annotated || Reaches(old(entries), name, faults, j))
      {
        if entries[i].configRef == Some(name) {
          var ok := EnsureAnnotation(i, faults.patch[i]);
          if !ok {
            forall k | i <= k < |entries| ensures !Reaches(old(entries), name, faults, k) {
              MissedBehind(old(entries), name, faults, i, k);
            }
            return;
          }
        }
      }
    }
  }

  /** The patch for Landscaper i is made, and fails. */
  predicate Stops(entries: seq<Entry>, name: string, faults: Faults, i: nat)
    requires i < |entries| == |faults.patch|
  {
    entries[i].configRef == Some(name) && !entries[i].annotated && faults.patch[i]
  }

  /** Landscaper i refers to the configuration, and no patch up to its own fails. */
  predicate Reaches(entries: seq<Entry>, name: string, faults: Faults, i: nat)
    requires i < |entries| == |faults.patch|
  {
    !faults.list && entries[i].configRef == Some(name) && forall j :: 0 <= j <= i ==> !Stops(entries, name, faults, j)
  }

  /** What the handler has missed is missed for good: a failure for one Landscaper is one for all behind it. */
  lemma MissedBehind(entries: seq<Entry>, name: string, faults: Faults, i: nat, k: nat)
    requires i <= k < |entries| == |faults.patch| && Stops(entries, name, faults, i)
    ensures !Reaches(entries, name, faults, k)
  {
    assert Stops(entries, name, faults, i);
  }

  // ---------------------------------------------------------------- one Landscaper

  /** What the handlers do to one Landscaper, as their contracts say of each entry. */
  function AnnotatedAfter(e: Entry, seen: bool, faults: Faults, i: nat): bool
    requires i < |faults.patch|
  {
    e.annotated || (seen && !faults.list && !faults.patch[i])
  }

  /** The steps of the world that a handler amounts to for the Landscaper at position i. */
  function HandlerSteps(p: PlatformState, s: Source, e: Entry, faults: Faults, i: nat): seq<Event>
    requires i < |faults.patch|
  {
    if !Referenced(p, s) then [HandlerActs(Takes, s)]
    else if e.annotated then [HandlerActs(Takes, s), HandlerActs(Lists, s)]
    else if AnnotatedAfter(e, Sees(p, s, faults), faults, i) then
      [HandlerActs(Takes, s), HandlerActs(Lists, s), HandlerActs(Patches, s)]
    else [HandlerActs(Fails, s)]
  }

  lemma SeesReferenced(p: PlatformState, s: Source, faults: Faults)
    ensures Sees(p, s, faults) ==> Referenced(p, s)
  {}

  lemma StepsThree(w: World, a: Event, b: Event, c: Event)
    ensures Steps(w, [a]) == EnvStep(w, a) && Steps(w, [a, b]) == EnvStep(EnvStep(w, a), b)
    ensures Steps(w, [a, b, c]) == EnvStep(EnvStep(EnvStep(w, a), b), c)
  {
    assert [a][..0] == [] && [a, b][..1] == [a] && [a, b, c][..2] == [a, b];
  }

  /** What a step of a handler changes: the Landscaper's annotation, and where the source stands. */
  predicate Moves(w: World, v: World, annotated: bool, events: set<Source>, listing: set<Source>, patching: set<Source>,
                  lapsed: bool) {
    && w.ls.Some? && v.ls.Some? && v.ls.value == w.ls.value.(annotated := annotated, rv := v.ls.value.rv)
    && v.platform == w.platform && v.book.events == events && v.book.listing == listing && v.book.patching == patching
    && v.book.lapsed == lapsed
  }

  lemma TakesMoves(w: World, s: Source)
    requires w.ls.Some? && s in w.book.events
    ensures
      var b := w.book;
      Moves(w, HandlerStep(w, Takes, s), w.ls.value.annotated, b.events - {s},
            if Referenced(w.platform, s) then b.listing + {s} else b.listing, b.patching, b.lapsed)
  {}

  lemma ListsMoves(w: World, s: Source)
    requires w.ls.Some? && s in w.book.listing
    ensures
      var b, on := w.book, w.ls.value.annotated;
      Moves(w, HandlerStep(w, Lists, s), on, b.events, b.listing - {s}, if on then b.patching else b.patching + {s},
            b.lapsed)
  {}

  lemma PatchesMoves(w: World, s: Source)
    requires w.ls.Some? && s in w.book.patching
    ensures
      var b := w.book;
      Moves(w, HandlerStep(w, Patches, s), true, b.events, b.listing, b.patching - {s}, b.lapsed)
  {}

  lemma FailsMoves(w: World, s: Source)
    requires w.ls.Some?
    ensures
      var b := w.book;
      Moves(w, HandlerStep(w, Fails, s), w.ls.value.annotated, b.events - {s}, b.listing - {s}, b.patching - {s}, true)
  {}

  /** A referenced change, taken and listed. */
  lemma TakenAndListed(w: World, s: Source)
    requires w.ls.Some? && Referenced(w.platform, s)
    requires s in w.book.events && s !in w.book.listing && s !in w.book.patching
    ensures
      var b, on := w.book, w.ls.value.annotated;
      Moves(w, HandlerStep(HandlerStep(w, Takes, s), Lists, s), on, b.events - {s}, b.listing,
            if on then b.patching else b.patching + {s}, b.lapsed)
  {
    TakesMoves(w, s);
    ListsMoves(HandlerStep(w, Takes, s), s);
    assert w.book.listing + {s} - {s} == w.book.listing;
  }

  /**
   The handlers refine the world's handler steps: for each Landscaper a handler leaves the annotation
   the way these steps do, takes the event, and a lapse is on record exactly if a referenced change
   has left the Landscaper without the annotation.
   */
  lemma HandlerRefines(w: World, s: Source, e: Entry, faults: Faults, i: nat)
    requires i < |faults.patch| && w.ls.Some? && w.ls.value.annotated == e.annotated
    requires s in w.book.events && s !in w.book.listing && s !in w.book.patching
    ensures
      var after := AnnotatedAfter(e, Sees(w.platform, s, faults), faults, i);
      Moves(w, Steps(w, HandlerSteps(w.platform, s, e, faults, i)), after, w.book.events - {s}, w.book.listing,
            w.book.patching,
            w.book.lapsed || (Referenced(w.platform, s) && !after))
  {
    SeesReferenced(w.platform, s, faults);
    StepsThree(w, HandlerActs(Takes, s), HandlerActs(Lists, s), HandlerActs(Patches, s));
    StepsThree(w, HandlerActs(Fails, s), HandlerActs(Lists, s), HandlerActs(Patches, s));
    if !Referenced(w.platform, s) {
      TakesMoves(w, s);
    } else if e.annotated || AnnotatedAfter(e, Sees(w.platform, s, faults), faults, i) {
      TakenAndListed(w, s);
      if !e.annotated {
        PatchesMoves(HandlerStep(HandlerStep(w, Takes, s), Lists, s), s);
        assert w.book.patching + {s} - {s} == w.book.patching;
      }
    } else {
      FailsMoves(w, s);
    }
  }
}
