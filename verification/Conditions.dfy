/**
 The status of a Landscaper: the draft a reconcile fills in (internal/controller/status.go)
 and its conversion into the stored list of conditions.
 */
module Conditions {
  import opened Wrappers

  datatype ConditionType = Installed | Ready | Uninstalled | Foreign(name: string)
  datatype ConditionStatus = True | False | Unknown

  datatype Reason =
    | InstallationPending | ReadinessCheckPending | WaitForLandscaperReady | UninstallationPending
    | LandscaperInstalled | LandscaperReady
    | InstallFailed | ClusterAccessError | ProviderConfigError | ConfigurationError
    | DNSConfigFailed | WaitForDNSReady

  /** The transition time is 0 as long as it is not set. */
  datatype Condition = Condition(
    kind: ConditionType, status: ConditionStatus, observedGeneration: nat, reason: Reason, message: string,
    transition: nat)

  datatype Phase = NoPhase | Progressing | Terminating | PhaseReady

  datatype LandscaperStatus = LandscaperStatus(
    configRef: Option<string>, conditions: seq<Condition>, observedGeneration: nat, phase: Phase)

  // ---------------------------------------------------------------- lists of conditions

  predicate Unique(l: seq<Condition>) {
    forall i, j :: 0 <= i < j < |l| ==> l[i].kind != l[j].kind
  }

  function Lookup(l: seq<Condition>, t: ConditionType): Option<Condition> {
    if l == [] then None
    else if l[0].kind == t then Some(l[0])
    else Lookup(l[1..], t)
  }

  /** SetStatusCondition of the API machinery. */
  function SetCondition(l: seq<Condition>, c: Condition, now: nat): seq<Condition> {
    if l == [] then [c.(transition := now)]
    else if l[0].kind == c.kind then
      [c.(transition := if l[0].status == c.status then l[0].transition else now)] + l[1..]
    else [l[0]] + SetCondition(l[1..], c, now)
  }

  /** RemoveStatusCondition of the API machinery. */
  function RemoveCondition(l: seq<Condition>, t: ConditionType): seq<Condition> {
    if l == [] then []
    else if l[0].kind == t then RemoveCondition(l[1..], t)
    else [l[0]] + RemoveCondition(l[1..], t)
  }

  /** The conditions the controller does not manage, in order. */
  function Others(l: seq<Condition>): seq<Condition> {
    if l == [] then []
    else if l[0].kind.Foreign? then [l[0]] + Others(l[1..])
    else Others(l[1..])
  }

  lemma {:induction false} LookupMember(l: seq<Condition>, t: ConditionType)
    ensures Lookup(l, t).Some? <==> exists i :: 0 <= i < |l| && l[i].kind == t
    ensures Lookup(l, t).Some? ==> Lookup(l, t).value.kind == t && Lookup(l, t).value in l
  {
    if l != [] {
      LookupMember(l[1..], t);
      if i :| 0 <= i < |l| && l[i].kind == t {
        assert i > 0 ==> l[1..][i - 1].kind == t;
      }
    }
  }

  lemma {:induction false} SetLookup(l: seq<Condition>, c: Condition, now: nat, t: ConditionType)
    ensures
      var was := Lookup(l, t);
      Lookup(SetCondition(l, c, now), t) ==
        if t != c.kind then was
        else Some(c.(transition := if was.Some? && was.value.status == c.status then was.value.transition else now))
  {
    if l != [] {
      var r := SetCondition(l, c, now);
      assert r[1..] == if l[0].kind == c.kind then l[1..] else SetCondition(l[1..], c, now);
      if l[0].kind != c.kind { SetLookup(l[1..], c, now, t); }
    }
  }

  lemma {:induction false} RemoveLookup(l: seq<Condition>, r: ConditionType, t: ConditionType)
    ensures Lookup(RemoveCondition(l, r), t) == if t == r then None else Lookup(l, t)
  {
    if l != [] {
      RemoveLookup(l[1..], r, t);
      if l[0].kind != r { assert RemoveCondition(l, r)[1..] == RemoveCondition(l[1..], r); }
    }
  }

  lemma {:induction false} SetUnique(l: seq<Condition>, c: Condition, now: nat)
    requires Unique(l)
    ensures Unique(SetCondition(l, c, now))
    ensures forall i :: 0 <= i < |SetCondition(l, c, now)| ==>
      SetCondition(l, c, now)[i].kind == c.kind || (i < |l| && l[i].kind == SetCondition(l, c, now)[i].kind)
  {
    if l != [] && l[0].kind != c.kind {
      assert Unique(l[1..]);
      SetUnique(l[1..], c, now);
    }
  }

  lemma {:induction false} RemoveUnique(l: seq<Condition>, t: ConditionType)
    requires Unique(l)
    ensures Unique(RemoveCondition(l, t))
    ensures forall x :: x in RemoveCondition(l, t) ==> x in l
  {
    if l != [] {
      assert Unique(l[1..]);
      RemoveUnique(l[1..], t);
      var r := RemoveCondition(l[1..], t);
      forall i | 0 <= i < |r| ensures r[i].kind != l[0].kind {
        assert r[i] in r && r[i] in l[1..];
      }
    }
  }

  lemma {:induction false} SetOthers(l: seq<Condition>, c: Condition, now: nat)
    requires !c.kind.Foreign?
    ensures Others(SetCondition(l, c, now)) == Others(l)
  {
    if l != [] {
      var r := SetCondition(l, c, now);
      assert r[1..] == if l[0].kind == c.kind then l[1..] else SetCondition(l[1..], c, now);
      if l[0].kind != c.kind { SetOthers(l[1..], c, now); }
    }
  }

  lemma {:induction false} RemoveOthers(l: seq<Condition>, t: ConditionType)
    requires !t.Foreign?
    ensures Others(RemoveCondition(l, t)) == Others(l)
  {
    if l != [] {
      RemoveOthers(l[1..], t);
      if l[0].kind != t { assert RemoveCondition(l, t)[1..] == RemoveCondition(l[1..], t); }
    }
  }

  /** Setting what is there already changes nothing, whatever the time. */
  lemma {:induction false} SetSame(l: seq<Condition>, c: Condition, now: nat)
    requires Lookup(l, c.kind).Some? && Lookup(l, c.kind).value == c.(transition := Lookup(l, c.kind).value.transition)
    ensures SetCondition(l, c, now) == l
  {
    if l[0].kind != c.kind { SetSame(l[1..], c, now); }
  }

  lemma {:induction false} RemoveAbsent(l: seq<Condition>, t: ConditionType)
    requires Lookup(l, t).None?
    ensures RemoveCondition(l, t) == l
  {
    if l != [] { RemoveAbsent(l[1..], t); }
  }

  // ---------------------------------------------------------------- the draft

  datatype Draft = Draft(
    install: Option<Condition>, ready: Option<Condition>, uninstall: Option<Condition>, observedGeneration: nat,
    phase: Phase)

  /** The three conditions of a draft have the types their fields stand for. */
  predicate Proper(d: Draft) {
    && (d.install.Some? ==> d.install.value.kind == Installed)
    && (d.ready.Some? ==> d.ready.value.kind == Ready)
    && (d.uninstall.Some? ==> d.uninstall.value.kind == Uninstalled)
  }

  function SetOrRemove(l: seq<Condition>, c: Option<Condition>, t: ConditionType, now: nat): seq<Condition> {
    if c.Some? then SetCondition(l, c.value, now) else RemoveCondition(l, t)
  }

  function Converted(d: Draft, s: LandscaperStatus, now: nat): LandscaperStatus {
    var a := SetOrRemove(s.conditions, d.install, Installed, now);
    var b := SetOrRemove(a, d.ready, Ready, now);
    var c := SetOrRemove(b, d.uninstall, Uninstalled, now);
    LandscaperStatus(s.configRef, c, d.observedGeneration, d.phase)
  }

  function Wanted(d: Draft, t: ConditionType): Option<Condition>
    requires !t.Foreign?
  {
    match t case Installed => d.install case Ready => d.ready case Uninstalled => d.uninstall
  }

  lemma SetOrRemoveLookup(l: seq<Condition>, c: Option<Condition>, k: ConditionType, now: nat, t: ConditionType)
    requires c.Some? ==> c.value.kind == k
    ensures
      var was := Lookup(l, t);
      Lookup(SetOrRemove(l, c, k, now), t) ==
        if t != k then was
        else if c.None? then None
        else Some(c.value.(transition :=
          if was.Some? && was.value.status == c.value.status then was.value.transition else now))
  {
    if c.Some? { SetLookup(l, c.value, now, t); } else { RemoveLookup(l, k, t); }
  }

  lemma SetOrRemoveKeeps(l: seq<Condition>, c: Option<Condition>, k: ConditionType, now: nat)
    requires !k.Foreign? && (c.Some? ==> c.value.kind == k) && Unique(l)
    ensures Unique(SetOrRemove(l, c, k, now)) && Others(SetOrRemove(l, c, k, now)) == Others(l)
  {
    if c.Some? {
      SetUnique(l, c.value, now);
      SetOthers(l, c.value, now);
    } else {
      RemoveUnique(l, k);
      RemoveOthers(l, k);
    }
  }

  /**
   The conversion refines a map update: it sets or removes exactly the three managed types, and
   a transition time changes only with the status value; types stay unique, and the conditions
   of other types and their order stay as they are.
   */
  lemma ConvertedLookup(d: Draft, s: LandscaperStatus, now: nat, t: ConditionType)
    requires Proper(d)
    ensures
      var was := Lookup(s.conditions, t);
      Lookup(Converted(d, s, now).conditions, t) ==
        if t.Foreign? then was
        else if Wanted(d, t).None? then None
        else Some(Wanted(d, t).value.(transition :=
          if was.Some? && was.value.status == Wanted(d, t).value.status then was.value.transition else now))
  {
    var a := SetOrRemove(s.conditions, d.install, Installed, now);
    var b := SetOrRemove(a, d.ready, Ready, now);
    SetOrRemoveLookup(s.conditions, d.install, Installed, now, t);
    SetOrRemoveLookup(a, d.ready, Ready, now, t);
    SetOrRemoveLookup(b, d.uninstall, Uninstalled, now, t);
  }

  lemma ConvertedKeeps(d: Draft, s: LandscaperStatus, now: nat)
    requires Proper(d) && Unique(s.conditions)
    ensures Unique(Converted(d, s, now).conditions) && Others(Converted(d, s, now).conditions) == Others(s.conditions)
  {
    var a := SetOrRemove(s.conditions, d.install, Installed, now);
    var b := SetOrRemove(a, d.ready, Ready, now);
    SetOrRemoveKeeps(s.conditions, d.install, Installed, now);
    SetOrRemoveKeeps(a, d.ready, Ready, now);
    SetOrRemoveKeeps(b, d.uninstall, Uninstalled, now);
  }

  lemma SetOrRemoveSame(l: seq<Condition>, c: Option<Condition>, k: ConditionType, now: nat)
    requires c.Some? ==> c.value.kind == k
    requires
      var was := Lookup(l, k);
      was == if c.None? then None else Some(c.value.(transition := if was.Some? then was.value.transition else 0))
    ensures SetOrRemove(l, c, k, now) == l
  {
    if c.Some? { SetSame(l, c.value, now); } else { RemoveAbsent(l, k); }
  }

  /** A second reconcile that comes to the same verdict at any later time changes nothing. */
  lemma ConvertedTwice(d: Draft, s: LandscaperStatus, now: nat, later: nat)
    requires Proper(d)
    ensures Converted(d, Converted(d, s, now), later) == Converted(d, s, now)
  {
    var l := Converted(d, s, now).conditions;
    ConvertedLookup(d, s, now, Installed); ConvertedLookup(d, s, now, Ready); ConvertedLookup(d, s, now, Uninstalled);
    SetOrRemoveSame(l, d.install, Installed, later);
    SetOrRemoveSame(l, d.ready, Ready, later);
    SetOrRemoveSame(l, d.uninstall, Uninstalled, later);
  }

  // ---------------------------------------------------------------- what every status keeps

  predicate Has(l: seq<Condition>, t: ConditionType, v: ConditionStatus) {
    Lookup(l, t).Some? && Lookup(l, t).value.status == v
  }

  /** How the phase and the conditions of a stored status belong together. */
  predicate Coherent(s: LandscaperStatus) {
    && Unique(s.conditions)
    && (s.phase == PhaseReady <==> Has(s.conditions, Ready, True))
    && (Has(s.conditions, Ready, True) || Has(s.conditions, Ready, False) ==> Has(s.conditions, Installed, True))
    && (s.phase == Terminating <==> Lookup(s.conditions, Uninstalled).Some?)
    && (s.phase == Terminating ==> Lookup(s.conditions, Installed).None? && Lookup(s.conditions, Ready).None?)
  }

  predicate Is(c: Option<Condition>, v: ConditionStatus) {
    c.Some? && c.value.status == v
  }

  predicate CoherentDraft(d: Draft) {
    && Proper(d)
    && (d.phase == PhaseReady <==> Is(d.ready, True))
    && (Is(d.ready, True) || Is(d.ready, False) ==> Is(d.install, True))
    && (d.phase == Terminating <==> d.uninstall.Some?)
    && (d.phase == Terminating ==> d.install.None? && d.ready.None?)
  }

  lemma ConvertedCoherent(d: Draft, s: LandscaperStatus, now: nat)
    requires CoherentDraft(d) && Unique(s.conditions)
    ensures Coherent(Converted(d, s, now))
  {
    ConvertedKeeps(d, s, now);
    ConvertedLookup(d, s, now, Installed); ConvertedLookup(d, s, now, Ready); ConvertedLookup(d, s, now, Uninstalled);
  }

  /** A managed condition of the stored status has the value that the draft gives it. */
  lemma ConvertedHas(d: Draft, s: LandscaperStatus, now: nat, t: ConditionType, v: ConditionStatus)
    requires Proper(d) && !t.Foreign?
    ensures Has(Converted(d, s, now).conditions, t, v) <==> Is(Wanted(d, t), v)
  {
    ConvertedLookup(d, s, now, t);
  }

  /** The status draft of one reconcile. */
  class ReconcileStatus {
    var installCondition: Option<Condition>
    var readyCondition: Option<Condition>
    var uninstallCondition: Option<Condition>
    var observedGeneration: nat
    var phase: Phase

    function Value(): Draft
      reads this
    {
      Draft(installCondition, readyCondition, uninstallCondition, observedGeneration, phase)
    }

    constructor CreateOrUpdate(generation: nat)
      ensures Value() == CreateOrUpdateDraft(generation)
    {
      installCondition := Some(Condition(Installed, Unknown, generation, InstallationPending, "", 0));
      readyCondition := Some(Condition(Ready, Unknown, generation, ReadinessCheckPending, "", 0));
      uninstallCondition := None;
      observedGeneration, phase := generation, Progressing;
    }

    constructor Delete(generation: nat)
      ensures Value() == DeleteDraft(generation)
    {
      installCondition, readyCondition := None, None;
      uninstallCondition := Some(Condition(Uninstalled, False, generation, UninstallationPending, "", 0));
      observedGeneration, phase := generation, Terminating;
    }

    method SetInstall(status: ConditionStatus, reason: Reason, message: string)
      modifies this`installCondition
      ensures Value() ==
        old(Value()).(install := Some(Condition(Installed, status, observedGeneration, reason, message, 0)))
    {
      installCondition := Some(Condition(Installed, status, observedGeneration, reason, message, 0));
    }

    method SetUninstall(status: ConditionStatus, reason: Reason, message: string)
      modifies this`uninstallCondition
      ensures Value() ==
        old(Value()).(uninstall := Some(Condition(Uninstalled, status, observedGeneration, reason, message, 0)))
    {
      uninstallCondition := Some(Condition(Uninstalled, status, observedGeneration, reason, message, 0));
    }

    method SetWaitForReadinessCheck(message: string)
      modifies this`readyCondition
      ensures Value() ==
        old(Value()).(ready := Some(Condition(Ready, False, observedGeneration, WaitForLandscaperReady, message, 0)))
    {
      readyCondition := Some(Condition(Ready, False, observedGeneration, WaitForLandscaperReady, message, 0));
    }

    method SetReady()
      modifies this`readyCondition, this`phase
      ensures Value() == old(Value()).(
        ready := Some(Condition(Ready, True, observedGeneration, LandscaperReady, "Landscaper is ready", 0)),
          phase := PhaseReady)
    {
      readyCondition := Some(Condition(Ready, True, observedGeneration, LandscaperReady, "Landscaper is ready", 0));
      phase := PhaseReady;
    }

    /** Edits the list of conditions step by step. */
    method ConvertToLandscaperStatus(s: LandscaperStatus, now: nat) returns (r: LandscaperStatus)
      ensures r == Converted(Value(), s, now)
    {
      r := s.(observedGeneration := observedGeneration, phase := phase);
      if installCondition.Some? {
        r := r.(conditions := SetCondition(r.conditions, installCondition.value, now));
      } else {
        r := r.(conditions := RemoveCondition(r.conditions, Installed));
      }
      if readyCondition.Some? {
        r := r.(conditions := SetCondition(r.conditions, readyCondition.value, now));
      } else {
        r := r.(conditions := RemoveCondition(r.conditions, Ready));
      }
      if uninstallCondition.Some? {
        r := r.(conditions := SetCondition(r.conditions, uninstallCondition.value, now));
      } else {
        r := r.(conditions := RemoveCondition(r.conditions, Uninstalled));
      }
    }
  }

  function CreateOrUpdateDraft(generation: nat): Draft {
    Draft(
      Some(Condition(Installed, Unknown, generation, InstallationPending, "", 0)),
      Some(Condition(Ready, Unknown, generation, ReadinessCheckPending, "", 0)),
      None, generation, Progressing)
  }

  function DeleteDraft(generation: nat): Draft {
    Draft(None, None, Some(Condition(Uninstalled, False, generation, UninstallationPending, "", 0)), generation,
          Terminating)
  }
}
