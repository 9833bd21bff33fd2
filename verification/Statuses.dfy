/**
 The status of a CueInstance and the functions that move it
 (api/v1alpha1/cueinstance_types.go).
 */
module Statuses {
  import opened Wrappers
  import opened Inventories

  const READY := "Ready"
  const HEALTHY := "Healthy"

  const PROGRESSING := "Progressing"
  const SUCCEEDED := "Succeeded"
  const FAILED := "Failed"
  const ARTIFACT_FAILED := "ArtifactFailed"
  const BUILD_FAILED := "BuildFailed"
  const GATE_FAILED := "GateFailedReasonk"
  const PRUNE_FAILED := "PruneFailed"
  const HEALTH_CHECK_FAILED := "HealthCheckFailed"

  datatype ConditionStatus = True | False | Unknown

  datatype Condition = Condition(kind: string, status: ConditionStatus, reason: string)

  datatype Status = Status(
    observedGeneration: nat,
    conditions: seq<Condition>,
    lastApplied: string,
    lastAttempted: string,
    inventory: Option<seq<ResourceRef>>)

  const EMPTY_STATUS := Status(0, [], "", "", None)

  /** Update the condition of that type, or append it (the library's `SetStatusCondition`). */
  function SetCondition(conditions: seq<Condition>, c: Condition): seq<Condition> {
    if conditions == [] then [c]
    else if conditions[0].kind == c.kind then [c] + conditions[1..]
    else [conditions[0]] + SetCondition(conditions[1..], c)
  }

  function RemoveCondition(conditions: seq<Condition>, kind: string): seq<Condition> {
    if conditions == [] then []
    else if conditions[0].kind == kind then RemoveCondition(conditions[1..], kind)
    else [conditions[0]] + RemoveCondition(conditions[1..], kind)
  }

  function FindCondition(conditions: seq<Condition>, kind: string): Option<Condition> {
    if conditions == [] then None
    else if conditions[0].kind == kind then Some(conditions[0])
    else FindCondition(conditions[1..], kind)
  }

  predicate IsTrue(conditions: seq<Condition>, kind: string) {
    var c := FindCondition(conditions, kind);
    c.Some? && c.value.status == True
  }

  predicate IsReady(s: Status) {
    IsTrue(s.conditions, READY)
  }

  /** A condition just set is the one found, and no other condition is disturbed. */
  lemma {:induction false} SetThenFind(conditions: seq<Condition>, c: Condition, kind: string)
    ensures FindCondition(SetCondition(conditions, c), kind) ==
      (if kind == c.kind then Some(c) else FindCondition(conditions, kind))
  {
    if conditions != [] && conditions[0].kind != c.kind {
      SetThenFind(conditions[1..], c, kind);
      assert SetCondition(conditions, c)[1..] == SetCondition(conditions[1..], c);
    }
  }

  lemma {:induction false} RemoveThenFind(conditions: seq<Condition>, removed: string, kind: string)
    ensures FindCondition(RemoveCondition(conditions, removed), kind) ==
      (if kind == removed then None else FindCondition(conditions, kind))
  {
    if conditions != [] {
      RemoveThenFind(conditions[1..], removed, kind);
      if conditions[0].kind != removed {
        assert RemoveCondition(conditions, removed)[1..] == RemoveCondition(conditions[1..], removed);
      }
    }
  }

  /** Ready afterwards exactly when that is the status set. */
  function WithReady(s: Status, status: ConditionStatus, reason: string): (r: Status)
    ensures IsReady(r) <==> status == True
    ensures r.conditions != []
  {
    SetThenFind(s.conditions, Condition(READY, status, reason), READY);
    s.(conditions := SetCondition(s.conditions, Condition(READY, status, reason)))
  }

  function Progressing(s: Status): (r: Status)
    ensures !IsReady(r)
  {
    WithReady(s, Unknown, PROGRESSING)
  }

  /** The Healthy condition never makes or breaks readiness. */
  function Healthiness(s: Status, assessed: bool, status: ConditionStatus, reason: string): (r: Status)
    ensures IsReady(r) <==> IsReady(s)
  {
    if !assessed then
      RemoveThenFind(s.conditions, HEALTHY, READY);
      s.(conditions := RemoveCondition(s.conditions, HEALTHY))
    else
      SetThenFind(s.conditions, Condition(HEALTHY, status, reason), READY);
      s.(conditions := SetCondition(s.conditions, Condition(HEALTHY, status, reason)))
  }

  function Readiness(s: Status, generation: nat, status: ConditionStatus, reason: string, revision: string): (r: Status)
    ensures IsReady(r) <==> status == True
  {
    WithReady(s, status, reason).(observedGeneration := generation, lastAttempted := revision)
  }

  function NotReady(s: Status, revision: string, reason: string): (r: Status)
    ensures !IsReady(r)
  {
    var r := WithReady(s, False, reason);
    if revision != "" then r.(lastAttempted := revision) else r
  }

  function NotReadyInventory(s: Status, generation: nat, inventory: seq<ResourceRef>, revision: string,
          reason: string): (r: Status)
    ensures !IsReady(r)
  {
    Readiness(s, generation, False, reason, revision).(inventory := Some(inventory))
  }

  function ReadyInventory(s: Status, generation: nat, inventory: seq<ResourceRef>, revision: string,
          reason: string): (r: Status)
    ensures IsReady(r)
  {
    Readiness(s, generation, True, reason, revision).(inventory := Some(inventory), lastApplied := revision)
  }

  /** The status fields of a CueInstance object, updated in place. */
  class CueInstanceStatus {
    const generation: nat
    const assessed: bool
    var observedGeneration: nat
    var conditions: seq<Condition>
    var lastApplied: string
    var lastAttempted: string
    var inventory: Option<seq<ResourceRef>>

    /** A copy of a status read from the cluster. */
    constructor (generation: nat, assessed: bool, s: Status)
      ensures Value() == s && this.generation == generation && this.assessed == assessed
    {
      this.generation := generation;
      this.assessed := assessed;
      observedGeneration := s.observedGeneration;
      conditions := s.conditions;
      lastApplied := s.lastApplied;
      lastAttempted := s.lastAttempted;
      inventory := s.inventory;
    }

    function Value(): Status
      reads this
    {
      Status(observedGeneration, conditions, lastApplied, lastAttempted, inventory)
    }

    /** In-place update of the conditions, as the library does it. */
    method SetStatusCondition(c: Condition)
      modifies this`conditions
      ensures conditions == SetCondition(old(conditions), c)
    {
      for i := 0 to |conditions|
        invariant conditions == old(conditions)
        invariant SetCondition(conditions, c) == conditions[..i] + SetCondition(conditions[i..], c)
      {
        if conditions[i].kind == c.kind {
          conditions := conditions[i := c];
          return;
        }
      }
      assert conditions[..|conditions|] == conditions;
      conditions := conditions + [c];
    }

    /** The condition of this type is `c`; all others are as in `before`. */
    ghost predicate Sets(before: seq<Condition>, c: Condition)
      reads this
    {
      forall kind :: FindCondition(conditions, kind) == if kind == c.kind then Some(c) else FindCondition(before, kind)
    }

    method SetProgressing()
      modifies this
      ensures Value() == Progressing(old(Value()))
      ensures Sets(old(conditions), Condition(READY, Unknown, PROGRESSING))
      ensures Value().(conditions := []) == old(Value()).(conditions := [])
    {
      SetStatusCondition(Condition(READY, Unknown, PROGRESSING));
      SetsOne(old(conditions), Condition(READY, Unknown, PROGRESSING));
    }

    lemma SetsOne(before: seq<Condition>, c: Condition)
      requires conditions == SetCondition(before, c)
      ensures Sets(before, c)
    {
      forall kind
        ensures FindCondition(conditions, kind) == if kind == c.kind then Some(c) else FindCondition(before, kind)
      {
        SetThenFind(before, c, kind);
      }
    }

    method SetHealthiness(status: ConditionStatus, reason: string)
      modifies this
      ensures Value() == Healthiness(old(Value()), assessed, status, reason)
      ensures assessed ==> Sets(old(conditions), Condition(HEALTHY, status, reason))
      ensures !assessed ==> FindCondition(conditions, HEALTHY) == None
      ensures Value().(conditions := []) == old(Value()).(conditions := [])
    {
      if !assessed {
        conditions := RemoveCondition(conditions, HEALTHY);
        RemoveThenFind(old(conditions), HEALTHY, HEALTHY);
      } else {
        SetStatusCondition(Condition(HEALTHY, status, reason));
        SetsOne(old(conditions), Condition(HEALTHY, status, reason));
      }
    }

    method SetReadiness(status: ConditionStatus, reason: string, revision: string)
      modifies this
      ensures Value() == Readiness(old(Value()), generation, status, reason, revision)
      ensures Sets(old(conditions), Condition(READY, status, reason))
      ensures observedGeneration == generation && lastAttempted == revision
      ensures lastApplied == old(lastApplied) && inventory == old(inventory)
    {
      SetStatusCondition(Condition(READY, status, reason));
      SetsOne(old(conditions), Condition(READY, status, reason));
      observedGeneration := generation;
      lastAttempted := revision;
    }

    method SetNotReady(revision: string, reason: string)
      modifies this
      ensures Value() == NotReady(old(Value()), revision, reason)
      ensures Sets(old(conditions), Condition(READY, False, reason))
      ensures lastAttempted == if revision != "" then revision else old(lastAttempted)
      ensures observedGeneration == old(observedGeneration) && lastApplied == old(lastApplied)
      ensures inventory == old(inventory)
    {
      SetStatusCondition(Condition(READY, False, reason));
      SetsOne(old(conditions), Condition(READY, False, reason));
      if revision != "" {
        lastAttempted := revision;
      }
    }

    method SetNotReadyInventory(refs: seq<ResourceRef>, revision: string, reason: string)
      modifies this
      ensures Value() == NotReadyInventory(old(Value()), generation, refs, revision, reason)
      ensures Sets(old(conditions), Condition(READY, False, reason))
      ensures observedGeneration == generation && lastAttempted == revision
      ensures lastApplied == old(lastApplied) && inventory == Some(refs)
    {
      SetReadiness(False, reason, revision);
      if revision != "" {
        lastAttempted := revision;
      }
      inventory := Some(refs);
    }

    method SetReadyInventory(refs: seq<ResourceRef>, revision: string, reason: string)
      modifies this
      ensures Value() == ReadyInventory(old(Value()), generation, refs, revision, reason)
      ensures Sets(old(conditions), Condition(READY, True, reason))
      ensures observedGeneration == generation && lastAttempted == revision
      ensures lastApplied == revision && inventory == Some(refs)
    {
      SetReadiness(True, reason, revision);
      inventory := Some(refs);
      lastApplied := revision;
    }
  }
}
