/** The system-mode transition table and its decision function. */
module Transitions {
  import opened Basics

  datatype Decision = Decision(
    accepted: bool, resulting: Option<SystemMode>, reason: Reason, recovery: bool)

  datatype SafetyEvidence = SafetyEvidence(latched: bool, faults: set<FaultCode>)

  const MODE_EDGES: set<(SystemMode, RequestKind, SystemMode)> := {
    (Init, Subsystem, Idle),
    (Idle, SetMode, Init),
    (Idle, SetMode, Operate),
    (Idle, SetMode, Stow),
    (Operate, SetMode, Idle),
    (Operate, SetMode, Stow),
    (Stow, SetMode, Idle)
  }

  function Grant(target: SystemMode, reason: Reason, recovery: bool): Decision {
    Decision(true, Some(target), reason, recovery)
  }

  function Deny(current: Option<SystemMode>, reason: Reason): Decision {
    Decision(false, current, reason, false)
  }

  /** All five modes are system modes, so the table's first rule never fires. */
  function Decide(
    current: Option<SystemMode>, target: SystemMode, kind: RequestKind, safety: SafetyEvidence): Decision
  {
    if current == Some(target) then
      Deny(current, AlreadyActive)
    else if target == Safe then
      Grant(target, SafeRequestedFrom(current), false)
    else if current == Some(Safe) then
      if kind != ExitSafe || target != Init then Deny(current, OnlyExitSafeLeaves)
      else if safety.faults != {} then Deny(current, ConditionStillActive(safety.faults))
      else Grant(target, ExitSafeAuthorized, true)
    else if kind == ExitSafe then
      Deny(current, ExitSafeOnlyInSafe)
    else if safety.latched then
      Deny(current, LatchIsSet)
    else if current.Some? && (current.value, kind, target) in MODE_EDGES then
      Grant(target, Edge(current, target), false)
    else
      Deny(current, NoSuchEdge)
  }

  /** An edge a mode change may take: to SAFE from anywhere else, out of SAFE by recovery, or along
      the table. */
  predicate Legal(from: Option<SystemMode>, target: SystemMode, recovery: bool) {
    if target == Safe then from != Some(Safe) && !recovery
    else if from == Some(Safe) then target == Init && recovery
    else from.Some? && !recovery && exists kind :: (from.value, kind, target) in MODE_EDGES
  }

  /** Exactly when a request is granted, what the grant changes and when it authorises recovery. */
  lemma DecideExactly(
    current: Option<SystemMode>, target: SystemMode, kind: RequestKind, safety: SafetyEvidence)
    ensures var d := Decide(current, target, kind, safety);
      && (d.accepted <==>
          || (target == Safe && current != Some(Safe))
          || (current == Some(Safe) && target == Init && kind == ExitSafe && safety.faults == {})
          || (current.Some? && current.value != Safe && kind != ExitSafe && !safety.latched
              && target != Safe && (current.value, kind, target) in MODE_EDGES))
      && (d.accepted ==> d.resulting == Some(target) && Legal(current, target, d.recovery))
      && (!d.accepted ==> d.resulting == current && !d.recovery)
      && (d.recovery <==> d.accepted && current == Some(Safe))
  {
  }

  /** The steps open to a request while the latch is clear, mode by mode: only the payload's completion is a
      subsystem's to ask for, the others are an operator's. */
  predicate OpenStep(from: SystemMode, kind: RequestKind, target: SystemMode) {
    match from
    case Safe => false
    case Init => kind == Subsystem && target == Idle
    case Idle => kind == SetMode && (target == Init || target == Operate || target == Stow)
    case Operate => kind == SetMode && (target == Idle || target == Stow)
    case Stow => kind == SetMode && target == Idle
  }

  /** Who gets which mode, for every request under every evidence: SAFE is anyone's from any other mode, INIT out of
      SAFE is EXIT_SAFE's while no fault is active, and the open steps need a clear latch; nothing else is granted. */
  lemma ReachesExactly(
    current: Option<SystemMode>, target: SystemMode, kind: RequestKind, safety: SafetyEvidence)
    ensures var d := Decide(current, target, kind, safety);
      && (d.accepted <==>
          || (target == Safe && current != Some(Safe))
          || (current == Some(Safe) && kind == ExitSafe && target == Init && safety.faults == {})
          || (current.Some? && OpenStep(current.value, kind, target) && !safety.latched))
      && d.resulting == (if d.accepted then Some(target) else current)
      && (d.recovery <==> d.accepted && current == Some(Safe))
  {
  }

  /** Why a request is refused: the first of the rules it runs into. */
  lemma RefusedBecause(
    current: Option<SystemMode>, target: SystemMode, kind: RequestKind, safety: SafetyEvidence)
    requires !Decide(current, target, kind, safety).accepted
    ensures var reason := Decide(current, target, kind, safety).reason;
      && (reason == AlreadyActive <==> current == Some(target))
      && (reason == OnlyExitSafeLeaves <==> current == Some(Safe) && target != Safe && !(kind == ExitSafe && target == Init))
      && (reason == ConditionStillActive(safety.faults) <==> current == Some(Safe) && kind == ExitSafe && target == Init)
      && (reason == ExitSafeOnlyInSafe <==> current != Some(Safe) && kind == ExitSafe && current != Some(target))
      && (reason == LatchIsSet <==>
            current != Some(Safe) && current != Some(target) && kind != ExitSafe && safety.latched)
  {
  }

  /** A mode, once left, can only be left along the table: nothing but SAFE is ever reached from
      nothing, SAFE is left only for INIT, and INIT, IDLE, STOW and OPERATE hand over as listed. */
  lemma Successors(from: Option<SystemMode>, target: SystemMode, recovery: bool)
    requires Legal(from, target, recovery)
    ensures from == None ==> target == Safe
    ensures from == Some(Safe) ==> target == Init
    ensures from == Some(Init) ==> target in {Safe, Idle}
    ensures from == Some(Stow) ==> target in {Safe, Idle}
    ensures from == Some(Operate) ==> target in {Safe, Idle, Stow}
    ensures target == Operate ==> from == Some(Idle)
  {
  }
}
