/** The fault app: SAFE-request policy, the safety latch, and its tick over the bus. */
module Fault {
  import opened Basics
  import opened MessageBus
  import opened Watchdog

  const FAULT := "fault"

  const SAFE_TRIGGERING_FAULTS: set<FaultCode> := {
    InferenceNan, CameraStall, ThermalOverLimit, PowerOverLimit, GimbalRunaway, GimbalFault,
    GimbalEncoderInvalid, GimbalControllerError, GimbalThermal, GimbalSafetyTimeout,
    GimbalClosedLoopLoss, GimbalStaleFeedback, GimbalTimeMapping, GimbalDutyExhausted,
    GimbalWatchdogUnconfirmed, WatchdogExpire, ModelCorrupt, ProcessDied
  }

  /** Shell-generated request identities. */
  type Ids = nat -> string

  datatype FaultConfig = FaultConfig(epoch: string, maxMiss: int)

  datatype Latch = Latch(
    latched: bool, reason: FaultCode, last: Option<Activation>, evidenceSequence: int,
    releasedId: Option<string>, consumed: set<string>)

  const CLEARED := Latch(false, NoFault, None, 0, None, {})

  function EnterSafeRequest(code: FaultCode, id: string): ModeRequestMsg {
    ModeRequestMsg(id, Safe, FAULT, "safe_mode_entry", None)
  }

  function DecideModeRequest(code: FaultCode, id: string): Option<ModeRequestMsg> {
    if code in SAFE_TRIGGERING_FAULTS then Some(EnterSafeRequest(code, id)) else None
  }

  predicate RecoveryAuthorized(
    x: Activation, epoch: string, lastSequence: Option<int>, idConsumed: bool, faultThisTick: bool)
  {
    && x.recovery
    && x.requestId.Some? && x.requestId.value != "" && !idConsumed
    && x.previous == Some(Safe)
    && x.active == Init
    && x.epoch == epoch
    && (lastSequence.Some? ==> x.sequence > lastSequence.value)
    && !faultThisTick
  }

  // --- One tick on values -----------------------------------------------------------------

  /** Faults raised so far in a tick: the latch, the SAFE requests, the codes, the ids drawn. */
  datatype Raised = Raised(latch: Latch, requests: seq<ModeRequestMsg>, seen: set<FaultCode>, drawn: nat)

  function Raise(r: Raised, code: FaultCode, ids: Ids): Raised {
    var request := DecideModeRequest(code, ids(r.drawn));
    if request.None? then r.(drawn := r.drawn + 1)
    else Raised(r.latch.(latched := true, reason := code, releasedId := None),
                r.requests + [request.value], r.seen + {code}, r.drawn + 1)
  }

  function RaiseAll(r: Raised, events: seq<FaultEvent>, ids: Ids): Raised {
    if events == [] then r else Raise(RaiseAll(r, events[..|events| - 1], ids), Last(events).code, ids)
  }

  function SequenceOf(x: Option<Activation>): Option<int> {
    if x.None? then None else Some(x.value.sequence)
  }

  function Consume(l: Latch, x: Activation, epoch: string, faultThisTick: bool): Latch {
    if x.epoch != epoch || x.sequence < 0 || (l.last.Some? && x.sequence <= l.last.value.sequence) then l
    else
      var consumed := x.requestId.Some? && x.requestId.value != "" && x.requestId.value in l.consumed;
      if RecoveryAuthorized(x, epoch, SequenceOf(l.last), consumed, faultThisTick) then
        l.(latched := false, reason := NoFault, releasedId := x.requestId,
           consumed := l.consumed + {x.requestId.value}, last := Some(x))
      else
        l.(last := Some(x))
  }

  function ConsumeAll(l: Latch, xs: seq<Activation>, epoch: string, faultThisTick: bool): Latch {
    if xs == [] then l else Consume(ConsumeAll(l, xs[..|xs| - 1], epoch, faultThisTick), Last(xs), epoch, faultThisTick)
  }

  datatype FaultInbox = FaultInbox(beats: seq<string>, events: seq<FaultEvent>, activations: seq<Activation>)

  datatype FaultOut = FaultOut(latch: Latch, entries: seq<Entry>, requests: seq<ModeRequestMsg>, evidence: SafetyMsg)

  function RaisedInTick(
      cfg: FaultConfig, l: Latch, entries: seq<Entry>, inbox: FaultInbox, now: real, ids: Ids): Raised {
    var expired := Expired(Heard(entries, inbox.beats, now), now, cfg.maxMiss);
    RaiseAll(RaiseAll(Raised(l, [], {}, 0), inbox.events, ids), expired, ids)
  }

  function FaultTick(
      cfg: FaultConfig, l: Latch, entries: seq<Entry>, inbox: FaultInbox, now: real, ids: Ids): FaultOut {
    var raised := RaisedInTick(cfg, l, entries, inbox, now, ids);
    var latch := ConsumeAll(raised.latch, inbox.activations, cfg.epoch, raised.seen != {});
    var sequence := latch.evidenceSequence + 1;
    FaultOut(
      latch.(evidenceSequence := sequence),
      Checked(Heard(entries, inbox.beats, now), now),
      raised.requests,
      SafetyMsg(raised.seen, latch.latched, latch.reason, cfg.epoch, sequence, Finite(now), latch.releasedId))
  }

  // --- What a tick reports ----------------------------------------------------------------

  /** The SAFE-triggering codes among the events, in order. */
  function Triggers(events: seq<FaultEvent>): seq<FaultCode> {
    if events == [] then []
    else
      Triggers(events[..|events| - 1])
      + (if Last(events).code in SAFE_TRIGGERING_FAULTS then [Last(events).code] else [])
  }

  /** Every SAFE-triggering fault is reported active and asks for SAFE once; the latch, once raised, names the
      last of them and withdraws any release; other faults change nothing. */
  lemma {:induction false} RaisedExactly(r: Raised, events: seq<FaultEvent>, ids: Ids)
    ensures var after, triggers := RaiseAll(r, events, ids), Triggers(events);
      && (forall code :: code in after.seen <==> code in r.seen || code in triggers)
      && |after.requests| == |r.requests| + |triggers|
      && after.drawn == r.drawn + |events|
      && after.latch == (if triggers == [] then r.latch
                         else r.latch.(latched := true, reason := Last(triggers), releasedId := None))
  {
    if events != [] {
      RaisedExactly(r, events[..|events| - 1], ids);
    }
  }

  /** A release is named only while the latch is clear. */
  predicate ReleaseIsClear(l: Latch) {
    l.releasedId.Some? ==> !l.latched
  }

  lemma {:induction false} ConsumeKeepsClear(l: Latch, xs: seq<Activation>, epoch: string, faultThisTick: bool)
    requires ReleaseIsClear(l)
    ensures ReleaseIsClear(ConsumeAll(l, xs, epoch, faultThisTick))
    ensures faultThisTick ==>
      var r := ConsumeAll(l, xs, epoch, faultThisTick); (r.latched, r.reason, r.releasedId) == (l.latched, l.reason, l.releasedId)
  {
    if xs != [] {
      ConsumeKeepsClear(l, xs[..|xs| - 1], epoch, faultThisTick);
    }
  }

  /** The evidence of a tick: its active faults are exactly the SAFE-triggering codes drained or expired in it;
      with any of them the latch is set; a release is announced only with the latch clear. */
  lemma EvidenceIsTrue(cfg: FaultConfig, l: Latch, entries: seq<Entry>, inbox: FaultInbox, now: real, ids: Ids)
    requires ReleaseIsClear(l)
    ensures var out := FaultTick(cfg, l, entries, inbox, now, ids);
      var expired := Expired(Heard(entries, inbox.beats, now), now, cfg.maxMiss);
      && (forall code :: code in out.evidence.activeFaults <==> code in Triggers(inbox.events) || code in Triggers(expired))
      && |out.requests| == |Triggers(inbox.events)| + |Triggers(expired)|
      && (out.evidence.activeFaults != {} ==> out.evidence.latched)
      && (out.evidence.recoveryId.Some? ==> !out.evidence.latched && out.evidence.activeFaults == {})
      && ReleaseIsClear(out.latch)
  {
    var start := Raised(l, [], {}, 0);
    var expired := Expired(Heard(entries, inbox.beats, now), now, cfg.maxMiss);
    var raised := RaisedInTick(cfg, l, entries, inbox, now, ids);
    RaisedExactly(start, inbox.events, ids);
    RaisedExactly(RaiseAll(start, inbox.events, ids), expired, ids);
    ConsumeKeepsClear(raised.latch, inbox.activations, cfg.epoch, raised.seen != {});
    if raised.seen != {} {
      assert Triggers(inbox.events) != [] || Triggers(expired) != [];
    }
  }

  // --- Runs of ticks ----------------------------------------------------------------------

  /** What one tick of a run finds, and its time and ids. */
  datatype Turn = Turn(inbox: FaultInbox, now: real, ids: Ids)

  function RoundsOf(turns: seq<Turn>): (rounds: seq<Round>)
    ensures |rounds| == |turns|
    ensures forall i :: 0 <= i < |turns| ==> rounds[i] == Round(turns[i].inbox.beats, turns[i].now)
  {
    seq(|turns|, i requires 0 <= i < |turns| => Round(turns[i].inbox.beats, turns[i].now))
  }

  /** Latch and entries after a run of ticks from power-up. */
  function FaultRun(cfg: FaultConfig, entries: seq<Entry>, turns: seq<Turn>): (Latch, seq<Entry>) {
    if turns == [] then (CLEARED, entries)
    else
      var (l, before) := FaultRun(cfg, entries, turns[..|turns| - 1]);
      var out := FaultTick(cfg, l, before, Last(turns).inbox, Last(turns).now, Last(turns).ids);
      (out.latch, out.entries)
  }

  function OutAt(cfg: FaultConfig, entries: seq<Entry>, turns: seq<Turn>, n: nat): FaultOut
    requires n < |turns|
  {
    var (l, before) := FaultRun(cfg, entries, turns[..n]);
    FaultTick(cfg, l, before, turns[n].inbox, turns[n].now, turns[n].ids)
  }

  lemma {:induction false} RunIsRounds(cfg: FaultConfig, entries: seq<Entry>, turns: seq<Turn>)
    ensures var (l, after) := FaultRun(cfg, entries, turns); ReleaseIsClear(l) && after == Rounds(entries, RoundsOf(turns))
  {
    if turns != [] {
      var front, t := turns[..|turns| - 1], Last(turns);
      RunIsRounds(cfg, entries, front);
      var (l, before) := FaultRun(cfg, entries, front);
      EvidenceIsTrue(cfg, l, before, t.inbox, t.now, t.ids);
      assert RoundsOf(turns)[..|turns| - 1] == RoundsOf(front);
    }
  }

  lemma {:induction false} TriggersOf(events: seq<FaultEvent>, e: FaultEvent)
    requires e in events && e.code in SAFE_TRIGGERING_FAULTS
    ensures e.code in Triggers(events)
  {
    if e != Last(events) {
      TriggersOf(events[..|events| - 1], e);
    }
  }

  /** A subsystem that falls silent is in the evidence in time: if the ticks of a run are at most a period apart
      and go on, without a heartbeat of it, until `maxMiss` periods past its interval, some tick by then has
      published evidence that is latched on WATCHDOG_EXPIRE, and asked for SAFE. */
  lemma SilenceIsLatched(cfg: FaultConfig, entries: seq<Entry>, turns: seq<Turn>, i: nat, period: real) returns (m: nat)
    requires turns != [] && i < |entries| && DistinctNames(entries) && 1 <= cfg.maxMiss && period > 0.0
    requires entries[i].misses == 0 && entries[i].interval >= 0.0 && Paced(entries, RoundsOf(turns), period)
    requires var ticks := TicksOf(RoundsOf(turns), entries[i].subsystem);
      Last(turns).now >= LastHeard(entries[i], ticks, |turns| - 1) + entries[i].interval + Periods(cfg.maxMiss, period)
    ensures m < |turns|
    ensures var ticks := TicksOf(RoundsOf(turns), entries[i].subsystem);
      turns[m].now <= LastHeard(entries[i], ticks, |turns| - 1) + entries[i].interval + Periods(cfg.maxMiss, period)
    ensures var out := OutAt(cfg, entries, turns, m);
      WatchdogExpire in out.evidence.activeFaults && out.evidence.latched && out.requests != []
  {
    var rounds := RoundsOf(turns);
    m := DetectedInTime(entries, rounds, i, cfg.maxMiss, period);
    RunIsRounds(cfg, entries, turns[..m]);
    assert rounds[..m] == RoundsOf(turns[..m]);
    var (l, before) := FaultRun(cfg, entries, turns[..m]);
    EvidenceIsTrue(cfg, l, before, turns[m].inbox, turns[m].now, turns[m].ids);
    TriggersOf(ReportAt(entries, rounds, m, cfg.maxMiss), FaultEvent(WatchdogExpire, entries[i].subsystem));
  }

  // --- The shell --------------------------------------------------------------------------

  class FaultApp {
    const cfg: FaultConfig
    const bus: Bus
    var safeLatched: bool
    var safeReason: FaultCode
    var lastActivation: Option<Activation>
    var evidenceSequence: int
    var releasedId: Option<string>
    var consumed: set<string>

    constructor (cfg: FaultConfig, bus: Bus)
      ensures this.cfg == cfg && this.bus == bus && State() == CLEARED
    {
      this.cfg, this.bus := cfg, bus;
      safeLatched, safeReason, lastActivation := false, NoFault, None;
      evidenceSequence, releasedId, consumed := 0, None, {};
    }

    ghost function State(): Latch
      reads this
    {
      Latch(safeLatched, safeReason, lastActivation, evidenceSequence, releasedId, consumed)
    }

    method Tick(entries: seq<Entry>, now: real, ids: Ids) returns (updated: seq<Entry>)
      modifies this, bus`heartbeats, bus`faultEvents, bus`faultActivations, bus`authorityRequests,
               bus`routerSafety, bus`authoritySafety, bus`payloadSafety
      ensures var out := FaultTick(cfg, old(State()), entries,
          FaultInbox(old(bus.heartbeats), old(bus.faultEvents), old(bus.faultActivations)), now, ids);
        && State() == out.latch
        && updated == out.entries
        && bus.authorityRequests == old(bus.authorityRequests) + out.requests
        && bus.routerSafety == old(bus.routerSafety) + [out.evidence]
        && bus.authoritySafety == old(bus.authoritySafety) + [out.evidence]
        && bus.payloadSafety == old(bus.payloadSafety) + [out.evidence]
      ensures bus.heartbeats == [] && bus.faultEvents == [] && bus.faultActivations == []
    {
      var seen;
      updated, seen := RaiseFaults(entries, now, ids);
      ConsumeActivations(seen != {});
      evidenceSequence := evidenceSequence + 1;
      bus.PublishSafety(SafetyMsg(seen, safeLatched, safeReason, cfg.epoch, evidenceSequence, Finite(now), releasedId));
    }

    /** Drain heartbeats and faults, check the watchdog, and route every fault through the SAFE policy. */
    method RaiseFaults(entries: seq<Entry>, now: real, ids: Ids) returns (updated: seq<Entry>, seen: set<FaultCode>)
      modifies this`safeLatched, this`safeReason, this`releasedId, bus`authorityRequests, bus`heartbeats, bus`faultEvents
      ensures var raised := RaisedInTick(cfg, old(State()), entries,
          FaultInbox(old(bus.heartbeats), old(bus.faultEvents), bus.faultActivations), now, ids);
        Reached(raised, old(bus.authorityRequests)) && seen == raised.seen
      ensures updated == Checked(Heard(entries, old(bus.heartbeats), now), now)
      ensures bus.heartbeats == [] && bus.faultEvents == []
    {
      ghost var l, requests := State(), bus.authorityRequests;
      var working := DrainHeartbeats(entries, now);
      ghost var routed := RaiseAll(Raised(l, [], {}, 0), bus.faultEvents, ids);
      var drawn, faults;
      seen, drawn := DrainFaults(ids, l, requests);
      updated, faults := CheckHeartbeats(working, now, cfg.maxMiss);
      seen := RouteExpired(faults, ids, seen, drawn, routed, requests);
    }

    method DrainHeartbeats(entries: seq<Entry>, now: real) returns (working: seq<Entry>)
      modifies bus`heartbeats
      ensures working == Heard(entries, old(bus.heartbeats), now)
      ensures bus.heartbeats == []
    {
      ghost var all := bus.heartbeats;
      ghost var i := 0;
      working := entries;
      while bus.heartbeats != []
        invariant 0 <= i <= |all| && bus.heartbeats == all[i..]
        invariant working == Heard(entries, all[..i], now)
        decreases |bus.heartbeats|
      {
        var name := bus.heartbeats[0];
        bus.heartbeats := bus.heartbeats[1..];
        assert all[..i + 1][..i] == all[..i];
        i := i + 1;
        working := BeatAll(working, name, now);
      }
      assert all[..i] == all;
    }

    ghost predicate Reached(r: Raised, requests: seq<ModeRequestMsg>)
      reads this, bus
    {
      State() == r.latch && bus.authorityRequests == requests + r.requests
    }

    /** Request SAFE and latch, if the fault calls for it. */
    method RaiseFault(
        code: FaultCode, ids: Ids, before: set<FaultCode>, drawn: nat, ghost r: Raised,
        ghost requests: seq<ModeRequestMsg>)
      returns (seen: set<FaultCode>)
      requires Reached(r, requests) && before == r.seen && drawn == r.drawn
      modifies this`safeLatched, this`safeReason, this`releasedId, bus`authorityRequests
      ensures Reached(Raise(r, code, ids), requests) && seen == Raise(r, code, ids).seen
    {
      seen := before;
      var request := DecideModeRequest(code, ids(drawn));
      if request.Some? {
        bus.PublishRequest(request.value);
        safeLatched := true;
        safeReason := code;
        releasedId := None;
        seen := seen + {code};
      }
    }

    method DrainFaults(
        ids: Ids, ghost l: Latch, ghost requests: seq<ModeRequestMsg>)
      returns (seen: set<FaultCode>, drawn: nat)
      requires Reached(Raised(l, [], {}, 0), requests)
      modifies this`safeLatched, this`safeReason, this`releasedId, bus`authorityRequests, bus`faultEvents
      ensures var after := RaiseAll(Raised(l, [], {}, 0), old(bus.faultEvents), ids);
        Reached(after, requests) && seen == after.seen && drawn == after.drawn
      ensures bus.faultEvents == []
    {
      seen, drawn := {}, 0;
      ghost var all := bus.faultEvents;
      ghost var r := Raised(l, [], {}, 0);
      while bus.faultEvents != []
        invariant 0 <= drawn <= |all| && bus.faultEvents == all[drawn..]
        invariant r == RaiseAll(Raised(l, [], {}, 0), all[..drawn], ids)
        invariant Reached(r, requests) && seen == r.seen && drawn == r.drawn
        decreases |bus.faultEvents|
      {
        var event := bus.faultEvents[0];
        bus.faultEvents := bus.faultEvents[1..];
        assert all[..drawn + 1][..drawn] == all[..drawn];
        seen := RaiseFault(event.code, ids, seen, drawn, r, requests);
        r := Raise(r, event.code, ids);
        drawn := drawn + 1;
      }
      assert all[..drawn] == all;
    }

    method RouteExpired(faults: seq<FaultEvent>, ids: Ids, before: set<FaultCode>, first: nat, ghost r: Raised,
        ghost requests: seq<ModeRequestMsg>)
      returns (seen: set<FaultCode>)
      requires Reached(r, requests) && before == r.seen && first == r.drawn
      modifies this`safeLatched, this`safeReason, this`releasedId, bus`authorityRequests
      ensures var after := RaiseAll(r, faults, ids);
        Reached(after, requests) && seen == after.seen
    {
      seen := before;
      ghost var current := r;
      for i := 0 to |faults|
        invariant current == RaiseAll(r, faults[..i], ids)
        invariant Reached(current, requests) && seen == current.seen && first + i == current.drawn
      {
        assert faults[..i + 1][..i] == faults[..i];
        seen := RaiseFault(faults[i].code, ids, seen, first + i, current, requests);
        current := Raise(current, faults[i].code, ids);
      }
      assert faults[..|faults|] == faults;
    }

    /** Drain the activations; release the latch only on an authorised recovery. */
    method ConsumeActivations(faultThisTick: bool)
      modifies this`safeLatched, this`safeReason, this`releasedId, this`consumed, this`lastActivation, bus`faultActivations
      ensures State() == ConsumeAll(old(State()), old(bus.faultActivations), cfg.epoch, faultThisTick)
      ensures bus.faultActivations == []
    {
      ghost var all := bus.faultActivations;
      ghost var i := 0;
      while bus.faultActivations != []
        invariant 0 <= i <= |all| && bus.faultActivations == all[i..]
        invariant State() == ConsumeAll(old(State()), all[..i], cfg.epoch, faultThisTick)
        decreases |bus.faultActivations|
      {
        var activation := bus.faultActivations[0];
        bus.faultActivations := bus.faultActivations[1..];
        assert all[..i + 1][..i] == all[..i];
        i := i + 1;
        if activation.epoch != cfg.epoch || activation.sequence < 0 {
          continue;
        }
        if lastActivation.Some? && activation.sequence <= lastActivation.value.sequence {
          continue;
        }
        var spent := activation.requestId.Some? && activation.requestId.value != "" && activation.requestId.value in consumed;
        if RecoveryAuthorized(activation, cfg.epoch, SequenceOf(lastActivation), spent, faultThisTick) {
          safeLatched := false;
          safeReason := NoFault;
          releasedId := activation.requestId;
          consumed := consumed + {activation.requestId.value};
        }
        lastActivation := Some(activation);
      }
      assert all[..i] == all;
    }
  }
}
