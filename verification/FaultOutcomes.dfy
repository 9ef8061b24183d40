/** What one fault, one activation and one tick come to in the fault app, with the codes and words of each written
    out. */
module FaultOutcomes {
  import opened Basics
  import opened Fault
  import opened Watchdog

  /** The faults that call for SAFE: a mission-ending condition of camera, inference, power, heat, gimbal or process. */
  predicate CallsForSafe(code: FaultCode) {
    match code
    case InferenceNan => true
    case CameraStall => true
    case ThermalOverLimit => true
    case PowerOverLimit => true
    case GimbalRunaway => true
    case GimbalFault => true
    case GimbalEncoderInvalid => true
    case GimbalControllerError => true
    case GimbalThermal => true
    case GimbalSafetyTimeout => true
    case GimbalClosedLoopLoss => true
    case GimbalStaleFeedback => true
    case GimbalTimeMapping => true
    case GimbalDutyExhausted => true
    case GimbalWatchdogUnconfirmed => true
    case WatchdogExpire => true
    case ModelCorrupt => true
    case ProcessDied => true
    case _ => false
  }

  lemma CallsForSafeExactly(code: FaultCode)
    ensures code in SAFE_TRIGGERING_FAULTS <==> CallsForSafe(code)
  {
  }

  /** One fault more in a tick: exactly a code that calls for SAFE sets the latch with that reason, withdraws any
      release, is seen, and asks for SAFE in the fault app's name; any other only uses up an id. */
  lemma RaisesExactly(r: Raised, events: seq<FaultEvent>, ids: Ids, n: nat)
    requires n < |events|
    ensures var before, after, code := RaiseAll(r, events[..n], ids), RaiseAll(r, events[..n + 1], ids), events[n].code;
      && after.drawn == before.drawn + 1
      && (if CallsForSafe(code)
          then
            && after.latch == before.latch.(latched := true, reason := code, releasedId := None)
            && after.seen == before.seen + {code}
            && after.requests == before.requests
                 + [ModeRequestMsg(ids(before.drawn), Safe, "fault", "safe_mode_entry", None)]
          else after.latch == before.latch && after.seen == before.seen && after.requests == before.requests)
  {
    assert events[..n + 1][..n] == events[..n];
    CallsForSafeExactly(events[n].code);
  }

  /** A recovery is refused exactly for one of these reasons, whatever the app around it has checked before. */
  lemma RefusesRecovery(x: Activation, epoch: string, lastSequence: Option<int>, idConsumed: bool, faultThisTick: bool)
    ensures !RecoveryAuthorized(x, epoch, lastSequence, idConsumed, faultThisTick) <==>
      || !x.recovery || x.requestId.None? || x.requestId == Some("") || idConsumed
      || x.previous != Some(Safe) || x.active != Init || x.epoch != epoch
      || (lastSequence.Some? && x.sequence <= lastSequence.value)
      || faultThisTick
  {
  }

  /** The latch before the first tick: clear, for no reason, with nothing seen, announced or used up. */
  lemma ClearAtPowerUp(cfg: FaultConfig, entries: seq<Entry>)
    ensures FaultRun(cfg, entries, []) == (Latch(false, NoFault, None, 0, None, {}), entries)
  {
  }

  /** The activation is newer than any seen, of our session. */
  predicate New(l: Latch, x: Activation, epoch: string) {
    x.epoch == epoch && 0 <= x.sequence && (l.last.Some? ==> l.last.value.sequence < x.sequence)
  }

  /** The activation ends a latched condition: a recovery out of SAFE to INIT, under an id not used before, in a tick
      without a fault. */
  predicate Ends(l: Latch, x: Activation, faultThisTick: bool) {
    && x.recovery && x.previous == Some(Safe) && x.active == Init
    && x.requestId.Some? && x.requestId.value != "" && x.requestId.value !in l.consumed
    && !faultThisTick
  }

  /** An activation that is not new changes nothing; a new one is remembered, and clears the latch, uses up its id and
      announces it exactly if it ends the condition. */
  lemma ConsumesExactly(l: Latch, x: Activation, epoch: string, faultThisTick: bool)
    ensures var after := Consume(l, x, epoch, faultThisTick);
      if !New(l, x, epoch) then after == l
      else if Ends(l, x, faultThisTick) then
        after == Latch(false, NoFault, Some(x), l.evidenceSequence, x.requestId, l.consumed + {x.requestId.value})
      else after == l.(last := Some(x))
  {
  }

  /** The evidence of a tick is the next of its session, observed now, and says what the tick left: the codes raised,
      the latch and its reason, and the release announced. The tick raises the drained faults before the expired
      watchdogs, and hears activations last and with every fault of the tick against them. */
  lemma PublishesExactly(
    cfg: FaultConfig, l: Latch, entries: seq<Entry>, inbox: FaultInbox, now: real, ids: Ids)
    ensures var out := FaultTick(cfg, l, entries, inbox, now, ids);
      var heard := Heard(entries, inbox.beats, now);
      var raised := RaiseAll(Raised(l, [], {}, 0), inbox.events + Expired(heard, now, cfg.maxMiss), ids);
      var consumed := ConsumeAll(raised.latch, inbox.activations, cfg.epoch, raised.seen != {});
      && out.latch == consumed.(evidenceSequence := l.evidenceSequence + 1)
      && out.entries == Checked(heard, now) && out.requests == raised.requests
      && out.evidence.epoch == cfg.epoch && out.evidence.sequence == l.evidenceSequence + 1
      && out.evidence.observed == Finite(now)
      && out.evidence.activeFaults == raised.seen
      && out.evidence.latched == out.latch.latched && out.evidence.reason == out.latch.reason
      && out.evidence.recoveryId == out.latch.releasedId
  {
    var heard := Heard(entries, inbox.beats, now);
    RaiseJoins(Raised(l, [], {}, 0), inbox.events, Expired(heard, now, cfg.maxMiss), ids);
    var raised := RaiseAll(Raised(l, [], {}, 0), inbox.events + Expired(heard, now, cfg.maxMiss), ids);
    RaiseKeepsSequence(Raised(l, [], {}, 0), inbox.events + Expired(heard, now, cfg.maxMiss), ids);
    ConsumeKeepsSequence(raised.latch, inbox.activations, cfg.epoch, raised.seen != {});
  }

  lemma {:induction false} RaiseJoins(r: Raised, a: seq<FaultEvent>, b: seq<FaultEvent>, ids: Ids)
    ensures RaiseAll(RaiseAll(r, a, ids), b, ids) == RaiseAll(r, a + b, ids)
  {
    if b == [] {
      assert a + b == a;
    } else {
      RaiseJoins(r, a, b[..|b| - 1], ids);
      assert (a + b)[..|a + b| - 1] == a + b[..|b| - 1];
    }
  }

  lemma {:induction false} RaiseKeepsSequence(r: Raised, events: seq<FaultEvent>, ids: Ids)
    ensures RaiseAll(r, events, ids).latch.evidenceSequence == r.latch.evidenceSequence
  {
    if events != [] {
      RaiseKeepsSequence(r, events[..|events| - 1], ids);
    }
  }

  lemma {:induction false} ConsumeKeepsSequence(l: Latch, xs: seq<Activation>, epoch: string, faultThisTick: bool)
    ensures ConsumeAll(l, xs, epoch, faultThisTick).evidenceSequence == l.evidenceSequence
  {
    if xs != [] {
      ConsumeKeepsSequence(l, xs[..|xs| - 1], epoch, faultThisTick);
    }
  }
}
