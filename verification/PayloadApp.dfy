/** The payload shell's containment methods over the bus, refining module PayloadContainment. */
module PayloadShell {
  import opened Basics
  import opened Evidence
  import opened MessageBus
  import opened PayloadContainment
  import PayloadProofs

  class PayloadApp {
    const cfg: PayloadConfig
    const bus: Bus
    var containment: Containment
    var actuator: Actuator
    var shell: Shell
    var requestCount: nat
    // What the operation in progress has published since it began.
    ghost var faults: seq<FaultEvent>
    ghost var requests: seq<ModeRequestMsg>
    ghost var faultsBefore: seq<FaultEvent>
    ghost var requestsBefore: seq<ModeRequestMsg>

    ghost function State(): Payload
      reads this, bus
    {
      Payload(containment, actuator, shell, Outbox(bus.payloadFaults, faults, requests))
    }

    ghost predicate Synced()
      reads this, bus
    {
      && bus.faultEvents == faultsBefore + faults
      && bus.authorityRequests == requestsBefore + requests
      && requestCount == |requests|
    }

    constructor (cfg: PayloadConfig, bus: Bus)
      requires bus.payloadFaults == []
      ensures this.cfg == cfg && this.bus == bus
      ensures State() == UNACTIVATED && Synced()
    {
      this.cfg, this.bus := cfg, bus;
      containment := Containment(false, None, {}, 0, false, 0, []);
      actuator := Actuator(false, false, None, 0, false, 0, 0);
      shell := Shell(None, 0, 0, None, None);
      faults, requests, requestCount := [], [], 0;
      faultsBefore, requestsBefore := bus.faultEvents, bus.authorityRequests;
    }

    method Begin()
      modifies this`faults, this`requests, this`faultsBefore, this`requestsBefore, this`requestCount
      ensures State() == PayloadContainment.Begin(old(State())) && Synced()
      ensures faultsBefore == bus.faultEvents && requestsBefore == bus.authorityRequests
    {
      faults, requests, requestCount := [], [], 0;
      faultsBefore, requestsBefore := bus.faultEvents, bus.authorityRequests;
    }

    method PublishFault(code: FaultCode)
      requires Synced()
      modifies this`faults, bus`faultEvents, bus`payloadFaults
      ensures State() == Publish(old(State()), code) && Synced()
    {
      bus.PublishFault(FaultEvent(code, PAYLOAD));
      faults := faults + [FaultEvent(code, PAYLOAD)];
    }

    method MarkContainmentLatched()
      modifies this`containment
      ensures State() == Engage(old(State()))
    {
      if !containment.latched {
        containment := containment.(generation := containment.generation + 1, marks := containment.marks + [Engaged]);
      }
      containment := containment.(latched := true);
    }

    /** Ask the driver to inhibit; an answer short of a confirmation contains. */
    method Inhibit(latching: bool, w: World) returns (confirmed: bool)
      requires Synced()
      modifies this`containment, this`actuator, this`faults, bus`faultEvents, bus`payloadFaults
      ensures (State(), confirmed) == InhibitMotion(old(State()), latching, w) && Synced()
    {
      var result := w.inhibits(actuator.inhibitCalls);
      actuator := actuator.(inhibitCalls := actuator.inhibitCalls + 1);
      confirmed := result.Inhibited? && result.confirmed;
      containment := containment.(marks := containment.marks + [Asked(latching, confirmed)]);
      if !confirmed {
        PublishFault(if result.InhibitFailed? then result.code else GimbalFault);
        MarkContainmentLatched();
      }
    }

    method LatchContainment(w: World)
      requires Synced()
      modifies this`containment, this`actuator, this`faults, bus`faultEvents, bus`payloadFaults
      ensures State() == Latch(old(State()), w) && Synced()
    {
      MarkContainmentLatched();
      if !containment.inhibitApplied {
        var confirmed := Inhibit(true, w);
        containment := containment.(inhibitApplied := confirmed);
      }
    }

    // --- Polling ---------------------------------------------------------------------------

    method PollActivations(now: real, w: World)
      modifies this, bus`faultEvents, bus`payloadFaults, bus`authorityRequests, bus`payloadSafety, bus`payloadActivations
      ensures State() == PayloadContainment.PollActivations(
        old(State()), old(bus.payloadSafety), old(bus.payloadActivations), cfg, now, w)
      ensures Synced() && faultsBefore == old(bus.faultEvents) && requestsBefore == old(bus.authorityRequests)
      ensures bus.payloadSafety == [] && bus.payloadActivations == []
    {
      ghost var p, safety, xs := State(), bus.payloadSafety, bus.payloadActivations;
      var unsafe := DrainAll(now, w);
      assert State() == Drained(p, safety, xs, cfg, now, w);
      var last := shell.last;
      if !unsafe && containment.latched && last.Some? && last.value.recovery && last.value.active == Init
         && last.value.previous == Some(Safe) && last.value.requestId.Some? && last.value.requestId.value != "" {
        TryReleaseContainment(last.value.requestId.value, now, w);
      }
      InstallState();
    }

    method DrainAll(now: real, w: World) returns (unsafe: bool)
      modifies this, bus`faultEvents, bus`payloadFaults, bus`authorityRequests, bus`payloadSafety, bus`payloadActivations
      ensures State() == Drained(old(State()), old(bus.payloadSafety), old(bus.payloadActivations), cfg, now, w)
      ensures unsafe == UnsafePoll(old(State()), old(bus.payloadSafety), cfg, now, w)
      ensures Synced() && faultsBefore == old(bus.faultEvents) && requestsBefore == old(bus.authorityRequests)
      ensures bus.payloadSafety == [] && bus.payloadActivations == []
    {
      Begin();
      var unsafeEvidence := PollSafety(now, w);
      var unsafeFaults := PollLocalFaults(w);
      InstallState();
      DrainActivations(w);
      return unsafeEvidence || unsafeFaults;
    }

    method InstallState()
      modifies this`shell
      ensures State() == Install(old(State()))
    {
      shell := shell.(installed := Some(Installed(shell.controlRevision, shell.last)));
    }

    method PollSafety(now: real, w: World) returns (unsafe: bool)
      requires Synced()
      modifies this`containment, this`actuator, this`faults, bus`faultEvents, bus`payloadFaults, bus`payloadSafety
      ensures State() == TakeAllEvidence(old(State()), old(bus.payloadSafety), cfg, now, w) && Synced()
      ensures unsafe == UnsafeDrain(old(bus.payloadSafety), cfg.epoch, now)
      ensures bus.payloadSafety == []
    {
      ghost var all := bus.payloadSafety;
      ghost var i := 0;
      unsafe := false;
      while bus.payloadSafety != []
        invariant 0 <= i <= |all| && bus.payloadSafety == all[i..]
        invariant State() == TakeAllEvidence(old(State()), all[..i], cfg, now, w) && Synced()
        invariant unsafe == UnsafeDrain(all[..i], cfg.epoch, now)
        decreases |bus.payloadSafety|
      {
        var evidence := bus.payloadSafety[0];
        bus.payloadSafety := bus.payloadSafety[1..];
        assert all[..i + 1] == all[..i] + [evidence] && all[..i + 1][..i] == all[..i];
        if Qualifies(evidence, cfg.epoch, now) && (evidence.latched || evidence.activeFaults != {}) {
          unsafe := true;
          assert evidence in all[..i + 1];
        }
        i := i + 1;
        TakeOne(evidence, now, w);
      }
      assert all[..i] == all;
    }

    method TakeOne(evidence: SafetyMsg, now: real, w: World)
      requires Synced()
      modifies this`containment, this`actuator, this`faults, bus`faultEvents, bus`payloadFaults
      ensures State() == TakeEvidence(old(State()), evidence, cfg, now, w) && Synced()
    {
      if evidence.epoch != cfg.epoch || evidence.sequence < 0 || evidence.observed.NonFinite? || evidence.observed.at > now {
        return;
      }
      if containment.latest.Some? && evidence.sequence <= containment.latest.value.sequence {
        return;
      }
      containment := containment.(latest := Some(evidence));
      if evidence.latched {
        LatchContainment(w);
      }
    }

    method PollLocalFaults(w: World) returns (unsafe: bool)
      requires Synced()
      modifies this`containment, this`actuator, this`shell, this`faults, bus`faultEvents, bus`payloadFaults
      ensures State() == TakeLocalFaults(old(State()), w) && Synced()
      ensures unsafe == UnsafeFaults(old(State()))
    {
      ghost var all := bus.payloadFaults;
      var batch: seq<FaultEvent> := [];
      while bus.payloadFaults != []
        invariant all == batch + bus.payloadFaults
        invariant State() == old(State()).(o := old(State()).o.(local := bus.payloadFaults)) && Synced()
        decreases |bus.payloadFaults|
      {
        batch := batch + [bus.payloadFaults[0]];
        bus.payloadFaults := bus.payloadFaults[1..];
      }
      assert batch == all;
      var pending := shell.pending;
      shell := shell.(pending := None);
      unsafe := (exists e :: e in batch && Containing(e)) || pending.Some?;
      if unsafe {
        LatchContainment(w);
      }
    }

    method DrainActivations(w: World)
      requires Synced()
      modifies this, bus`faultEvents, bus`payloadFaults, bus`authorityRequests, bus`payloadActivations
      ensures State() == TakeAllActivations(old(State()), old(bus.payloadActivations), cfg, w) && Synced()
      ensures faultsBefore == old(faultsBefore) && requestsBefore == old(requestsBefore)
      ensures bus.payloadActivations == []
    {
      ghost var all := bus.payloadActivations;
      ghost var i := 0;
      while bus.payloadActivations != []
        invariant 0 <= i <= |all| && bus.payloadActivations == all[i..]
        invariant State() == TakeAllActivations(old(State()), all[..i], cfg, w) && Synced()
        invariant faultsBefore == old(faultsBefore) && requestsBefore == old(requestsBefore)
        decreases |bus.payloadActivations|
      {
        var x := bus.payloadActivations[0];
        bus.payloadActivations := bus.payloadActivations[1..];
        assert all[..i + 1][..i] == all[..i];
        i := i + 1;
        Take(x, w);
      }
      assert all[..i] == all;
    }

    method Take(x: Activation, w: World)
      requires Synced()
      modifies this, bus`faultEvents, bus`payloadFaults, bus`authorityRequests
      ensures State() == TakeActivation(old(State()), x, cfg, w) && Synced()
      ensures faultsBefore == old(faultsBefore) && requestsBefore == old(requestsBefore)
    {
      var disposition := AcceptActivation(shell.last, x, cfg.epoch);
      if disposition == Conflict {
        PublishFault(GimbalFault);
        LatchContainment(w);
        return;
      }
      if disposition != Accepted {
        return;
      }
      shell := shell.(last := Some(x));
      if x.active == Safe {
        LatchContainment(w);
      }
      ReenterGraph(x, w);
    }

    method ReenterGraph(x: Activation, w: World)
      requires Synced()
      modifies this, bus`faultEvents, bus`payloadFaults, bus`authorityRequests
      ensures State() == Reenter(old(State()), x, w) && Synced()
      ensures faultsBefore == old(faultsBefore) && requestsBefore == old(requestsBefore)
    {
      var _ := Inhibit(false, w);
      var entry := w.entry(x.active);
      if entry.EntryInvalid? {
        shell := shell.(pending := Some(entry.code));
        PublishFault(entry.code);
      }
      actuator := actuator.(stowArmed := false, stowComplete := false);
      shell := shell.(policyRevision := shell.policyRevision + 1, controlRevision := shell.controlRevision + 1);
      if x.active == Operate && !w.runtimeReady && entry.EntryValid? && entry.inferenceEnabled {
        PublishFault(ModelCorrupt);
        var intent := ModeRequestMsg(
          w.ids(requestCount), Safe, PAYLOAD, "graph_intent:safe", Some(ActivationKey(x.epoch, x.sequence)));
        bus.PublishRequest(intent);
        requests, requestCount := requests + [intent], requestCount + 1;
      }
    }

    /** Release the latch under the recovery contract; spend the id before judging the hardware. */
    method TryReleaseContainment(id: string, now: real, w: World)
      requires Synced() && Recovering(shell.last) && id == shell.last.value.requestId.value
      modifies this`containment, this`actuator, this`faults, bus`faultEvents, bus`payloadFaults
      ensures State() == TryRelease(old(State()), cfg, now, w) && Synced()
    {
      if id in containment.consumed {
        return;
      }
      if containment.latest.None? {
        return;
      }
      var m := containment.latest.value;
      if m.recoveryId != Some(id) || m.epoch != cfg.epoch || m.sequence <= containment.lastEvidence
         || m.observed.NonFinite? || !(0.0 <= now - m.observed.at <= cfg.interval) || m.activeFaults != {} || m.latched {
        return;
      }
      containment := containment.(consumed := containment.consumed + {id}, lastEvidence := m.sequence);
      if !(w.health.Some? && w.health.value.feedbackValid && w.health.value.inhibitConfirmed) {
        PublishFault(GimbalFault);
        return;
      }
      if !FeedbackFresh(w.health.value, cfg.maxAge, now) {
        PublishFault(GimbalFault);
        return;
      }
      if !EncoderHealthy(w.sample, cfg, now) {
        PublishFault(GimbalFault);
        return;
      }
      containment := containment.(latched := false, inhibitApplied := false, marks := containment.marks + [Released(id)]);
      actuator := actuator.(pendingReset := true);
    }

    /** Any operation but a poll. */
    method Carry(op: PayloadProofs.Op, w: World)
      requires !op.Poll? && !op.Deliver?
      modifies this, bus`faultEvents, bus`payloadFaults
      ensures State() == PayloadProofs.Apply(old(State()), op, cfg, w)
      ensures Synced() && faultsBefore == old(bus.faultEvents)
    {
      match op
      case Write(m, revision, now) => var _ := Write(m, revision, now, w);
      case Commit(r, revision, state, now) => var _ := Commit(r, revision, state, now, w);
      case ReadFault(code) => NoteReadFailure(code, w);
      case LoneInhibit => InhibitAlone(w);
      case LocalLatch => TripContainment(w);
      case ImagingFault(code) => NoteImagingFault(code);
    }

    // --- Actuation -------------------------------------------------------------------------

    method RecordActuatorFailure(code: FaultCode, now: real, w: World)
      requires Synced()
      modifies this`containment, this`actuator, this`faults, bus`faultEvents, bus`payloadFaults
      ensures State() == RecordFailure(old(State()), code, cfg, now, w) && Synced()
    {
      if code != CommTimeout {
        MarkContainmentLatched();
        var _ := Inhibit(false, w);
        PublishFault(code);
        return;
      }
      if actuator.windowStart.None? || now - actuator.windowStart.value > cfg.recoveryWindow {
        actuator := actuator.(windowStart := Some(now), attempts := 0);
      }
      actuator := actuator.(attempts := actuator.attempts + 1, pendingReset := true);
      if actuator.attempts > cfg.maxAttempts {
        MarkContainmentLatched();
        PublishFault(code);
      }
    }

    method Write(m: Motion, revision: nat, now: real, w: World) returns (written: bool)
      modifies this, bus`faultEvents, bus`payloadFaults
      ensures (State(), written) == WriteLeased(old(State()), m, revision, cfg, now, w) && Synced()
      ensures faultsBefore == old(bus.faultEvents) && requestsBefore == old(bus.authorityRequests)
    {
      Begin();
      if m == SetRate && !cfg.rateMode {
        return false;
      }
      if revision != (if shell.installed.Some? then shell.installed.value.controlRevision else 0) {
        return false;
      }
      if containment.latched {
        written := Inhibit(false, w);
        return;
      }
      if w.health.None? || !w.health.value.feedbackValid {
        LatchContainment(w);
        PublishFault(GimbalFault);
        return false;
      }
      if !LeaseFresh(w.health.value, cfg, w) {
        LatchContainment(w);
        PublishFault(if m == SetRate then GimbalStaleFeedback else GimbalFault);
        return false;
      }
      written := SendMotion(m, now, w);
    }

    method SendMotion(m: Motion, now: real, w: World) returns (written: bool)
      requires Synced()
      modifies this`containment, this`actuator, this`faults, bus`faultEvents, bus`payloadFaults
      ensures (State(), written) == Send(old(State()), m, cfg, now, w) && Synced()
    {
      var sent := IssueMotion(m, w);
      if sent.Some? {
        RecordActuatorFailure(sent.value, now, w);
        var _ := Inhibit(false, w);
        return false;
      }
      actuator := actuator.(pendingReset := false, attempts := 0, windowStart := None);
      return true;
    }

    /** The driver call itself. */
    method IssueMotion(m: Motion, w: World) returns (sent: Option<FaultCode>)
      requires Synced()
      modifies this`containment, this`actuator
      ensures State() == Move(old(State()), m) && Synced()
      ensures sent == w.sends(old(actuator).motionCalls)
    {
      sent := w.sends(actuator.motionCalls);
      actuator := actuator.(motionCalls := actuator.motionCalls + 1);
      containment := containment.(marks := containment.marks + [Moved(m)]);
    }

    method Commit(r: Reference, revision: nat, state: Option<Activation>, now: real, w: World) returns (issued: bool)
      modifies this, bus`faultEvents, bus`payloadFaults
      ensures (State(), issued) == CommitReference(old(State()), r, revision, state, cfg, now, w) && Synced()
      ensures faultsBefore == old(bus.faultEvents) && requestsBefore == old(bus.authorityRequests)
    {
      Begin();
      var superseded := shell.installed.Some?
        && (shell.installed.value.controlRevision != revision || shell.installed.value.last != state);
      if containment.latched || superseded {
        return false;
      }
      match r
      case StowRef =>
        if actuator.stowArmed {
          actuator := actuator.(stowComplete := false);
          return true;
        }
        issued := Arm(StowArm, now, w);
        if issued {
          actuator := actuator.(stowArmed := true, stowComplete := false);
        }
      case PoseRef =>
        if cfg.rateMode {
          return true;
        }
        issued := Arm(Goto, now, w);
      case Inhibit =>
        var _ := Inhibit(false, w);
        return false;
      case RateRef =>
        return false;
    }

    /** Arm the stow drive or latch a pose; a refusal contains the actuator. */
    method Arm(m: Motion, now: real, w: World) returns (armed: bool)
      requires Synced()
      modifies this`containment, this`actuator, this`faults, bus`faultEvents, bus`payloadFaults
      ensures armed == w.sends(old(actuator).motionCalls).None?
      ensures State() == (if armed then Move(old(State()), m)
                          else ReferenceFailed(Move(old(State()), m), w.sends(old(actuator).motionCalls).value, cfg, now, w))
      ensures Synced()
    {
      var sent := IssueMotion(m, w);
      if sent.Some? {
        RecordActuatorFailure(sent.value, now, w);
        LatchContainment(w);
        PublishFault(sent.value);
      }
      return sent.None?;
    }

    method NoteReadFailure(code: FaultCode, w: World)
      modifies this, bus`faultEvents, bus`payloadFaults
      ensures State() == ReadFailed(old(State()), code, cfg, w) && Synced()
      ensures faultsBefore == old(bus.faultEvents) && requestsBefore == old(bus.authorityRequests)
    {
      Begin();
      RecordActuatorFailure(code, w.clockNow, w);
      var _ := Inhibit(false, w);
      MarkContainmentLatched();
    }

    /** The outer loop's inhibit while contained or under an inhibit reference. */
    method InhibitAlone(w: World)
      modifies this, bus`faultEvents, bus`payloadFaults
      ensures State() == InhibitMotion(PayloadContainment.Begin(old(State())), false, w).0 && Synced()
      ensures faultsBefore == old(bus.faultEvents) && requestsBefore == old(bus.authorityRequests)
    {
      Begin();
      var confirmed := Inhibit(false, w);
    }

    /** A catch-up cap, an integrity trip or an invalid reference contains the actuator. */
    method TripContainment(w: World)
      modifies this, bus`faultEvents, bus`payloadFaults
      ensures State() == Latch(PayloadContainment.Begin(old(State())), w) && Synced()
      ensures faultsBefore == old(bus.faultEvents) && requestsBefore == old(bus.authorityRequests)
    {
      Begin();
      LatchContainment(w);
    }

    /** The capture loop queues an imaging fault for the control owner and publishes it. */
    method NoteImagingFault(code: FaultCode)
      modifies this, bus`faultEvents, bus`payloadFaults
      ensures var b := PayloadContainment.Begin(old(State()));
        State() == Publish(b.(s := b.s.(pending := Some(code))), code) && Synced()
      ensures faultsBefore == old(bus.faultEvents) && requestsBefore == old(bus.authorityRequests)
    {
      Begin();
      shell := shell.(pending := Some(code));
      PublishFault(code);
    }
  }
}
