/** The system-mode authority app: drain loops over the bus, refining SystemModes.AuthorityTick. */
module SystemModesShell {
  import opened Basics
  import opened Evidence
  import opened MessageBus
  import opened Naming
  import opened SystemModes
  import opened Transitions

  lemma OneMoreRequest(
    cfg: AuthorityConfig, run: Run, requests: seq<ModeRequestMsg>, i: nat, safety: SafetyEvidence, clock: Clock)
    requires i < |requests|
    ensures var before := ProcessRequests(cfg, run, requests[..i], safety, clock);
      ProcessRequests(cfg, run, requests[..i + 1], safety, clock)
        == SystemModes.Process(cfg, before, AskOfRequest(requests[i]), safety, clock(before.decided + 1))
  {
    assert requests[..i + 1][..i] == requests[..i];
  }

  lemma OneMoreSafe(requests: seq<ModeRequestMsg>, i: nat)
    requires i < |requests|
    ensures RequestsSafe(requests[..i + 1]) <==> RequestsSafe(requests[..i]) || requests[i].mode == Safe
  {
  }

  class SystemModesApp {
    const cfg: AuthorityConfig
    const bus: Bus
    var active: Option<Activation>
    var sequence: int
    var transitions: int
    var evidence: SafetyEvidence
    var evidenceObserved: Option<real>
    var evidenceSequence: int

    constructor (cfg: AuthorityConfig, bus: Bus)
      ensures this.cfg == cfg && this.bus == bus && State() == BOOT
    {
      this.cfg, this.bus := cfg, bus;
      active, sequence, transitions := None, 0, 0;
      evidence, evidenceObserved, evidenceSequence := SafetyEvidence(false, {}), None, -1;
    }

    ghost function State(): Authority
      reads this
    {
      Authority(active, sequence, transitions,
                Held(evidenceSequence, evidenceObserved, evidence.latched, evidence.faults))
    }

    /** The state of the tick in progress, given what the bus held when it began. */
    ghost predicate Reached(
        run: Run, activations: (seq<Activation>, seq<Activation>), records: seq<TransitionMsg>, acks: seq<Ack>)
      reads this, bus
    {
      && State() == run.a
      && bus.faultActivations == activations.0 + run.activations
      && bus.payloadActivations == activations.1 + run.activations
      && bus.records == records + run.records
      && bus.acks == acks + run.acks
    }

    method Tick(clock: Clock)
      modifies this, bus`authoritySafety, bus`authorityRequests, bus`authorityRouted, bus`authoritySyncs,
               bus`faultActivations, bus`payloadActivations, bus`records, bus`acks
      ensures var run := AuthorityTick(cfg, old(State()),
          Inbox(old(bus.authoritySafety), old(bus.authorityRequests), old(bus.authorityRouted), old(bus.authoritySyncs)),
          clock);
        Reached(run, old((bus.faultActivations, bus.payloadActivations)), old(bus.records), old(bus.acks))
      ensures bus.authoritySafety == [] && bus.authorityRequests == []
           && bus.authorityRouted == [] && bus.authoritySyncs == []
    {
      ghost var a, inbox := State(),
        Inbox(bus.authoritySafety, bus.authorityRequests, bus.authorityRouted, bus.authoritySyncs);
      ghost var was, records, acks := (bus.faultActivations, bus.payloadActivations), bus.records, bus.acks;
      var effective, decided, run := Open(clock, inbox);
      var safeRequested;
      safeRequested, decided := DrainRequests(effective, clock, decided, run, was, records, acks);
      run := ProcessRequests(cfg, run, inbox.requests, effective, clock);
      DrainCommands(safeRequested, effective, clock, decided, run, was, records, acks);
      run := HandleCommands(cfg, run, inbox.routed, SafeAsked(inbox), effective, clock);
      DrainSyncs(run, was, records, acks);
      assert run == Decided(cfg, a, inbox, clock);
    }

    /** Drain the evidence and, on the first tick, activate SAFE. */
    method Open(clock: Clock, ghost inbox: Inbox) returns (effective: SafetyEvidence, decided: nat, ghost run: Run)
      requires inbox.safety == bus.authoritySafety
      modifies this, bus`authoritySafety, bus`faultActivations, bus`payloadActivations, bus`records
      ensures effective == EffectiveAt(cfg, old(State()), inbox, clock(0))
      ensures run == Opened(cfg, old(State()), inbox, clock) && decided == run.decided
      ensures Reached(run, old((bus.faultActivations, bus.payloadActivations)), old(bus.records), old(bus.acks))
      ensures bus.authoritySafety == []
    {
      ghost var was, records, acks := (bus.faultActivations, bus.payloadActivations), bus.records, bus.acks;
      effective := DrainSafety(clock(0));
      run := Run(State(), [], [], [], 0);
      decided := 0;
      if active.None? {
        var _ := Process(BootAsk(cfg), effective, clock(1), run, was, records, acks);
        run := SystemModes.Process(cfg, run, BootAsk(cfg), effective, clock(1));
        decided := 1;
      }
    }

    method DrainSafety(now: real) returns (effective: SafetyEvidence)
      modifies this`evidence, this`evidenceObserved, this`evidenceSequence, bus`authoritySafety
      ensures var held := DrainHeld(old(State()).held, old(bus.authoritySafety), cfg.epoch, now);
        && State() == old(State()).(held := held)
        && effective == Effective(held, DrainFaults(old(State()).held, old(bus.authoritySafety), cfg.epoch, now))
      ensures bus.authoritySafety == []
    {
      ghost var all, h := bus.authoritySafety, State().held;
      ghost var i := 0;
      var drained: set<FaultCode> := {};
      while bus.authoritySafety != []
        invariant 0 <= i <= |all| && bus.authoritySafety == all[i..]
        invariant State() == old(State()).(held := DrainHeld(h, all[..i], cfg.epoch, now))
        invariant drained == DrainFaults(h, all[..i], cfg.epoch, now)
        decreases |bus.authoritySafety|
      {
        var msg := bus.authoritySafety[0];
        bus.authoritySafety := bus.authoritySafety[1..];
        assert all[..i + 1][..i] == all[..i];
        i := i + 1;
        if msg.epoch != cfg.epoch || msg.sequence < 0 || msg.sequence <= evidenceSequence
           || msg.observed.NonFinite? || msg.observed.at > now {
          continue;
        }
        evidenceSequence := msg.sequence;
        evidenceObserved := Some(msg.observed.at);
        evidence := SafetyEvidence(msg.latched, msg.activeFaults);
        drained := drained + msg.activeFaults;
      }
      assert all[..i] == all;
      effective := evidence;
      if drained != {} {
        effective := SafetyEvidence(effective.latched, drained);
      }
    }

    /** Decide one request and publish its record and any activation. */
    method Process(ask: Ask, safety: SafetyEvidence, now: real,
        ghost run: Run, ghost was: (seq<Activation>, seq<Activation>), ghost records: seq<TransitionMsg>, ghost acks: seq<Ack>)
      returns (granted: bool)
      requires Reached(run, was, records, acks)
      modifies this`active, this`sequence, this`transitions, bus`faultActivations, bus`payloadActivations, bus`records
      ensures Reached(SystemModes.Process(cfg, run, ask, safety, now), was, records, acks)
      ensures granted == DecisionFor(cfg, run.a, ask, safety, now).accepted
    {
      var previous := if active.None? then None else Some(active.value.active);
      var deny := ShellDeny(ask, previous, now);
      if deny.None? {
        deny := ask.forced;
      }
      var decision := if deny.Some? then Deny(previous, deny.value) else Decide(previous, ask.target, ask.kind, safety);
      granted := decision.accepted;
      if decision.resulting.None? {
        return;
      }
      if granted {
        sequence := sequence + 1;
      }
      transitions := transitions + 1;
      bus.PublishRecord(TransitionMsg(
        transitions, ask.requestId, cfg.epoch, previous, ask.target, decision.resulting.value, granted,
        ask.requestedBy, decision.reason, if granted then Some(sequence) else None));
      if granted {
        var activation := Activation(
          cfg.epoch, sequence, previous, decision.resulting.value, decision.reason, Some(ask.requestId), decision.recovery);
        active := Some(activation);
        bus.PublishActivation(activation);
      }
    }

    method ShellDeny(ask: Ask, previous: Option<SystemMode>, now: real) returns (deny: Option<Reason>)
      requires previous == ModeOf(State())
      ensures deny == ShellDenyReason(cfg, State(), ask, now)
    {
      if ask.target == Safe {
        return None;
      }
      var timely := evidenceObserved.Some? && 0.0 <= now - evidenceObserved.value <= cfg.interval + TOLERANCE;
      if !timely {
        return Some(EvidenceStale);
      }
      if previous == Some(Init) && ask.target == Idle && ask.kind == Subsystem {
        if ask.message.None? || ask.message.value.requestedBy != PAYLOAD || ask.message.value.reason != INIT_COMPLETE
           || ask.message.value.key != Some(ActivationKey(cfg.epoch, sequence)) {
          return Some(InitKeyRequired);
        }
      }
      return None;
    }

    method DrainRequests(safety: SafetyEvidence, clock: Clock, decided: nat,
        ghost run: Run, ghost was: (seq<Activation>, seq<Activation>), ghost records: seq<TransitionMsg>, ghost acks: seq<Ack>)
      returns (safeRequested: bool, count: nat)
      requires Reached(run, was, records, acks) && decided == run.decided
      modifies this`active, this`sequence, this`transitions, bus`authorityRequests,
               bus`faultActivations, bus`payloadActivations, bus`records
      ensures var after := ProcessRequests(cfg, run, old(bus.authorityRequests), safety, clock);
        Reached(after, was, records, acks) && count == after.decided
      ensures safeRequested == RequestsSafe(old(bus.authorityRequests))
      ensures bus.authorityRequests == []
    {
      ghost var all := bus.authorityRequests;
      var i := 0;
      safeRequested, count := false, decided;
      while bus.authorityRequests != []
        invariant 0 <= i <= |all| && bus.authorityRequests == all[i..]
        invariant Reached(ProcessRequests(cfg, run, all[..i], safety, clock), was, records, acks)
        invariant count == ProcessRequests(cfg, run, all[..i], safety, clock).decided
        invariant safeRequested == RequestsSafe(all[..i])
        decreases |bus.authorityRequests|
      {
        OneMoreSafe(all, i);
        var safe := TakeRequest(safety, clock, count, run, all, i, was, records, acks);
        safeRequested := safeRequested || safe;
        i, count := i + 1, count + 1;
      }
      assert all[..i] == all;
    }

    /** Take the i-th request off the queue and decide it; note whether it asked for SAFE. */
    method TakeRequest(safety: SafetyEvidence, clock: Clock, decided: nat,
        ghost run: Run, ghost all: seq<ModeRequestMsg>, ghost i: nat,
        ghost was: (seq<Activation>, seq<Activation>), ghost records: seq<TransitionMsg>, ghost acks: seq<Ack>)
      returns (safe: bool)
      requires i < |all| && bus.authorityRequests == all[i..]
      requires Reached(ProcessRequests(cfg, run, all[..i], safety, clock), was, records, acks)
      requires decided == ProcessRequests(cfg, run, all[..i], safety, clock).decided
      modifies this`active, this`sequence, this`transitions, bus`authorityRequests,
               bus`faultActivations, bus`payloadActivations, bus`records
      ensures Reached(ProcessRequests(cfg, run, all[..i + 1], safety, clock), was, records, acks)
      ensures ProcessRequests(cfg, run, all[..i + 1], safety, clock).decided == decided + 1
      ensures safe == (all[i].mode == Safe)
      ensures bus.authorityRequests == all[i + 1..]
    {
      var request := bus.authorityRequests[0];
      bus.authorityRequests := bus.authorityRequests[1..];
      safe := request.mode == Safe;
      var ask := Ask(request.mode, Subsystem, request.requestId, request.requestedBy, Some(request), None);
      ghost var before := ProcessRequests(cfg, run, all[..i], safety, clock);
      var _ := Process(ask, safety, clock(decided + 1), before, was, records, acks);
      OneMoreRequest(cfg, run, all, i, safety, clock);
    }

    method DrainCommands(requestedBefore: bool, safety: SafetyEvidence, clock: Clock, decided: nat,
        ghost run: Run, ghost was: (seq<Activation>, seq<Activation>), ghost records: seq<TransitionMsg>, ghost acks: seq<Ack>)
      requires Reached(run, was, records, acks) && decided == run.decided
      modifies this`active, this`sequence, this`transitions, bus`authorityRouted,
               bus`faultActivations, bus`payloadActivations, bus`records, bus`acks
      ensures var safe := requestedBefore || BatchSafe(old(bus.authorityRouted));
        Reached(HandleCommands(cfg, run, old(bus.authorityRouted), safe, safety, clock), was, records, acks)
      ensures bus.authorityRouted == []
    {
      var batch := CollectBatch();
      var commanded := CommandsSafeAhead(batch);
      DecideBatch(batch, requestedBefore || commanded, safety, clock, decided, run, was, records, acks);
    }

    method CollectBatch() returns (batch: seq<Command>)
      modifies bus`authorityRouted
      ensures batch == old(bus.authorityRouted) && bus.authorityRouted == []
    {
      batch := [];
      while bus.authorityRouted != []
        invariant old(bus.authorityRouted) == batch + bus.authorityRouted
        decreases |bus.authorityRouted|
      {
        batch := batch + [bus.authorityRouted[0]];
        bus.authorityRouted := bus.authorityRouted[1..];
      }
    }

    /** Look ahead for a SET_MODE SAFE before any command of the batch is decided. */
    method CommandsSafeAhead(batch: seq<Command>) returns (safe: bool)
      ensures safe == BatchSafe(batch)
    {
      for j := 0 to |batch|
        invariant !BatchSafe(batch[..j])
      {
        assert batch[..j + 1] == batch[..j] + [batch[j]];
        if batch[j].target != SYSTEM_MODES || batch[j].commandId != SET_MODE {
          continue;
        }
        if ModeNamed(TextOf(batch[j].params, "mode")) == Some(Safe) {
          assert batch[j] in batch;
          return true;
        }
      }
      assert batch[..|batch|] == batch;
      return false;
    }

    /** Decide the batch. A command that asks for SAFE sets the flag, which is already set then. */
    method DecideBatch(batch: seq<Command>, safe: bool, safety: SafetyEvidence, clock: Clock, decided: nat,
        ghost run: Run, ghost was: (seq<Activation>, seq<Activation>), ghost records: seq<TransitionMsg>, ghost acks: seq<Ack>)
      requires BatchSafe(batch) ==> safe
      requires Reached(run, was, records, acks) && decided == run.decided
      modifies this`active, this`sequence, this`transitions,
               bus`faultActivations, bus`payloadActivations, bus`records, bus`acks
      ensures Reached(HandleCommands(cfg, run, batch, safe, safety, clock), was, records, acks)
    {
      var safeRequested, count := safe, decided;
      ghost var current := run;
      for j := 0 to |batch|
        invariant current == HandleCommands(cfg, run, batch[..j], safe, safety, clock)
        invariant Reached(current, was, records, acks) && count == current.decided
        invariant safeRequested == safe
      {
        assert batch[..j + 1][..j] == batch[..j];
        if batch[j].target == SYSTEM_MODES {
          var safeCommand;
          safeCommand, count := Handle(batch[j], safeRequested, safety, clock, count, current, was, records, acks);
          current := HandleCommand(cfg, current, batch[j], safe, safety, clock);
          assert batch[j] in batch;
          safeRequested := safeRequested || safeCommand;
        }
      }
      assert batch[..|batch|] == batch;
    }

    /** Map a routed command to a request, decide it and acknowledge it. */
    method Handle(command: Command, safeRequested: bool, safety: SafetyEvidence, clock: Clock, decided: nat,
        ghost run: Run, ghost was: (seq<Activation>, seq<Activation>), ghost records: seq<TransitionMsg>, ghost acks: seq<Ack>)
      returns (safeCommand: bool, count: nat)
      requires command.target == SYSTEM_MODES
      requires Reached(run, was, records, acks) && decided == run.decided
      modifies this`active, this`sequence, this`transitions,
               bus`faultActivations, bus`payloadActivations, bus`records, bus`acks
      ensures var after := HandleCommand(cfg, run, command, safeRequested, safety, clock);
        Reached(after, was, records, acks) && count == after.decided
      ensures safeCommand == CommandsSafe(command)
    {
      var id := CommandRequestId(command.source, command.seqNo);
      var ask: Option<Ask> := None;
      safeCommand, count := false, decided;
      if command.commandId == EXIT_SAFE {
        if TextOf(command.params, "phase") == "EXECUTE" {
          ask := Some(Ask(Init, ExitSafe, id, command.source, None, if safeRequested then Some(SafeDecidedThisTick) else None));
        }
      } else if command.commandId == SET_MODE {
        var target := ModeNamed(TextOf(command.params, "mode"));
        if target.Some? {
          ask := Some(Ask(target.value, SetMode, id, command.source, None, None));
          safeCommand := target.value == Safe;
        }
      } else if command.commandId == GIMBAL_STOW {
        ask := Some(Ask(Stow, SetMode, id, command.source, None, None));
      }
      var granted := false;
      if ask.Some? {
        granted := Process(ask.value, safety, clock(count + 1), run, was, records, acks);
        count := count + 1;
      }
      bus.PublishAck(Ack(granted, command.commandId, command.source, command.seqNo, if granted then NoFault else CommandInvalid));
    }

    method DrainSyncs(
        ghost run: Run, ghost was: (seq<Activation>, seq<Activation>), ghost records: seq<TransitionMsg>, ghost acks: seq<Ack>)
      requires Reached(run, was, records, acks)
      modifies bus`authoritySyncs, bus`faultActivations, bus`payloadActivations
      ensures Reached(ReplySyncs(cfg, run, old(bus.authoritySyncs)), was, records, acks)
      ensures bus.authoritySyncs == []
    {
      ghost var all := bus.authoritySyncs;
      ghost var i := 0;
      while bus.authoritySyncs != []
        invariant 0 <= i <= |all| && bus.authoritySyncs == all[i..]
        invariant Reached(ReplySyncs(cfg, run, all[..i]), was, records, acks)
        decreases |bus.authoritySyncs|
      {
        var sync := bus.authoritySyncs[0];
        bus.authoritySyncs := bus.authoritySyncs[1..];
        assert all[..i + 1][..i] == all[..i];
        i := i + 1;
        if sync.expectedEpoch != cfg.epoch {
          continue;
        }
        if active.Some? {
          bus.PublishActivation(active.value);
        }
      }
      assert all[..i] == all;
    }
  }
}
