/** Which requests the authority grants and what each grant or denial leaves behind, in the terms of the messages
    drained: no name of the transition table or of the shell's checks occurs in the conditions. */
module AuthorityGrants {
  import opened Basics
  import opened Evidence
  import opened SystemModes
  import opened Transitions
  import opened AuthorityProofs

  // --- One decision -----------------------------------------------------------------------

  /** The evidence held was observed, not in the future, and no longer ago than the interval and its slack. */
  predicate Recent(h: Held, now: real, interval: real) {
    h.observed.Some? && h.observed.value <= now <= h.observed.value + interval + 0.000000000001
  }

  /** The payload's own completion message for the INIT activation in force. */
  predicate OwnCompletion(cfg: AuthorityConfig, a: Authority, message: Option<ModeRequestMsg>) {
    && message.Some?
    && message.value.requestedBy == "payload"
    && message.value.reason == "graph_intent:init_complete"
    && message.value.key == Some(ActivationKey(cfg.epoch, a.sequence))
  }

  /** The conditions of a grant, mode by mode. */
  predicate Grantable(cfg: AuthorityConfig, a: Authority, ask: Ask, safety: SafetyEvidence, now: real) {
    && ask.forced.None?
    && (if ask.target == Safe then a.active.None? || a.active.value.active != Safe
        else
          && a.active.Some? && Recent(a.held, now, cfg.interval)
          && match a.active.value.active
             case Safe => ask.kind == ExitSafe && ask.target == Init && safety.faults == {}
             case Init => ask.kind == Subsystem && ask.target == Idle && !safety.latched && OwnCompletion(cfg, a, ask.message)
             case Idle => ask.kind == SetMode && (ask.target == Init || ask.target == Operate || ask.target == Stow) && !safety.latched
             case Operate => ask.kind == SetMode && (ask.target == Idle || ask.target == Stow) && !safety.latched
             case Stow => ask.kind == SetMode && ask.target == Idle && !safety.latched)
  }

  /** The activation a grant publishes: the next of its session, out of the mode in force, answering the request, and
      a recovery exactly if it leaves SAFE. */
  predicate Next(cfg: AuthorityConfig, a: Authority, ask: Ask, x: Activation) {
    && x.epoch == cfg.epoch && x.sequence == a.sequence + 1
    && x.previous == ModeOf(a) && x.active == ask.target
    && x.requestId == Some(ask.requestId)
    && (x.recovery <==> ModeOf(a) == Some(Safe))
  }

  /** The record of a decision. */
  predicate Notes(cfg: AuthorityConfig, a: Authority, ask: Ask, granted: bool, r: TransitionMsg) {
    && r.number == a.transitions + 1 && r.epoch == cfg.epoch
    && r.requestId == ask.requestId && r.requestedBy == ask.requestedBy
    && r.previous == ModeOf(a) && r.requested == ask.target
    && r.accepted == granted
    && Some(r.resulting) == (if granted then Some(ask.target) else ModeOf(a))
    && r.activationSequence == (if granted then Some(a.sequence + 1) else None)
  }

  /** The outcome of one request, in both directions: granted exactly under these conditions, with the next activation
      in force and one record; denied otherwise, with one record and nothing else changed. Before the first activation
      a denial leaves no record. */
  lemma GrantedExactly(cfg: AuthorityConfig, run: Run, ask: Ask, safety: SafetyEvidence, now: real)
    ensures var after, granted := Process(cfg, run, ask, safety, now), Grantable(cfg, run.a, ask, safety, now);
      && after.decided == run.decided + 1 && after.acks == run.acks && after.a.held == run.a.held
      && (granted ==>
            && after.a.active.Some? && Next(cfg, run.a, ask, after.a.active.value)
            && after.activations == run.activations + [after.a.active.value]
            && after.a.sequence == run.a.sequence + 1)
      && (!granted ==>
            after.activations == run.activations && after.a.active == run.a.active && after.a.sequence == run.a.sequence)
      && (granted || run.a.active.Some? ==>
            && after.records != [] && after.records == run.records + [Last(after.records)]
            && Notes(cfg, run.a, ask, granted, Last(after.records))
            && after.a.transitions == run.a.transitions + 1)
      && (!granted && run.a.active.None? ==> after.records == run.records && after.a.transitions == run.a.transitions)
  {
    AcceptedExactly(cfg, run.a, ask, safety, now);
    if !Grantable(cfg, run.a, ask, safety, now) {
      assert run.activations + [] == run.activations;
    }
  }

  lemma AcceptedExactly(cfg: AuthorityConfig, a: Authority, ask: Ask, safety: SafetyEvidence, now: real)
    ensures var d := DecisionFor(cfg, a, ask, safety, now);
      && (d.accepted <==> Grantable(cfg, a, ask, safety, now))
      && d.resulting == (if d.accepted then Some(ask.target) else ModeOf(a))
      && (d.recovery <==> d.accepted && ModeOf(a) == Some(Safe))
  {
    ReachesExactly(ModeOf(a), ask.target, ask.kind, safety);
  }

  /** What a denial gives as its reason: missing freshness before anything, then the missing completion key, then the
      SAFE request of the same tick, and only then the rules of the table. */
  lemma DeniedBecause(cfg: AuthorityConfig, a: Authority, ask: Ask, safety: SafetyEvidence, now: real)
    requires !Grantable(cfg, a, ask, safety, now)
    requires ask.forced.None? || ask.forced == Some(SafeDecidedThisTick)
    ensures var reason, keyed := DecisionFor(cfg, a, ask, safety, now).reason,
        ModeOf(a) == Some(Init) && ask.target == Idle && ask.kind == Subsystem;
      && (reason == EvidenceStale <==> ask.target != Safe && !Recent(a.held, now, cfg.interval))
      && (reason == InitKeyRequired <==>
            Recent(a.held, now, cfg.interval) && keyed && !OwnCompletion(cfg, a, ask.message))
      && (reason == SafeDecidedThisTick <==>
            && ask.forced.Some?
            && (ask.target == Safe || (Recent(a.held, now, cfg.interval) && (keyed ==> OwnCompletion(cfg, a, ask.message)))))
  {
    ReachesExactly(ModeOf(a), ask.target, ask.kind, safety);
  }

  // --- What a routed command asks for -----------------------------------------------------

  function NameOf(mode: SystemMode): string {
    match mode
    case Idle => "IDLE"
    case Stow => "STOW"
    case Safe => "SAFE"
    case Init => "INIT"
    case Operate => "OPERATE"
  }

  lemma ModesHaveNames(mode: SystemMode, text: string)
    ensures ModeNamed(text) == Some(mode) <==> text == NameOf(mode)
  {
  }

  /** The command calls for this mode in this way. */
  predicate CallsFor(c: Command, target: SystemMode, kind: RequestKind) {
    || (c.commandId == "SET_MODE" && kind == SetMode && "mode" in c.params && c.params["mode"] == Text(NameOf(target)))
    || (c.commandId == "GIMBAL_STOW" && kind == SetMode && target == Stow)
    || (c.commandId == "EXIT_SAFE" && kind == ExitSafe && target == Init && "phase" in c.params && c.params["phase"] == Text("EXECUTE"))
  }

  /** A command becomes the one request it calls for, under an id made of its source and sequence and barred only by a
      SAFE request in its tick; a command that calls for nothing becomes none. */
  lemma AsksAsCalled(c: Command, safe: bool, target: SystemMode, kind: RequestKind)
    ensures var ask := AskOfCommand(c, safe);
      && (CallsFor(c, target, kind) <==> ask.Some? && ask.value.target == target && ask.value.kind == kind)
      && (ask.Some? ==>
            && ask.value.requestId == "cmd-" + c.source + "-" + Naming.Rendered(c.seqNo)
            && ask.value.requestedBy == c.source && ask.value.message.None?
            && (ask.value.forced == (if ask.value.kind == ExitSafe && safe then Some(SafeDecidedThisTick) else None)))
  {
    ModesHaveNames(target, TextOf(c.params, "mode"));
  }

  /** SAFE is wanted in a tick if a subsystem or a routed command asks for it. */
  predicate SafeWanted(inbox: Inbox) {
    || (exists r :: r in inbox.requests && r.mode == Safe)
    || (exists c :: c in inbox.routed && c.target == "system_modes" && CallsFor(c, Safe, SetMode))
  }

  lemma WantedIsAsked(inbox: Inbox)
    ensures SafeWanted(inbox) <==> SafeAsked(inbox)
  {
    forall c ensures CommandsSafe(c) <==> c.target == "system_modes" && CallsFor(c, Safe, SetMode) {
      ModesHaveNames(Safe, TextOf(c.params, "mode"));
    }
  }

  /** The grant a command gets or does not get from an authority in this state. */
  predicate Carried(
    cfg: AuthorityConfig, a: Authority, c: Command, target: SystemMode, kind: RequestKind, wanted: bool,
    safety: SafetyEvidence, now: real)
  {
    && CallsFor(c, target, kind)
    && !(kind == ExitSafe && wanted)
    && Grantable(cfg, a, Ask(target, kind, "cmd-" + c.source + "-" + Naming.Rendered(c.seqNo), c.source, None, None), safety, now)
  }

  /** One command on from a state of the authority: granted with an activation of the very mode it calls for and a
      positive acknowledgement, or else no activation and a negative one. */
  ghost predicate Obeyed(
    cfg: AuthorityConfig, before: Run, after: Run, c: Command, wanted: bool, safety: SafetyEvidence, now: real)
  {
    var granted := exists target, kind :: Carried(cfg, before.a, c, target, kind, wanted, safety, now);
    && after.acks == before.acks
         + [Ack(granted, c.commandId, c.source, c.seqNo, if granted then NoFault else CommandInvalid)]
    && (granted ==>
          && after.a.active.Some? && after.activations == before.activations + [after.a.active.value]
          && var x := after.a.active.value;
          && (forall target, kind :: CallsFor(c, target, kind) ==> x.active == target)
          && x.epoch == cfg.epoch && x.sequence == before.a.sequence + 1 && x.previous == ModeOf(before.a)
          && x.requestId == Some("cmd-" + c.source + "-" + Naming.Rendered(c.seqNo))
          && (x.recovery <==> ModeOf(before.a) == Some(Safe)))
    && (!granted ==> after.activations == before.activations && after.a.active == before.a.active)
  }

  lemma HandledAsCalled(
    cfg: AuthorityConfig, before: Run, c: Command, wanted: bool, safety: SafetyEvidence, clock: Clock)
    ensures Obeyed(cfg, before, HandleCommand(cfg, before, c, wanted, safety, clock), c, wanted, safety,
                   clock(before.decided + 1))
  {
    var ask, now := AskOfCommand(c, wanted), clock(before.decided + 1);
    forall target, kind ensures CallsFor(c, target, kind) <==> ask.Some? && ask.value.target == target && ask.value.kind == kind {
      AsksAsCalled(c, wanted, target, kind);
    }
    if ask.Some? {
      var target, kind := ask.value.target, ask.value.kind;
      AsksAsCalled(c, wanted, target, kind);
      GrantedExactly(cfg, before, ask.value, safety, now);
      AcceptedExactly(cfg, before.a, ask.value, safety, now);
      assert Grantable(cfg, before.a, ask.value, safety, now) <==> Carried(cfg, before.a, c, target, kind, wanted, safety, now);
    }
  }

  // --- A whole tick -----------------------------------------------------------------------

  /** The tick after the boot activation and the first i subsystem requests. */
  function RequestedUpTo(cfg: AuthorityConfig, a: Authority, inbox: Inbox, clock: Clock, i: nat): Run
    requires i <= |inbox.requests|
  {
    ProcessRequests(cfg, Opened(cfg, a, inbox, clock), inbox.requests[..i], EffectiveAt(cfg, a, inbox, clock(0)), clock)
  }

  /** The tick after all its requests and the first i routed commands. */
  function CommandedUpTo(cfg: AuthorityConfig, a: Authority, inbox: Inbox, clock: Clock, i: nat): Run
    requires i <= |inbox.routed|
  {
    HandleCommands(cfg, RequestedUpTo(cfg, a, inbox, clock, |inbox.requests|), inbox.routed[..i], SafeAsked(inbox),
                   EffectiveAt(cfg, a, inbox, clock(0)), clock)
  }

  /** Every subsystem request of a tick is decided by itself on what was decided before it: granted under the stated
      conditions and under no others. */
  lemma RequestDecidedExactly(cfg: AuthorityConfig, a: Authority, inbox: Inbox, clock: Clock, i: nat)
    requires i < |inbox.requests|
    ensures var before, after, r := RequestedUpTo(cfg, a, inbox, clock, i), RequestedUpTo(cfg, a, inbox, clock, i + 1), inbox.requests[i];
      var ask := Ask(r.mode, Subsystem, r.requestId, r.requestedBy, Some(r), None);
      var granted := Grantable(cfg, before.a, ask, EffectiveAt(cfg, a, inbox, clock(0)), clock(before.decided + 1));
      && (granted ==>
            && after.a.active.Some? && Next(cfg, before.a, ask, after.a.active.value)
            && after.activations == before.activations + [after.a.active.value])
      && (!granted ==> after.activations == before.activations && after.a.active == before.a.active)
  {
    assert inbox.requests[..i + 1][..i] == inbox.requests[..i];
    var before := RequestedUpTo(cfg, a, inbox, clock, i);
    GrantedExactly(cfg, before, AskOfRequest(inbox.requests[i]), EffectiveAt(cfg, a, inbox, clock(0)), clock(before.decided + 1));
  }

  /** Every command of a tick's batch that is addressed to the authority is answered by itself on what was decided
      before it; one addressed to anyone else does nothing. */
  lemma CommandDecidedExactly(cfg: AuthorityConfig, a: Authority, inbox: Inbox, clock: Clock, i: nat)
    requires i < |inbox.routed|
    ensures var before, after, c := CommandedUpTo(cfg, a, inbox, clock, i), CommandedUpTo(cfg, a, inbox, clock, i + 1), inbox.routed[i];
      if c.target == "system_modes"
      then Obeyed(cfg, before, after, c, SafeWanted(inbox), EffectiveAt(cfg, a, inbox, clock(0)), clock(before.decided + 1))
      else after == before
  {
    assert inbox.routed[..i + 1][..i] == inbox.routed[..i];
    WantedIsAsked(inbox);
    HandledAsCalled(cfg, CommandedUpTo(cfg, a, inbox, clock, i), inbox.routed[i], SafeWanted(inbox),
                    EffectiveAt(cfg, a, inbox, clock(0)), clock);
  }

  /** The tick begins, goes on and ends with those states: SAFE is activated first if nothing was active, the requests
      follow, then the commands, and after them only the replayed activation of a matching sync. */
  lemma TickIsItsDecisions(cfg: AuthorityConfig, a: Authority, inbox: Inbox, clock: Clock)
    ensures var begun, ended, run :=
        RequestedUpTo(cfg, a, inbox, clock, 0), CommandedUpTo(cfg, a, inbox, clock, |inbox.routed|), AuthorityTick(cfg, a, inbox, clock);
      && (a.active.Some? ==> begun.activations == [] && begun.a.active == a.active)
      && (a.active.None? ==>
            && begun.a.active.Some? && begun.activations == [begun.a.active.value]
            && begun.a.active.value.active == Safe && begun.a.active.value.sequence == a.sequence + 1
            && begun.a.active.value.previous.None? && begun.a.active.value.requestId == Some(cfg.epoch + "-boot"))
      && CommandedUpTo(cfg, a, inbox, clock, 0) == RequestedUpTo(cfg, a, inbox, clock, |inbox.requests|)
      && run.a == ended.a && run.records == ended.records && run.acks == ended.acks
      && ended.activations <= run.activations
      && |run.activations| - |ended.activations| == (if ended.a.active.None? then 0 else Matching(cfg.epoch, inbox.syncs))
      && (forall x :: x in run.activations[|ended.activations|..] ==> Some(x) == ended.a.active)
  {
    assert inbox.requests[..|inbox.requests|] == inbox.requests && inbox.routed[..|inbox.routed|] == inbox.routed;
    var ended := CommandedUpTo(cfg, a, inbox, clock, |inbox.routed|);
    SyncsRepeat(cfg, ended, inbox.syncs);
    SyncsCounted(cfg, ended, inbox.syncs);
    if a.active.None? {
      var now := clock(0);
      var run := Run(a.(held := DrainHeld(a.held, inbox.safety, cfg.epoch, now)), [], [], [], 0);
      GrantedExactly(cfg, run, BootAsk(cfg), EffectiveAt(cfg, a, inbox, now), clock(1));
    }
  }

  /** The sync requests made under this epoch. */
  function Matching(epoch: string, syncs: seq<SyncRequestMsg>): nat {
    if syncs == [] then 0
    else Matching(epoch, syncs[..|syncs| - 1]) + (if Last(syncs).expectedEpoch == epoch then 1 else 0)
  }

  lemma {:induction false} SyncsCounted(cfg: AuthorityConfig, run: Run, syncs: seq<SyncRequestMsg>)
    ensures var after := ReplySyncs(cfg, run, syncs);
      && after.a == run.a
      && |after.activations| - |run.activations| == (if run.a.active.None? then 0 else Matching(cfg.epoch, syncs))
  {
    if syncs != [] {
      SyncsCounted(cfg, run, syncs[..|syncs| - 1]);
    }
  }

  // --- The evidence a tick decides by -----------------------------------------------------

  /** The i-th record of the drain is accepted: it qualifies and is newer than what is held and than every qualifying
      record before it. */
  predicate Rises(h: Held, msgs: seq<SafetyMsg>, epoch: string, now: real, i: nat)
    requires i < |msgs|
  {
    && msgs[i].epoch == epoch && 0 <= msgs[i].sequence && h.sequence < msgs[i].sequence
    && msgs[i].observed.Finite? && msgs[i].observed.at <= now
    && forall j :: 0 <= j < i && Qualifies(msgs[j], epoch, now) ==> msgs[j].sequence < msgs[i].sequence
  }

  lemma {:induction false} HeldIsGreatest(h: Held, msgs: seq<SafetyMsg>, epoch: string, now: real)
    ensures var held := DrainHeld(h, msgs, epoch, now);
      && h.sequence <= held.sequence
      && (forall j :: 0 <= j < |msgs| && Qualifies(msgs[j], epoch, now) ==> msgs[j].sequence <= held.sequence)
      && (held == h || exists i :: 0 <= i < |msgs| && Rises(h, msgs, epoch, now, i) && held == Hold(msgs[i]))
  {
    if msgs != [] {
      var n := |msgs| - 1;
      var front := msgs[..n];
      HeldIsGreatest(h, front, epoch, now);
      var before, held := DrainHeld(h, front, epoch, now), DrainHeld(h, msgs, epoch, now);
      if held == before {
        if before != h {
          var i :| 0 <= i < |front| && Rises(h, front, epoch, now, i) && before == Hold(front[i]);
          assert forall j :: 0 <= j < i ==> front[j] == msgs[j];
          assert Rises(h, msgs, epoch, now, i) && held == Hold(msgs[i]);
        }
      } else {
        assert forall j :: 0 <= j < n ==> front[j] == msgs[j];
        assert Rises(h, msgs, epoch, now, n) && held == Hold(msgs[n]);
      }
    }
  }

  lemma RisesInFront(h: Held, msgs: seq<SafetyMsg>, epoch: string, now: real, i: nat)
    requires i < |msgs| - 1
    ensures msgs[..|msgs| - 1][i] == msgs[i]
    ensures Rises(h, msgs[..|msgs| - 1], epoch, now, i) <==> Rises(h, msgs, epoch, now, i)
  {
    var front := msgs[..|msgs| - 1];
    assert forall j :: 0 <= j <= i ==> front[j] == msgs[j];
  }

  lemma RisesLast(h: Held, msgs: seq<SafetyMsg>, epoch: string, now: real)
    requires msgs != []
    ensures Rises(h, msgs, epoch, now, |msgs| - 1) <==>
      Qualifies(Last(msgs), epoch, now) && DrainHeld(h, msgs[..|msgs| - 1], epoch, now).sequence < Last(msgs).sequence
  {
    var front := msgs[..|msgs| - 1];
    HeldIsGreatest(h, front, epoch, now);
    var before := DrainHeld(h, front, epoch, now);
    if before != h {
      var i :| 0 <= i < |front| && Rises(h, front, epoch, now, i) && before == Hold(front[i]);
      assert front[i] == msgs[i];
    }
    assert forall j :: 0 <= j < |front| ==> front[j] == msgs[j];
  }

  predicate FaultRises(h: Held, msgs: seq<SafetyMsg>, epoch: string, now: real, code: FaultCode) {
    exists i :: 0 <= i < |msgs| && Rises(h, msgs, epoch, now, i) && code in msgs[i].activeFaults
  }

  lemma FaultRisesSplits(h: Held, msgs: seq<SafetyMsg>, epoch: string, now: real, code: FaultCode)
    requires msgs != []
    ensures FaultRises(h, msgs, epoch, now, code) <==>
      FaultRises(h, msgs[..|msgs| - 1], epoch, now, code) || (Rises(h, msgs, epoch, now, |msgs| - 1) && code in Last(msgs).activeFaults)
  {
    var front := msgs[..|msgs| - 1];
    if FaultRises(h, front, epoch, now, code) {
      var i :| 0 <= i < |front| && Rises(h, front, epoch, now, i) && code in front[i].activeFaults;
      RisesInFront(h, msgs, epoch, now, i);
    }
    if FaultRises(h, msgs, epoch, now, code) {
      var i :| 0 <= i < |msgs| && Rises(h, msgs, epoch, now, i) && code in msgs[i].activeFaults;
      if i < |front| {
        RisesInFront(h, msgs, epoch, now, i);
      }
    }
  }

  lemma {:induction false} DrainedFaults(h: Held, msgs: seq<SafetyMsg>, epoch: string, now: real, code: FaultCode)
    ensures code in DrainFaults(h, msgs, epoch, now) <==> FaultRises(h, msgs, epoch, now, code)
  {
    if msgs != [] {
      DrainedFaults(h, msgs[..|msgs| - 1], epoch, now, code);
      RisesLast(h, msgs, epoch, now);
      FaultRisesSplits(h, msgs, epoch, now, code);
    }
  }

  /** A tick decides on the latch bit of the newest accepted record; the fault set that bars recovery is that of every
      record it accepted, if any of them names a fault, and otherwise that of the newest. One clear record behind a
      faulty one does not unbar it. */
  lemma DecidesOnTheDrain(cfg: AuthorityConfig, a: Authority, inbox: Inbox, now: real)
    ensures var effective, held := EffectiveAt(cfg, a, inbox, now), DrainHeld(a.held, inbox.safety, cfg.epoch, now);
      var faulty := (exists i :: 0 <= i < |inbox.safety| && Rises(a.held, inbox.safety, cfg.epoch, now, i)
                                 && inbox.safety[i].activeFaults != {});
      && effective.latched == held.latched
      && (effective.faults != {} <==> faulty || (held == a.held && a.held.faults != {}))
  {
    var msgs, drained := inbox.safety, DrainFaults(a.held, inbox.safety, cfg.epoch, now);
    HeldIsGreatest(a.held, msgs, cfg.epoch, now);
    if drained != {} {
      var code :| code in drained;
      DrainedFaults(a.held, msgs, cfg.epoch, now, code);
    } else {
      forall i | 0 <= i < |msgs| && Rises(a.held, msgs, cfg.epoch, now, i) ensures msgs[i].activeFaults == {} {
        if msgs[i].activeFaults != {} {
          var code :| code in msgs[i].activeFaults;
          DrainedFaults(a.held, msgs, cfg.epoch, now, code);
        }
      }
    }
  }
}
