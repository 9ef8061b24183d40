/** What one tick of the system-mode authority computes, as functions on values. */
module SystemModes {
  import opened Basics
  import opened Evidence
  import opened Naming
  import opened Transitions

  datatype AuthorityConfig = AuthorityConfig(epoch: string, interval: real)

  datatype Authority = Authority(active: Option<Activation>, sequence: int, transitions: int, held: Held)

  const BOOT := Authority(None, 0, 0, NOTHING_HELD)

  const INIT_COMPLETE := "graph_intent:init_complete"

  function ModeOf(a: Authority): Option<SystemMode> {
    if a.active.None? then None else Some(a.active.value.active)
  }

  /** What a tick has published so far. `decided` counts the decisions, one clock reading each. */
  datatype Run = Run(
    a: Authority, activations: seq<Activation>, records: seq<TransitionMsg>, acks: seq<Ack>, decided: nat)

  /** A request on its way to a decision. */
  datatype Ask = Ask(
    target: SystemMode, kind: RequestKind, requestId: string, requestedBy: string,
    message: Option<ModeRequestMsg>, forced: Option<Reason>)

  function ShellDenyReason(cfg: AuthorityConfig, a: Authority, ask: Ask, now: real): Option<Reason> {
    if ask.target == Safe then
      None
    else if !Fresh(a.held, now, cfg.interval) then
      Some(EvidenceStale)
    else if ModeOf(a) == Some(Init) && ask.target == Idle && ask.kind == Subsystem
         && (ask.message.None?
             || ask.message.value.requestedBy != PAYLOAD
             || ask.message.value.reason != INIT_COMPLETE
             || ask.message.value.key != Some(ActivationKey(cfg.epoch, a.sequence))) then
      Some(InitKeyRequired)
    else
      None
  }

  function DecisionFor(cfg: AuthorityConfig, a: Authority, ask: Ask, safety: SafetyEvidence, now: real): Decision {
    var shell := ShellDenyReason(cfg, a, ask, now);
    var deny := if shell.Some? then shell else ask.forced;
    if deny.Some? then Deny(ModeOf(a), deny.value) else Decide(ModeOf(a), ask.target, ask.kind, safety)
  }

  /** Decide one request; publish its record and, if granted, the next activation. */
  function Process(cfg: AuthorityConfig, run: Run, ask: Ask, safety: SafetyEvidence, now: real): Run {
    var a := run.a;
    var d := DecisionFor(cfg, a, ask, safety, now);
    if d.resulting.None? then
      run.(decided := run.decided + 1)
    else
      var sequence := if d.accepted then a.sequence + 1 else a.sequence;
      var record := TransitionMsg(
        a.transitions + 1, ask.requestId, cfg.epoch, ModeOf(a), ask.target, d.resulting.value, d.accepted,
        ask.requestedBy, d.reason, if d.accepted then Some(sequence) else None);
      var activation := Activation(
        cfg.epoch, sequence, ModeOf(a), d.resulting.value, d.reason, Some(ask.requestId), d.recovery);
      Run(Authority(if d.accepted then Some(activation) else a.active, sequence, a.transitions + 1, a.held),
          run.activations + (if d.accepted then [activation] else []),
          run.records + [record], run.acks, run.decided + 1)
  }

  function BootAsk(cfg: AuthorityConfig): Ask {
    Ask(Safe, Subsystem, cfg.epoch + "-boot", SYSTEM_MODES, None, None)
  }

  function AskOfRequest(r: ModeRequestMsg): Ask {
    Ask(r.mode, Subsystem, r.requestId, r.requestedBy, Some(r), None)
  }

  function ProcessRequests(
    cfg: AuthorityConfig, run: Run, requests: seq<ModeRequestMsg>, safety: SafetyEvidence, clock: Clock): Run
  {
    if requests == [] then run
    else
      var before := ProcessRequests(cfg, run, requests[..|requests| - 1], safety, clock);
      Process(cfg, before, AskOfRequest(Last(requests)), safety, clock(before.decided + 1))
  }

  // --- Routed commands --------------------------------------------------------------------

  function ModeNamed(text: string): Option<SystemMode> {
    if text == "IDLE" then Some(Idle)
    else if text == "STOW" then Some(Stow)
    else if text == "SAFE" then Some(Safe)
    else if text == "INIT" then Some(Init)
    else if text == "OPERATE" then Some(Operate)
    else None
  }

  predicate CommandsSafe(c: Command) {
    c.target == SYSTEM_MODES && c.commandId == SET_MODE && ModeNamed(TextOf(c.params, "mode")) == Some(Safe)
  }

  predicate CommandsExit(c: Command) {
    c.target == SYSTEM_MODES && c.commandId == EXIT_SAFE && TextOf(c.params, "phase") == "EXECUTE"
  }

  /** The request a command stands for, or None if it stands for none and is rejected. */
  function AskOfCommand(c: Command, safeRequested: bool): Option<Ask> {
    var id := CommandRequestId(c.source, c.seqNo);
    if c.commandId == EXIT_SAFE then
      if TextOf(c.params, "phase") != "EXECUTE" then None
      else Some(Ask(Init, ExitSafe, id, c.source, None, if safeRequested then Some(SafeDecidedThisTick) else None))
    else if c.commandId == SET_MODE then
      var mode := ModeNamed(TextOf(c.params, "mode"));
      if mode.None? then None else Some(Ask(mode.value, SetMode, id, c.source, None, None))
    else if c.commandId == GIMBAL_STOW then
      Some(Ask(Stow, SetMode, id, c.source, None, None))
    else
      None
  }

  function HandleCommand(
    cfg: AuthorityConfig, run: Run, c: Command, safeRequested: bool, safety: SafetyEvidence, clock: Clock): Run
  {
    var ask := AskOfCommand(c, safeRequested);
    var granted := ask.Some? && DecisionFor(cfg, run.a, ask.value, safety, clock(run.decided + 1)).accepted;
    var after := if ask.None? then run else Process(cfg, run, ask.value, safety, clock(run.decided + 1));
    after.(acks := after.acks
      + [Ack(granted, c.commandId, c.source, c.seqNo, if granted then NoFault else CommandInvalid)])
  }

  /** `safe` says whether a SAFE request was seen before this batch, or anywhere in it. Once set it
      stays set; once clear no command of the batch can set it, so it is constant over the batch. */
  function HandleCommands(
    cfg: AuthorityConfig, run: Run, batch: seq<Command>, safe: bool, safety: SafetyEvidence, clock: Clock): Run
  {
    if batch == [] then run
    else
      var before := HandleCommands(cfg, run, batch[..|batch| - 1], safe, safety, clock);
      if Last(batch).target == SYSTEM_MODES then HandleCommand(cfg, before, Last(batch), safe, safety, clock)
      else before
  }

  function ReplySyncs(cfg: AuthorityConfig, run: Run, syncs: seq<SyncRequestMsg>): Run {
    if syncs == [] then run
    else
      var before := ReplySyncs(cfg, run, syncs[..|syncs| - 1]);
      if Last(syncs).expectedEpoch == cfg.epoch && before.a.active.Some? then
        before.(activations := before.activations + [before.a.active.value])
      else before
  }

  // --- The tick ---------------------------------------------------------------------------

  datatype Inbox = Inbox(
    safety: seq<SafetyMsg>, requests: seq<ModeRequestMsg>, routed: seq<Command>, syncs: seq<SyncRequestMsg>)

  /** The faults of every record accepted in a drain. */
  function DrainFaults(h: Held, msgs: seq<SafetyMsg>, epoch: string, now: real): set<FaultCode> {
    if msgs == [] then {}
    else
      var front := msgs[..|msgs| - 1];
      DrainFaults(h, front, epoch, now) +
      (if Qualifies(Last(msgs), epoch, now) && DrainHeld(h, front, epoch, now).sequence < Last(msgs).sequence
       then Last(msgs).activeFaults else {})
  }

  function Effective(held: Held, drained: set<FaultCode>): SafetyEvidence {
    SafetyEvidence(held.latched, if drained != {} then drained else held.faults)
  }

  predicate RequestsSafe(requests: seq<ModeRequestMsg>) {
    exists r :: r in requests && r.mode == Safe
  }

  predicate BatchSafe(batch: seq<Command>) {
    exists c :: c in batch && CommandsSafe(c)
  }

  predicate SafeAsked(inbox: Inbox) {
    RequestsSafe(inbox.requests) || BatchSafe(inbox.routed)
  }

  function EffectiveAt(cfg: AuthorityConfig, a: Authority, inbox: Inbox, now: real): SafetyEvidence {
    Effective(DrainHeld(a.held, inbox.safety, cfg.epoch, now), DrainFaults(a.held, inbox.safety, cfg.epoch, now))
  }

  /** Evidence is drained and SAFE activated at boot before anything is decided. */
  function Opened(cfg: AuthorityConfig, a: Authority, inbox: Inbox, clock: Clock): Run {
    var now := clock(0);
    var run := Run(a.(held := DrainHeld(a.held, inbox.safety, cfg.epoch, now)), [], [], [], 0);
    if a.active.None? then Process(cfg, run, BootAsk(cfg), EffectiveAt(cfg, a, inbox, now), clock(1)) else run
  }

  function Decided(cfg: AuthorityConfig, a: Authority, inbox: Inbox, clock: Clock): Run {
    var effective := EffectiveAt(cfg, a, inbox, clock(0));
    var requested := ProcessRequests(cfg, Opened(cfg, a, inbox, clock), inbox.requests, effective, clock);
    HandleCommands(cfg, requested, inbox.routed, SafeAsked(inbox), effective, clock)
  }

  function AuthorityTick(cfg: AuthorityConfig, a: Authority, inbox: Inbox, clock: Clock): Run {
    ReplySyncs(cfg, Decided(cfg, a, inbox, clock), inbox.syncs)
  }
}
