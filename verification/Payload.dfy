/** The payload's motion containment: what each operation of the shell computes, on values.
    Gimbal results are an oracle; a run may meet any sequence of them. */
module PayloadContainment {
  import opened Basics
  import opened Evidence

  const CONTAINING_FAULTS: set<FaultCode> := {
    GimbalFault, GimbalRunaway, GimbalSafetyTimeout, GimbalStaleFeedback, GimbalWatchdogUnconfirmed, InferenceNan
  }

  datatype InhibitResult = InhibitFailed(code: FaultCode) | Inhibited(confirmed: bool)

  datatype Health = Health(feedbackValid: bool, inhibitConfirmed: bool, lastFeedback: Option<Time>)

  datatype Sample = Sample(t: Time, angle: Time, variance: Time)

  datatype EntryPolicy = EntryInvalid(code: FaultCode) | EntryValid(inferenceEnabled: bool)

  /** Everything the shell reads but does not own. */
  datatype World = World(
    inhibits: nat -> InhibitResult,       // result of the n-th inhibit call
    sends: nat -> Option<FaultCode>,      // result of the n-th motion command; None is success
    health: Option<Health>,               // None is a failed read
    sample: Option<Sample>,               // latest encoder sample
    entry: SystemMode -> EntryPolicy,
    runtimeReady: bool,
    clockNow: real,
    ids: nat -> string)

  datatype PayloadConfig = PayloadConfig(
    epoch: string, interval: real, maxAge: real, lo: real, hi: real,
    rateMode: bool, recoveryWindow: real, maxAttempts: int)

  datatype Motion = SetRate | SetTorque | Goto | StowArm

  /** The containment history: engagements, releases, motion commands and inhibit requests with their answers, in
      the order they happened. `latching` says that the request is the latch's own. */
  datatype Mark = Engaged | Released(id: string) | Moved(motion: Motion) | Asked(latching: bool, confirmed: bool)

  datatype Installed = Installed(controlRevision: nat, last: Option<Activation>)

  datatype Reference = Inhibit | StowRef | PoseRef | RateRef

  datatype Containment = Containment(
    latched: bool, latest: Option<SafetyMsg>, consumed: set<string>, lastEvidence: int,
    inhibitApplied: bool, generation: nat, marks: seq<Mark>)

  datatype Actuator = Actuator(
    stowArmed: bool, stowComplete: bool, windowStart: Option<real>, attempts: int, pendingReset: bool,
    inhibitCalls: nat, motionCalls: nat)

  datatype Shell = Shell(
    last: Option<Activation>, policyRevision: nat, controlRevision: nat, installed: Option<Installed>,
    pending: Option<FaultCode>)

  /** `local` is the payload's own fault subscription; the rest is what the operation in progress
      has published. */
  datatype Outbox = Outbox(local: seq<FaultEvent>, faults: seq<FaultEvent>, requests: seq<ModeRequestMsg>)

  datatype Payload = Payload(c: Containment, a: Actuator, s: Shell, o: Outbox)

  const UNACTIVATED := Payload(
    Containment(false, None, {}, 0, false, 0, []),
    Actuator(false, false, None, 0, false, 0, 0),
    Shell(None, 0, 0, None, None),
    Outbox([], [], []))

  // --- Containment primitives -------------------------------------------------------------

  function Publish(p: Payload, code: FaultCode): Payload {
    var e := FaultEvent(code, PAYLOAD);
    p.(o := p.o.(faults := p.o.faults + [e], local := p.o.local + [e]))
  }

  function EngageLatch(c: Containment): Containment {
    if c.latched then c
    else c.(latched := true, generation := c.generation + 1, marks := c.marks + [Engaged])
  }

  function Engage(p: Payload): Payload {
    p.(c := EngageLatch(p.c))
  }

  function Ask(p: Payload, latching: bool, confirmed: bool): Payload {
    p.(a := p.a.(inhibitCalls := p.a.inhibitCalls + 1), c := p.c.(marks := p.c.marks + [Asked(latching, confirmed)]))
  }

  function InhibitMotion(p: Payload, latching: bool, w: World): (Payload, bool) {
    match w.inhibits(p.a.inhibitCalls)
    case InhibitFailed(code) => (Engage(Publish(Ask(p, latching, false), code)), false)
    case Inhibited(confirmed) =>
      if confirmed then (Ask(p, latching, true), true) else (Engage(Publish(Ask(p, latching, false), GimbalFault)), false)
  }

  function Latch(p: Payload, w: World): Payload {
    var engaged := Engage(p);
    if engaged.c.inhibitApplied then engaged
    else
      var (after, confirmed) := InhibitMotion(engaged, true, w);
      after.(c := after.c.(inhibitApplied := confirmed))
  }

  // --- Draining evidence, faults and activations ------------------------------------------

  predicate Unsafe(m: SafetyMsg) {
    m.latched || m.activeFaults != {}
  }

  predicate UnsafeDrain(msgs: seq<SafetyMsg>, epoch: string, now: real) {
    exists m :: m in msgs && Qualifies(m, epoch, now) && Unsafe(m)
  }

  function TakeEvidence(p: Payload, m: SafetyMsg, cfg: PayloadConfig, now: real, w: World): Payload {
    var latest := Accept(p.c.latest, m, cfg.epoch, now);
    if latest == p.c.latest then p
    else
      var taken := p.(c := p.c.(latest := latest));
      if m.latched then Latch(taken, w) else taken
  }

  function TakeAllEvidence(p: Payload, msgs: seq<SafetyMsg>, cfg: PayloadConfig, now: real, w: World): Payload {
    if msgs == [] then p
    else TakeEvidence(TakeAllEvidence(p, msgs[..|msgs| - 1], cfg, now, w), Last(msgs), cfg, now, w)
  }

  predicate Containing(e: FaultEvent) {
    e.subsystem == PAYLOAD && e.code in CONTAINING_FAULTS
  }

  predicate UnsafeFaults(p: Payload) {
    (exists e :: e in p.o.local && Containing(e)) || p.s.pending.Some?
  }

  function TakeLocalFaults(p: Payload, w: World): Payload {
    var drained := p.(o := p.o.(local := []), s := p.s.(pending := None));
    if UnsafeFaults(p) then Latch(drained, w) else drained
  }

  datatype Disposition = Conflict | Duplicate | Stale | Accepted

  function AcceptActivation(last: Option<Activation>, x: Activation, epoch: string): Disposition {
    if x.epoch == "" || x.epoch != epoch || x.sequence < 0 then Conflict
    else if last.None? then Accepted
    else if x.sequence == last.value.sequence then (if x == last.value then Duplicate else Conflict)
    else if x.sequence < last.value.sequence then Stale
    else Accepted
  }

  function SafeIntent(p: Payload, x: Activation, w: World): ModeRequestMsg {
    ModeRequestMsg(w.ids(|p.o.requests|), Safe, PAYLOAD, "graph_intent:safe", Some(ActivationKey(x.epoch, x.sequence)))
  }

  function Reenter(p: Payload, x: Activation, w: World): Payload {
    var stopped := InhibitMotion(p, false, w).0;
    var entry := w.entry(x.active);
    var judged :=
      if entry.EntryInvalid? then Publish(stopped.(s := stopped.s.(pending := Some(entry.code))), entry.code)
      else stopped;
    var reset := judged.(
      a := judged.a.(stowArmed := false, stowComplete := false),
      s := judged.s.(policyRevision := p.s.policyRevision + 1, controlRevision := p.s.controlRevision + 1));
    if x.active == Operate && !w.runtimeReady && entry.EntryValid? && entry.inferenceEnabled then
      var told := Publish(reset, ModelCorrupt);
      told.(o := told.o.(requests := told.o.requests + [SafeIntent(told, x, w)]))
    else
      reset
  }

  function TakeActivation(p: Payload, x: Activation, cfg: PayloadConfig, w: World): Payload {
    match AcceptActivation(p.s.last, x, cfg.epoch)
    case Conflict => Latch(Publish(p, GimbalFault), w)
    case Duplicate => p
    case Stale => p
    case Accepted =>
      var taken := p.(s := p.s.(last := Some(x)));
      Reenter(if x.active == Safe then Latch(taken, w) else taken, x, w)
  }

  function TakeAllActivations(p: Payload, xs: seq<Activation>, cfg: PayloadConfig, w: World): Payload {
    if xs == [] then p else TakeActivation(TakeAllActivations(p, xs[..|xs| - 1], cfg, w), Last(xs), cfg, w)
  }

  // --- Release ----------------------------------------------------------------------------

  predicate Recovering(last: Option<Activation>) {
    && last.Some?
    && last.value.recovery
    && last.value.active == Init
    && last.value.previous == Some(Safe)
    && last.value.requestId.Some? && last.value.requestId.value != ""
  }

  predicate EvidenceReleases(p: Payload, id: string, cfg: PayloadConfig, now: real) {
    && p.c.latest.Some?
    && var m := p.c.latest.value;
    && m.recoveryId == Some(id)
    && m.epoch == cfg.epoch
    && m.sequence > p.c.lastEvidence
    && m.observed.Finite? && 0.0 <= now - m.observed.at <= cfg.interval
    && m.activeFaults == {}
    && !m.latched
  }

  predicate FeedbackFresh(h: Health, maxAge: real, now: real) {
    h.lastFeedback.Some? && h.lastFeedback.value.Finite?
    && h.lastFeedback.value.at - now <= TOLERANCE && now - h.lastFeedback.value.at <= maxAge
  }

  predicate EncoderHealthy(s: Option<Sample>, cfg: PayloadConfig, now: real) {
    && s.Some?
    && s.value.t.Finite? && s.value.angle.Finite? && s.value.variance.Finite?
    && s.value.variance.at >= 0.0
    && s.value.t.at - now <= TOLERANCE && now - s.value.t.at <= cfg.maxAge
    && cfg.lo - TOLERANCE <= s.value.angle.at <= cfg.hi + TOLERANCE
  }

  predicate HardwareValid(cfg: PayloadConfig, now: real, w: World) {
    && w.health.Some? && w.health.value.feedbackValid && w.health.value.inhibitConfirmed
    && FeedbackFresh(w.health.value, cfg.maxAge, now)
    && EncoderHealthy(w.sample, cfg, now)
  }

  function TryRelease(p: Payload, cfg: PayloadConfig, now: real, w: World): Payload
    requires Recovering(p.s.last)
  {
    var id := p.s.last.value.requestId.value;
    if id in p.c.consumed || !EvidenceReleases(p, id, cfg, now) then p
    else
      var spent := p.c.(consumed := p.c.consumed + {id}, lastEvidence := p.c.latest.value.sequence);
      if !HardwareValid(cfg, now, w) then Publish(p.(c := spent), GimbalFault)
      else p.(c := spent.(latched := false, inhibitApplied := false, marks := p.c.marks + [Released(id)]),
              a := p.a.(pendingReset := true))
  }

  function Install(p: Payload): Payload {
    p.(s := p.s.(installed := Some(Installed(p.s.controlRevision, p.s.last))))
  }

  /** A new operation has published nothing yet. */
  function Begin(p: Payload): Payload {
    p.(o := p.o.(faults := [], requests := []))
  }

  /** State after the drains of one activation poll, before the release is considered. */
  function Drained(
    p: Payload, safety: seq<SafetyMsg>, xs: seq<Activation>, cfg: PayloadConfig, now: real, w: World): Payload
  {
    var warned := TakeAllEvidence(Begin(p), safety, cfg, now, w);
    TakeAllActivations(Install(TakeLocalFaults(warned, w)), xs, cfg, w)
  }

  predicate UnsafePoll(p: Payload, safety: seq<SafetyMsg>, cfg: PayloadConfig, now: real, w: World) {
    || UnsafeDrain(safety, cfg.epoch, now)
    || UnsafeFaults(TakeAllEvidence(Begin(p), safety, cfg, now, w))
  }

  function PollActivations(
    p: Payload, safety: seq<SafetyMsg>, xs: seq<Activation>, cfg: PayloadConfig, now: real, w: World): Payload
  {
    var drained := Drained(p, safety, xs, cfg, now, w);
    Install(
      if !UnsafePoll(p, safety, cfg, now, w) && drained.c.latched && Recovering(drained.s.last)
      then TryRelease(drained, cfg, now, w) else drained)
  }

  // --- Actuation --------------------------------------------------------------------------

  function Move(p: Payload, m: Motion): Payload {
    p.(a := p.a.(motionCalls := p.a.motionCalls + 1), c := p.c.(marks := p.c.marks + [Moved(m)]))
  }

  /** Only a transient availability fault gets a retry budget; everything else contains at once. */
  function RecordFailure(p: Payload, code: FaultCode, cfg: PayloadConfig, now: real, w: World): Payload {
    if code != CommTimeout then
      Publish(InhibitMotion(Engage(p), false, w).0, code)
    else
      var opening := p.a.windowStart.None? || now - p.a.windowStart.value > cfg.recoveryWindow;
      var attempts := (if opening then 0 else p.a.attempts) + 1;
      var counted := p.(a := p.a.(windowStart := if opening then Some(now) else p.a.windowStart,
                                  attempts := attempts, pendingReset := true));
      if attempts > cfg.maxAttempts then Publish(Engage(counted), code) else counted
  }

  /** Outcome of a motion command the driver refused. */
  function WriteFailed(p: Payload, code: FaultCode, cfg: PayloadConfig, now: real, w: World): Payload {
    InhibitMotion(RecordFailure(p, code, cfg, now, w), false, w).0
  }

  function Send(p: Payload, m: Motion, cfg: PayloadConfig, now: real, w: World): (Payload, bool) {
    var sent := w.sends(p.a.motionCalls);
    var moved := Move(p, m);
    if sent.Some? then (WriteFailed(moved, sent.value, cfg, now, w), false)
    else (moved.(a := moved.a.(pendingReset := false, attempts := 0, windowStart := None)), true)
  }

  predicate LeaseFresh(h: Health, cfg: PayloadConfig, w: World) {
    h.lastFeedback.Some? && h.lastFeedback.value.Finite? && w.clockNow - h.lastFeedback.value.at <= cfg.maxAge
  }

  /** The leased rate or torque write. */
  function WriteLeased(
      p0: Payload, m: Motion, revision: nat, cfg: PayloadConfig, now: real, w: World): (Payload, bool) {
    var p := Begin(p0);
    if m == SetRate && !cfg.rateMode then (p, false)
    else if revision != (if p.s.installed.Some? then p.s.installed.value.controlRevision else 0) then (p, false)
    else if p.c.latched then InhibitMotion(p, false, w)
    else if w.health.None? || !w.health.value.feedbackValid then (Publish(Latch(p, w), GimbalFault), false)
    else if !LeaseFresh(w.health.value, cfg, w) then
      (Publish(Latch(p, w), if m == SetRate then GimbalStaleFeedback else GimbalFault), false)
    else
      Send(p, m, cfg, now, w)
  }

  /** Outcome of a stow arm or pose latch the driver refused. */
  function ReferenceFailed(p: Payload, code: FaultCode, cfg: PayloadConfig, now: real, w: World): Payload {
    Publish(Latch(RecordFailure(p, code, cfg, now, w), w), code)
  }

  /** Commit a control reference made under `revision` and `last`; true if a command was issued. */
  function CommitReference(
    p0: Payload, r: Reference, revision: nat, last: Option<Activation>, cfg: PayloadConfig, now: real, w: World)
    : (Payload, bool)
  {
    var p := Begin(p0);
    var superseded := p.s.installed.Some?
      && (p.s.installed.value.controlRevision != revision || p.s.installed.value.last != last);
    var sent := w.sends(p.a.motionCalls);
    if p.c.latched || superseded then (p, false)
    else match r
      case StowRef =>
        if p.a.stowArmed then (p.(a := p.a.(stowComplete := false)), true)
        else
          var moved := Move(p, StowArm);
          if sent.Some? then (ReferenceFailed(moved, sent.value, cfg, now, w), false)
          else (moved.(a := moved.a.(stowArmed := true, stowComplete := false)), true)
      case PoseRef =>
        if cfg.rateMode then (p, true)
        else
          var moved := Move(p, Goto);
          if sent.Some? then (ReferenceFailed(moved, sent.value, cfg, now, w), false)
          else (moved, true)
      case Inhibit => (InhibitMotion(p, false, w).0, false)
      case RateRef => (p, false)
  }

  /** A failed encoder read: classify, inhibit, and hold the latch. */
  function ReadFailed(p: Payload, code: FaultCode, cfg: PayloadConfig, w: World): Payload {
    Engage(InhibitMotion(RecordFailure(Begin(p), code, cfg, w.clockNow, w), false, w).0)
  }
}
