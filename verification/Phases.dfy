/** The protocol as its threads run it: every app takes its messages one by one, publishes in the middle
    of its tick, and may be interrupted between any two messages. One message taken and dealt with is one
    step; a phase ends when the app finds its queue empty. */
module Phases {
  import opened Basics
  import opened Evidence
  import opened Routing
  import opened CommandRouting
  import opened Transitions
  import opened SystemModes
  import opened Fault
  import opened PayloadContainment
  import opened Protocol
  import PayloadProofs
  import Watchdog

  // --- Where each app is in its tick ------------------------------------------------------

  datatype RouterPhase = RouterIdle | RouterHearing(now: real) | RouterRouting

  datatype AuthorityPhase =
    | AuthorityIdle
    | Hearing(now: real, faults: set<FaultCode>)
    | Asking(safety: SafetyEvidence, safe: bool)
    | Collecting(safety: SafetyEvidence, safe: bool)
    | Commanding(safety: SafetyEvidence, safe: bool, batch: seq<Command>)
    | Replying

  /** `seen` holds the SAFE-triggering codes the tick has raised so far. */
  datatype FaultPhase =
    | FaultIdle
    | Raising(now: real, ids: Ids, seen: set<FaultCode>, drawn: nat)
    | Expiring(now: real, ids: Ids, seen: set<FaultCode>, drawn: nat, expired: seq<FaultEvent>)
    | Consuming(now: real, seen: set<FaultCode>)
    | Publishing(now: real, seen: set<FaultCode>)

  datatype PayloadPhase =
    | PayloadIdle
    | PollHearing(now: real, unsafe: bool)
    | PollAccepting(now: real, unsafe: bool)

  datatype RouterPart = RouterPart(router: Router, phase: RouterPhase)

  datatype AuthorityPart = AuthorityPart(authority: Authority, phase: AuthorityPhase)

  datatype FaultPart = FaultPart(latch: Latch, entries: seq<Watchdog.Entry>, phase: FaultPhase)

  datatype PayloadPart = PayloadPart(payload: Payload, phase: PayloadPhase)

  /** What has happened: as in Protocol.Traced, with the clock readings the fault ticks started at. Nothing
      below reads it. */
  datatype History = History(
    chain: seq<Activation>, offers: seq<Offer>, drained: set<(string, int)>, log: seq<Event>, starts: seq<real>)

  datatype State = State(
    lastSeq: map<string, int>, r: RouterPart, a: AuthorityPart, f: FaultPart, p: PayloadPart, q: Queues, h: History)

  function Boot(entries: seq<Watchdog.Entry>): State {
    State(map[],
          RouterPart(Router(map[], NOTHING_HELD), RouterIdle),
          AuthorityPart(BOOT, AuthorityIdle),
          FaultPart(CLEARED, entries, FaultIdle),
          PayloadPart(UNACTIVATED, PayloadIdle),
          EMPTY, History([], [], {}, [], []))
  }

  /** The fault tick in progress has raised a fault and not yet finished with the activations. */
  predicate InWindow(f: FaultPart) {
    match f.phase
    case Raising(_, _, seen, _) => seen != {}
    case Expiring(_, _, seen, _, _) => seen != {}
    case Consuming(_, seen) => seen != {}
    case _ => false
  }

  // --- Steps ------------------------------------------------------------------------------

  datatype RouterStep = RouterStarts(now: real) | RouterHears | RouterTurns | RouterRoutes(at: real) | RouterRests

  datatype AuthorityStep =
    | Starts(now: real) | Hears | Opens(at: real) | Decides(at: real) | Turns | Collects | Commands(at: real)
    | Finishes | Replies | Rests

  datatype FaultStep =
    | FaultStarts(now: real, ids: Ids) | Raises | Checks | Expires | Consults | Consumes | Settles | Publishes

  datatype PayloadStep =
    | PollStarts(now: real) | PollHears(w: World) | PollTurns(w: World) | PollAccepts(w: World) | PollEnds(w: World)
    | Acts(op: PayloadProofs.Op, w: World)

  datatype OutsideStep =
    | Uplinked(c: Command) | Faulted(e: FaultEvent) | ModeAsked(r: ModeRequestMsg) | SyncAsked(s: SyncRequestMsg)
    | Beaten(name: string)

  datatype Step =
    | OfRouter(rs: RouterStep) | OfAuthority(aus: AuthorityStep) | OfFault(fs: FaultStep) | OfPayload(ps: PayloadStep)
    | Outside(os: OutsideStep)

  // --- Publishing -------------------------------------------------------------------------

  /** A fault event reaches the fault app and the payload. */
  function Report(s: State, events: seq<FaultEvent>): State {
    s.(q := s.q.(events := s.q.events + events),
       p := s.p.(payload := s.p.payload.(o := s.p.payload.o.(local := s.p.payload.o.local + events))))
  }

  function Request(s: State, requests: seq<ModeRequestMsg>): State {
    s.(q := s.q.(requests := s.q.requests + requests))
  }

  function Announce(s: State, xs: seq<Activation>): State {
    s.(q := s.q.(faultActivations := s.q.faultActivations + xs, payloadActivations := s.q.payloadActivations + xs))
  }

  // --- Router -----------------------------------------------------------------------------

  function Route(s: State, at: real, cfg: Config): State
    requires s.q.commands != []
  {
    var o := OfferOf(s.q.commands[0], s.r.router.held, at, cfg.router);
    var run := RouteOne(RouterRun(s.r.router.armed, [], [], [], []), o, cfg.router.rules);
    Report(s.(r := s.r.(router := s.r.router.(armed := run.armed)),
              q := s.q.(commands := s.q.commands[1..], routed := s.q.routed + run.routed),
              h := s.h.(offers := s.h.offers + [o])),
           run.faults)
  }

  function NextRouter(s: State, step: RouterStep, cfg: Config): State {
    match step
    case RouterStarts(now) => if s.r.phase.RouterIdle? then s.(r := s.r.(phase := RouterHearing(now))) else s
    case RouterHears =>
      if s.r.phase.RouterHearing? && s.q.routerSafety != [] then
        s.(r := s.r.(router := s.r.router.(
                       held := AcceptHeld(s.r.router.held, s.q.routerSafety[0], cfg.router.epoch, s.r.phase.now))),
           q := s.q.(routerSafety := s.q.routerSafety[1..]))
      else s
    case RouterTurns =>
      if s.r.phase.RouterHearing? && s.q.routerSafety == [] then s.(r := s.r.(phase := RouterRouting)) else s
    case RouterRoutes(at) => if s.r.phase.RouterRouting? && s.q.commands != [] then Route(s, at, cfg) else s
    case RouterRests =>
      if s.r.phase.RouterRouting? && s.q.commands == [] then s.(r := s.r.(phase := RouterIdle)) else s
  }

  // --- Authority --------------------------------------------------------------------------

  function NewRun(a: Authority): Run {
    Run(a, [], [], [], 0)
  }

  /** Take over what one decision came to and publish its activation. */
  function Adopt(s: State, run: Run): State {
    Announce(s.(a := s.a.(authority := run.a),
                h := s.h.(chain := s.h.chain + run.activations,
                          log := s.h.log + Grants(run.activations, |s.h.offers|))),
             run.activations)
  }

  function DecideOne(s: State, ask: Ask, safety: SafetyEvidence, at: real, cfg: Config): State {
    Adopt(s, Process(cfg.authority, NewRun(s.a.authority), ask, safety, at))
  }

  function AuthorityHear(s: State, cfg: Config): State
    requires s.a.phase.Hearing? && s.q.authoritySafety != []
  {
    var m, now := s.q.authoritySafety[0], s.a.phase.now;
    var held := s.a.authority.held;
    var taken := Qualifies(m, cfg.authority.epoch, now) && held.sequence < m.sequence;
    s.(a := AuthorityPart(
              s.a.authority.(held := AcceptHeld(held, m, cfg.authority.epoch, now)),
              Hearing(now, s.a.phase.faults + (if taken then m.activeFaults else {}))),
       q := s.q.(authoritySafety := s.q.authoritySafety[1..]))
  }

  function AuthorityOpen(s: State, at: real, cfg: Config): State
    requires s.a.phase.Hearing?
  {
    var safety := Effective(s.a.authority.held, s.a.phase.faults);
    var begun := if s.a.authority.active.None? then DecideOne(s, BootAsk(cfg.authority), safety, at, cfg) else s;
    begun.(a := begun.a.(phase := Asking(safety, false)))
  }

  function AuthorityDecide(s: State, at: real, cfg: Config): State
    requires s.a.phase.Asking? && s.q.requests != []
  {
    var r := s.q.requests[0];
    var taken := s.(a := s.a.(phase := Asking(s.a.phase.safety, s.a.phase.safe || r.mode == Safe)),
                    q := s.q.(requests := s.q.requests[1..]));
    DecideOne(taken, AskOfRequest(r), s.a.phase.safety, at, cfg)
  }

  function CommandRun(a: Authority, c: Command, safe: bool, safety: SafetyEvidence, at: real, cfg: Config): Run {
    if c.target == SYSTEM_MODES then HandleCommand(cfg.authority, NewRun(a), c, safe, safety, (_: nat) => at)
    else NewRun(a)
  }

  /** The state with the head of the authority's batch taken. */
  function Taken(s: State): State
    requires s.a.phase.Commanding? && s.a.phase.batch != []
  {
    var c, ph := s.a.phase.batch[0], s.a.phase;
    s.(a := s.a.(phase := Commanding(ph.safety, ph.safe || CommandsSafe(c), ph.batch[1..])),
       h := s.h.(drained := s.h.drained + {(c.source, c.seqNo)}))
  }

  function AuthorityCommand(s: State, at: real, cfg: Config): State
    requires s.a.phase.Commanding? && s.a.phase.batch != []
  {
    var ph := s.a.phase;
    Adopt(Taken(s), CommandRun(s.a.authority, ph.batch[0], ph.safe, ph.safety, at, cfg))
  }

  function AuthorityReply(s: State, cfg: Config): State
    requires s.q.syncs != []
  {
    var sync := s.q.syncs[0];
    var taken := s.(q := s.q.(syncs := s.q.syncs[1..]));
    if sync.expectedEpoch == cfg.authority.epoch && s.a.authority.active.Some?
    then Announce(taken, [s.a.authority.active.value]) else taken
  }

  function NextAuthority(s: State, step: AuthorityStep, cfg: Config): State {
    match step
    case Starts(now) => if s.a.phase.AuthorityIdle? then s.(a := s.a.(phase := Hearing(now, {}))) else s
    case Hears => if s.a.phase.Hearing? && s.q.authoritySafety != [] then AuthorityHear(s, cfg) else s
    case Opens(at) => if s.a.phase.Hearing? && s.q.authoritySafety == [] then AuthorityOpen(s, at, cfg) else s
    case Decides(at) => if s.a.phase.Asking? && s.q.requests != [] then AuthorityDecide(s, at, cfg) else s
    case Turns =>
      if s.a.phase.Asking? && s.q.requests == [] then s.(a := s.a.(phase := Collecting(s.a.phase.safety, s.a.phase.safe)))
      else s
    case Collects =>
      if s.a.phase.Collecting? then
        s.(a := s.a.(phase := Commanding(s.a.phase.safety, s.a.phase.safe || BatchSafe(s.q.routed), s.q.routed)),
           q := s.q.(routed := []))
      else s
    case Commands(at) => if s.a.phase.Commanding? && s.a.phase.batch != [] then AuthorityCommand(s, at, cfg) else s
    case Finishes => if s.a.phase.Commanding? && s.a.phase.batch == [] then s.(a := s.a.(phase := Replying)) else s
    case Replies => if s.a.phase.Replying? && s.q.syncs != [] then AuthorityReply(s, cfg) else s
    case Rests => if s.a.phase.Replying? && s.q.syncs == [] then s.(a := s.a.(phase := AuthorityIdle)) else s
  }

  // --- Fault app --------------------------------------------------------------------------

  /** Raise one fault of the tick in progress. */
  function RaiseOne(s: State, code: FaultCode, ids: Ids, seen: set<FaultCode>, drawn: nat): (State, Raised) {
    var r := Raise(Raised(s.f.latch, [], seen, drawn), code, ids);
    (Request(s.(f := s.f.(latch := r.latch)), r.requests), r)
  }

  function FaultRaise(s: State, cfg: Config): State
    requires s.f.phase.Raising? && s.q.events != []
  {
    var ph := s.f.phase;
    var (u, r) := RaiseOne(s.(q := s.q.(events := s.q.events[1..])), s.q.events[0].code, ph.ids, ph.seen, ph.drawn);
    u.(f := u.f.(phase := Raising(ph.now, ph.ids, r.seen, r.drawn)))
  }

  function FaultCheck(s: State, cfg: Config): State
    requires s.f.phase.Raising?
  {
    var ph := s.f.phase;
    s.(f := FaultPart(s.f.latch, Watchdog.Checked(s.f.entries, ph.now),
                      Expiring(ph.now, ph.ids, ph.seen, ph.drawn,
                               Watchdog.Expired(s.f.entries, ph.now, cfg.fault.maxMiss))))
  }

  function FaultExpire(s: State, cfg: Config): State
    requires s.f.phase.Expiring? && s.f.phase.expired != []
  {
    var ph := s.f.phase;
    var (u, r) := RaiseOne(s, ph.expired[0].code, ph.ids, ph.seen, ph.drawn);
    u.(f := u.f.(phase := Expiring(ph.now, ph.ids, r.seen, r.drawn, ph.expired[1..])))
  }

  function FaultConsume(s: State, cfg: Config): State
    requires s.f.phase.Consuming? && s.q.faultActivations != []
  {
    var x, l := s.q.faultActivations[0], s.f.latch;
    var m := Consume(l, x, cfg.fault.epoch, s.f.phase.seen != {});
    s.(f := s.f.(latch := m),
       q := s.q.(faultActivations := s.q.faultActivations[1..]),
       h := s.h.(log := s.h.log + FaultReleases(SpentIds(l, [x], cfg.fault.epoch, s.f.phase.seen != {}))))
  }

  function FaultPublish(s: State, cfg: Config): State
    requires s.f.phase.Publishing?
  {
    var sequence := s.f.latch.evidenceSequence + 1;
    var m := SafetyMsg(s.f.phase.seen, s.f.latch.latched, s.f.latch.reason, cfg.fault.epoch, sequence,
                       Finite(s.f.phase.now), s.f.latch.releasedId);
    s.(f := s.f.(latch := s.f.latch.(evidenceSequence := sequence), phase := FaultIdle),
       q := s.q.(routerSafety := s.q.routerSafety + [m], authoritySafety := s.q.authoritySafety + [m],
                 payloadSafety := s.q.payloadSafety + [m]))
  }

  function NextFault(s: State, step: FaultStep, cfg: Config): State {
    match step
    case FaultStarts(now, ids) =>
      if s.f.phase.FaultIdle? then
        s.(f := FaultPart(s.f.latch, Watchdog.Heard(s.f.entries, s.q.beats, now), Raising(now, ids, {}, 0)),
           q := s.q.(beats := []), h := s.h.(starts := s.h.starts + [now]))
      else s
    case Raises => if s.f.phase.Raising? && s.q.events != [] then FaultRaise(s, cfg) else s
    case Checks => if s.f.phase.Raising? && s.q.events == [] then FaultCheck(s, cfg) else s
    case Expires => if s.f.phase.Expiring? && s.f.phase.expired != [] then FaultExpire(s, cfg) else s
    case Consults =>
      if s.f.phase.Expiring? && s.f.phase.expired == []
      then s.(f := s.f.(phase := Consuming(s.f.phase.now, s.f.phase.seen))) else s
    case Consumes => if s.f.phase.Consuming? && s.q.faultActivations != [] then FaultConsume(s, cfg) else s
    case Settles =>
      if s.f.phase.Consuming? && s.q.faultActivations == []
      then s.(f := s.f.(phase := Publishing(s.f.phase.now, s.f.phase.seen))) else s
    case Publishes => if s.f.phase.Publishing? then FaultPublish(s, cfg) else s
  }

  // --- Payload ----------------------------------------------------------------------------

  /** Take over what a payload operation came to, and what it published. */
  function Carry(s: State, p: Payload, phase: PayloadPhase): State {
    Request(s.(p := PayloadPart(p, phase), q := s.q.(events := s.q.events + p.o.faults)), p.o.requests)
  }

  function PollHear(s: State, w: World, cfg: Config): State
    requires s.p.phase.PollHearing? && s.q.payloadSafety != []
  {
    var m, ph := s.q.payloadSafety[0], s.p.phase;
    Carry(s.(q := s.q.(payloadSafety := s.q.payloadSafety[1..])),
          TakeEvidence(Begin(s.p.payload), m, cfg.payload, ph.now, w),
          PollHearing(ph.now, ph.unsafe || (Qualifies(m, cfg.payload.epoch, ph.now) && Unsafe(m))))
  }

  function PollTurn(s: State, w: World): State
    requires s.p.phase.PollHearing?
  {
    var b := Begin(s.p.payload);
    Carry(s, Install(TakeLocalFaults(b, w)), PollAccepting(s.p.phase.now, s.p.phase.unsafe || UnsafeFaults(b)))
  }

  function PollAccept(s: State, w: World, cfg: Config): State
    requires s.p.phase.PollAccepting? && s.q.payloadActivations != []
  {
    Carry(s.(q := s.q.(payloadActivations := s.q.payloadActivations[1..])),
          TakeActivation(Begin(s.p.payload), s.q.payloadActivations[0], cfg.payload, w), s.p.phase)
  }

  /** The release at the end of a poll, if its drains and the payload's state allow one. */
  function Finish(p: Payload, unsafe: bool, now: real, w: World, cfg: Config): Payload {
    if !unsafe && p.c.latched && Recovering(p.s.last) then TryRelease(p, cfg.payload, now, w) else p
  }

  function PollEnd(s: State, w: World, cfg: Config): State
    requires s.p.phase.PollAccepting?
  {
    var b := Begin(s.p.payload);
    var p := Finish(b, s.p.phase.unsafe, s.p.phase.now, w, cfg);
    var released := b.c.latched && !p.c.latched && b.s.last.Some? && b.s.last.value.requestId.Some?;
    var u := Carry(s, Install(p), PayloadIdle);
    u.(h := u.h.(log := u.h.log + (if released then [PayloadReleased(b.s.last.value.requestId.value)] else [])))
  }

  /** Operations of the control owner come between polls; the capture loop queues its faults at any time. */
  predicate MayAct(s: State, op: PayloadProofs.Op) {
    !op.Poll? && !op.Deliver? && (s.p.phase.PayloadIdle? || op.ImagingFault?)
  }

  function NextPayload(s: State, step: PayloadStep, cfg: Config): State {
    match step
    case PollStarts(now) => if s.p.phase.PayloadIdle? then s.(p := s.p.(phase := PollHearing(now, false))) else s
    case PollHears(w) => if s.p.phase.PollHearing? && s.q.payloadSafety != [] then PollHear(s, w, cfg) else s
    case PollTurns(w) => if s.p.phase.PollHearing? && s.q.payloadSafety == [] then PollTurn(s, w) else s
    case PollAccepts(w) => if s.p.phase.PollAccepting? && s.q.payloadActivations != [] then PollAccept(s, w, cfg) else s
    case PollEnds(w) => if s.p.phase.PollAccepting? && s.q.payloadActivations == [] then PollEnd(s, w, cfg) else s
    case Acts(op, w) =>
      if MayAct(s, op) then Carry(s, PayloadProofs.Apply(s.p.payload, op, cfg.payload, w), s.p.phase) else s
  }

  // --- Everyone else ----------------------------------------------------------------------

  function NextOutside(s: State, step: OutsideStep, cfg: Config): State {
    match step
    case Uplinked(c) =>
      if IngressAccepts(s.lastSeq, c) then
        s.(lastSeq := s.lastSeq[c.source := c.seqNo], q := s.q.(commands := s.q.commands + [c]))
      else s
    case Faulted(e) => Report(s, [e])
    case ModeAsked(r) => Request(s, [r])
    case SyncAsked(sync) => s.(q := s.q.(syncs := s.q.syncs + [sync]))
    case Beaten(name) => s.(q := s.q.(beats := s.q.beats + [name]))
  }

  function Next(s: State, step: Step, cfg: Config): State {
    match step
    case OfRouter(rs) => NextRouter(s, rs, cfg)
    case OfAuthority(aus) => NextAuthority(s, aus, cfg)
    case OfFault(fs) => NextFault(s, fs, cfg)
    case OfPayload(ps) => NextPayload(s, ps, cfg)
    case Outside(os) => NextOutside(s, os, cfg)
  }

  function RunFrom(s: State, steps: seq<Step>, cfg: Config): State {
    if steps == [] then s else Next(RunFrom(s, steps[..|steps| - 1], cfg), Last(steps), cfg)
  }

  lemma {:induction false} RunsJoin(s: State, a: seq<Step>, b: seq<Step>, cfg: Config)
    ensures RunFrom(s, a + b, cfg) == RunFrom(RunFrom(s, a, cfg), b, cfg)
  {
    if b == [] {
      assert a + b == a;
    } else {
      RunsJoin(s, a, b[..|b| - 1], cfg);
      assert (a + b)[..|a + b| - 1] == a + b[..|b| - 1] && Last(a + b) == Last(b);
    }
  }
}
