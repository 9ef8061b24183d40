/** The SAFE / recovery protocol: router, authority, fault app and payload exchanging messages over
    their queues, each tick taken whole and in any order, with commands arriving through the ingress
    sequence guard. Phases takes the ticks apart into the steps of their threads. */
module Protocol {
  import opened Basics
  import opened Evidence
  import opened Routing
  import opened CommandRouting
  import opened SystemModes
  import opened AuthorityProofs
  import opened Fault
  import opened PayloadContainment
  import PayloadProofs
  import Watchdog

  // --- The system -------------------------------------------------------------------------

  datatype Queues = Queues(
    commands: seq<Command>, routerSafety: seq<SafetyMsg>,
    requests: seq<ModeRequestMsg>, routed: seq<Command>, authoritySafety: seq<SafetyMsg>, syncs: seq<SyncRequestMsg>,
    beats: seq<string>, events: seq<FaultEvent>, faultActivations: seq<Activation>,
    payloadSafety: seq<SafetyMsg>, payloadActivations: seq<Activation>)

  datatype System = System(
    lastSeq: map<string, int>, router: Router, authority: Authority, latch: Latch, entries: seq<Watchdog.Entry>,
    payload: Payload, q: Queues)

  datatype Config = Config(router: RouterConfig, authority: AuthorityConfig, fault: FaultConfig, payload: PayloadConfig)

  /** One epoch for all apps, and the dictionary's entry for EXIT_SAFE. */
  predicate Wired(cfg: Config) {
    && cfg.router.epoch == cfg.authority.epoch == cfg.fault.epoch == cfg.payload.epoch
    && EXIT_SAFE in cfg.router.rules.hazardous
  }

  const EMPTY := Queues([], [], [], [], [], [], [], [], [], [], [])

  function Start(entries: seq<Watchdog.Entry>): System {
    System(map[], Router(map[], NOTHING_HELD), BOOT, CLEARED, entries, UNACTIVATED, EMPTY)
  }

  // --- Steps ------------------------------------------------------------------------------

  /** Ingress accepts a command only if its sequence is newer than any it accepted from that source. */
  predicate IngressAccepts(lastSeq: map<string, int>, c: Command) {
    c.seqNo > (if c.source in lastSeq then lastSeq[c.source] else -1)
  }

  datatype Step =
    | RouterTicks(clock: Clock)
    | AuthorityTicks(clock: Clock)
    | FaultTicks(now: real, ids: Ids)
    | PayloadPolls(now: real, w: World)
    | PayloadActs(op: PayloadProofs.Op, w: World)
    | Uplinked(c: Command)             // a command that passed every ingress check but the sequence
    | Faulted(e: FaultEvent)           // any subsystem reports a fault
    | ModeAsked(r: ModeRequestMsg)     // any subsystem asks for a mode
    | SyncAsked(s: SyncRequestMsg)
    | Beaten(name: string)

  function InboxOf(s: System): Inbox {
    Inbox(s.q.authoritySafety, s.q.requests, s.q.routed, s.q.syncs)
  }

  function RouterRunOf(s: System, clock: Clock, cfg: Config): (Router, RouterRun) {
    RouterTick(s.router, s.q.routerSafety, s.q.commands, clock, cfg.router)
  }

  function AuthorityRunOf(s: System, clock: Clock, cfg: Config): Run {
    AuthorityTick(cfg.authority, s.authority, InboxOf(s), clock)
  }

  function FaultOutOf(s: System, now: real, ids: Ids, cfg: Config): FaultOut {
    FaultTick(cfg.fault, s.latch, s.entries, FaultInbox(s.q.beats, s.q.events, s.q.faultActivations), now, ids)
  }

  function PollOf(s: System, now: real, w: World, cfg: Config): Payload {
    PollActivations(s.payload, s.q.payloadSafety, s.q.payloadActivations, cfg.payload, now, w)
  }

  /** A fault event reaches the fault app and the payload. */
  function Report(s: System, events: seq<FaultEvent>): System {
    s.(q := s.q.(events := s.q.events + events),
       payload := s.payload.(o := s.payload.o.(local := s.payload.o.local + events)))
  }

  function Act(s: System, op: PayloadProofs.Op, w: World, cfg: Config): System {
    if op.Poll? || op.Deliver? then s
    else
      var p := PayloadProofs.Apply(s.payload, op, cfg.payload, w);
      s.(payload := p, q := s.q.(events := s.q.events + p.o.faults))
  }

  function Next(s: System, step: Step, cfg: Config): System {
    match step
    case RouterTicks(clock) =>
      var (router, run) := RouterRunOf(s, clock, cfg);
      Report(s.(router := router, q := s.q.(commands := [], routerSafety := [], routed := s.q.routed + run.routed)), run.faults)
    case AuthorityTicks(clock) =>
      var run := AuthorityRunOf(s, clock, cfg);
      s.(authority := run.a,
         q := s.q.(requests := [], routed := [], authoritySafety := [], syncs := [],
                   faultActivations := s.q.faultActivations + run.activations,
                   payloadActivations := s.q.payloadActivations + run.activations))
    case FaultTicks(now, ids) =>
      var out := FaultOutOf(s, now, ids, cfg);
      s.(latch := out.latch, entries := out.entries,
         q := s.q.(beats := [], events := [], faultActivations := [],
                   requests := s.q.requests + out.requests,
                   routerSafety := s.q.routerSafety + [out.evidence],
                   authoritySafety := s.q.authoritySafety + [out.evidence],
                   payloadSafety := s.q.payloadSafety + [out.evidence]))
    case PayloadPolls(now, w) =>
      var p := PollOf(s, now, w, cfg);
      s.(payload := p,
         q := s.q.(payloadSafety := [], payloadActivations := [],
                   events := s.q.events + p.o.faults, requests := s.q.requests + p.o.requests))
    case PayloadActs(op, w) => Act(s, op, w, cfg)
    case Uplinked(c) =>
      if IngressAccepts(s.lastSeq, c) then
        s.(lastSeq := s.lastSeq[c.source := c.seqNo], q := s.q.(commands := s.q.commands + [c]))
      else s
    case Faulted(e) => Report(s, [e])
    case ModeAsked(r) => s.(q := s.q.(requests := s.q.requests + [r]))
    case SyncAsked(sync) => s.(q := s.q.(syncs := s.q.syncs + [sync]))
    case Beaten(name) => s.(q := s.q.(beats := s.q.beats + [name]))
  }

  // --- History ----------------------------------------------------------------------------

  /** `offered` is how many commands the router had decided by then. */
  datatype Event =
    | Granted(x: Activation, offered: nat)
    | FaultReleased(id: string)
    | PayloadReleased(id: string)

  /** A system with its history: every activation granted, every command offered to the router, the
      keys of the routed commands the authority has drained, the recovery events in order, and the requests
      the authority has decided with the transition records it published. */
  datatype Traced = Traced(
    s: System, chain: seq<Activation>, offers: seq<Offer>, drained: set<(string, int)>, log: seq<Event>,
    asks: seq<Ask>, records: seq<TransitionMsg>)

  function Grants(xs: seq<Activation>, offered: nat): seq<Event> {
    if xs == [] then [] else Grants(xs[..|xs| - 1], offered) + [Granted(Last(xs), offered)]
  }

  /** The recovery ids a drain of activations spends, in order. */
  function SpentIds(l: Latch, xs: seq<Activation>, epoch: string, faultThisTick: bool): seq<string> {
    if xs == [] then []
    else
      var before := ConsumeAll(l, xs[..|xs| - 1], epoch, faultThisTick);
      var after := Consume(before, Last(xs), epoch, faultThisTick);
      SpentIds(l, xs[..|xs| - 1], epoch, faultThisTick)
      + (if after.consumed != before.consumed && after.releasedId.Some? then [after.releasedId.value] else [])
  }

  function FaultReleases(ids: seq<string>): seq<Event> {
    if ids == [] then [] else FaultReleases(ids[..|ids| - 1]) + [FaultReleased(Last(ids))]
  }

  function SpentBy(s: System, now: real, ids: Ids, cfg: Config): seq<string> {
    var raised := RaisedInTick(cfg.fault, s.latch, s.entries, FaultInbox(s.q.beats, s.q.events, s.q.faultActivations), now, ids);
    SpentIds(raised.latch, s.q.faultActivations, cfg.fault.epoch, raised.seen != {})
  }

  predicate PollReleases(s: System, now: real, w: World, cfg: Config) {
    PayloadProofs.Releases(s.payload, s.q.payloadSafety, s.q.payloadActivations, cfg.payload, now, w)
  }

  function KeySet(cs: seq<Command>): set<(string, int)> {
    if cs == [] then {} else KeySet(cs[..|cs| - 1]) + {(Last(cs).source, Last(cs).seqNo)}
  }

  function Trace(t: Traced, step: Step, cfg: Config): Traced {
    var s' := Next(t.s, step, cfg);
    match step
    case RouterTicks(clock) =>
      t.(s := s', offers := t.offers + RouterRunOf(t.s, clock, cfg).1.offers)
    case AuthorityTicks(clock) =>
      var added := Added(cfg.authority, t.s.authority, InboxOf(t.s), clock);
      t.(s := s', chain := t.chain + added, drained := t.drained + KeySet(t.s.q.routed),
         log := t.log + Grants(added, |t.offers|),
         asks := t.asks + Asks(cfg.authority, t.s.authority, InboxOf(t.s)),
         records := t.records + AuthorityRunOf(t.s, clock, cfg).records)
    case FaultTicks(now, ids) =>
      t.(s := s', log := t.log + FaultReleases(SpentBy(t.s, now, ids, cfg)))
    case PayloadPolls(now, w) =>
      t.(s := s', log := t.log + (if PollReleases(t.s, now, w, cfg) then [PayloadReleased(s'.payload.s.last.value.requestId.value)] else []))
    case _ => t.(s := s')
  }

  function TraceFrom(t: Traced, steps: seq<Step>, cfg: Config): Traced {
    if steps == [] then t else Trace(TraceFrom(t, steps[..|steps| - 1], cfg), Last(steps), cfg)
  }

  function Begun(entries: seq<Watchdog.Entry>): Traced {
    Traced(Start(entries), [], [], {}, [], [], [])
  }
}
