/** The command router's tick: drain the safety evidence, then route every pending command. */
module CommandRouting {
  import opened Basics
  import opened Evidence
  import opened Routing
  import opened MessageBus

  datatype RouterConfig = RouterConfig(rules: Rules, epoch: string, interval: real)

  datatype Router = Router(armed: map<ArmKey, real>, held: Held)

  /** What one tick has routed so far. `offers` records what each decision was based on. */
  datatype RouterRun = RouterRun(
    armed: map<ArmKey, real>, offers: seq<Offer>, routed: seq<Command>, acks: seq<Ack>, faults: seq<FaultEvent>)

  function OfferOf(c: Command, held: Held, now: real, cfg: RouterConfig): Offer {
    Offer(c, held.latched, Fresh(held, now, cfg.interval), now)
  }

  function RouteOne(run: RouterRun, o: Offer, rules: Rules): RouterRun {
    var r := RouteCommand(o.command, rules, o.latched, o.timely, run.armed, o.now);
    RouterRun(
      r.armed,
      run.offers + [o],
      run.routed + Present(r.routed),
      run.acks + Present(r.ack),
      run.faults + Unroutable(r))
  }

  function Present<T>(o: Option<T>): seq<T> {
    if o.Some? then [o.value] else []
  }

  function Unroutable(r: RouteResult): seq<FaultEvent> {
    if r.unroutable then [FaultEvent(CommandUnroutable, ROUTER)] else []
  }

  /** The i-th command is decided at clock reading i + 1; reading 0 judged the evidence. */
  function RouteAll(run: RouterRun, commands: seq<Command>, held: Held, clock: Clock, cfg: RouterConfig): RouterRun {
    if commands == [] then run
    else
      var n := |commands| - 1;
      RouteOne(RouteAll(run, commands[..n], held, clock, cfg),
               OfferOf(commands[n], held, clock(n + 1), cfg), cfg.rules)
  }

  function RouterTick(
    r: Router, safety: seq<SafetyMsg>, commands: seq<Command>, clock: Clock, cfg: RouterConfig)
    : (Router, RouterRun)
  {
    var held := DrainHeld(r.held, safety, cfg.epoch, clock(0));
    var run := RouteAll(RouterRun(r.armed, [], [], [], []), commands, held, clock, cfg);
    (Router(run.armed, held), run)
  }

  lemma RouteAllStep(run: RouterRun, commands: seq<Command>, i: nat, held: Held, clock: Clock, cfg: RouterConfig)
    requires i < |commands|
    ensures RouteAll(run, commands[..i + 1], held, clock, cfg)
      == RouteOne(RouteAll(run, commands[..i], held, clock, cfg), OfferOf(commands[i], held, clock(i + 1), cfg), cfg.rules)
  {
    assert commands[..i + 1][..i] == commands[..i];
  }

  /** Everything routed was offered, in the order it was offered. */
  lemma {:induction false} RoutedAreOffered(
    run: RouterRun, commands: seq<Command>, held: Held, clock: Clock, cfg: RouterConfig)
    requires run.offers == [] && run.routed == []
    ensures var out := RouteAll(run, commands, held, clock, cfg);
      && |out.offers| == |commands|
      && (forall i :: 0 <= i < |commands| ==> out.offers[i] == OfferOf(commands[i], held, clock(i + 1), cfg))
      && (forall c :: c in out.routed ==> c in commands)
  {
    if commands != [] {
      var n := |commands| - 1;
      RoutedAreOffered(run, commands[..n], held, clock, cfg);
      var front := RouteAll(run, commands[..n], held, clock, cfg);
      var o := OfferOf(commands[n], held, clock(n + 1), cfg);
      AnsweredOnce(o.command, cfg.rules, o.latched, o.timely, front.armed, o.now);
    }
  }

  // --- What a tick sends ------------------------------------------------------------------

  /** The commands offered from a position on that pass, in order. */
  ghost function PassedIn(offers: seq<Offer>, from: nat, rules: Rules): seq<Command> {
    if |offers| <= from then []
    else
      var n := |offers| - 1;
      PassedIn(offers[..n], from, rules) + (if Passes(offers, n, rules) then [offers[n].command] else [])
  }

  /** The answers to those that do not. */
  ghost function AnsweredIn(offers: seq<Offer>, from: nat, rules: Rules): seq<Ack> {
    if |offers| <= from then []
    else
      var n := |offers| - 1;
      AnsweredIn(offers[..n], from, rules) + (if Passes(offers, n, rules) then [] else [AnswerTo(offers[n].command, rules)])
  }

  function UnroutableIn(offers: seq<Offer>, from: nat, rules: Rules): seq<FaultEvent> {
    if |offers| <= from then []
    else
      var n := |offers| - 1;
      UnroutableIn(offers[..n], from, rules)
      + (if offers[n].command.target in rules.routable then [] else [FaultEvent(CommandUnroutable, "command_router")])
  }

  /** What the router has sent since a position of the stream. */
  ghost predicate SentSince(run: RouterRun, past: seq<Offer>, rules: Rules) {
    var all := past + run.offers;
    && run.armed == ArmedBefore(all, |all|, rules)
    && run.routed == PassedIn(all, |past|, rules)
    && run.acks == AnsweredIn(all, |past|, rules)
    && run.faults == UnroutableIn(all, |past|, rules)
  }

  /** The sequences of what was sent grow by what one more offer sends. */
  lemma OneMoreOffer(all: seq<Offer>, o: Offer, from: nat, rules: Rules)
    requires from <= |all|
    ensures var more, n := all + [o], |all|;
      && PassedIn(more, from, rules) == PassedIn(all, from, rules) + (if Passes(more, n, rules) then [o.command] else [])
      && AnsweredIn(more, from, rules)
         == AnsweredIn(all, from, rules) + (if Passes(more, n, rules) then [] else [AnswerTo(o.command, rules)])
      && UnroutableIn(more, from, rules)
         == UnroutableIn(all, from, rules)
            + (if o.command.target in rules.routable then [] else [FaultEvent(CommandUnroutable, "command_router")])
  {
    var more := all + [o];
    assert more[..|more| - 1] == all && more[|all|] == o;
  }

  lemma OneSent(run: RouterRun, past: seq<Offer>, o: Offer, rules: Rules)
    requires SentSince(run, past, rules)
    ensures SentSince(RouteOne(run, o, rules), past, rules)
  {
    var all, n := past + run.offers, |past + run.offers|;
    var more := all + [o];
    assert past + (run.offers + [o]) == more && more[n] == o;
    PastIsFixed(all, [o], n, rules);
    RoutedExactly(more, n, rules);
    OneMoreOffer(all, o, |past|, rules);
    assert ResultAt(more, n, rules) == RouteCommand(o.command, rules, o.latched, o.timely, run.armed, o.now);
    assert ArmedBefore(more, n + 1, rules) == ResultAt(more, n, rules).armed;
  }

  /** An offer names its command, the latch of the evidence held, whether that is at most an interval old, and the
      reading it is decided at. */
  predicate Offers(o: Offer, c: Command, held: Held, now: real, interval: real) {
    && o.command == c && o.latched == held.latched && o.now == now
    && (o.timely <==> held.observed.Some? && held.observed.value <= now <= held.observed.value + interval + TOLERANCE)
  }

  /** A tick offers its queued commands in order, each at its own clock reading and under the evidence just
      drained; it routes exactly those that pass, answers the others, and reports the unroutable ones. */
  lemma TickSendsExactly(
    r: Router, past: seq<Offer>, safety: seq<SafetyMsg>, commands: seq<Command>, clock: Clock, cfg: RouterConfig)
    requires r.armed == ArmedBefore(past, |past|, cfg.rules)
    ensures var (router, run) := RouterTick(r, safety, commands, clock, cfg);
      && SentSince(run, past, cfg.rules) && router.armed == run.armed
      && router.held == DrainHeld(r.held, safety, cfg.epoch, clock(0))
      && |run.offers| == |commands|
      && (forall i :: 0 <= i < |commands| ==> Offers(run.offers[i], commands[i], router.held, clock(i + 1), cfg.interval))
  {
    var held := DrainHeld(r.held, safety, cfg.epoch, clock(0));
    AllSent(r.armed, past, commands, held, clock, cfg);
    RoutedAreOffered(RouterRun(r.armed, [], [], [], []), commands, held, clock, cfg);
  }

  lemma {:induction false} AllSent(
    armed: map<ArmKey, real>, past: seq<Offer>, commands: seq<Command>, held: Held, clock: Clock, cfg: RouterConfig)
    requires armed == ArmedBefore(past, |past|, cfg.rules)
    ensures SentSince(RouteAll(RouterRun(armed, [], [], [], []), commands, held, clock, cfg), past, cfg.rules)
  {
    if commands == [] {
      assert past + [] == past;
    } else {
      var n := |commands| - 1;
      AllSent(armed, past, commands[..n], held, clock, cfg);
      OneSent(RouteAll(RouterRun(armed, [], [], [], []), commands[..n], held, clock, cfg), past,
              OfferOf(commands[n], held, clock(n + 1), cfg), cfg.rules);
    }
  }

  class CommandRouter {
    const cfg: RouterConfig
    const bus: Bus
    var armed: map<ArmKey, real>
    var safeLatched: bool
    var safetyObserved: Option<real>
    var evidenceSequence: int
    /** The faults of the accepted record; the router never reads them. */
    ghost var faults: set<FaultCode>

    constructor (cfg: RouterConfig, bus: Bus)
      ensures this.cfg == cfg && this.bus == bus
      ensures State() == Router(map[], NOTHING_HELD)
    {
      this.cfg, this.bus := cfg, bus;
      armed, safeLatched, safetyObserved, evidenceSequence, faults := map[], false, None, -1, {};
    }

    ghost function State(): Router
      reads this
    {
      Router(armed, Held(evidenceSequence, safetyObserved, safeLatched, faults))
    }

    method Tick(clock: Clock)
      modifies this, bus`routerSafety, bus`commands, bus`authorityRouted, bus`acks, bus`faultEvents, bus`payloadFaults
      ensures var (router, run) := RouterTick(old(State()), old(bus.routerSafety), old(bus.commands), clock, cfg);
        && State() == router
        && bus.authorityRouted == old(bus.authorityRouted) + run.routed
        && bus.acks == old(bus.acks) + run.acks
        && bus.faultEvents == old(bus.faultEvents) + run.faults
        && bus.payloadFaults == old(bus.payloadFaults) + run.faults
      ensures bus.routerSafety == [] && bus.commands == []
    {
      DrainSafety(clock(0));
      ghost var run := RouteQueued(clock);
    }

    /** What the tick has published, given what the bus held when it began. */
    ghost predicate Reached(
        run: RouterRun, held: Held, routed: seq<Command>, acks: seq<Ack>,
        faults: (seq<FaultEvent>, seq<FaultEvent>))
      reads this, bus
    {
      && State() == Router(run.armed, held)
      && bus.authorityRouted == routed + run.routed
      && bus.acks == acks + run.acks
      && bus.faultEvents == faults.0 + run.faults
      && bus.payloadFaults == faults.1 + run.faults
    }

    method RouteQueued(clock: Clock) returns (ghost run: RouterRun)
      modifies this`armed, bus`commands, bus`authorityRouted, bus`acks, bus`faultEvents, bus`payloadFaults
      ensures run == RouteAll(RouterRun(old(armed), [], [], [], []), old(bus.commands), old(State()).held, clock, cfg)
      ensures Reached(run, old(State()).held, old(bus.authorityRouted), old(bus.acks), old((bus.faultEvents, bus.payloadFaults)))
      ensures bus.commands == []
    {
      ghost var start, all := RouterRun(armed, [], [], [], []), bus.commands;
      ghost var held, routed, acks, faults := State().held, bus.authorityRouted, bus.acks, (bus.faultEvents, bus.payloadFaults);
      run := start;
      var i := 0;
      while bus.commands != []
        invariant 0 <= i <= |all| && bus.commands == all[i..]
        invariant run == RouteAll(start, all[..i], held, clock, cfg)
        invariant Reached(run, held, routed, acks, faults)
        decreases |bus.commands|
      {
        var now := clock(i + 1);
        RouteNext(now, run, held, routed, acks, faults);
        RouteAllStep(start, all, i, held, clock, cfg);
        run := RouteOne(run, OfferOf(all[i], held, now, cfg), cfg.rules);
        i := i + 1;
      }
      assert all[..i] == all;
    }

    /** Take one command off the queue, decide it, and publish what the decision says. */
    method RouteNext(now: real,
        ghost run: RouterRun, ghost held: Held, ghost routed: seq<Command>, ghost acks: seq<Ack>,
        ghost faults: (seq<FaultEvent>, seq<FaultEvent>))
      requires bus.commands != [] && Reached(run, held, routed, acks, faults)
      modifies this`armed, bus`commands, bus`authorityRouted, bus`acks, bus`faultEvents, bus`payloadFaults
      ensures Reached(RouteOne(run, OfferOf(old(bus.commands[0]), held, now, cfg), cfg.rules), held, routed, acks, faults)
      ensures bus.commands == old(bus.commands[1..])
    {
      var command := bus.commands[0];
      bus.commands := bus.commands[1..];
      var timely := safetyObserved.Some? && 0.0 <= now - safetyObserved.value <= cfg.interval + TOLERANCE;
      var result := RouteCommand(command, cfg.rules, safeLatched, timely, armed, now);
      armed := result.armed;
      Publish(result);
    }

    method Publish(result: RouteResult)
      modifies bus`authorityRouted, bus`acks, bus`faultEvents, bus`payloadFaults
      ensures bus.authorityRouted == old(bus.authorityRouted) + Present(result.routed)
      ensures bus.acks == old(bus.acks) + Present(result.ack)
      ensures bus.faultEvents == old(bus.faultEvents) + Unroutable(result)
      ensures bus.payloadFaults == old(bus.payloadFaults) + Unroutable(result)
    {
      if result.routed.Some? {
        bus.PublishRouted(result.routed.value);
      }
      if result.ack.Some? {
        bus.PublishAck(result.ack.value);
      }
      if result.unroutable {
        bus.PublishFault(FaultEvent(CommandUnroutable, ROUTER));
      }
    }

    method DrainSafety(now: real)
      modifies this`safeLatched, this`safetyObserved, this`evidenceSequence, this`faults, bus`routerSafety
      ensures State() == old(State()).(held := DrainHeld(old(State()).held, old(bus.routerSafety), cfg.epoch, now))
      ensures bus.routerSafety == []
    {
      ghost var all := bus.routerSafety;
      ghost var i := 0;
      while bus.routerSafety != []
        invariant 0 <= i <= |all| && bus.routerSafety == all[i..]
        invariant State() == old(State()).(held := DrainHeld(old(State()).held, all[..i], cfg.epoch, now))
        decreases |bus.routerSafety|
      {
        var evidence := bus.routerSafety[0];
        bus.routerSafety := bus.routerSafety[1..];
        assert all[..i + 1][..i] == all[..i];
        i := i + 1;
        if evidence.epoch != cfg.epoch || evidence.sequence < 0 || evidence.sequence <= evidenceSequence
           || evidence.observed.NonFinite? || evidence.observed.at > now {
          continue;
        }
        evidenceSequence := evidence.sequence;
        safeLatched := evidence.latched;
        safetyObserved := Some(evidence.observed.at);
        faults := evidence.activeFaults;
      }
      assert all[..i] == all;
    }
  }
}
