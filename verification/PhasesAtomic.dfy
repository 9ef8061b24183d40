/** A tick that nothing interrupts: run phase by phase it is the tick of the router, of the authority and of the
    fault app that Protocol takes in one step. */
module PhasesAtomic {
  import opened Basics
  import opened Evidence
  import opened Routing
  import opened CommandRouting
  import opened Transitions
  import opened SystemModes
  import opened Fault
  import opened PayloadContainment
  import opened Protocol
  import opened Phases
  import Watchdog

  /** The state without phases and history. */
  function View(s: State): System {
    System(s.lastSeq, s.r.router, s.a.authority, s.f.latch, s.f.entries, s.p.payload, s.q)
  }

  function Times(n: nat, step: Phases.Step): (steps: seq<Phases.Step>)
    ensures |steps| == n && forall i :: 0 <= i < n ==> steps[i] == step
  {
    seq(n, _ => step)
  }

  lemma TimesGrow(s: State, n: nat, step: Phases.Step, cfg: Config)
    requires n > 0
    ensures Phases.RunFrom(s, Times(n, step), cfg) == Phases.Next(Phases.RunFrom(s, Times(n - 1, step), cfg), step, cfg)
  {
    assert Times(n, step)[..n - 1] == Times(n - 1, step);
  }

  lemma RunsPast(s: State, steps: seq<Phases.Step>, step: Phases.Step, cfg: Config)
    ensures Phases.RunFrom(s, steps + [step], cfg) == Phases.Next(Phases.RunFrom(s, steps, cfg), step, cfg)
  {
    assert (steps + [step])[..|steps|] == steps && Last(steps + [step]) == step;
  }

  lemma RunsOne(s: State, step: Phases.Step, cfg: Config)
    ensures Phases.RunFrom(s, [step], cfg) == Phases.Next(s, step, cfg)
  {
    assert [step][..0] == [] && Phases.RunFrom(s, [], cfg) == s;
  }

  // --- The fault tick ---------------------------------------------------------------------

  /** Raising one more fault on top of those of the tick so far. */
  lemma RaiseAppends(r: Raised, code: FaultCode, ids: Ids)
    ensures var one := Raise(Raised(r.latch, [], r.seen, r.drawn), code, ids);
      Raise(r, code, ids) == Raised(one.latch, r.requests + one.requests, one.seen, one.drawn)
  {
    assert r.requests + [] == r.requests;
  }

  lemma SliceGrows<T>(xs: seq<T>, n: nat)
    requires n < |xs|
    ensures xs[..n + 1] == xs[..n] + [xs[n]] && xs[n..] == [xs[n]] + xs[n + 1..]
  {
  }

  lemma {:induction false} RaisesRun(s: State, n: nat, cfg: Config)
    requires s.f.phase.Raising? && n <= |s.q.events|
    ensures var ph := s.f.phase;
      var r := RaiseAll(Raised(s.f.latch, [], ph.seen, ph.drawn), s.q.events[..n], ph.ids);
      var t := Phases.RunFrom(s, Times(n, OfFault(Raises)), cfg);
      && t.f == FaultPart(r.latch, s.f.entries, Raising(ph.now, ph.ids, r.seen, r.drawn))
      && t.q == s.q.(events := s.q.events[n..], requests := s.q.requests + r.requests)
      && (t.lastSeq, t.r, t.a, t.p) == (s.lastSeq, s.r, s.a, s.p)
  {
    var ph := s.f.phase;
    if n == 0 {
      assert s.q.requests + [] == s.q.requests;
    } else {
      RaisesRun(s, n - 1, cfg);
      TimesGrow(s, n, OfFault(Raises), cfg);
      SliceGrows(s.q.events, n - 1);
      assert s.q.events[..n][..n - 1] == s.q.events[..n - 1];
      RaiseAppends(RaiseAll(Raised(s.f.latch, [], ph.seen, ph.drawn), s.q.events[..n - 1], ph.ids),
                   s.q.events[n - 1].code, ph.ids);
    }
  }

  lemma {:induction false} ExpiresRun(s: State, n: nat, cfg: Config)
    requires s.f.phase.Expiring? && n <= |s.f.phase.expired|
    ensures var ph := s.f.phase;
      var r := RaiseAll(Raised(s.f.latch, [], ph.seen, ph.drawn), ph.expired[..n], ph.ids);
      var t := Phases.RunFrom(s, Times(n, OfFault(Expires)), cfg);
      && t.f == FaultPart(r.latch, s.f.entries, Expiring(ph.now, ph.ids, r.seen, r.drawn, ph.expired[n..]))
      && t.q == s.q.(requests := s.q.requests + r.requests)
      && (t.lastSeq, t.r, t.a, t.p) == (s.lastSeq, s.r, s.a, s.p)
  {
    var ph := s.f.phase;
    if n == 0 {
      assert s.q.requests + [] == s.q.requests;
    } else {
      ExpiresRun(s, n - 1, cfg);
      TimesGrow(s, n, OfFault(Expires), cfg);
      SliceGrows(ph.expired, n - 1);
      assert ph.expired[..n][..n - 1] == ph.expired[..n - 1];
      RaiseAppends(RaiseAll(Raised(s.f.latch, [], ph.seen, ph.drawn), ph.expired[..n - 1], ph.ids),
                   ph.expired[n - 1].code, ph.ids);
    }
  }

  lemma {:induction false} ConsumesRun(s: State, n: nat, cfg: Config)
    requires s.f.phase.Consuming? && n <= |s.q.faultActivations|
    ensures var t := Phases.RunFrom(s, Times(n, OfFault(Consumes)), cfg);
      && t.f == s.f.(latch := ConsumeAll(s.f.latch, s.q.faultActivations[..n], cfg.fault.epoch, s.f.phase.seen != {}))
      && t.q == s.q.(faultActivations := s.q.faultActivations[n..])
      && (t.lastSeq, t.r, t.a, t.p) == (s.lastSeq, s.r, s.a, s.p)
  {
    if n > 0 {
      ConsumesRun(s, n - 1, cfg);
      TimesGrow(s, n, OfFault(Consumes), cfg);
      SliceGrows(s.q.faultActivations, n - 1);
      assert s.q.faultActivations[..n][..n - 1] == s.q.faultActivations[..n - 1];
    }
  }

  lemma RaisedJoin(l: Latch, events: seq<FaultEvent>, expired: seq<FaultEvent>, ids: Ids)
    ensures var before := RaiseAll(Raised(l, [], {}, 0), events, ids);
      var after := RaiseAll(Raised(before.latch, [], before.seen, before.drawn), expired, ids);
      RaiseAll(before, expired, ids) == Raised(after.latch, before.requests + after.requests, after.seen, after.drawn)
  {
    RaiseAllAppends(RaiseAll(Raised(l, [], {}, 0), events, ids), expired, ids);
  }

  lemma {:induction false} RaiseAllAppends(r: Raised, events: seq<FaultEvent>, ids: Ids)
    ensures var after := RaiseAll(Raised(r.latch, [], r.seen, r.drawn), events, ids);
      RaiseAll(r, events, ids) == Raised(after.latch, r.requests + after.requests, after.seen, after.drawn)
  {
    if events == [] {
      assert r.requests + [] == r.requests;
    } else {
      var front, code := events[..|events| - 1], Last(events).code;
      RaiseAllAppends(r, front, ids);
      var after := RaiseAll(Raised(r.latch, [], r.seen, r.drawn), front, ids);
      RaiseAppends(RaiseAll(r, front, ids), code, ids);
      RaiseAppends(after, code, ids);
    }
  }

  /** The phases of a fault tick that meets no other thread: up to the end of the fault queue, of the watchdog's
      faults, and of the tick. */
  function RaisingSteps(s: State, now: real, ids: Ids): seq<Phases.Step> {
    [OfFault(FaultStarts(now, ids))] + Times(|s.q.events|, OfFault(Raises))
  }

  function ExpiringSteps(expired: nat): seq<Phases.Step> {
    [OfFault(Checks)] + Times(expired, OfFault(Expires)) + [OfFault(Consults)]
  }

  function ConsumingSteps(s: State): seq<Phases.Step> {
    Times(|s.q.faultActivations|, OfFault(Consumes)) + ENDING
  }

  const ENDING := [OfFault(Settles)] + [OfFault(Publishes)]

  function ExpiredIn(s: State, now: real, cfg: Config): seq<FaultEvent> {
    Watchdog.Expired(Watchdog.Heard(s.f.entries, s.q.beats, now), now, cfg.fault.maxMiss)
  }

  function FaultSteps(s: State, now: real, ids: Ids, cfg: Config): seq<Phases.Step> {
    RaisingSteps(s, now, ids) + ExpiringSteps(|ExpiredIn(s, now, cfg)|) + ConsumingSteps(s)
  }

  ghost predicate OthersKept(s: State, t: State) {
    (t.lastSeq, t.r, t.a, t.p) == (s.lastSeq, s.r, s.a, s.p)
  }

  lemma FaultRaises(s: State, now: real, ids: Ids, cfg: Config)
    requires s.f.phase.FaultIdle?
    ensures var t := Phases.RunFrom(s, RaisingSteps(s, now, ids), cfg);
      var r := RaiseAll(Raised(s.f.latch, [], {}, 0), s.q.events, ids);
      && t.f == FaultPart(r.latch, Watchdog.Heard(s.f.entries, s.q.beats, now), Raising(now, ids, r.seen, r.drawn))
      && t.q == s.q.(beats := [], events := [], requests := s.q.requests + r.requests) && OthersKept(s, t)
  {
    var start := OfFault(FaultStarts(now, ids));
    RunsJoin(s, [start], Times(|s.q.events|, OfFault(Raises)), cfg);
    RunsOne(s, start, cfg);
    RaisesRun(Phases.Next(s, start, cfg), |s.q.events|, cfg);
    assert s.q.events[..|s.q.events|] == s.q.events;
  }

  lemma FaultExpires(s: State, cfg: Config)
    requires s.f.phase.Raising? && s.q.events == []
    ensures var ph := s.f.phase;
      var expired := Watchdog.Expired(s.f.entries, ph.now, cfg.fault.maxMiss);
      var t := Phases.RunFrom(s, ExpiringSteps(|expired|), cfg);
      var r := RaiseAll(Raised(s.f.latch, [], ph.seen, ph.drawn), expired, ph.ids);
      && t.f == FaultPart(r.latch, Watchdog.Checked(s.f.entries, ph.now), Consuming(ph.now, r.seen))
      && t.q == s.q.(requests := s.q.requests + r.requests) && OthersKept(s, t)
  {
    var expired := Watchdog.Expired(s.f.entries, s.f.phase.now, cfg.fault.maxMiss);
    var s1 := Phases.Next(s, OfFault(Checks), cfg);
    RunsPast(s, [OfFault(Checks)] + Times(|expired|, OfFault(Expires)), OfFault(Consults), cfg);
    RunsJoin(s, [OfFault(Checks)], Times(|expired|, OfFault(Expires)), cfg);
    RunsOne(s, OfFault(Checks), cfg);
    ExpiresRun(s1, |expired|, cfg);
    assert expired[..|expired|] == expired && expired[|expired|..] == [];
  }

  /** The evidence at the end of a tick, from the latch it ends with. */
  function EvidenceOf(l: Latch, seen: set<FaultCode>, now: real, epoch: string): SafetyMsg {
    SafetyMsg(seen, l.latched, l.reason, epoch, l.evidenceSequence + 1, Finite(now), l.releasedId)
  }

  lemma FaultEnds(s: State, cfg: Config)
    requires s.f.phase.Consuming? && s.q.faultActivations == []
    ensures var ph, l := s.f.phase, s.f.latch;
      var t, m := Phases.RunFrom(s, ENDING, cfg), EvidenceOf(l, ph.seen, ph.now, cfg.fault.epoch);
      && t.f == FaultPart(l.(evidenceSequence := l.evidenceSequence + 1), s.f.entries, FaultIdle)
      && t.q == s.q.(routerSafety := s.q.routerSafety + [m], authoritySafety := s.q.authoritySafety + [m],
                     payloadSafety := s.q.payloadSafety + [m])
      && OthersKept(s, t)
  {
    RunsJoin(s, [OfFault(Settles)], [OfFault(Publishes)], cfg);
    RunsOne(s, OfFault(Settles), cfg);
    RunsOne(Phases.Next(s, OfFault(Settles), cfg), OfFault(Publishes), cfg);
  }

  lemma FaultConsumes(s: State, cfg: Config)
    requires s.f.phase.Consuming?
    ensures var ph, t := s.f.phase, Phases.RunFrom(s, ConsumingSteps(s), cfg);
      var l := ConsumeAll(s.f.latch, s.q.faultActivations, cfg.fault.epoch, ph.seen != {});
      var m := EvidenceOf(l, ph.seen, ph.now, cfg.fault.epoch);
      && t.f == FaultPart(l.(evidenceSequence := l.evidenceSequence + 1), s.f.entries, FaultIdle)
      && t.q == s.q.(faultActivations := [], routerSafety := s.q.routerSafety + [m],
                     authoritySafety := s.q.authoritySafety + [m], payloadSafety := s.q.payloadSafety + [m])
      && OthersKept(s, t)
  {
    var n := |s.q.faultActivations|;
    RunsJoin(s, Times(n, OfFault(Consumes)), ENDING, cfg);
    ConsumesRun(s, n, cfg);
    assert s.q.faultActivations[..n] == s.q.faultActivations && s.q.faultActivations[n..] == [];
    FaultEnds(Phases.RunFrom(s, Times(n, OfFault(Consumes)), cfg), cfg);
  }

  /** Uninterrupted, the phases of a fault tick are the tick. */
  lemma FaultTickIsAtomic(s: State, now: real, ids: Ids, cfg: Config)
    requires s.f.phase.FaultIdle?
    ensures var t := Phases.RunFrom(s, FaultSteps(s, now, ids, cfg), cfg);
      t.f.phase.FaultIdle? && View(t) == Protocol.Next(View(s), FaultTicks(now, ids), cfg)
  {
    var expired := ExpiredIn(s, now, cfg);
    var s1 := Phases.RunFrom(s, RaisingSteps(s, now, ids), cfg);
    var s2 := Phases.RunFrom(s1, ExpiringSteps(|expired|), cfg);
    RunsJoin(s, RaisingSteps(s, now, ids) + ExpiringSteps(|expired|), ConsumingSteps(s), cfg);
    RunsJoin(s, RaisingSteps(s, now, ids), ExpiringSteps(|expired|), cfg);
    FaultRaises(s, now, ids, cfg);
    FaultExpires(s1, cfg);
    assert ConsumingSteps(s2) == ConsumingSteps(s);
    FaultConsumes(s2, cfg);
    RaisedJoin(s.f.latch, s.q.events, expired, ids);
    TickAdds(s, now, ids, cfg);
  }

  lemma TickAdds(s: State, now: real, ids: Ids, cfg: Config)
    ensures var before := RaiseAll(Raised(s.f.latch, [], {}, 0), s.q.events, ids);
      var after := RaiseAll(Raised(before.latch, [], before.seen, before.drawn), ExpiredIn(s, now, cfg), ids);
      s.q.requests + before.requests + after.requests == s.q.requests + (before.requests + after.requests)
  {
  }

  // --- The router tick --------------------------------------------------------------------

  lemma {:induction false} RouterHearsRun(s: State, n: nat, cfg: Config)
    requires s.r.phase.RouterHearing? && n <= |s.q.routerSafety|
    ensures var t := Phases.RunFrom(s, Times(n, OfRouter(RouterHears)), cfg);
      t == s.(r := s.r.(router := s.r.router.(
                          held := DrainHeld(s.r.router.held, s.q.routerSafety[..n], cfg.router.epoch, s.r.phase.now))),
              q := s.q.(routerSafety := s.q.routerSafety[n..]))
  {
    if n > 0 {
      RouterHearsRun(s, n - 1, cfg);
      TimesGrow(s, n, OfRouter(RouterHears), cfg);
      SliceGrows(s.q.routerSafety, n - 1);
      assert s.q.routerSafety[..n][..n - 1] == s.q.routerSafety[..n - 1];
    }
  }

  /** The i-th command is decided at clock reading i + 1. */
  function Routings(n: nat, clock: Clock): (steps: seq<Phases.Step>)
    ensures |steps| == n && forall i :: 0 <= i < n ==> steps[i] == OfRouter(RouterRoutes(clock(i + 1)))
  {
    seq(n, i requires 0 <= i < n => OfRouter(RouterRoutes(clock(i + 1))))
  }

  lemma RouteAppends(run: RouterRun, o: Offer, rules: Rules)
    ensures var one := RouteOne(RouterRun(run.armed, [], [], [], []), o, rules);
      RouteOne(run, o, rules)
        == RouterRun(one.armed, run.offers + [o], run.routed + one.routed, run.acks + one.acks, run.faults + one.faults)
  {
  }

  /** What a stretch of routing leaves, compared with the state it began in. */
  ghost predicate RoutedSoFar(s: State, t: State, run: RouterRun, n: nat)
    requires n <= |s.q.commands|
  {
    && t.r == RouterPart(Router(run.armed, s.r.router.held), RouterRouting)
    && t.q == s.q.(commands := s.q.commands[n..], routed := s.q.routed + run.routed, events := s.q.events + run.faults)
    && t.p == s.p.(payload := s.p.payload.(o := s.p.payload.o.(local := s.p.payload.o.local + run.faults)))
    && (t.lastSeq, t.a, t.f) == (s.lastSeq, s.a, s.f)
  }

  lemma RoutedMore(s: State, t: State, run: RouterRun, n: nat, at: real, cfg: Config)
    requires n < |s.q.commands| && RoutedSoFar(s, t, run, n)
    ensures var o := OfferOf(s.q.commands[n], s.r.router.held, at, cfg.router);
      RoutedSoFar(s, Phases.Next(t, OfRouter(RouterRoutes(at)), cfg), RouteOne(run, o, cfg.router.rules), n + 1)
  {
    var o := OfferOf(s.q.commands[n], s.r.router.held, at, cfg.router);
    RouteAppends(run, o, cfg.router.rules);
    SliceGrows(s.q.commands, n);
  }

  lemma {:induction false} RoutesRun(s: State, n: nat, clock: Clock, cfg: Config)
    requires s.r.phase.RouterRouting? && n <= |s.q.commands|
    ensures var run :=
        RouteAll(RouterRun(s.r.router.armed, [], [], [], []), s.q.commands[..n], s.r.router.held, clock, cfg.router);
      RoutedSoFar(s, Phases.RunFrom(s, Routings(n, clock), cfg), run, n)
  {
    if n == 0 {
      assert s.q.routed + [] == s.q.routed && s.q.events + [] == s.q.events;
      assert s.p.payload.o.local + [] == s.p.payload.o.local;
    } else {
      RoutesRun(s, n - 1, clock, cfg);
      assert Routings(n, clock)[..n - 1] == Routings(n - 1, clock);
      RouteAllStep(RouterRun(s.r.router.armed, [], [], [], []), s.q.commands, n - 1, s.r.router.held, clock, cfg.router);
      RoutedMore(s, Phases.RunFrom(s, Routings(n - 1, clock), cfg),
                 RouteAll(RouterRun(s.r.router.armed, [], [], [], []), s.q.commands[..n - 1], s.r.router.held, clock, cfg.router),
                 n - 1, clock(n), cfg);
    }
  }

  function RouterListening(s: State, clock: Clock): seq<Phases.Step> {
    [OfRouter(RouterStarts(clock(0)))] + Times(|s.q.routerSafety|, OfRouter(RouterHears)) + [OfRouter(RouterTurns)]
  }

  function RouterSteps(s: State, clock: Clock): seq<Phases.Step> {
    RouterListening(s, clock) + Routings(|s.q.commands|, clock) + [OfRouter(RouterRests)]
  }

  lemma RouterListens(s: State, clock: Clock, cfg: Config)
    requires s.r.phase.RouterIdle?
    ensures Phases.RunFrom(s, RouterListening(s, clock), cfg)
      == s.(r := RouterPart(s.r.router.(held := DrainHeld(s.r.router.held, s.q.routerSafety, cfg.router.epoch, clock(0))),
                            RouterRouting),
            q := s.q.(routerSafety := []))
  {
    var start, n := OfRouter(RouterStarts(clock(0))), |s.q.routerSafety|;
    var s1 := Phases.Next(s, start, cfg);
    RunsJoin(s, [start] + Times(n, OfRouter(RouterHears)), [OfRouter(RouterTurns)], cfg);
    RunsJoin(s, [start], Times(n, OfRouter(RouterHears)), cfg);
    RunsOne(s, start, cfg);
    RouterHearsRun(s1, n, cfg);
    assert s.q.routerSafety[..n] == s.q.routerSafety;
    RunsOne(Phases.RunFrom(s1, Times(n, OfRouter(RouterHears)), cfg), OfRouter(RouterTurns), cfg);
  }

  lemma RouterEnds(s: State, t: State, clock: Clock, cfg: Config)
    requires var held := DrainHeld(s.r.router.held, s.q.routerSafety, cfg.router.epoch, clock(0));
      var from := s.(r := RouterPart(s.r.router.(held := held), RouterRouting), q := s.q.(routerSafety := []));
      RoutedSoFar(from, t, RouteAll(RouterRun(s.r.router.armed, [], [], [], []), s.q.commands, held, clock, cfg.router),
                  |s.q.commands|)
    ensures var u := Phases.Next(t, OfRouter(RouterRests), cfg);
      u.r.phase.RouterIdle? && View(u) == Protocol.Next(View(s), RouterTicks(clock), cfg)
  {
  }

  /** Uninterrupted, the phases of a router tick are the tick. */
  lemma RouterTickIsAtomic(s: State, clock: Clock, cfg: Config)
    requires s.r.phase.RouterIdle?
    ensures var t := Phases.RunFrom(s, RouterSteps(s, clock), cfg);
      t.r.phase.RouterIdle? && View(t) == Protocol.Next(View(s), RouterTicks(clock), cfg)
  {
    var n := |s.q.commands|;
    var s1 := Phases.RunFrom(s, RouterListening(s, clock), cfg);
    var s2 := Phases.RunFrom(s1, Routings(n, clock), cfg);
    RunsJoin(s, RouterListening(s, clock) + Routings(n, clock), [OfRouter(RouterRests)], cfg);
    RunsJoin(s, RouterListening(s, clock), Routings(n, clock), cfg);
    RunsOne(s2, OfRouter(RouterRests), cfg);
    RouterListens(s, clock, cfg);
    RoutesRun(s1, n, clock, cfg);
    assert s.q.commands[..n] == s.q.commands;
    RouterEnds(s, s2, clock, cfg);
  }

  // --- The authority tick -----------------------------------------------------------------

  /** A decision depends on the authority alone; a run only collects what decisions publish. */
  lemma ProcessAppends(cfg: AuthorityConfig, run: Run, ask: Ask, safety: SafetyEvidence, now: real)
    ensures var one := Process(cfg, NewRun(run.a), ask, safety, now);
      var after := Process(cfg, run, ask, safety, now);
      && after.a == one.a && after.activations == run.activations + one.activations
      && after.decided == run.decided + 1
  {
    var one := Process(cfg, NewRun(run.a), ask, safety, now);
    assert run.activations + [] == run.activations;
  }

  /** What the authority has done since it began, compared with the state it began in. */
  ghost predicate DecidedSoFar(s: State, t: State, run: Run) {
    && t.a.authority == run.a
    && t.q.faultActivations == s.q.faultActivations + run.activations
    && t.q.payloadActivations == s.q.payloadActivations + run.activations
  }

  /** What the authority does not touch. */
  ghost predicate RestKept(s: State, t: State) {
    && (t.lastSeq, t.r, t.f, t.p) == (s.lastSeq, s.r, s.f, s.p)
    && (t.q.commands, t.q.routerSafety, t.q.beats, t.q.events, t.q.payloadSafety)
       == (s.q.commands, s.q.routerSafety, s.q.beats, s.q.events, s.q.payloadSafety)
  }

  lemma DecidedMore(s: State, t: State, run: Run, ask: Ask, safety: SafetyEvidence, at: real, cfg: Config)
    requires DecidedSoFar(s, t, run)
    ensures DecidedSoFar(s, DecideOne(t, ask, safety, at, cfg), Process(cfg.authority, run, ask, safety, at))
  {
    ProcessAppends(cfg.authority, run, ask, safety, at);
  }

  lemma {:induction false} HearsRun(s: State, n: nat, cfg: Config)
    requires s.a.phase.Hearing? && s.a.phase.faults == {} && n <= |s.q.authoritySafety|
    ensures var msgs, now := s.q.authoritySafety[..n], s.a.phase.now;
      var t := Phases.RunFrom(s, Times(n, OfAuthority(Hears)), cfg);
      t == s.(a := AuthorityPart(
                     s.a.authority.(held := DrainHeld(s.a.authority.held, msgs, cfg.authority.epoch, now)),
                     Hearing(now, SystemModes.DrainFaults(s.a.authority.held, msgs, cfg.authority.epoch, now))),
              q := s.q.(authoritySafety := s.q.authoritySafety[n..]))
  {
    if n > 0 {
      HearsRun(s, n - 1, cfg);
      TimesGrow(s, n, OfAuthority(Hears), cfg);
      SliceGrows(s.q.authoritySafety, n - 1);
      assert s.q.authoritySafety[..n][..n - 1] == s.q.authoritySafety[..n - 1];
    }
  }

  function OpeningSteps(s: State, clock: Clock): seq<Phases.Step> {
    [OfAuthority(Starts(clock(0)))] + Times(|s.q.authoritySafety|, OfAuthority(Hears)) + [OfAuthority(Opens(clock(1)))]
  }

  lemma AuthorityHears(s: State, clock: Clock, cfg: Config)
    requires s.a.phase.AuthorityIdle?
    ensures var n, a := |s.q.authoritySafety|, s.a.authority;
      Phases.RunFrom(s, [OfAuthority(Starts(clock(0)))] + Times(n, OfAuthority(Hears)), cfg)
        == s.(a := AuthorityPart(
                     a.(held := DrainHeld(a.held, s.q.authoritySafety, cfg.authority.epoch, clock(0))),
                     Hearing(clock(0), SystemModes.DrainFaults(a.held, s.q.authoritySafety, cfg.authority.epoch, clock(0)))),
              q := s.q.(authoritySafety := []))
  {
    var start, n := OfAuthority(Starts(clock(0))), |s.q.authoritySafety|;
    RunsJoin(s, [start], Times(n, OfAuthority(Hears)), cfg);
    RunsOne(s, start, cfg);
    HearsRun(Phases.Next(s, start, cfg), n, cfg);
    assert s.q.authoritySafety[..n] == s.q.authoritySafety && s.q.authoritySafety[n..] == [];
  }

  lemma AuthorityOpens(s: State, clock: Clock, cfg: Config)
    requires s.a.phase.AuthorityIdle?
    ensures var t := Phases.RunFrom(s, OpeningSteps(s, clock), cfg);
      var inbox := InboxOf(View(s));
      && DecidedSoFar(s, t, Opened(cfg.authority, s.a.authority, inbox, clock)) && RestKept(s, t)
      && t.a.phase == Asking(EffectiveAt(cfg.authority, s.a.authority, inbox, clock(0)), false)
      && (t.q.authoritySafety, t.q.requests, t.q.routed, t.q.syncs) == ([], s.q.requests, s.q.routed, s.q.syncs)
  {
    AuthorityHears(s, clock, cfg);
    RunsPast(s, [OfAuthority(Starts(clock(0)))] + Times(|s.q.authoritySafety|, OfAuthority(Hears)),
             OfAuthority(Opens(clock(1))), cfg);
    assert s.q.faultActivations + [] == s.q.faultActivations && s.q.payloadActivations + [] == s.q.payloadActivations;
  }

  /** Each request is decided at the clock reading its place among the decisions gives it. */
  function Decisions(
    run: Run, requests: seq<ModeRequestMsg>, safety: SafetyEvidence, clock: Clock, cfg: Config): seq<Phases.Step>
  {
    if requests == [] then []
    else
      var front := requests[..|requests| - 1];
      Decisions(run, front, safety, clock, cfg)
      + [OfAuthority(Decides(clock(ProcessRequests(cfg.authority, run, front, safety, clock).decided + 1)))]
  }

  lemma OneDecides(s: State, u: State, run: Run, at: real, cfg: Config)
    requires s.a.phase.Asking? && s.q.requests != [] && DecidedSoFar(u, s, run)
    ensures var t := Phases.Next(s, OfAuthority(Decides(at)), cfg);
      && DecidedSoFar(u, t, Process(cfg.authority, run, AskOfRequest(s.q.requests[0]), s.a.phase.safety, at)) && RestKept(s, t)
      && t.a.phase == Asking(s.a.phase.safety, s.a.phase.safe || s.q.requests[0].mode == Safe)
      && (t.q.authoritySafety, t.q.requests, t.q.routed, t.q.syncs)
         == (s.q.authoritySafety, s.q.requests[1..], s.q.routed, s.q.syncs)
  {
    var r := s.q.requests[0];
    var taken := s.(a := s.a.(phase := Asking(s.a.phase.safety, s.a.phase.safe || r.mode == Safe)),
                    q := s.q.(requests := s.q.requests[1..]));
    DecidedMore(u, taken, run, AskOfRequest(r), s.a.phase.safety, at, cfg);
  }

  /** How far the authority is through the requests it found. */
  ghost predicate Requested(s: State, t: State, u: State, run: Run, n: nat)
    requires s.a.phase.Asking? && n <= |s.q.requests|
  {
    && DecidedSoFar(u, t, run) && RestKept(s, t)
    && t.a.phase == Asking(s.a.phase.safety, s.a.phase.safe || RequestsSafe(s.q.requests[..n]))
    && (t.q.authoritySafety, t.q.requests, t.q.routed, t.q.syncs)
       == (s.q.authoritySafety, s.q.requests[n..], s.q.routed, s.q.syncs)
  }

  lemma RequestedMore(
      s: State, steps: seq<Phases.Step>, longer: seq<Phases.Step>, u: State, run: Run, after: Run, n: nat, at: real, cfg: Config)
    requires longer == steps + [OfAuthority(Decides(at))]
    requires s.a.phase.Asking? && n < |s.q.requests| && Requested(s, Phases.RunFrom(s, steps, cfg), u, run, n)
    requires after == Process(cfg.authority, run, AskOfRequest(s.q.requests[n]), s.a.phase.safety, at)
    ensures Requested(s, Phases.RunFrom(s, longer, cfg), u, after, n + 1)
  {
    SliceGrows(s.q.requests, n);
    OneDecides(Phases.RunFrom(s, steps, cfg), u, run, at, cfg);
    RunsPast(s, steps, OfAuthority(Decides(at)), cfg);
    assert RequestsSafe(s.q.requests[..n + 1]) <==> RequestsSafe(s.q.requests[..n]) || s.q.requests[n].mode == Safe;
  }

  lemma LastProcessed(
      run: Run, front: seq<ModeRequestMsg>, r: ModeRequestMsg, safety: SafetyEvidence, clock: Clock, cfg: Config, before: Run,
      after: Run)
    requires before == ProcessRequests(cfg.authority, run, front, safety, clock)
    requires after == ProcessRequests(cfg.authority, run, front + [r], safety, clock)
    ensures after == Process(cfg.authority, before, AskOfRequest(r), safety, clock(before.decided + 1))
  {
    var all := front + [r];
    assert all[..|all| - 1] == front && Last(all) == r;
  }

  lemma LastDecided(run: Run, front: seq<ModeRequestMsg>, r: ModeRequestMsg, safety: SafetyEvidence, clock: Clock, cfg: Config)
    ensures var before := ProcessRequests(cfg.authority, run, front, safety, clock);
      Decisions(run, front + [r], safety, clock, cfg)
        == Decisions(run, front, safety, clock, cfg) + [OfAuthority(Decides(clock(before.decided + 1)))]
  {
    assert (front + [r])[..|front|] == front && Last(front + [r]) == r;
  }

  /** The last of the requests, and the step it takes. */
  lemma LastRequest(run: Run, requests: seq<ModeRequestMsg>, n: nat, safety: SafetyEvidence, clock: Clock, cfg: Config)
    returns (before: Run, after: Run, steps: seq<Phases.Step>, longer: seq<Phases.Step>)
    requires n < |requests|
    ensures before == ProcessRequests(cfg.authority, run, requests[..n], safety, clock)
    ensures after == ProcessRequests(cfg.authority, run, requests[..n + 1], safety, clock)
    ensures steps == Decisions(run, requests[..n], safety, clock, cfg)
    ensures longer == Decisions(run, requests[..n + 1], safety, clock, cfg)
    ensures after == Process(cfg.authority, before, AskOfRequest(requests[n]), safety, clock(before.decided + 1))
    ensures longer == steps + [OfAuthority(Decides(clock(before.decided + 1)))]
  {
    SliceGrows(requests, n);
    var front, r := requests[..n], requests[n];
    before := ProcessRequests(cfg.authority, run, front, safety, clock);
    after := ProcessRequests(cfg.authority, run, front + [r], safety, clock);
    LastProcessed(run, front, r, safety, clock, cfg, before, after);
    steps := Decisions(run, front, safety, clock, cfg);
    longer := steps + [OfAuthority(Decides(clock(before.decided + 1)))];
    LastDecided(run, front, r, safety, clock, cfg);
  }

  ghost predicate RequestedUpTo(s: State, u: State, run: Run, n: nat, clock: Clock, cfg: Config)
    requires s.a.phase.Asking? && n <= |s.q.requests|
  {
    var requests, safety := s.q.requests[..n], s.a.phase.safety;
    Requested(s, Phases.RunFrom(s, Decisions(run, requests, safety, clock, cfg), cfg), u,
              ProcessRequests(cfg.authority, run, requests, safety, clock), n)
  }

  lemma NoneRequested(s: State, u: State, run: Run, clock: Clock, cfg: Config)
    requires s.a.phase.Asking? && DecidedSoFar(u, s, run)
    ensures RequestedUpTo(s, u, run, 0, clock, cfg)
  {
    assert Decisions(run, s.q.requests[..0], s.a.phase.safety, clock, cfg) == [];
    assert Phases.RunFrom(s, [], cfg) == s;
  }

  lemma OneRequested(s: State, u: State, run: Run, n: nat, clock: Clock, cfg: Config)
    requires s.a.phase.Asking? && n < |s.q.requests| && RequestedUpTo(s, u, run, n, clock, cfg)
    ensures RequestedUpTo(s, u, run, n + 1, clock, cfg)
  {
    var before, after, steps, longer := LastRequest(run, s.q.requests, n, s.a.phase.safety, clock, cfg);
    RequestedMore(s, steps, longer, u, before, after, n, clock(before.decided + 1), cfg);
  }

  lemma {:induction false} DecidesRun(s: State, u: State, run: Run, n: nat, clock: Clock, cfg: Config)
    requires s.a.phase.Asking? && n <= |s.q.requests| && DecidedSoFar(u, s, run)
    ensures RequestedUpTo(s, u, run, n, clock, cfg)
  {
    if n == 0 {
      NoneRequested(s, u, run, clock, cfg);
    } else {
      DecidesRun(s, u, run, n - 1, clock, cfg);
      OneRequested(s, u, run, n - 1, clock, cfg);
    }
  }

  // --- The authority's commands -----------------------------------------------------------

  /** A command of the batch takes a clock reading only if it is decided. */
  function Commandings(
    run: Run, batch: seq<Command>, safe: bool, safety: SafetyEvidence, clock: Clock, cfg: Config): seq<Phases.Step>
  {
    if batch == [] then []
    else
      var front := batch[..|batch| - 1];
      Commandings(run, front, safe, safety, clock, cfg)
      + [OfAuthority(Commands(clock(HandleCommands(cfg.authority, run, front, safe, safety, clock).decided + 1)))]
  }

  lemma CommandAppends(run: Run, c: Command, safe: bool, safety: SafetyEvidence, clock: Clock, cfg: Config)
    ensures var one := CommandRun(run.a, c, safe, safety, clock(run.decided + 1), cfg);
      var after := if c.target == SYSTEM_MODES then HandleCommand(cfg.authority, run, c, safe, safety, clock) else run;
      after.a == one.a && after.activations == run.activations + one.activations
  {
    if c.target == SYSTEM_MODES && AskOfCommand(c, safe).Some? {
      ProcessAppends(cfg.authority, run, AskOfCommand(c, safe).value, safety, clock(run.decided + 1));
    } else {
      assert run.activations + [] == run.activations;
    }
  }

  lemma OneCommands(s: State, u: State, run: Run, clock: Clock, cfg: Config)
    requires s.a.phase.Commanding? && s.a.phase.batch != [] && DecidedSoFar(u, s, run)
    requires CommandsSafe(s.a.phase.batch[0]) ==> s.a.phase.safe
    ensures var c, ph := s.a.phase.batch[0], s.a.phase;
      var t := Phases.Next(s, OfAuthority(Commands(clock(run.decided + 1))), cfg);
      var after := if c.target == SYSTEM_MODES then HandleCommand(cfg.authority, run, c, ph.safe, ph.safety, clock) else run;
      && DecidedSoFar(u, t, after) && RestKept(s, t)
      && t.a.phase == Commanding(ph.safety, ph.safe, ph.batch[1..])
      && (t.q.authoritySafety, t.q.requests, t.q.routed, t.q.syncs)
         == (s.q.authoritySafety, s.q.requests, s.q.routed, s.q.syncs)
  {
    CommandAppends(run, s.a.phase.batch[0], s.a.phase.safe, s.a.phase.safety, clock, cfg);
  }

  /** The last command of a batch, and the step it takes. */
  lemma LastCommand(run: Run, batch: seq<Command>, n: nat, safe: bool, safety: SafetyEvidence, clock: Clock, cfg: Config)
    returns (before: Run, after: Run, steps: seq<Phases.Step>, longer: seq<Phases.Step>)
    requires n < |batch|
    ensures before == HandleCommands(cfg.authority, run, batch[..n], safe, safety, clock)
    ensures after == HandleCommands(cfg.authority, run, batch[..n + 1], safe, safety, clock)
    ensures steps == Commandings(run, batch[..n], safe, safety, clock, cfg)
    ensures longer == Commandings(run, batch[..n + 1], safe, safety, clock, cfg)
    ensures after == if batch[n].target == SYSTEM_MODES
                     then HandleCommand(cfg.authority, before, batch[n], safe, safety, clock) else before
    ensures longer == steps + [OfAuthority(Commands(clock(before.decided + 1)))]
  {
    assert batch[..n + 1][..n] == batch[..n] && Last(batch[..n + 1]) == batch[n];
    before := HandleCommands(cfg.authority, run, batch[..n], safe, safety, clock);
    after := HandleCommands(cfg.authority, run, batch[..n + 1], safe, safety, clock);
    steps := Commandings(run, batch[..n], safe, safety, clock, cfg);
    longer := Commandings(run, batch[..n + 1], safe, safety, clock, cfg);
  }

  /** How far the authority is through its batch. */
  ghost predicate Commanded(s: State, t: State, u: State, run: Run, n: nat)
    requires s.a.phase.Commanding? && n <= |s.a.phase.batch|
  {
    && DecidedSoFar(u, t, run) && RestKept(s, t)
    && t.a.phase == Commanding(s.a.phase.safety, s.a.phase.safe, s.a.phase.batch[n..])
    && (t.q.authoritySafety, t.q.requests, t.q.routed, t.q.syncs)
       == (s.q.authoritySafety, s.q.requests, s.q.routed, s.q.syncs)
  }

  lemma CommandedMore(
      s: State, steps: seq<Phases.Step>, longer: seq<Phases.Step>, u: State, run: Run, after: Run, n: nat, clock: Clock,
      cfg: Config)
    requires longer == steps + [OfAuthority(Commands(clock(run.decided + 1)))]
    requires s.a.phase.Commanding? && n < |s.a.phase.batch| && Commanded(s, Phases.RunFrom(s, steps, cfg), u, run, n)
    requires BatchSafe(s.a.phase.batch) ==> s.a.phase.safe
    requires after == if s.a.phase.batch[n].target == SYSTEM_MODES
                      then HandleCommand(cfg.authority, run, s.a.phase.batch[n], s.a.phase.safe, s.a.phase.safety, clock) else run
    ensures Commanded(s, Phases.RunFrom(s, longer, cfg), u, after, n + 1)
  {
    SliceGrows(s.a.phase.batch, n);
    assert s.a.phase.batch[n] in s.a.phase.batch;
    OneCommands(Phases.RunFrom(s, steps, cfg), u, run, clock, cfg);
    RunsPast(s, steps, OfAuthority(Commands(clock(run.decided + 1))), cfg);
  }

  ghost predicate CommandedUpTo(s: State, u: State, run: Run, n: nat, clock: Clock, cfg: Config)
    requires s.a.phase.Commanding? && n <= |s.a.phase.batch|
  {
    var ph, batch := s.a.phase, s.a.phase.batch[..n];
    Commanded(s, Phases.RunFrom(s, Commandings(run, batch, ph.safe, ph.safety, clock, cfg), cfg), u,
              HandleCommands(cfg.authority, run, batch, ph.safe, ph.safety, clock), n)
  }

  lemma NoneCommanded(s: State, u: State, run: Run, clock: Clock, cfg: Config)
    requires s.a.phase.Commanding? && DecidedSoFar(u, s, run)
    ensures CommandedUpTo(s, u, run, 0, clock, cfg)
  {
    assert Commandings(run, s.a.phase.batch[..0], s.a.phase.safe, s.a.phase.safety, clock, cfg) == [];
    assert Phases.RunFrom(s, [], cfg) == s;
  }

  lemma OneCommanded(s: State, u: State, run: Run, n: nat, clock: Clock, cfg: Config)
    requires s.a.phase.Commanding? && n < |s.a.phase.batch| && CommandedUpTo(s, u, run, n, clock, cfg)
    requires BatchSafe(s.a.phase.batch) ==> s.a.phase.safe
    ensures CommandedUpTo(s, u, run, n + 1, clock, cfg)
  {
    var ph := s.a.phase;
    var before, after, steps, longer := LastCommand(run, ph.batch, n, ph.safe, ph.safety, clock, cfg);
    CommandedMore(s, steps, longer, u, before, after, n, clock, cfg);
  }

  lemma {:induction false} CommandsRun(s: State, u: State, run: Run, n: nat, clock: Clock, cfg: Config)
    requires s.a.phase.Commanding? && n <= |s.a.phase.batch| && DecidedSoFar(u, s, run)
    requires BatchSafe(s.a.phase.batch) ==> s.a.phase.safe
    ensures CommandedUpTo(s, u, run, n, clock, cfg)
  {
    if n == 0 {
      NoneCommanded(s, u, run, clock, cfg);
    } else {
      CommandsRun(s, u, run, n - 1, clock, cfg);
      OneCommanded(s, u, run, n - 1, clock, cfg);
    }
  }

  // --- The authority's replies ------------------------------------------------------------

  lemma OneReplies(s: State, u: State, run: Run, cfg: Config)
    requires s.a.phase.Replying? && s.q.syncs != [] && DecidedSoFar(u, s, run)
    ensures var t, sync := Phases.Next(s, OfAuthority(Replies), cfg), s.q.syncs[0];
      var after := if sync.expectedEpoch == cfg.authority.epoch && run.a.active.Some?
                   then run.(activations := run.activations + [run.a.active.value]) else run;
      && DecidedSoFar(u, t, after) && RestKept(s, t) && t.a.phase == Replying
      && (t.q.authoritySafety, t.q.requests, t.q.routed, t.q.syncs)
         == (s.q.authoritySafety, s.q.requests, s.q.routed, s.q.syncs[1..])
  {
  }

  lemma {:induction false} RepliesRun(s: State, u: State, run: Run, n: nat, cfg: Config)
    requires s.a.phase.Replying? && n <= |s.q.syncs| && DecidedSoFar(u, s, run)
    ensures var t := Phases.RunFrom(s, Times(n, OfAuthority(Replies)), cfg);
      && DecidedSoFar(u, t, ReplySyncs(cfg.authority, run, s.q.syncs[..n])) && RestKept(s, t) && t.a.phase == Replying
      && (t.q.authoritySafety, t.q.requests, t.q.routed, t.q.syncs)
         == (s.q.authoritySafety, s.q.requests, s.q.routed, s.q.syncs[n..])
  {
    if n > 0 {
      RepliesRun(s, u, run, n - 1, cfg);
      SliceGrows(s.q.syncs, n - 1);
      assert s.q.syncs[..n][..n - 1] == s.q.syncs[..n - 1] && Last(s.q.syncs[..n]) == s.q.syncs[n - 1];
      TimesGrow(s, n, OfAuthority(Replies), cfg);
      OneReplies(Phases.RunFrom(s, Times(n - 1, OfAuthority(Replies)), cfg), u,
                 ReplySyncs(cfg.authority, run, s.q.syncs[..n - 1]), cfg);
    }
  }

  // --- The authority tick as a whole ------------------------------------------------------

  function OpenedIn(s: State, clock: Clock, cfg: Config): Run {
    Opened(cfg.authority, s.a.authority, InboxOf(View(s)), clock)
  }

  function EffectiveIn(s: State, clock: Clock, cfg: Config): SafetyEvidence {
    EffectiveAt(cfg.authority, s.a.authority, InboxOf(View(s)), clock(0))
  }

  function RequestedIn(s: State, clock: Clock, cfg: Config): Run {
    ProcessRequests(cfg.authority, OpenedIn(s, clock, cfg), s.q.requests, EffectiveIn(s, clock, cfg), clock)
  }

  function AskingSteps(s: State, clock: Clock, cfg: Config): seq<Phases.Step> {
    OpeningSteps(s, clock) + Decisions(OpenedIn(s, clock, cfg), s.q.requests, EffectiveIn(s, clock, cfg), clock, cfg)
  }

  const COLLECTING := [OfAuthority(Turns)] + [OfAuthority(Collects)]

  function CommandingSteps(s: State, clock: Clock, cfg: Config): seq<Phases.Step> {
    Commandings(RequestedIn(s, clock, cfg), s.q.routed, SafeAsked(InboxOf(View(s))), EffectiveIn(s, clock, cfg), clock, cfg)
    + [OfAuthority(Finishes)]
  }

  /** The phases of an authority tick that meets no other thread. */
  function AuthoritySteps(s: State, clock: Clock, cfg: Config): seq<Phases.Step> {
    AskingSteps(s, clock, cfg) + COLLECTING + CommandingSteps(s, clock, cfg)
    + (Times(|s.q.syncs|, OfAuthority(Replies)) + [OfAuthority(Rests)])
  }

  /** From the state the tick opens with, whatever run led there. */
  lemma AsksAll(s: State, u: State, run: Run, clock: Clock, cfg: Config)
    requires s.a.phase.Asking? && !s.a.phase.safe && DecidedSoFar(u, s, run) && RestKept(u, s)
    ensures var safety := s.a.phase.safety;
      var t := Phases.RunFrom(s, Decisions(run, s.q.requests, safety, clock, cfg), cfg);
      && DecidedSoFar(u, t, ProcessRequests(cfg.authority, run, s.q.requests, safety, clock)) && RestKept(u, t)
      && t.a.phase == Asking(safety, RequestsSafe(s.q.requests))
      && (t.q.authoritySafety, t.q.requests, t.q.routed, t.q.syncs) == (s.q.authoritySafety, [], s.q.routed, s.q.syncs)
  {
    DecidesRun(s, u, run, |s.q.requests|, clock, cfg);
    assert s.q.requests[..|s.q.requests|] == s.q.requests && s.q.requests[|s.q.requests|..] == [];
  }

  lemma AuthorityAsks(s: State, clock: Clock, cfg: Config)
    requires s.a.phase.AuthorityIdle?
    ensures var t := Phases.RunFrom(s, AskingSteps(s, clock, cfg), cfg);
      && DecidedSoFar(s, t, RequestedIn(s, clock, cfg)) && RestKept(s, t)
      && t.a.phase == Asking(EffectiveIn(s, clock, cfg), RequestsSafe(s.q.requests))
      && (t.q.authoritySafety, t.q.requests, t.q.routed, t.q.syncs) == ([], [], s.q.routed, s.q.syncs)
  {
    AuthorityOpens(s, clock, cfg);
    AsksAll(Phases.RunFrom(s, OpeningSteps(s, clock), cfg), s, OpenedIn(s, clock, cfg), clock, cfg);
    RunsJoin(s, OpeningSteps(s, clock),
             Decisions(OpenedIn(s, clock, cfg), s.q.requests, EffectiveIn(s, clock, cfg), clock, cfg), cfg);
  }

  lemma AuthorityCollects(s: State, cfg: Config)
    requires s.a.phase.Asking? && s.q.requests == []
    ensures Phases.RunFrom(s, COLLECTING, cfg)
      == s.(a := s.a.(phase := Commanding(s.a.phase.safety, s.a.phase.safe || BatchSafe(s.q.routed), s.q.routed)),
            q := s.q.(routed := []))
  {
    RunsJoin(s, [OfAuthority(Turns)], [OfAuthority(Collects)], cfg);
    RunsOne(s, OfAuthority(Turns), cfg);
    RunsOne(Phases.Next(s, OfAuthority(Turns), cfg), OfAuthority(Collects), cfg);
  }

  lemma CommandsAll(s: State, u: State, run: Run, clock: Clock, cfg: Config)
    requires s.a.phase.Commanding? && DecidedSoFar(u, s, run) && RestKept(u, s)
    requires BatchSafe(s.a.phase.batch) ==> s.a.phase.safe
    ensures var ph := s.a.phase;
      var t := Phases.RunFrom(s, Commandings(run, ph.batch, ph.safe, ph.safety, clock, cfg) + [OfAuthority(Finishes)], cfg);
      && DecidedSoFar(u, t, HandleCommands(cfg.authority, run, ph.batch, ph.safe, ph.safety, clock)) && RestKept(u, t)
      && t.a.phase == Replying
      && (t.q.authoritySafety, t.q.requests, t.q.routed, t.q.syncs)
         == (s.q.authoritySafety, s.q.requests, s.q.routed, s.q.syncs)
  {
    var ph, n := s.a.phase, |s.a.phase.batch|;
    CommandsRun(s, u, run, n, clock, cfg);
    assert ph.batch[..n] == ph.batch && ph.batch[n..] == [];
    RunsPast(s, Commandings(run, ph.batch, ph.safe, ph.safety, clock, cfg), OfAuthority(Finishes), cfg);
  }

  lemma AuthorityCommands(s: State, u: State, clock: Clock, cfg: Config)
    requires DecidedSoFar(u, s, RequestedIn(u, clock, cfg)) && RestKept(u, s)
    requires s.a.phase == Commanding(EffectiveIn(u, clock, cfg), SafeAsked(InboxOf(View(u))), u.q.routed)
    requires (s.q.authoritySafety, s.q.requests, s.q.routed, s.q.syncs) == ([], [], [], u.q.syncs)
    ensures var t := Phases.RunFrom(s, CommandingSteps(u, clock, cfg), cfg);
      && DecidedSoFar(u, t, Decided(cfg.authority, u.a.authority, InboxOf(View(u)), clock)) && RestKept(u, t)
      && t.a.phase == Replying
      && (t.q.authoritySafety, t.q.requests, t.q.routed, t.q.syncs) == ([], [], [], u.q.syncs)
  {
    CommandsAll(s, u, RequestedIn(u, clock, cfg), clock, cfg);
  }

  lemma AuthorityReplies(s: State, u: State, clock: Clock, cfg: Config)
    requires DecidedSoFar(u, s, Decided(cfg.authority, u.a.authority, InboxOf(View(u)), clock)) && RestKept(u, s)
    requires s.a.phase == Replying
    requires (s.q.authoritySafety, s.q.requests, s.q.routed, s.q.syncs) == ([], [], [], u.q.syncs)
    ensures var t := Phases.RunFrom(s, Times(|u.q.syncs|, OfAuthority(Replies)) + [OfAuthority(Rests)], cfg);
      t.a.phase.AuthorityIdle? && View(t) == Protocol.Next(View(u), AuthorityTicks(clock), cfg)
  {
    var n, run := |u.q.syncs|, Decided(cfg.authority, u.a.authority, InboxOf(View(u)), clock);
    RepliesRun(s, u, run, n, cfg);
    assert u.q.syncs[..n] == u.q.syncs;
    RunsJoin(s, Times(n, OfAuthority(Replies)), [OfAuthority(Rests)], cfg);
    RunsOne(Phases.RunFrom(s, Times(n, OfAuthority(Replies)), cfg), OfAuthority(Rests), cfg);
  }

  /** Uninterrupted, the phases of an authority tick are the tick. */
  lemma AuthorityTickIsAtomic(s: State, clock: Clock, cfg: Config)
    requires s.a.phase.AuthorityIdle?
    ensures var t := Phases.RunFrom(s, AuthoritySteps(s, clock, cfg), cfg);
      t.a.phase.AuthorityIdle? && View(t) == Protocol.Next(View(s), AuthorityTicks(clock), cfg)
  {
    var asking, commanding := AskingSteps(s, clock, cfg), CommandingSteps(s, clock, cfg);
    var s1 := Phases.RunFrom(s, asking, cfg);
    var s2 := Phases.RunFrom(s1, COLLECTING, cfg);
    var s3 := Phases.RunFrom(s2, commanding, cfg);
    AuthorityAsks(s, clock, cfg);
    AuthorityCollects(s1, cfg);
    AuthorityCommands(s2, s, clock, cfg);
    AuthorityReplies(s3, s, clock, cfg);
    RunsJoin(s, asking, COLLECTING, cfg);
    RunsJoin(s, asking + COLLECTING, commanding, cfg);
    RunsJoin(s, asking + COLLECTING + commanding, Times(|s.q.syncs|, OfAuthority(Replies)) + [OfAuthority(Rests)], cfg);
  }
}
