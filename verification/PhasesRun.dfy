/** A run of the threads, from power-up, that leaves a set latch with SAFE neither active nor on its way: a
    recovery is granted while a fault tick is between raising a fault and consuming. */
module PhasesRun {
  import opened Basics
  import opened Evidence
  import opened Routing
  import opened CommandRouting
  import opened SystemModes
  import opened Fault
  import opened PayloadContainment
  import opened Protocol
  import opened Phases
  import opened ProtocolChain
  import opened PhasesSafety
  import Naming
  import Transitions

  const IDS: Ids := (_: nat) => "id"

  /** An interval of 5 seconds, so that evidence observed at 0 is still fresh at 1. */
  const CFG := Config(
    RouterConfig(Rules({SYSTEM_MODES}, {EXIT_SAFE}, 10.0), "e", 5.0), AuthorityConfig("e", 5.0), FaultConfig("e", 3),
    PayloadConfig("e", 5.0, 1.0, -1.0, 1.0, false, 1.0, 3))

  /** The run from its i-th step on: that step, then the others. */
  lemma RunsOn(s: State, steps: seq<Phases.Step>, i: nat, cfg: Config)
    requires i < |steps|
    ensures Phases.RunFrom(s, steps[i..], cfg) == Phases.RunFrom(Phases.Next(s, steps[i], cfg), steps[i + 1..], cfg)
  {
    assert steps[i..] == [steps[i]] + steps[i + 1..];
    RunsJoin(s, [steps[i]], steps[i + 1..], cfg);
    assert [steps[i]][..0] == [] && Phases.RunFrom(s, [], cfg) == s;
  }

  // --- The authority with nothing new to hear, or to decide -------------------------------

  const OPENING := [OfAuthority(Starts(1.0)), OfAuthority(Opens(1.0))]

  lemma OpensQuietly(s: State)
    requires s.a.phase.AuthorityIdle? && s.q.authoritySafety == [] && s.a.authority.active.Some?
    ensures Phases.RunFrom(s, OPENING, CFG)
      == s.(a := AuthorityPart(s.a.authority, Asking(Effective(s.a.authority.held, {}), false)))
  {
    var s1 := Phases.Next(s, OPENING[0], CFG);
    RunsOn(s, OPENING, 0, CFG);
    RunsOn(s1, OPENING, 1, CFG);
  }

  const CLOSING := [OfAuthority(Turns), OfAuthority(Collects), OfAuthority(Finishes), OfAuthority(Rests)]

  lemma ClosesQuietly(s: State)
    requires s.a.phase.Asking? && s.q.requests == [] && s.q.routed == [] && s.q.syncs == []
    ensures Phases.RunFrom(s, CLOSING, CFG) == s.(a := AuthorityPart(s.a.authority, AuthorityIdle))
  {
    var s1 := Phases.Next(s, CLOSING[0], CFG);
    var s2 := Phases.Next(s1, CLOSING[1], CFG);
    assert s2.a.phase.Commanding? && s2.a.phase.batch == [] && s2.q == s.q;
    var s3 := Phases.Next(s2, CLOSING[2], CFG);
    RunsOn(s, CLOSING, 0, CFG);
    RunsOn(s1, CLOSING, 1, CFG);
    RunsOn(s2, CLOSING, 2, CFG);
    RunsOn(s3, CLOSING, 3, CFG);
  }

  // --- A fault tick without a fault, at time 0 --------------------------------------------

  const OBSERVING := [OfFault(FaultStarts(0.0, IDS)), OfFault(Checks), OfFault(Consults), OfFault(Settles), OfFault(Publishes)]

  const CLEAR := SafetyMsg({}, false, NoFault, "e", 1, Finite(0.0), None)

  const OBSERVED := Boot([]).(
    f := FaultPart(CLEARED.(evidenceSequence := 1), [], FaultIdle),
    q := EMPTY.(routerSafety := [CLEAR], authoritySafety := [CLEAR], payloadSafety := [CLEAR]),
    h := History([], [], {}, [], [0.0]))

  lemma Observes()
    ensures Phases.RunFrom(Boot([]), OBSERVING, CFG) == OBSERVED
  {
    var s1 := Phases.Next(Boot([]), OBSERVING[0], CFG);
    var s2 := Phases.Next(s1, OBSERVING[1], CFG);
    assert s2.f == FaultPart(CLEARED, [], Expiring(0.0, IDS, {}, 0, []));
    var s3 := Phases.Next(s2, OBSERVING[2], CFG);
    var s4 := Phases.Next(s3, OBSERVING[3], CFG);
    assert s4.f == FaultPart(CLEARED, [], Publishing(0.0, {}));
    RunsOn(Boot([]), OBSERVING, 0, CFG);
    RunsOn(s1, OBSERVING, 1, CFG);
    RunsOn(s2, OBSERVING, 2, CFG);
    RunsOn(s3, OBSERVING, 3, CFG);
    RunsOn(s4, OBSERVING, 4, CFG);
  }

  // --- The authority activates SAFE -------------------------------------------------------

  const BOOTING := [OfAuthority(Starts(0.0)), OfAuthority(Hears), OfAuthority(Opens(0.0))]

  const SAFE_LINK := Activation("e", 1, None, Safe, SafeRequestedFrom(None), Some("e" + "-boot"), false)

  const IN_SAFE := Authority(Some(SAFE_LINK), 1, 1, Hold(CLEAR))

  const BOOTED := OBSERVED.(
    a := AuthorityPart(IN_SAFE, AuthorityIdle),
    q := EMPTY.(routerSafety := [CLEAR], payloadSafety := [CLEAR], faultActivations := [SAFE_LINK],
                payloadActivations := [SAFE_LINK]),
    h := History([SAFE_LINK], [], {}, [Granted(SAFE_LINK, 0)], [0.0]))

  const OPENED := BOOTED.(
    a := AuthorityPart(IN_SAFE, Asking(Transitions.SafetyEvidence(false, {}), false)))

  lemma BootDecides()
    ensures var run := Process(CFG.authority, NewRun(BOOT.(held := Hold(CLEAR))), BootAsk(CFG.authority),
                               Transitions.SafetyEvidence(false, {}), 0.0);
      run.a == IN_SAFE && run.activations == [SAFE_LINK]
  {
  }

  lemma OpensInSafe(s: State)
    requires s == OBSERVED.(a := AuthorityPart(BOOT.(held := Hold(CLEAR)), Hearing(0.0, {})),
                            q := EMPTY.(routerSafety := [CLEAR], payloadSafety := [CLEAR]))
    ensures Phases.Next(s, BOOTING[2], CFG) == OPENED
  {
    BootDecides();
    assert [SAFE_LINK][..0] == [];
    assert Protocol.Grants([SAFE_LINK], 0) == [Granted(SAFE_LINK, 0)];
  }

  lemma Boots()
    ensures Phases.RunFrom(OBSERVED, BOOTING, CFG) == OPENED
  {
    var s1 := Phases.Next(OBSERVED, BOOTING[0], CFG);
    var s2 := Phases.Next(s1, BOOTING[1], CFG);
    assert s2.a == AuthorityPart(BOOT.(held := Hold(CLEAR)), Hearing(0.0, {}));
    OpensInSafe(s2);
    RunsOn(OBSERVED, BOOTING, 0, CFG);
    RunsOn(s1, BOOTING, 1, CFG);
    RunsOn(s2, BOOTING, 2, CFG);
  }

  // --- A fault tick raises a fault and is held up there -----------------------------------

  const EVENT := FaultEvent(GimbalFault, PAYLOAD)

  const RAISING := [Outside(OutsideStep.Faulted(EVENT)), OfFault(FaultStarts(1.0, IDS)), OfFault(Raises)]

  const RAISED := BOOTED.(
    f := FaultPart(Latch(true, GimbalFault, None, 1, None, {}), [], Raising(1.0, IDS, {GimbalFault}, 1)),
    p := PayloadPart(UNACTIVATED.(o := Outbox([EVENT], [], [])), PayloadIdle),
    q := BOOTED.q.(requests := [EnterSafeRequest(GimbalFault, "id")]),
    h := BOOTED.h.(starts := [0.0, 1.0]))

  lemma RaisesFirst(s: State)
    requires s == BOOTED.(f := FaultPart(CLEARED.(evidenceSequence := 1), [], Raising(1.0, IDS, {}, 0)), p := RAISED.p,
                          q := BOOTED.q.(events := [EVENT]), h := RAISED.h)
    ensures Phases.Next(s, RAISING[2], CFG) == RAISED
  {
    assert Raise(Raised(s.f.latch, [], {}, 0), GimbalFault, IDS)
      == Raised(RAISED.f.latch, [EnterSafeRequest(GimbalFault, "id")], {GimbalFault}, 1);
  }

  lemma RaisesOnce()
    ensures Phases.RunFrom(BOOTED, RAISING, CFG) == RAISED
  {
    var s1 := Phases.Next(BOOTED, RAISING[0], CFG);
    var s2 := Phases.Next(s1, RAISING[1], CFG);
    RaisesFirst(s2);
    RunsOn(BOOTED, RAISING, 0, CFG);
    RunsOn(s1, RAISING, 1, CFG);
    RunsOn(s2, RAISING, 2, CFG);
  }

  // --- The authority decides the SAFE request: it is in SAFE already ----------------------

  const DENYING := OfAuthority(Decides(1.0))

  const DENIED := RAISED.(
    a := AuthorityPart(IN_SAFE.(transitions := 2), AuthorityIdle), q := RAISED.q.(requests := []))

  lemma Denies()
    ensures Phases.RunFrom(RAISED, OPENING + [DENYING] + CLOSING, CFG) == DENIED
  {
    var evidence := Transitions.SafetyEvidence(false, {});
    var s := RAISED.(a := AuthorityPart(IN_SAFE, Asking(evidence, false)));
    OpensQuietly(RAISED);
    assert Effective(Hold(CLEAR), {}) == evidence;
    var t := Phases.Next(s, DENYING, CFG);
    DeniesAgain(s);
    ClosesQuietly(t);
    RunsJoin(RAISED, OPENING, [DENYING], CFG);
    RunsJoin(RAISED, OPENING + [DENYING], CLOSING, CFG);
    RunsOn(s, [DENYING], 0, CFG);
    assert [DENYING][0..] == [DENYING];
  }

  lemma DeniesAgain(s: State)
    requires s == RAISED.(a := AuthorityPart(IN_SAFE, Asking(Transitions.SafetyEvidence(false, {}), false)))
    ensures Phases.Next(s, DENYING, CFG)
      == DENIED.(a := AuthorityPart(DENIED.a.authority, Asking(Transitions.SafetyEvidence(false, {}), true)))
  {
    var run := Process(CFG.authority, NewRun(IN_SAFE), AskOfRequest(s.q.requests[0]), s.a.phase.safety, 1.0);
    assert run.a == IN_SAFE.(transitions := 2) && run.activations == [];
    assert s.h.chain + [] == s.h.chain && s.h.log + [] == s.h.log;
    assert s.q.faultActivations + [] == s.q.faultActivations && s.q.payloadActivations + [] == s.q.payloadActivations;
  }

  // --- An operator arms and executes EXIT_SAFE --------------------------------------------

  const ARM := Command(SYSTEM_MODES, EXIT_SAFE, map["phase" := Text("ARM")], "g", 1)
  const EXECUTE := Command(SYSTEM_MODES, EXIT_SAFE, map["phase" := Text("EXECUTE")], "g", 2)

  const UPLINKING := [Outside(OutsideStep.Uplinked(ARM)), Outside(OutsideStep.Uplinked(EXECUTE))]

  const UPLINKED := DENIED.(lastSeq := map["g" := 2], q := DENIED.q.(commands := [ARM, EXECUTE]))

  const ROUTING := [OfRouter(RouterStarts(1.0)), OfRouter(RouterHears), OfRouter(RouterTurns)]

  const DECIDING := [OfRouter(RouterRoutes(1.0)), OfRouter(RouterRoutes(1.0))]

  const HEARD := UPLINKED.(
    r := RouterPart(Router(map[], Hold(CLEAR)), RouterRouting), q := UPLINKED.q.(routerSafety := []))

  const ROUTED := HEARD.(
    q := HEARD.q.(commands := [], routed := [EXECUTE]),
    h := HEARD.h.(offers := [Offer(ARM, false, true, 1.0), Offer(EXECUTE, false, true, 1.0)]))

  const KEY: ArmKey := ("g", EXIT_SAFE)

  lemma ArmStands()
    ensures var o := Offer(ARM, false, true, 1.0);
      && OfferOf(ARM, Hold(CLEAR), 1.0, CFG.router) == o
      && RouteOne(RouterRun(map[], [], [], [], []), o, CFG.router.rules)
         == RouterRun(map[KEY := 1.0], [o], [], [AckOf(ARM, true, NoFault)], [])
  {
  }

  lemma RoutesArm(s: State)
    requires s.r == RouterPart(Router(map[], Hold(CLEAR)), RouterRouting) && s.q.commands == [ARM, EXECUTE]
    ensures Phases.Next(s, DECIDING[0], CFG)
      == s.(r := RouterPart(Router(map[KEY := 1.0], Hold(CLEAR)), RouterRouting), q := s.q.(commands := [EXECUTE]),
            h := s.h.(offers := s.h.offers + [Offer(ARM, false, true, 1.0)]))
  {
    ArmStands();
    assert s.q.routed + [] == s.q.routed && s.q.events + [] == s.q.events;
    assert s.p.payload.o.local + [] == s.p.payload.o.local;
  }

  /** The EXECUTE spends the ARM. */
  lemma ExecutePasses()
    ensures var o := Offer(EXECUTE, false, true, 1.0);
      && OfferOf(EXECUTE, Hold(CLEAR), 1.0, CFG.router) == o
      && RouteOne(RouterRun(map[KEY := 1.0], [], [], [], []), o, CFG.router.rules) == RouterRun(map[], [o], [EXECUTE], [], [])
  {
    assert map[KEY := 1.0] - {KEY} == map[];
  }

  lemma RoutesExecute(s: State)
    requires s.r == RouterPart(Router(map[KEY := 1.0], Hold(CLEAR)), RouterRouting) && s.q.commands == [EXECUTE]
    ensures Phases.Next(s, DECIDING[1], CFG)
      == s.(r := RouterPart(Router(map[], Hold(CLEAR)), RouterRouting),
            q := s.q.(commands := [], routed := s.q.routed + [EXECUTE]),
            h := s.h.(offers := s.h.offers + [Offer(EXECUTE, false, true, 1.0)]))
  {
    ExecutePasses();
    assert s.q.events + [] == s.q.events && s.p.payload.o.local + [] == s.p.payload.o.local;
  }

  lemma Uplinks()
    ensures Phases.RunFrom(DENIED, UPLINKING, CFG) == UPLINKED
  {
    var s1 := Phases.Next(DENIED, UPLINKING[0], CFG);
    assert s1 == DENIED.(lastSeq := map["g" := 1], q := DENIED.q.(commands := [ARM]));
    RunsOn(DENIED, UPLINKING, 0, CFG);
    RunsOn(s1, UPLINKING, 1, CFG);
  }

  lemma RouterHearsClear()
    ensures Phases.RunFrom(UPLINKED, ROUTING, CFG) == HEARD
  {
    var s1 := Phases.Next(UPLINKED, ROUTING[0], CFG);
    var s2 := Phases.Next(s1, ROUTING[1], CFG);
    assert s2.r == RouterPart(Router(map[], Hold(CLEAR)), RouterHearing(1.0));
    RunsOn(UPLINKED, ROUTING, 0, CFG);
    RunsOn(s1, ROUTING, 1, CFG);
    RunsOn(s2, ROUTING, 2, CFG);
  }

  lemma Routes()
    ensures Phases.RunFrom(HEARD, DECIDING, CFG) == ROUTED
  {
    RoutesArm(HEARD);
    var s := Phases.Next(HEARD, DECIDING[0], CFG);
    RoutesExecute(s);
    assert HEARD.h.offers + [Offer(ARM, false, true, 1.0)] + [Offer(EXECUTE, false, true, 1.0)] == ROUTED.h.offers;
    RunsOn(HEARD, DECIDING, 0, CFG);
    RunsOn(s, DECIDING, 1, CFG);
  }

  // --- The authority grants the recovery, on the evidence of time 0 -----------------------

  const GRANTING := [OfAuthority(Turns), OfAuthority(Collects), OfAuthority(Commands(1.0))]

  const INIT_LINK := Activation("e", 2, Some(Safe), Init, ExitSafeAuthorized, Some(Naming.CommandRequestId("g", 2)), true)

  const WAITING := ROUTED.(
    a := AuthorityPart(IN_SAFE.(transitions := 2), Commanding(Transitions.SafetyEvidence(false, {}), false, [EXECUTE])),
    q := ROUTED.q.(routed := []))

  lemma GrantsRecovery()
    ensures var run := CommandRun(IN_SAFE.(transitions := 2), EXECUTE, false, Transitions.SafetyEvidence(false, {}), 1.0, CFG);
      run.activations == [INIT_LINK] && ModeOf(run.a) == Some(Init)
  {
  }

  ghost predicate Recovered(s: State) {
    && s.f == RAISED.f && s.q.events == [] && s.q.requests == []
    && s.q.faultActivations == [SAFE_LINK, INIT_LINK] && ModeOf(s.a.authority) == Some(Init)
  }

  lemma GrantsLast()
    ensures Recovered(Phases.Next(WAITING, GRANTING[2], CFG))
  {
    GrantsRecovery();
  }

  lemma GrantsLate()
    ensures Recovered(Phases.RunFrom(ROUTED, OPENING + GRANTING, CFG))
  {
    var s := ROUTED.(a := AuthorityPart(IN_SAFE.(transitions := 2), Asking(Transitions.SafetyEvidence(false, {}), false)));
    OpensQuietly(ROUTED);
    assert Effective(Hold(CLEAR), {}) == Transitions.SafetyEvidence(false, {});
    RunsJoin(ROUTED, OPENING, GRANTING, CFG);
    CollectsExecute(s);
    GrantsLast();
  }

  lemma CollectsExecute(s: State)
    requires s == ROUTED.(a := AuthorityPart(IN_SAFE.(transitions := 2), Asking(Transitions.SafetyEvidence(false, {}), false)))
    ensures Phases.RunFrom(s, GRANTING, CFG) == Phases.Next(WAITING, GRANTING[2], CFG)
  {
    var s1 := Phases.Next(s, GRANTING[0], CFG);
    var s2 := Phases.Next(s1, GRANTING[1], CFG);
    assert !BatchSafe([EXECUTE]);
    assert s2 == WAITING;
    RunsOn(s, GRANTING, 0, CFG);
    RunsOn(s1, GRANTING, 1, CFG);
    RunsOn(s2, GRANTING, 2, CFG);
  }

  // --- The fault tick goes on -------------------------------------------------------------

  const CONSUMING := [OfFault(Checks), OfFault(Consults), OfFault(Consumes), OfFault(Consumes)]

  lemma ConsumesBoth(s: State)
    requires Recovered(s)
    ensures var t := Phases.RunFrom(s, CONSUMING, CFG);
      && t.f.latch.latched && Reached(t.f.latch.last) == 2 && t.q.faultActivations == []
      && t.q.requests == s.q.requests && t.a == s.a
  {
    var s1 := Phases.Next(s, CONSUMING[0], CFG);
    assert s1 == s.(f := FaultPart(RAISED.f.latch, [], Expiring(1.0, IDS, {GimbalFault}, 1, [])));
    var s2 := Phases.Next(s1, CONSUMING[1], CFG);
    var s3 := Phases.Next(s2, CONSUMING[2], CFG);
    ConsumesOne(s2, None, SAFE_LINK, [INIT_LINK]);
    ConsumesOne(s3, Some(SAFE_LINK), INIT_LINK, []);
    RunsOn(s, CONSUMING, 0, CFG);
    RunsOn(s1, CONSUMING, 1, CFG);
    RunsOn(s2, CONSUMING, 2, CFG);
    RunsOn(s3, CONSUMING, 3, CFG);
  }

  lemma ConsumesOne(s: State, last: Option<Activation>, x: Activation, rest: seq<Activation>)
    requires s.f == FaultPart(RAISED.f.latch.(last := last), [], Consuming(1.0, {GimbalFault}))
    requires s.q.faultActivations == [x] + rest && x.epoch == "e" && x.sequence > Reached(last) && x.sequence >= 0
    ensures var t := Phases.Next(s, OfFault(Consumes), CFG);
      && t.f == FaultPart(RAISED.f.latch.(last := Some(x)), [], Consuming(1.0, {GimbalFault}))
      && t.q == s.q.(faultActivations := rest) && t.a == s.a
  {
    assert Consume(s.f.latch, x, "e", true) == s.f.latch.(last := Some(x));
  }

  const UNSAFE_RUN :=
    OBSERVING + (BOOTING + CLOSING) + RAISING + (OPENING + [DENYING] + CLOSING) + UPLINKING + ROUTING + DECIDING
    + (OPENING + GRANTING) + CONSUMING

  /** The run ends with the latch set, INIT active, no SAFE request queued and no recovery unread. */
  lemma SafeOrSoonFails()
    ensures Wired(CFG) && !SafelyPhased(After([], UNSAFE_RUN, CFG))
  {
    ReachesRaised();
    var run := OBSERVING + (BOOTING + CLOSING) + RAISING;
    RunsJoin(Boot([]), run, OPENING + [DENYING] + CLOSING, CFG);
    Denies();
    ReachesRouted(run + (OPENING + [DENYING] + CLOSING));
    RunsJoin(Boot([]), run + (OPENING + [DENYING] + CLOSING) + UPLINKING + ROUTING + DECIDING, OPENING + GRANTING, CFG);
    GrantsLate();
    RunsJoin(Boot([]), run + (OPENING + [DENYING] + CLOSING) + UPLINKING + ROUTING + DECIDING + (OPENING + GRANTING),
             CONSUMING, CFG);
    ConsumesBoth(Phases.RunFrom(ROUTED, OPENING + GRANTING, CFG));
  }

  lemma ReachesRaised()
    ensures After([], OBSERVING + (BOOTING + CLOSING) + RAISING, CFG) == RAISED
  {
    Observes();
    RunsJoin(Boot([]), OBSERVING, BOOTING + CLOSING, CFG);
    Boots();
    RunsJoin(OBSERVED, BOOTING, CLOSING, CFG);
    ClosesQuietly(OPENED);
    assert OPENED.(a := AuthorityPart(IN_SAFE, AuthorityIdle)) == BOOTED;
    RunsJoin(Boot([]), OBSERVING + (BOOTING + CLOSING), RAISING, CFG);
    RaisesOnce();
  }

  lemma ReachesRouted(run: seq<Phases.Step>)
    requires After([], run, CFG) == DENIED
    ensures After([], run + UPLINKING + ROUTING + DECIDING, CFG) == ROUTED
  {
    RunsJoin(Boot([]), run, UPLINKING, CFG);
    Uplinks();
    RunsJoin(Boot([]), run + UPLINKING, ROUTING, CFG);
    RouterHearsClear();
    RunsJoin(Boot([]), run + UPLINKING + ROUTING, DECIDING, CFG);
    Routes();
  }
}
