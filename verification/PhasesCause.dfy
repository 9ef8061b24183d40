/** The recovery chain of cause under the threads: the same as without them, whatever the timing. */
module PhasesCause {
  import opened Basics
  import opened Evidence
  import opened Routing
  import opened CommandRouting
  import opened SystemModes
  import opened AuthorityProofs
  import opened Fault
  import opened PayloadContainment
  import opened Protocol
  import opened ProtocolChain
  import opened ProtocolCause
  import opened Phases
  import opened PhasesKeep
  import opened PhasesSafety
  import PayloadProofs
  import Transitions
  import Watchdog

  ghost predicate Routed(r: RouterPart, a: AuthorityPart, q: Queues, offers: seq<Offer>, rules: Rules) {
    RoutedBy(r.router.armed, InHand(a.phase) + q.routed, offers, rules)
  }

  ghost predicate CauseKept(s: State, cfg: Config) {
    && Routed(s.r, s.a, s.q, s.h.offers, cfg.router.rules)
    && Story(s.h.log, s.h.chain, s.h.offers, cfg.router.rules)
    && Announcements(s.h.log, s.f.latch.releasedId, s.q.payloadSafety, s.p.payload.c.latest)
    && Counted(s.h.log, s.f.latch.consumed, s.p.payload.c.marks)
  }

  // --- Router -----------------------------------------------------------------------------

  lemma OneRouted(armed: map<ArmKey, real>, waiting: seq<Command>, log: seq<Event>, offers: seq<Offer>, o: Offer, rules: Rules)
    requires RoutedBy(armed, waiting, offers, rules) && Caused(log, offers, rules)
    ensures var run := RouteOne(RouterRun(armed, [], [], [], []), o, rules);
      RoutedBy(run.armed, waiting + run.routed, offers + [o], rules) && Caused(log, offers + [o], rules)
  {
    var run := RouterRun(armed, [], [], [], []);
    assert waiting + [] == waiting && offers + [] == offers;
    RouteOneTraced(waiting, offers, run, o, rules);
    assert RouteOne(run, o, rules).offers == [o];
    CausedStays(log, offers, [o], rules);
  }

  lemma RouteKeepsCause(s: State, at: real, cfg: Config)
    requires CauseKept(s, cfg) && s.q.commands != []
    ensures CauseKept(Route(s, at, cfg), cfg)
  {
    var waiting, o := InHand(s.a.phase) + s.q.routed, OfferOf(s.q.commands[0], s.r.router.held, at, cfg.router);
    OneRouted(s.r.router.armed, waiting, s.h.log, s.h.offers, o, cfg.router.rules);
    var run := RouteOne(RouterRun(s.r.router.armed, [], [], [], []), o, cfg.router.rules);
    assert waiting + run.routed == InHand(s.a.phase) + (s.q.routed + run.routed);
  }

  // --- Authority --------------------------------------------------------------------------

  /** The log after a decision: nothing but its grants. */
  lemma GrantsKeepCause(
    log: seq<Event>, added: seq<Activation>, offered: nat, released: Option<string>, evidence: seq<SafetyMsg>,
    latest: Option<SafetyMsg>, consumed: set<string>, marks: seq<Mark>)
    requires Announcements(log, released, evidence, latest) && Counted(log, consumed, marks)
    ensures Announcements(log + Grants(added, offered), released, evidence, latest)
    ensures Counted(log + Grants(added, offered), consumed, marks)
  {
    AnnouncementsGrow(log, Grants(added, offered), released, evidence, latest);
    IdsJoin(log, Grants(added, offered));
    GrantsReleaseNothing(added, offered);
  }

  /** A decision that recovers does so for a command of the batch that was dispatched. */
  lemma AdoptKeepsCause(s: State, run: Run, routed: seq<Command>, cfg: Config)
    requires CauseKept(s, cfg) && DecidesFrom(s.a.authority, run, s.h.chain, cfg.authority.epoch)
    requires RoutedBy(s.r.router.armed, routed, s.h.offers, cfg.router.rules)
    requires forall x :: x in run.activations && x.recovery ==> FromExit(x, routed)
    ensures CauseKept(Adopt(s, run), cfg)
  {
    StoryGrows(s.h.log, s.h.chain, s.h.offers, cfg.router.rules, run.activations, s.r.router.armed, routed);
    GrantsKeepCause(s.h.log, run.activations, |s.h.offers|, s.f.latch.releasedId, s.q.payloadSafety, s.p.payload.c.latest,
                    s.f.latch.consumed, s.p.payload.c.marks);
  }

  lemma AskKeepsCause(s: State, ask: Ask, safety: Transitions.SafetyEvidence, at: real, cfg: Config)
    requires ChainKept(s, cfg) && CauseKept(s, cfg) && ask.kind != ExitSafe
    ensures CauseKept(DecideOne(s, ask, safety, at, cfg), cfg)
  {
    var run := Process(cfg.authority, NewRun(s.a.authority), ask, safety, at);
    AskDecides(s.a.authority, s.h.chain, ask, safety, at, cfg.authority);
    AdoptKeepsCause(s, run, [], cfg);
  }

  lemma OpenKeepsCause(s: State, at: real, cfg: Config)
    requires ChainKept(s, cfg) && CauseKept(s, cfg) && s.a.phase.Hearing?
    ensures CauseKept(AuthorityOpen(s, at, cfg), cfg)
  {
    if s.a.authority.active.None? {
      AskKeepsCause(s, BootAsk(cfg.authority), Effective(s.a.authority.held, s.a.phase.faults), at, cfg);
    }
  }

  lemma TakeKeepsCause(s: State, at: real, cfg: Config)
    requires ChainKept(s, cfg) && CauseKept(s, cfg) && s.a.phase.Asking? && s.q.requests != []
    ensures CauseKept(AuthorityDecide(s, at, cfg), cfg)
  {
    var r := s.q.requests[0];
    var taken := s.(a := s.a.(phase := Asking(s.a.phase.safety, s.a.phase.safe || r.mode == Safe)),
                    q := s.q.(requests := s.q.requests[1..]));
    AskKeepsCause(taken, AskOfRequest(r), s.a.phase.safety, at, cfg);
  }

  lemma FewerRouted(armed: map<ArmKey, real>, routed: seq<Command>, fewer: seq<Command>, offers: seq<Offer>, rules: Rules)
    requires RoutedBy(armed, routed, offers, rules) && forall c :: c in fewer ==> c in routed
    ensures RoutedBy(armed, fewer, offers, rules)
  {
  }

  lemma TakeCommandKeepsCause(s: State, cfg: Config)
    requires ChainKept(s, cfg) && CauseKept(s, cfg) && s.a.phase.Commanding? && s.a.phase.batch != []
    ensures ChainKept(Taken(s), cfg) && CauseKept(Taken(s), cfg)
    ensures RoutedBy(s.r.router.armed, [s.a.phase.batch[0]], s.h.offers, cfg.router.rules)
  {
    var batch := s.a.phase.batch;
    FewerRouted(s.r.router.armed, batch + s.q.routed, batch[1..] + s.q.routed, s.h.offers, cfg.router.rules);
    FewerRouted(s.r.router.armed, batch + s.q.routed, [batch[0]], s.h.offers, cfg.router.rules);
  }

  lemma CommandKeepsCause(s: State, at: real, cfg: Config)
    requires ChainKept(s, cfg) && CauseKept(s, cfg) && s.a.phase.Commanding? && s.a.phase.batch != []
    ensures CauseKept(AuthorityCommand(s, at, cfg), cfg)
  {
    var c, ph := s.a.phase.batch[0], s.a.phase;
    var run := CommandRun(s.a.authority, c, ph.safe, ph.safety, at, cfg);
    TakeCommandKeepsCause(s, cfg);
    CommandDecides(s.a.authority, s.h.chain, c, ph.safe, ph.safety, at, cfg);
    AdoptKeepsCause(Taken(s), run, [c], cfg);
    assert AuthorityCommand(s, at, cfg) == Adopt(Taken(s), run);
  }

  lemma CollectKeepsCause(s: State, cfg: Config)
    requires CauseKept(s, cfg) && s.a.phase.Collecting?
    ensures CauseKept(NextAuthority(s, Collects, cfg), cfg)
  {
    assert InHand(s.a.phase) + s.q.routed == s.q.routed + [];
  }

  lemma AuthorityKeepsCause(s: State, step: AuthorityStep, cfg: Config)
    requires ChainKept(s, cfg) && CauseKept(s, cfg)
    ensures CauseKept(NextAuthority(s, step, cfg), cfg)
  {
    match step
    case Opens(at) => if s.a.phase.Hearing? { OpenKeepsCause(s, at, cfg); }
    case Decides(at) => if s.a.phase.Asking? && s.q.requests != [] { TakeKeepsCause(s, at, cfg); }
    case Collects => if s.a.phase.Collecting? { CollectKeepsCause(s, cfg); }
    case Commands(at) => if s.a.phase.Commanding? && s.a.phase.batch != [] { CommandKeepsCause(s, at, cfg); }
    case _ =>
  }

  // --- Fault app --------------------------------------------------------------------------

  lemma OneConsumed(
    l: Latch, x: Activation, epoch: string, faulted: bool, log: seq<Event>, chain: seq<Activation>, offers: seq<Offer>,
    rules: Rules, marks: seq<Mark>)
    requires Story(log, chain, offers, rules) && Counted(log, l.consumed, marks) && IsLink(x, chain)
    ensures var spent, m := SpentIds(l, [x], epoch, faulted), Consume(l, x, epoch, faulted);
      && Story(log + FaultReleases(spent), chain, offers, rules) && Counted(log + FaultReleases(spent), m.consumed, marks)
      && (m.releasedId == l.releasedId || (m.releasedId.Some? && m.releasedId.value in spent))
  {
    var spent, m := SpentIds(l, [x], epoch, faulted), Consume(l, x, epoch, faulted);
    assert [x][..0] == [];
    assert ConsumeAll(l, [x], epoch, faulted) == m;
    SpentFrom(l, [x], epoch, faulted);
    SpentWereGranted(spent, [x], chain, log);
    ReleasesCaused(log, spent, offers, rules);
    forall y | y in chain ensures LoggedOne(y, log + FaultReleases(spent)) {
      LogGrows(y, log, FaultReleases(spent));
    }
    CountedGrows(log, spent, l.consumed, m.consumed, marks, [x]);
  }

  lemma ConsumeKeepsCause(s: State, cfg: Config)
    requires ChainKept(s, cfg) && CauseKept(s, cfg) && s.f.phase.Consuming? && s.q.faultActivations != []
    ensures CauseKept(FaultConsume(s, cfg), cfg)
  {
    var x, l, faulted := s.q.faultActivations[0], s.f.latch, s.f.phase.seen != {};
    assert x in s.q.faultActivations;
    OneConsumed(l, x, cfg.fault.epoch, faulted, s.h.log, s.h.chain, s.h.offers, cfg.router.rules, s.p.payload.c.marks);
    ReleasedAnnounced(s.h.log, SpentIds(l, [x], cfg.fault.epoch, faulted), l.releasedId,
                      Consume(l, x, cfg.fault.epoch, faulted).releasedId, s.q.payloadSafety, s.p.payload.c.latest);
  }

  lemma ReleasedAnnounced(
    log: seq<Event>, ids: seq<string>, before: Option<string>, after: Option<string>, evidence: seq<SafetyMsg>,
    latest: Option<SafetyMsg>)
    requires Announcements(log, before, evidence, latest)
    requires after == before || (after.Some? && after.value in ids)
    ensures Announcements(log + FaultReleases(ids), after, evidence, latest)
  {
    ReleasesRead(ids);
    AnnouncementsGrow(log, FaultReleases(ids), before, evidence, latest);
  }

  lemma FaultKeepsCause(s: State, step: FaultStep, cfg: Config)
    requires ChainKept(s, cfg) && CauseKept(s, cfg)
    ensures CauseKept(NextFault(s, step, cfg), cfg)
  {
    match step
    case Raises =>
      if s.f.phase.Raising? && s.q.events != [] {
        RaiseKeepsFrame(s.f.latch, s.f.phase.seen, s.f.phase.drawn, s.q.events[0].code, s.f.phase.ids);
      }
    case Expires =>
      if s.f.phase.Expiring? && s.f.phase.expired != [] {
        RaiseKeepsFrame(s.f.latch, s.f.phase.seen, s.f.phase.drawn, s.f.phase.expired[0].code, s.f.phase.ids);
      }
    case Consumes => if s.f.phase.Consuming? && s.q.faultActivations != [] { ConsumeKeepsCause(s, cfg); }
    case _ =>
  }

  // --- Payload ----------------------------------------------------------------------------

  lemma HearKeepsCause(s: State, w: World, cfg: Config)
    requires ChainKept(s, cfg) && CauseKept(s, cfg) && s.p.phase.PollHearing? && s.q.payloadSafety != []
    ensures CauseKept(PollHear(s, w, cfg), cfg)
  {
    var m := s.q.payloadSafety[0];
    assert m in s.q.payloadSafety;
    OneRecord(Begin(s.p.payload), m, cfg.payload, s.p.phase.now, w);
  }

  /** A release at the end of a poll is on evidence that announced it. */
  lemma EndKeepsCause(s: State, w: World, cfg: Config)
    requires ChainKept(s, cfg) && CauseKept(s, cfg) && s.p.phase.PollAccepting?
    ensures CauseKept(PollEnd(s, w, cfg), cfg)
  {
    var b, ph := Begin(s.p.payload), s.p.phase;
    var p := Finish(b, ph.unsafe, ph.now, w, cfg);
    if !ph.unsafe && b.c.latched && Recovering(b.s.last) {
      PayloadProofs.ReleaseKeeps(b, cfg.payload, ph.now, w);
      if !p.c.latched {
        ReleaseLogged(s.h.log, b.s.last.value.requestId.value, s.h.chain, s.h.offers, cfg.router.rules, s.f.latch.consumed,
                      b.c.marks, p.c.marks);
        AnnouncementsGrow(s.h.log, [PayloadReleased(b.s.last.value.requestId.value)], s.f.latch.releasedId,
                          s.q.payloadSafety, b.c.latest);
      }
    }
    assert s.h.log + [] == s.h.log;
  }

  lemma PayloadKeepsCause(s: State, step: PayloadStep, cfg: Config)
    requires ChainKept(s, cfg) && CauseKept(s, cfg)
    ensures CauseKept(NextPayload(s, step, cfg), cfg)
  {
    var b := Begin(s.p.payload);
    match step
    case PollHears(w) => if s.p.phase.PollHearing? && s.q.payloadSafety != [] { HearKeepsCause(s, w, cfg); }
    case PollTurns(w) => PayloadProofs.LocalFaultsKeep(b, w);
    case PollAccepts(w) =>
      if s.p.phase.PollAccepting? && s.q.payloadActivations != [] {
        PayloadProofs.ActivationKeeps(b, s.q.payloadActivations[0], cfg.payload, w);
      }
    case PollEnds(w) => if s.p.phase.PollAccepting? && s.q.payloadActivations == [] { EndKeepsCause(s, w, cfg); }
    case Acts(op, w) => if MayAct(s, op) { ActFrames(s.p.payload, op, cfg.payload, w); }
    case _ =>
  }

  // --- Every run --------------------------------------------------------------------------

  lemma RouterKeepsThreadCause(s: State, step: RouterStep, cfg: Config)
    requires CauseKept(s, cfg)
    ensures CauseKept(NextRouter(s, step, cfg), cfg)
  {
    match step
    case RouterRoutes(at) => if s.r.phase.RouterRouting? && s.q.commands != [] { RouteKeepsCause(s, at, cfg); }
    case _ =>
  }

  lemma OutsideKeepsCause(s: State, step: OutsideStep, cfg: Config)
    requires CauseKept(s, cfg)
    ensures CauseKept(NextOutside(s, step, cfg), cfg)
  {
  }

  lemma StepKeepsThreadCause(s: State, step: Phases.Step, cfg: Config)
    requires ChainKept(s, cfg) && CauseKept(s, cfg)
    ensures CauseKept(Phases.Next(s, step, cfg), cfg)
  {
    match step
    case OfRouter(rs) => RouterKeepsThreadCause(s, rs, cfg);
    case OfAuthority(aus) => AuthorityKeepsCause(s, aus, cfg);
    case OfFault(fs) => FaultKeepsCause(s, fs, cfg);
    case OfPayload(ps) => PayloadKeepsCause(s, ps, cfg);
    case Outside(os) => OutsideKeepsCause(s, os, cfg);
  }

  lemma {:induction false} CauseOverPhases(entries: seq<Watchdog.Entry>, steps: seq<Phases.Step>, cfg: Config)
    requires Wired(cfg)
    ensures CauseKept(After(entries, steps, cfg), cfg)
  {
    if steps != [] {
      var front := steps[..|steps| - 1];
      CauseOverPhases(entries, front, cfg);
      WatchedOverRuns(entries, front, cfg);
      StepKeepsThreadCause(After(entries, front, cfg), Last(steps), cfg);
    }
  }

  /** In every interleaving of the threads, and on any clocks, each release of payload containment has the whole
      chain of cause behind it, and no two releases share an id. */
  lemma ThreadedReleaseIsCaused(entries: seq<Watchdog.Entry>, steps: seq<Phases.Step>, cfg: Config, p: nat)
    returns (f: int, g: int, m: int, n: int)
    requires Wired(cfg)
    requires var h := After(entries, steps, cfg).h; p < |h.log| && h.log[p].PayloadReleased?
    ensures var h := After(entries, steps, cfg).h;
      && ReleaseChain(h.log, h.offers, p, f, g, m, n, cfg.router.rules)
      && forall j :: p < j < |h.log| && h.log[j].PayloadReleased? ==> h.log[j].id != h.log[p].id
  {
    var s := After(entries, steps, cfg);
    CauseOverPhases(entries, steps, cfg);
    WatchedOverRuns(entries, steps, cfg);
    f, g, m, n := CausedChain(s.h.log, s.h.offers, p, cfg.router.rules);
    forall j | p < j < |s.h.log| && s.h.log[j].PayloadReleased? ensures s.h.log[j].id != s.h.log[p].id {
      PayloadIdAt(s.h.log, p, j);
    }
  }
}
