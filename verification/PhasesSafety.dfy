/** Safety of the threaded protocol: exactly when a set latch finds SAFE, or a way to or out of it, and the
    timing that rules the other case out. */
module PhasesSafety {
  import opened Basics
  import opened Evidence
  import opened Routing
  import opened CommandRouting
  import opened Transitions
  import opened SystemModes
  import opened AuthorityProofs
  import opened Fault
  import opened PayloadContainment
  import opened Protocol
  import opened ProtocolChain
  import opened ProtocolIds
  import opened ProtocolSafety
  import opened Phases
  import opened PhasesKeep
  import Watchdog

  // --- The one way out of line ------------------------------------------------------------

  /** A SAFE request waits for the authority, or SAFE is active. */
  predicate Secured(a: Authority, requests: seq<ModeRequestMsg>) {
    RequestsSafe(requests) || ModeOf(a) == Some(Safe)
  }

  /** The step grants a recovery inside a fault tick that has raised a fault, with no SAFE request waiting. */
  predicate GrantsInWindow(s: State, step: Phases.Step, cfg: Config) {
    var chain := Phases.Next(s, step, cfg).h.chain;
    |chain| > |s.h.chain| && Last(chain).recovery && InWindow(s.f) && !RequestsSafe(s.q.requests)
  }

  /** Where the protocol stands. `exposed` says that a recovery was granted in a window with no SAFE request
      waiting, and that SAFE has been neither asked for nor active since. */
  predicate Guarded(l: Latch, a: Authority, requests: seq<ModeRequestMsg>, queue: seq<Activation>, window: bool, exposed: bool) {
    && (window ==> l.latched)
    && (exposed ==> l.latched && !Secured(a, requests) && (Unread(l, queue) ==> window))
    && (!exposed && l.latched ==> Secured(a, requests) || (Unread(l, queue) && !window))
  }

  predicate Watched(s: State, exposed: bool) {
    Guarded(s.f.latch, s.a.authority, s.q.requests, s.q.faultActivations, InWindow(s.f), exposed)
  }

  /** Whether a step leaves the protocol exposed. */
  predicate Moved(s: State, step: Phases.Step, exposed: bool, cfg: Config) {
    var t := Phases.Next(s, step, cfg);
    (exposed && !Secured(t.a.authority, t.q.requests)) || GrantsInWindow(s, step, cfg)
  }

  // --- Requests and decisions -------------------------------------------------------------

  lemma RequestsGuard(
      l: Latch, a: Authority, requests: seq<ModeRequestMsg>, queue: seq<Activation>, window: bool, exposed: bool,
      more: seq<ModeRequestMsg>)
    requires Guarded(l, a, requests, queue, window, exposed)
    ensures Guarded(l, a, requests + more, queue, window, exposed && !Secured(a, requests + more))
  {
    MoreRequests(requests, more);
  }

  lemma UnreadGrows(l: Latch, queue: seq<Activation>, x: Activation)
    ensures Unread(l, queue + [x]) <==> Unread(l, queue) || (x.recovery && x.sequence > Reached(l.last))
  {
    assert x in queue + [x];
    forall y | y in queue && y.recovery && y.sequence > Reached(l.last) ensures Unread(l, queue + [x]) {
      assert y in queue + [x];
    }
  }

  /** A decision keeps guard; the exposure it may bring about is a recovery in the window. */
  lemma DecisionGuards(
      l: Latch, a: Authority, run: Run, chain: seq<Activation>, requests: seq<ModeRequestMsg>, queue: seq<Activation>,
      window: bool, exposed: bool, epoch: string)
    requires DecidesFrom(a, run, chain, epoch) && LastIsLink(l.last, chain)
    requires Guarded(l, a, requests, queue, window, exposed)
    ensures var recovers := run.activations != [] && Last(run.activations).recovery && window && !RequestsSafe(requests);
      Guarded(l, run.a, requests, queue + run.activations, window, (exposed && !Secured(run.a, requests)) || recovers)
  {
    if run.activations == [] {
      assert queue + [] == queue;
    } else {
      var x := run.activations[0];
      assert x in run.activations && run.activations == [x];
      UnreadGrows(l, queue, x);
    }
  }

  lemma OpeningGuards(s: State, at: real, exposed: bool, cfg: Config)
    requires ChainKept(s, cfg) && Watched(s, exposed) && s.a.phase.Hearing?
    ensures var t := AuthorityOpen(s, at, cfg);
      && Watched(t, exposed && !Secured(t.a.authority, t.q.requests))
      && (|t.h.chain| > |s.h.chain| ==> !Last(t.h.chain).recovery)
  {
    if s.a.authority.active.None? {
      var ask, safety := BootAsk(cfg.authority), Effective(s.a.authority.held, s.a.phase.faults);
      var run := Process(cfg.authority, NewRun(s.a.authority), ask, safety, at);
      AskDecides(s.a.authority, s.h.chain, ask, safety, at, cfg.authority);
      DecisionGuards(s.f.latch, s.a.authority, run, s.h.chain, s.q.requests, s.q.faultActivations, InWindow(s.f), exposed,
                     cfg.authority.epoch);
      LastOfMore(s.h.chain, run.activations);
    }
  }

  lemma LastOfMore(chain: seq<Activation>, more: seq<Activation>)
    ensures |chain + more| > |chain| <==> more != []
    ensures more != [] ==> Last(chain + more) == Last(more) && Last(more) in more
  {
  }

  lemma HeadOfRequests(requests: seq<ModeRequestMsg>)
    requires requests != []
    ensures RequestsSafe(requests) <==> requests[0].mode == Safe || RequestsSafe(requests[1..])
  {
    assert requests == [requests[0]] + requests[1..];
  }

  /** Taking a request off the queue and deciding it: SAFE is then active, or the queue asks for it as before. */
  lemma TakenGuards(
      l: Latch, a: Authority, r: ModeRequestMsg, safety: SafetyEvidence, at: real, chain: seq<Activation>,
      rest: seq<ModeRequestMsg>, queue: seq<Activation>, window: bool, exposed: bool, cfg: AuthorityConfig)
    requires AtEnd(a, chain, cfg.epoch) && LastIsLink(l.last, chain)
    requires Guarded(l, a, [r] + rest, queue, window, exposed)
    ensures var run := Process(cfg, NewRun(a), AskOfRequest(r), safety, at);
      && Guarded(l, run.a, rest, queue + run.activations, window, exposed && !Secured(run.a, rest))
      && (run.activations != [] ==> !Last(run.activations).recovery)
  {
    var ask, run := AskOfRequest(r), Process(cfg, NewRun(a), AskOfRequest(r), safety, at);
    AskDecides(a, chain, ask, safety, at, cfg);
    LastOfMore(chain, run.activations);
    HeadOfRequests([r] + rest);
    assert ([r] + rest)[1..] == rest;
    if r.mode == Safe {
      AskSafely(a, ask, safety, at, cfg);
    } else {
      DecisionGuards(l, a, run, chain, rest, queue, window, exposed, cfg.epoch);
    }
  }

  lemma DecidingGuards(s: State, at: real, exposed: bool, cfg: Config)
    requires ChainKept(s, cfg) && Watched(s, exposed) && s.a.phase.Asking? && s.q.requests != []
    ensures var t := AuthorityDecide(s, at, cfg);
      && Watched(t, exposed && !Secured(t.a.authority, t.q.requests))
      && (|t.h.chain| > |s.h.chain| ==> !Last(t.h.chain).recovery)
  {
    var r, rest := s.q.requests[0], s.q.requests[1..];
    assert s.q.requests == [r] + rest;
    TakenGuards(s.f.latch, s.a.authority, r, s.a.phase.safety, at, s.h.chain, rest, s.q.faultActivations, InWindow(s.f),
                exposed, cfg.authority);
    LastOfMore(s.h.chain, Process(cfg.authority, NewRun(s.a.authority), AskOfRequest(r), s.a.phase.safety, at).activations);
  }

  lemma CommandingGuards(s: State, at: real, exposed: bool, cfg: Config)
    requires ChainKept(s, cfg) && Watched(s, exposed) && s.a.phase.Commanding? && s.a.phase.batch != []
    ensures var t := AuthorityCommand(s, at, cfg);
      var recovers := |t.h.chain| > |s.h.chain| && Last(t.h.chain).recovery && InWindow(s.f) && !RequestsSafe(s.q.requests);
      Watched(t, (exposed && !Secured(t.a.authority, t.q.requests)) || recovers)
  {
    var c, ph := s.a.phase.batch[0], s.a.phase;
    var run := CommandRun(s.a.authority, c, ph.safe, ph.safety, at, cfg);
    CommandDecides(s.a.authority, s.h.chain, c, ph.safe, ph.safety, at, cfg);
    DecisionGuards(s.f.latch, s.a.authority, run, s.h.chain, s.q.requests, s.q.faultActivations, InWindow(s.f), exposed,
                   cfg.authority.epoch);
    LastOfMore(s.h.chain, run.activations);
  }

  /** A repeated link adds nothing the fault app has not read or queued. */
  lemma ReplyingGuards(s: State, exposed: bool, cfg: Config)
    requires ChainKept(s, cfg) && Watched(s, exposed) && s.q.syncs != []
    ensures var t := AuthorityReply(s, cfg);
      Watched(t, exposed && !Secured(t.a.authority, t.q.requests)) && t.h.chain == s.h.chain
  {
    if s.a.authority.active.Some? {
      UnreadGrows(s.f.latch, s.q.faultActivations, s.a.authority.active.value);
    }
  }

  /** What an authority step does to the guard, whichever it is. */
  predicate StillGuarded(s: State, t: State, exposed: bool) {
    Watched(t, (exposed && !Secured(t.a.authority, t.q.requests))
               || (|t.h.chain| > |s.h.chain| && Last(t.h.chain).recovery && InWindow(s.f) && !RequestsSafe(s.q.requests)))
  }

  lemma AuthorityGuards(s: State, step: AuthorityStep, exposed: bool, cfg: Config)
    requires ChainKept(s, cfg) && Watched(s, exposed)
    ensures StillGuarded(s, NextAuthority(s, step, cfg), exposed)
  {
    match step
    case Opens(at) => if s.a.phase.Hearing? { OpeningGuards(s, at, exposed, cfg); }
    case Decides(at) => if s.a.phase.Asking? && s.q.requests != [] { DecidingGuards(s, at, exposed, cfg); }
    case Commands(at) => if s.a.phase.Commanding? && s.a.phase.batch != [] { CommandingGuards(s, at, exposed, cfg); }
    case Replies => if s.a.phase.Replying? && s.q.syncs != [] { ReplyingGuards(s, exposed, cfg); }
    case _ =>
  }

  // --- The fault tick ---------------------------------------------------------------------

  /** Consuming with a fault raised changes nothing the guard rests on. */
  lemma FaultedConsumption(l: Latch, x: Activation, epoch: string)
    ensures Consume(l, x, epoch, true).latched == l.latched
  {
  }

  lemma RestUnread(l: Latch, queue: seq<Activation>, chain: seq<Activation>, m: Latch)
    requires queue != [] && FaultView(queue, l.last, chain)
    requires Reached(m.last) == (if queue[0].sequence > Reached(l.last) then queue[0].sequence else Reached(l.last))
    ensures Unread(m, queue[1..]) ==> Unread(l, queue)
    ensures Unread(l, queue) && !(queue[0].recovery && queue[0].sequence > Reached(l.last)) ==> Unread(m, queue[1..])
  {
    var head, rest := queue[0], queue[1..];
    assert queue == [head] + rest;
    ViewOfRest(queue, l.last, chain);
    if Unread(l, queue) && !(head.recovery && head.sequence > Reached(l.last)) {
      var x :| x in queue && x.recovery && x.sequence > Reached(l.last);
      assert x in rest && IsLink(x, chain) && IsLink(head, chain);
      assert x.sequence == head.sequence ==> x == head;
    }
  }

  /** With no fault raised, the head of the queue releases the latch exactly when it is an unread recovery. */
  lemma ClearConsumption(l: Latch, queue: seq<Activation>, chain: seq<Activation>, drained: set<Key>, epoch: string)
    requires queue != [] && FaultView(queue, l.last, chain) && Recoverable(chain, drained, epoch)
    requires SpentBelow(l.consumed, chain, Reached(l.last))
    ensures var head := queue[0];
      Consume(l, head, epoch, false).latched <==> l.latched && !(head.recovery && head.sequence > Reached(l.last))
  {
    var head := queue[0];
    assert head in queue && IsLink(head, chain);
    if head.recovery && head.sequence > Reached(l.last) {
      ReleaseOn(l, head, chain, drained, epoch);
    }
  }

  lemma ConsumingGuards(s: State, exposed: bool, cfg: Config)
    requires Wired(cfg) && Kept(s, cfg) && Watched(s, exposed) && s.f.phase.Consuming? && s.q.faultActivations != []
    ensures Watched(FaultConsume(s, cfg), exposed)
  {
    var l, queue, chain, faulted := s.f.latch, s.q.faultActivations, s.h.chain, s.f.phase.seen != {};
    var m := Consume(l, queue[0], cfg.fault.epoch, faulted);
    ConsumeHead(l, queue, chain, cfg.fault.epoch, faulted);
    RestUnread(l, queue, chain, m);
    if faulted {
      FaultedConsumption(l, queue[0], cfg.fault.epoch);
    } else {
      ClearConsumption(l, queue, chain, s.h.drained, cfg.fault.epoch);
      if queue[0].recovery && queue[0].sequence > Reached(l.last) {
        assert Unread(l, queue) by { assert queue[0] in queue; }
      }
    }
  }

  lemma RaisingGuards(s: State, code: FaultCode, ids: Ids, seen: set<FaultCode>, drawn: nat, exposed: bool)
    requires Guarded(s.f.latch, s.a.authority, s.q.requests, s.q.faultActivations, seen != {}, exposed)
    ensures var (t, r) := RaiseOne(s, code, ids, seen, drawn);
      Guarded(t.f.latch, t.a.authority, t.q.requests, t.q.faultActivations, r.seen != {},
              exposed && !Secured(t.a.authority, t.q.requests))
  {
    RaiseKeepsFrame(s.f.latch, seen, drawn, code, ids);
    var r := Raise(Raised(s.f.latch, [], seen, drawn), code, ids);
    MoreRequests(s.q.requests, r.requests);
    if r.requests == [] {
      assert s.q.requests + [] == s.q.requests;
    }
  }

  lemma EventGuards(s: State, exposed: bool, cfg: Config)
    requires Watched(s, exposed) && s.f.phase.Raising? && s.q.events != []
    ensures var t := FaultRaise(s, cfg); Watched(t, exposed && !Secured(t.a.authority, t.q.requests))
  {
    RaisingGuards(s.(q := s.q.(events := s.q.events[1..])), s.q.events[0].code, s.f.phase.ids, s.f.phase.seen,
                  s.f.phase.drawn, exposed);
  }

  lemma ExpiryGuards(s: State, exposed: bool, cfg: Config)
    requires Watched(s, exposed) && s.f.phase.Expiring? && s.f.phase.expired != []
    ensures var t := FaultExpire(s, cfg); Watched(t, exposed && !Secured(t.a.authority, t.q.requests))
  {
    RaisingGuards(s, s.f.phase.expired[0].code, s.f.phase.ids, s.f.phase.seen, s.f.phase.drawn, exposed);
  }

  lemma TurningGuards(s: State, step: FaultStep, exposed: bool, cfg: Config)
    requires Watched(s, exposed) && !step.Raises? && !step.Expires? && !step.Consumes?
    ensures var t := NextFault(s, step, cfg);
      Watched(t, exposed) && t.a == s.a && t.q.requests == s.q.requests
  {
  }

  lemma FaultSilent(s: State, step: FaultStep, cfg: Config)
    ensures NextFault(s, step, cfg).h.chain == s.h.chain && NextFault(s, step, cfg).a == s.a
  {
  }

  lemma FaultGuards(s: State, step: FaultStep, exposed: bool, cfg: Config)
    requires Wired(cfg) && Kept(s, cfg) && Watched(s, exposed)
    ensures var t := NextFault(s, step, cfg); Watched(t, exposed && !Secured(t.a.authority, t.q.requests))
  {
    match step
    case Raises =>
      if s.f.phase.Raising? && s.q.events != [] { EventGuards(s, exposed, cfg); }
    case Expires =>
      if s.f.phase.Expiring? && s.f.phase.expired != [] { ExpiryGuards(s, exposed, cfg); }
    case Consumes => if s.f.phase.Consuming? && s.q.faultActivations != [] { ConsumingGuards(s, exposed, cfg); }
    case _ => TurningGuards(s, step, exposed, cfg);
  }

  // --- Every step -------------------------------------------------------------------------

  lemma RequestGuards(s: State, requests: seq<ModeRequestMsg>, exposed: bool)
    requires Watched(s, exposed)
    ensures var t := Request(s, requests); Watched(t, exposed && !Secured(t.a.authority, t.q.requests))
  {
    RequestsGuard(s.f.latch, s.a.authority, s.q.requests, s.q.faultActivations, InWindow(s.f), exposed, requests);
  }

  lemma PayloadAsks(s: State, step: PayloadStep, cfg: Config)
    ensures var t := NextPayload(s, step, cfg);
      && t.f == s.f && t.a == s.a && t.q.faultActivations == s.q.faultActivations && t.h.chain == s.h.chain
      && (t.q.requests == s.q.requests || t.q.requests == s.q.requests + t.p.payload.o.requests)
  {
  }

  lemma PayloadGuards(s: State, step: PayloadStep, exposed: bool, cfg: Config)
    requires Watched(s, exposed)
    ensures var t := NextPayload(s, step, cfg);
      Watched(t, exposed && !Secured(t.a.authority, t.q.requests)) && t.h.chain == s.h.chain
  {
    var t := NextPayload(s, step, cfg);
    PayloadAsks(s, step, cfg);
    RequestsGuard(s.f.latch, s.a.authority, s.q.requests, s.q.faultActivations, InWindow(s.f), exposed, t.p.payload.o.requests);
  }

  lemma RouterGuards(s: State, step: RouterStep, exposed: bool, cfg: Config)
    requires Watched(s, exposed)
    ensures var t := NextRouter(s, step, cfg);
      Watched(t, exposed && !Secured(t.a.authority, t.q.requests)) && t.h.chain == s.h.chain
  {
  }

  lemma OutsideGuards(s: State, step: OutsideStep, exposed: bool, cfg: Config)
    requires Watched(s, exposed)
    ensures var t := NextOutside(s, step, cfg);
      Watched(t, exposed && !Secured(t.a.authority, t.q.requests)) && t.h.chain == s.h.chain
  {
    match step
    case ModeAsked(r) => RequestGuards(s, [r], exposed);
    case _ =>
  }

  lemma StepGuards(s: State, step: Phases.Step, exposed: bool, cfg: Config)
    requires Wired(cfg) && Kept(s, cfg) && Watched(s, exposed)
    ensures Watched(Phases.Next(s, step, cfg), Moved(s, step, exposed, cfg))
  {
    match step
    case OfRouter(rs) => RouterGuards(s, rs, exposed, cfg);
    case OfAuthority(aus) => AuthorityGuards(s, aus, exposed, cfg);
    case OfFault(fs) => FaultGuards(s, fs, exposed, cfg); FaultSilent(s, fs, cfg);
    case OfPayload(ps) => PayloadGuards(s, ps, exposed, cfg);
    case Outside(os) => OutsideGuards(s, os, exposed, cfg);
  }

  // --- Every run --------------------------------------------------------------------------

  function After(entries: seq<Watchdog.Entry>, steps: seq<Phases.Step>, cfg: Config): State {
    Phases.RunFrom(Boot(entries), steps, cfg)
  }

  /** Some step of the run granted a recovery in a window with no SAFE request waiting, and after no later step
      did one wait or was SAFE active. */
  predicate Exposed(entries: seq<Watchdog.Entry>, steps: seq<Phases.Step>, cfg: Config) {
    steps != [] &&
    var front := steps[..|steps| - 1];
    Moved(After(entries, front, cfg), Last(steps), Exposed(entries, front, cfg), cfg)
  }

  lemma {:induction false} WatchedOverRuns(entries: seq<Watchdog.Entry>, steps: seq<Phases.Step>, cfg: Config)
    requires Wired(cfg)
    ensures Kept(After(entries, steps, cfg), cfg) && Watched(After(entries, steps, cfg), Exposed(entries, steps, cfg))
  {
    if steps != [] {
      var front := steps[..|steps| - 1];
      WatchedOverRuns(entries, front, cfg);
      var s := After(entries, front, cfg);
      StepKeeps(s, Last(steps), cfg);
      StepGuards(s, Last(steps), Exposed(entries, front, cfg), cfg);
    }
  }

  predicate SafelyPhased(s: State) {
    SafeOrSoon(s.f.latch, s.a.authority, s.q)
  }

  /** In every state of every run of the threads, a set latch finds SAFE active, a SAFE request queued or an
      unread recovery queued, with one exception: a recovery was granted while a fault tick was between raising
      a fault and consuming, nothing has asked for SAFE since, and the fault app has consumed that recovery. */
  lemma SafeOrSoonExactly(entries: seq<Watchdog.Entry>, steps: seq<Phases.Step>, cfg: Config)
    requires Wired(cfg)
    ensures var s := After(entries, steps, cfg);
      SafelyPhased(s) <==> !(Exposed(entries, steps, cfg) && !Unread(s.f.latch, s.q.faultActivations))
  {
    WatchedOverRuns(entries, steps, cfg);
  }

  function Consumptions(n: nat): (steps: seq<Phases.Step>)
    ensures |steps| == n && forall i :: 0 <= i < n ==> steps[i] == OfFault(Consumes)
  {
    seq(n, _ => OfFault(Consumes))
  }

  lemma Consumption(s: State, cfg: Config)
    requires s.f.phase.Consuming? && s.q.faultActivations != []
    ensures var t := Phases.Next(s, OfFault(Consumes), cfg);
      && t.f.phase == s.f.phase && t.a == s.a && t.q.requests == s.q.requests
      && t.q.faultActivations == s.q.faultActivations[1..]
      && !GrantsInWindow(s, OfFault(Consumes), cfg)
  {
  }

  lemma OneConsumption(entries: seq<Watchdog.Entry>, steps: seq<Phases.Step>, cfg: Config)
    requires Wired(cfg)
    requires var s := After(entries, steps, cfg); s.f.phase.Consuming? && s.q.faultActivations != []
    ensures var longer := steps + [OfFault(Consumes)];
      var s, t := After(entries, steps, cfg), After(entries, longer, cfg);
      && t.f.phase == s.f.phase && t.a == s.a && t.q.requests == s.q.requests
      && t.q.faultActivations == s.q.faultActivations[1..]
      && Exposed(entries, longer, cfg) == Exposed(entries, steps, cfg)
  {
    var longer := steps + [OfFault(Consumes)];
    assert longer[..|longer| - 1] == steps && Last(longer) == OfFault(Consumes);
    Consumption(After(entries, steps, cfg), cfg);
    WatchedOverRuns(entries, steps, cfg);
  }

  lemma {:induction false} ConsumptionsRun(entries: seq<Watchdog.Entry>, steps: seq<Phases.Step>, n: nat, cfg: Config)
    requires Wired(cfg)
    requires var s := After(entries, steps, cfg); s.f.phase.Consuming? && n <= |s.q.faultActivations|
    ensures var s, t := After(entries, steps, cfg), After(entries, steps + Consumptions(n), cfg);
      && t.f.phase == s.f.phase && t.a == s.a && t.q.requests == s.q.requests
      && t.q.faultActivations == s.q.faultActivations[n..]
      && Exposed(entries, steps + Consumptions(n), cfg) == Exposed(entries, steps, cfg)
  {
    if n == 0 {
      assert steps + Consumptions(n) == steps;
    } else {
      ConsumptionsRun(entries, steps, n - 1, cfg);
      OneConsumption(entries, steps + Consumptions(n - 1), cfg);
      assert steps + Consumptions(n) == steps + Consumptions(n - 1) + [OfFault(Consumes)];
    }
  }

  /** Whether the exception arises: once a fault tick that raised a fault has consumed its queue, a set latch
      finds SAFE active or asked for if and only if the run is not exposed. */
  lemma ConsumedExactly(entries: seq<Watchdog.Entry>, steps: seq<Phases.Step>, cfg: Config)
    requires Wired(cfg)
    requires var s := After(entries, steps, cfg); s.f.phase.Consuming? && InWindow(s.f)
    ensures var n := |After(entries, steps, cfg).q.faultActivations|;
      var t := After(entries, steps + Consumptions(n), cfg);
      && t.f.latch.latched && t.q.faultActivations == []
      && (SafelyPhased(t) <==> !Exposed(entries, steps, cfg))
  {
    var n := |After(entries, steps, cfg).q.faultActivations|;
    ConsumptionsRun(entries, steps, n, cfg);
    WatchedOverRuns(entries, steps + Consumptions(n), cfg);
  }

  // --- Timing -----------------------------------------------------------------------------

  /** One clock for all threads, never running back, and more than the interval and its slack between the starts
      of consecutive fault ticks: the fault app waits one interval after each tick. */
  predicate Timely(s: State, step: Phases.Step, cfg: Config) {
    match step
    case OfFault(FaultStarts(now, _)) =>
      s.h.starts != [] ==> now > Last(s.h.starts) + cfg.authority.interval + TOLERANCE
    case OfAuthority(Commands(at)) => s.h.starts != [] ==> at >= Last(s.h.starts)
    case _ => true
  }

  predicate TimelyRun(entries: seq<Watchdog.Entry>, steps: seq<Phases.Step>, cfg: Config) {
    steps == [] ||
    (TimelyRun(entries, steps[..|steps| - 1], cfg) && Timely(After(entries, steps[..|steps| - 1], cfg), Last(steps), cfg))
  }

  /** Observed by an earlier fault tick than the one in progress; by the last one if none is. */
  predicate Behind(observed: real, f: FaultPart, starts: seq<real>, interval: real) {
    && starts != []
    && (if f.phase.FaultIdle? then observed <= Last(starts) else observed + interval + TOLERANCE < Last(starts))
  }

  predicate AllBehind(msgs: seq<SafetyMsg>, f: FaultPart, starts: seq<real>, interval: real) {
    forall m :: m in msgs && m.observed.Finite? ==> Behind(m.observed.at, f, starts, interval)
  }

  /** The reading the fault tick in progress started at. */
  function StartOf(ph: FaultPhase): Option<real> {
    if ph.FaultIdle? then None else Some(ph.now)
  }

  predicate Dated(s: State, cfg: Config) {
    && AllBehind(s.q.authoritySafety, s.f, s.h.starts, cfg.authority.interval)
    && (s.a.authority.held.observed.Some? ==>
          Behind(s.a.authority.held.observed.value, s.f, s.h.starts, cfg.authority.interval))
    && (!s.f.phase.FaultIdle? ==> s.h.starts != [] && StartOf(s.f.phase) == Some(Last(s.h.starts)))
  }

  lemma CommandIsFresh(a: Authority, c: Command, safe: bool, safety: SafetyEvidence, at: real, cfg: Config)
    requires WellFormed(a, cfg.authority.epoch)
    ensures var run := CommandRun(a, c, safe, safety, at, cfg);
      run.activations != [] && Last(run.activations).recovery ==> Fresh(a.held, at, cfg.authority.interval)
  {
    CommandIsAsk(a, c, safe, safety, at, cfg);
    if c.target == SYSTEM_MODES && AskOfCommand(c, safe).Some? {
      var ask := AskOfCommand(c, safe).value;
      AskFacts(c, safe);
      AskGrants(a, ask, safety, at, cfg.authority);
      AskSafely(a, ask, safety, at, cfg.authority);
    }
  }

  lemma OnlyAuthorityGrants(s: State, step: Phases.Step, cfg: Config)
    requires !step.OfAuthority?
    ensures Phases.Next(s, step, cfg).h.chain == s.h.chain
  {
    match step
    case OfFault(fs) => FaultSilent(s, fs, cfg);
    case OfPayload(ps) => PayloadAsks(s, ps, cfg);
    case _ =>
  }

  lemma OnlyCommandsRecover(s: State, step: AuthorityStep, cfg: Config)
    requires ChainKept(s, cfg) && Watched(s, false) && !step.Commands?
    ensures !GrantsInWindow(s, OfAuthority(step), cfg)
  {
    match step
    case Opens(at) => if s.a.phase.Hearing? { OpeningGuards(s, at, false, cfg); }
    case Decides(at) => if s.a.phase.Asking? && s.q.requests != [] { DecidingGuards(s, at, false, cfg); }
    case _ =>
  }

  /** Evidence held during a fault tick is too old for a recovery. */
  lemma TimelyNeverExposes(s: State, step: Phases.Step, cfg: Config)
    requires ChainKept(s, cfg) && Watched(s, false) && Dated(s, cfg) && Timely(s, step, cfg)
    ensures !GrantsInWindow(s, step, cfg)
  {
    if !step.OfAuthority? {
      OnlyAuthorityGrants(s, step, cfg);
    } else if !step.aus.Commands? {
      OnlyCommandsRecover(s, step.aus, cfg);
    } else if s.a.phase.Commanding? && s.a.phase.batch != [] {
      TooOldToRecover(s, step.aus.at, cfg);
    }
  }

  lemma TooOldToRecover(s: State, at: real, cfg: Config)
    requires ChainKept(s, cfg) && Dated(s, cfg) && Timely(s, OfAuthority(Commands(at)), cfg)
    requires s.a.phase.Commanding? && s.a.phase.batch != []
    ensures var chain := AuthorityCommand(s, at, cfg).h.chain;
      |chain| > |s.h.chain| && Last(chain).recovery ==> !InWindow(s.f)
  {
    var c, ph := s.a.phase.batch[0], s.a.phase;
    CommandIsFresh(s.a.authority, c, ph.safe, ph.safety, at, cfg);
    LastOfMore(s.h.chain, CommandRun(s.a.authority, c, ph.safe, ph.safety, at, cfg).activations);
  }

  lemma FaultDates(s: State, step: FaultStep, cfg: Config)
    requires Dated(s, cfg) && Timely(s, OfFault(step), cfg) && cfg.authority.interval >= 0.0
    ensures Dated(NextFault(s, step, cfg), cfg)
  {
  }

  lemma AuthorityDates(s: State, step: AuthorityStep, cfg: Config)
    requires Dated(s, cfg) && ChainKept(s, cfg)
    ensures Dated(NextAuthority(s, step, cfg), cfg)
  {
    match step
    case Opens(at) =>
      if s.a.phase.Hearing? {
        AskGrants(s.a.authority, BootAsk(cfg.authority), Effective(s.a.authority.held, s.a.phase.faults), at, cfg.authority);
      }
    case Decides(at) =>
      if s.a.phase.Asking? && s.q.requests != [] {
        AskGrants(s.a.authority, AskOfRequest(s.q.requests[0]), s.a.phase.safety, at, cfg.authority);
      }
    case Commands(at) =>
      if s.a.phase.Commanding? && s.a.phase.batch != [] {
        CommandDecides(s.a.authority, s.h.chain, s.a.phase.batch[0], s.a.phase.safe, s.a.phase.safety, at, cfg);
      }
    case _ =>
  }

  lemma OthersDate(s: State, step: Phases.Step, cfg: Config)
    requires Dated(s, cfg) && !step.OfAuthority? && !step.OfFault?
    ensures Dated(Phases.Next(s, step, cfg), cfg)
  {
    match step
    case OfPayload(ps) => PayloadSilent(s, ps, cfg);
    case _ =>
  }

  lemma PayloadSilent(s: State, step: PayloadStep, cfg: Config)
    ensures var t := NextPayload(s, step, cfg);
      t.f == s.f && t.a == s.a && t.q.authoritySafety == s.q.authoritySafety && t.h.starts == s.h.starts
  {
  }

  lemma StepDates(s: State, step: Phases.Step, cfg: Config)
    requires Dated(s, cfg) && ChainKept(s, cfg) && Timely(s, step, cfg) && cfg.authority.interval >= 0.0
    ensures Dated(Phases.Next(s, step, cfg), cfg)
  {
    match step
    case OfAuthority(aus) => AuthorityDates(s, aus, cfg);
    case OfFault(fs) => FaultDates(s, fs, cfg);
    case _ => OthersDate(s, step, cfg);
  }

  lemma {:induction false} TimelyRunsUnexposed(entries: seq<Watchdog.Entry>, steps: seq<Phases.Step>, cfg: Config)
    requires Wired(cfg) && cfg.authority.interval >= 0.0 && TimelyRun(entries, steps, cfg)
    ensures Dated(After(entries, steps, cfg), cfg) && !Exposed(entries, steps, cfg)
  {
    if steps != [] {
      var front := steps[..|steps| - 1];
      var s := After(entries, front, cfg);
      TimelyRunsUnexposed(entries, front, cfg);
      WatchedOverRuns(entries, front, cfg);
      StepDates(s, Last(steps), cfg);
      TimelyNeverExposes(s, Last(steps), cfg);
    }
  }

  /** Safety of the threads: with the clock and the fault app's waits as they are in flight, a set latch finds
      SAFE active, a SAFE request queued to the authority, or an unread recovery queued to the fault app, in
      every state of every interleaving. */
  lemma TimelyRunsAreSafe(entries: seq<Watchdog.Entry>, steps: seq<Phases.Step>, cfg: Config)
    requires Wired(cfg) && cfg.authority.interval >= 0.0 && TimelyRun(entries, steps, cfg)
    ensures SafelyPhased(After(entries, steps, cfg))
  {
    TimelyRunsUnexposed(entries, steps, cfg);
    SafeOrSoonExactly(entries, steps, cfg);
  }

  /** As without threads: the activations of a run form one chain. */
  lemma ChainOverPhases(entries: seq<Watchdog.Entry>, steps: seq<Phases.Step>, cfg: Config)
    requires Wired(cfg)
    ensures ReadsAsChain(After(entries, steps, cfg).h.chain, cfg.authority.epoch)
  {
    WatchedOverRuns(entries, steps, cfg);
    LinkedReads(After(entries, steps, cfg).h.chain, cfg.authority.epoch);
  }
}
