/** What every step of the threaded protocol keeps: activations in flight are links of one chain, and
    recovery ids are never reused. */
module PhasesKeep {
  import opened Basics
  import opened Evidence
  import opened Routing
  import opened CommandRouting
  import opened Transitions
  import opened SystemModes
  import opened AuthorityProofs
  import opened Fault
  import opened PayloadContainment
  import opened Protocol
  import opened ProtocolChain
  import opened ProtocolIds
  import opened Phases
  import PayloadProofs

  // --- One decision -----------------------------------------------------------------------

  /** The newest link has reached the fault app, or waits in its queue. */
  predicate Delivered(chain: seq<Activation>, queue: seq<Activation>, last: Option<Activation>) {
    chain != [] ==> Last(chain) in queue || Last(chain).sequence <= Reached(last)
  }

  predicate InFlight(chain: seq<Activation>, q: Queues, latch: Latch, payload: Payload) {
    && FaultView(q.faultActivations, latch.last, chain)
    && PayloadView(q.payloadActivations, payload.s.last, chain)
    && Delivered(chain, q.faultActivations, latch.last)
  }

  ghost predicate ChainKept(s: State, cfg: Config) {
    && AtEnd(s.a.authority, s.h.chain, cfg.authority.epoch)
    && InFlight(s.h.chain, s.q, s.f.latch, s.p.payload)
    && PayloadProofs.Inv(s.p.payload)
  }

  /** What one decision may do: nothing, or the next link. */
  predicate DecidesFrom(a: Authority, run: Run, chain: seq<Activation>, epoch: string) {
    && AtEnd(run.a, chain + run.activations, epoch)
    && |run.activations| <= 1
    && (run.activations == [] ==> run.a.active == a.active)
    && (forall x :: x in run.activations ==>
          && IsLink(x, chain + run.activations) && x.sequence == |chain| + 1
          && run.a.active == Some(x)
          && Legal(ModeOf(a), x.active, x.recovery) && x.previous == ModeOf(a))
  }

  lemma RunExtends(a: Authority, run: Run, chain: seq<Activation>, cfg: AuthorityConfig)
    requires AtEnd(a, chain, cfg.epoch) && Chained(cfg, a, run) && |run.activations| <= 1
    ensures DecidesFrom(a, run, chain, cfg.epoch)
  {
    EndMoves(a, run.a, chain, run.activations, cfg.epoch);
    LinksOf(cfg.epoch, chain, run.activations);
    if run.activations != [] {
      assert run.activations[..0] == [];
      LinkedAt(cfg.epoch, ModeOf(a), a.sequence, run.activations, 0);
    }
  }

  /** A decision grants at most one activation, of the mode asked for and under the id asked with. */
  lemma AskGrants(a: Authority, ask: Ask, safety: SafetyEvidence, at: real, cfg: AuthorityConfig)
    requires WellFormed(a, cfg.epoch)
    ensures var run := Process(cfg, NewRun(a), ask, safety, at);
      && Chained(cfg, a, run) && |run.activations| <= 1 && run.a.held == a.held
      && (run.activations == [] ==> run.a.active == a.active)
      && (forall x :: x in run.activations ==>
            x.active == ask.target && x.requestId == Some(ask.requestId) && (x.recovery ==> ask.kind == ExitSafe))
  {
    assert Chained(cfg, a, NewRun(a));
    ProcessExtends(cfg, a, NewRun(a), ask, safety, at);
  }

  /** SAFE is granted or stands already; any other grant rests on fresh evidence. */
  lemma AskSafely(a: Authority, ask: Ask, safety: SafetyEvidence, at: real, cfg: AuthorityConfig)
    requires WellFormed(a, cfg.epoch)
    ensures var run := Process(cfg, NewRun(a), ask, safety, at);
      && (ask.target == Safe && ask.forced == None ==> ModeOf(run.a) == Some(Safe))
      && (run.activations != [] && ask.target != Safe ==> Fresh(a.held, at, cfg.interval))
  {
    assert Chained(cfg, a, NewRun(a));
    GrantIsAuthorised(cfg, a, NewRun(a), ask, safety, at);
    if ask.target == Safe && ask.forced == None {
      SafeHolds(cfg, NewRun(a), ask, safety, at);
    }
  }

  lemma AskDecides(a: Authority, chain: seq<Activation>, ask: Ask, safety: SafetyEvidence, at: real, cfg: AuthorityConfig)
    requires AtEnd(a, chain, cfg.epoch)
    ensures var run := Process(cfg, NewRun(a), ask, safety, at);
      && DecidesFrom(a, run, chain, cfg.epoch) && run.a.held == a.held
      && (forall x :: x in run.activations ==>
            x.active == ask.target && x.requestId == Some(ask.requestId) && (x.recovery ==> ask.kind == ExitSafe))
  {
    AskGrants(a, ask, safety, at, cfg);
    RunExtends(a, Process(cfg, NewRun(a), ask, safety, at), chain, cfg);
  }

  lemma CommandIsAsk(a: Authority, c: Command, safe: bool, safety: SafetyEvidence, at: real, cfg: Config)
    ensures var run := CommandRun(a, c, safe, safety, at, cfg);
      if c.target == SYSTEM_MODES && AskOfCommand(c, safe).Some? then
        var decided := Process(cfg.authority, NewRun(a), AskOfCommand(c, safe).value, safety, at);
        run.a == decided.a && run.activations == decided.activations
      else run.a == a && run.activations == []
  {
  }

  lemma CommandDecides(
    a: Authority, chain: seq<Activation>, c: Command, safe: bool, safety: SafetyEvidence, at: real, cfg: Config)
    requires AtEnd(a, chain, cfg.authority.epoch)
    ensures var run := CommandRun(a, c, safe, safety, at, cfg);
      && DecidesFrom(a, run, chain, cfg.authority.epoch)
      && (forall x :: x in run.activations && x.recovery ==> FromExit(x, [c]))
      && run.a.held == a.held
  {
    CommandIsAsk(a, c, safe, safety, at, cfg);
    if c.target == SYSTEM_MODES && AskOfCommand(c, safe).Some? {
      AskFacts(c, safe);
      AskDecides(a, chain, AskOfCommand(c, safe).value, safety, at, cfg.authority);
      assert c in [c];
    } else {
      assert chain + [] == chain;
    }
  }

  lemma OneRises(x: Activation)
    ensures Rising([x])
  {
    assert [x][..0] == [];
  }

  lemma InFlightGrows(chain: seq<Activation>, q: Queues, latch: Latch, payload: Payload, xs: seq<Activation>)
    requires InFlight(chain, q, latch, payload) && |xs| <= 1
    requires forall x :: x in xs ==> IsLink(x, chain + xs) && x.sequence == |chain| + 1
    ensures InFlight(chain + xs,
                     q.(faultActivations := q.faultActivations + xs, payloadActivations := q.payloadActivations + xs),
                     latch, payload)
  {
    if xs != [] {
      OneRises(xs[0]);
      assert xs == [xs[0]];
    }
    ViewsGrow(q.faultActivations, latch.last, chain, xs, xs);
    ViewsGrow(q.payloadActivations, payload.s.last, chain, xs, xs);
    if xs == [] {
      assert chain + xs == chain;
    } else {
      assert Last(chain + xs) == xs[0] && xs[0] in q.faultActivations + xs;
    }
  }

  lemma AdoptKeepsChain(s: State, run: Run, cfg: Config)
    requires ChainKept(s, cfg) && DecidesFrom(s.a.authority, run, s.h.chain, cfg.authority.epoch)
    ensures ChainKept(Adopt(s, run), cfg)
  {
    InFlightGrows(s.h.chain, s.q, s.f.latch, s.p.payload, run.activations);
  }

  /** A synchronisation reply repeats the newest link. */
  lemma ReplyKeepsInFlight(s: State, cfg: Config)
    requires ChainKept(s, cfg) && s.a.authority.active.Some?
    ensures ChainKept(Announce(s, [s.a.authority.active.value]), cfg)
  {
    var chain, xs := s.h.chain, [s.a.authority.active.value];
    LinkFacts(cfg.authority.epoch, chain, |chain| - 1);
    OneRises(xs[0]);
    assert chain + [] == chain;
    ViewsGrow(s.q.faultActivations, s.f.latch.last, chain, xs, []);
    ViewsGrow(s.q.payloadActivations, s.p.payload.s.last, chain, xs, []);
  }

  lemma OpenKeepsChain(s: State, at: real, cfg: Config)
    requires ChainKept(s, cfg) && s.a.phase.Hearing?
    ensures ChainKept(AuthorityOpen(s, at, cfg), cfg)
  {
    var safety := Effective(s.a.authority.held, s.a.phase.faults);
    AskDecides(s.a.authority, s.h.chain, BootAsk(cfg.authority), safety, at, cfg.authority);
    AdoptKeepsChain(s, Process(cfg.authority, NewRun(s.a.authority), BootAsk(cfg.authority), safety, at), cfg);
  }

  lemma DecideKeepsChain(s: State, at: real, cfg: Config)
    requires ChainKept(s, cfg) && s.a.phase.Asking? && s.q.requests != []
    ensures ChainKept(AuthorityDecide(s, at, cfg), cfg)
  {
    var ask := AskOfRequest(s.q.requests[0]);
    AskDecides(s.a.authority, s.h.chain, ask, s.a.phase.safety, at, cfg.authority);
    InFlightGrows(s.h.chain, s.q, s.f.latch, s.p.payload,
                  Process(cfg.authority, NewRun(s.a.authority), ask, s.a.phase.safety, at).activations);
  }

  lemma CommandKeepsChain(s: State, at: real, cfg: Config)
    requires ChainKept(s, cfg) && s.a.phase.Commanding? && s.a.phase.batch != []
    ensures ChainKept(AuthorityCommand(s, at, cfg), cfg)
  {
    var c, ph := s.a.phase.batch[0], s.a.phase;
    CommandDecides(s.a.authority, s.h.chain, c, ph.safe, ph.safety, at, cfg);
    InFlightGrows(s.h.chain, s.q, s.f.latch, s.p.payload,
                  CommandRun(s.a.authority, c, ph.safe, ph.safety, at, cfg).activations);
  }

  lemma AuthorityKeepsChain(s: State, step: AuthorityStep, cfg: Config)
    requires ChainKept(s, cfg)
    ensures ChainKept(NextAuthority(s, step, cfg), cfg)
  {
    match step
    case Opens(at) => if s.a.phase.Hearing? { OpenKeepsChain(s, at, cfg); }
    case Decides(at) => if s.a.phase.Asking? && s.q.requests != [] { DecideKeepsChain(s, at, cfg); }
    case Commands(at) => if s.a.phase.Commanding? && s.a.phase.batch != [] { CommandKeepsChain(s, at, cfg); }
    case Replies =>
      if s.a.phase.Replying? && s.q.syncs != [] && s.a.authority.active.Some? {
        ReplyKeepsInFlight(s.(q := s.q.(syncs := s.q.syncs[1..])), cfg);
      }
    case _ =>
  }

  // --- Fault app --------------------------------------------------------------------------

  lemma ViewOfRest(xs: seq<Activation>, last: Option<Activation>, chain: seq<Activation>)
    requires xs != [] && FaultView(xs, last, chain)
    ensures FaultView(xs[1..], last, chain)
    ensures forall x :: x in xs[1..] ==> xs[0].sequence <= x.sequence
  {
    RisingRest(xs);
  }

  lemma {:induction false} RisingRest(xs: seq<Activation>)
    requires xs != [] && Rising(xs)
    ensures Rising(xs[1..]) && forall x :: x in xs ==> xs[0].sequence <= x.sequence
  {
    if |xs| > 1 {
      var front := xs[..|xs| - 1];
      RisingRest(front);
      assert front[1..] == xs[1..][..|xs| - 2] && xs == front + [Last(xs)];
      assert front[0] == xs[0] && xs[0] in xs;
    }
  }

  /** A link taken up moves the fault app to it, unless it was there already. */
  lemma ConsumeReaches(l: Latch, x: Activation, epoch: string, faulted: bool)
    requires x.epoch == epoch && x.sequence >= 1
    ensures var m := Consume(l, x, epoch, faulted); m.last == if x.sequence > Reached(l.last) then Some(x) else l.last
  {
  }

  /** Taking the head of the queue: passed or skipped, it is behind the fault app afterwards. */
  lemma ConsumeHead(l: Latch, xs: seq<Activation>, chain: seq<Activation>, epoch: string, faulted: bool)
    requires xs != [] && FaultView(xs, l.last, chain) && Linked(epoch, None, 0, chain)
    requires SpentBelow(l.consumed, chain, Reached(l.last)) && Delivered(chain, xs, l.last)
    ensures var m := Consume(l, xs[0], epoch, faulted);
      && FaultView(xs[1..], m.last, chain) && Delivered(chain, xs[1..], m.last)
      && Reached(m.last) == (if xs[0].sequence > Reached(l.last) then xs[0].sequence else Reached(l.last))
      && SpentBelow(m.consumed, chain, Reached(m.last))
  {
    var x, m := xs[0], Consume(l, xs[0], epoch, faulted);
    assert x in xs && IsLink(x, chain);
    LinkFacts(epoch, chain, x.sequence - 1);
    ConsumeReaches(l, x, epoch, faulted);
    ViewMoves(xs, l.last, m.last, chain);
    ConsumeSpends(l, x, chain, epoch, faulted);
  }

  lemma ViewMoves(xs: seq<Activation>, last: Option<Activation>, next: Option<Activation>, chain: seq<Activation>)
    requires xs != [] && FaultView(xs, last, chain) && Delivered(chain, xs, last)
    requires next == if xs[0].sequence > Reached(last) then Some(xs[0]) else last
    ensures FaultView(xs[1..], next, chain) && Delivered(chain, xs[1..], next)
  {
    ViewOfRest(xs, last, chain);
    assert xs == [xs[0]] + xs[1..];
  }

  lemma RaiseKeepsFrame(l: Latch, seen: set<FaultCode>, drawn: nat, code: FaultCode, ids: Ids)
    ensures var r := Raise(Raised(l, [], seen, drawn), code, ids);
      && r.latch.last == l.last && r.latch.consumed == l.consumed
      && (r.requests == [] ==> r.latch == l && r.seen == seen)
      && (r.requests != [] ==> RequestsSafe(r.requests) && r.latch.latched && r.latch.releasedId.None? && r.seen != {})
  {
    var r := Raise(Raised(l, [], seen, drawn), code, ids);
    if r.requests != [] {
      assert r.requests[0] in r.requests && r.requests[0].mode == Safe && code in r.seen;
    }
  }

  // --- Ids --------------------------------------------------------------------------------

  function InHand(ph: AuthorityPhase): seq<Command> {
    if ph.Commanding? then ph.batch else []
  }

  ghost predicate IdsKept(s: State, cfg: Config) {
    && KeysHold(InHand(s.a.phase) + s.q.routed, s.q.commands, s.h.drained, s.lastSeq)
    && Issued(s.h.chain, s.h.drained) && DistinctRecoveries(s.h.chain)
    && SpentBelow(s.f.latch.consumed, s.h.chain, Reached(s.f.latch.last))
  }

  lemma FaultKeepsBoth(s: State, step: FaultStep, cfg: Config)
    requires Wired(cfg) && ChainKept(s, cfg) && IdsKept(s, cfg)
    ensures ChainKept(NextFault(s, step, cfg), cfg) && IdsKept(NextFault(s, step, cfg), cfg)
  {
    match step
    case Raises =>
      if s.f.phase.Raising? && s.q.events != [] {
        RaiseKeepsFrame(s.f.latch, s.f.phase.seen, s.f.phase.drawn, s.q.events[0].code, s.f.phase.ids);
      }
    case Expires =>
      if s.f.phase.Expiring? && s.f.phase.expired != [] {
        RaiseKeepsFrame(s.f.latch, s.f.phase.seen, s.f.phase.drawn, s.f.phase.expired[0].code, s.f.phase.ids);
      }
    case Consumes =>
      if s.f.phase.Consuming? && s.q.faultActivations != [] {
        ConsumeHead(s.f.latch, s.q.faultActivations, s.h.chain, cfg.fault.epoch, s.f.phase.seen != {});
      }
    case _ =>
  }

  /** Dropping one command from the pipeline leaves the others unused. */
  lemma {:induction false} UnusedDrops(a: seq<Command>, c: Command, b: seq<Command>, used: set<Key>)
    requires Unused(a + [c] + b, used)
    ensures Unused(a + b, used) && KeySet(a + b) <= KeySet(a + [c] + b)
  {
    if b == [] {
      assert a + [c] + b == a + [c] && a + b == a;
      assert (a + [c])[..|a|] == a;
    } else {
      var n := |b| - 1;
      assert (a + [c] + b)[..|a + [c] + b| - 1] == a + [c] + b[..n] && Last(a + [c] + b) == Last(b);
      assert (a + b)[..|a + b| - 1] == a + b[..n] && Last(a + b) == Last(b);
      UnusedDrops(a, c, b[..n], used);
    }
  }

  lemma FewerKeys(keys: set<Key>, fewer: set<Key>, lastSeq: map<string, int>)
    requires Within(keys, lastSeq) && fewer <= keys
    ensures Within(fewer, lastSeq)
  {
  }

  lemma OneDropped(waiting: seq<Command>, c: Command, rest: seq<Command>, used: set<Key>, lastSeq: map<string, int>)
    requires KeysHold(waiting, [c] + rest, used, lastSeq)
    ensures KeysHold(waiting + [c], rest, used, lastSeq) && KeysHold(waiting, rest, used, lastSeq)
  {
    assert waiting + ([c] + rest) == waiting + [c] + rest;
    UnusedDrops(waiting, c, rest, used);
    FewerKeys(used + KeySet(waiting + [c] + rest), used + KeySet(waiting + rest), lastSeq);
  }

  lemma OneRouted(run: RouterRun, o: Offer, rules: Rules)
    requires run.routed == []
    ensures RouteOne(run, o, rules).routed == [] || RouteOne(run, o, rules).routed == [o.command]
  {
    AnsweredOnce(o.command, rules, o.latched, o.timely, run.armed, o.now);
  }

  lemma OneMoved(
      batch: seq<Command>, routed: seq<Command>, commands: seq<Command>, more: seq<Command>, used: set<Key>,
      lastSeq: map<string, int>)
    requires commands != [] && KeysHold(batch + routed, commands, used, lastSeq)
    requires more == [] || more == [commands[0]]
    ensures KeysHold(batch + (routed + more), commands[1..], used, lastSeq)
  {
    var waiting, c, rest := batch + routed, commands[0], commands[1..];
    assert commands == [c] + rest;
    OneDropped(waiting, c, rest, used, lastSeq);
    assert batch + (routed + more) == waiting + more && waiting + [] == waiting;
  }

  lemma RouterKeepsIds(s: State, at: real, cfg: Config)
    requires IdsKept(s, cfg) && s.q.commands != []
    ensures IdsKept(Route(s, at, cfg), cfg)
  {
    var o := OfferOf(s.q.commands[0], s.r.router.held, at, cfg.router);
    var run := RouterRun(s.r.router.armed, [], [], [], []);
    OneRouted(run, o, cfg.router.rules);
    OneMoved(InHand(s.a.phase), s.q.routed, s.q.commands, RouteOne(run, o, cfg.router.rules).routed, s.h.drained, s.lastSeq);
  }

  /** Taking the head of the batch uses its key. */
  lemma HeadTaken(batch: seq<Command>, routed: seq<Command>, commands: seq<Command>, drained: set<Key>, lastSeq: map<string, int>)
    requires batch != [] && KeysHold(batch + routed, commands, drained, lastSeq)
    ensures var key := (batch[0].source, batch[0].seqNo);
      && KeysHold(batch[1..] + routed, commands, drained + {key}, lastSeq)
      && key !in drained && NonNegative(drained + {key}) && KeySet([batch[0]]) == {key} && Unused([batch[0]], drained)
  {
    var c, rest := batch[0], batch[1..] + routed + commands;
    assert batch + routed + commands == [c] + rest;
    var key := (c.source, c.seqNo);
    assert [c][..0] == [];
    assert KeySet([c]) == {key};
    UnusedSplits([c], rest, drained);
    KeySetJoins([c], rest);
    assert drained + {key} + KeySet(rest) == drained + KeySet([c] + rest);
    assert Unused(rest, drained + {key});
  }

  lemma IssueOne(a: Authority, run: Run, chain: seq<Activation>, c: Command, drained: set<Key>, epoch: string)
    requires DecidesFrom(a, run, chain, epoch) && Issued(chain, drained) && DistinctRecoveries(chain)
    requires forall x :: x in run.activations && x.recovery ==> FromExit(x, [c])
    requires Unused([c], drained) && NonNegative(drained + KeySet([c]))
    ensures Issued(chain + run.activations, drained + KeySet([c])) && DistinctRecoveries(chain + run.activations)
  {
    forall i | 0 <= i < |run.activations| && run.activations[i].recovery
      ensures NewId(run.activations[i], [c], chain, drained)
    {
      IdIsNew(run.activations[i], [c], chain, drained);
    }
    NewIdsExtend(chain, run.activations, [c], drained);
  }

  lemma IssueNone(a: Authority, run: Run, chain: seq<Activation>, drained: set<Key>, epoch: string)
    requires DecidesFrom(a, run, chain, epoch) && Issued(chain, drained) && DistinctRecoveries(chain)
    requires forall x :: x in run.activations ==> !x.recovery
    ensures Issued(chain + run.activations, drained) && DistinctRecoveries(chain + run.activations)
  {
    NewIdsExtend(chain, run.activations, [], drained);
    assert drained + KeySet([]) == drained;
  }

  lemma CommandKeepsIds(s: State, at: real, cfg: Config)
    requires ChainKept(s, cfg) && IdsKept(s, cfg) && s.a.phase.Commanding? && s.a.phase.batch != []
    ensures IdsKept(AuthorityCommand(s, at, cfg), cfg)
  {
    var c, ph := s.a.phase.batch[0], s.a.phase;
    var run := CommandRun(s.a.authority, c, ph.safe, ph.safety, at, cfg);
    HeadTaken(ph.batch, s.q.routed, s.q.commands, s.h.drained, s.lastSeq);
    CommandDecides(s.a.authority, s.h.chain, c, ph.safe, ph.safety, at, cfg);
    IssueOne(s.a.authority, run, s.h.chain, c, s.h.drained, cfg.authority.epoch);
    SpentGrows(s.f.latch.consumed, s.h.chain, Reached(s.f.latch.last), run.activations, Reached(s.f.latch.last));
  }

  lemma DecideKeepsIds(s: State, ask: Ask, safety: SafetyEvidence, at: real, cfg: Config)
    requires ChainKept(s, cfg) && IdsKept(s, cfg) && ask.kind != ExitSafe
    ensures IdsKept(DecideOne(s, ask, safety, at, cfg), cfg)
  {
    var run := Process(cfg.authority, NewRun(s.a.authority), ask, safety, at);
    AskDecides(s.a.authority, s.h.chain, ask, safety, at, cfg.authority);
    IssueNone(s.a.authority, run, s.h.chain, s.h.drained, cfg.authority.epoch);
    SpentGrows(s.f.latch.consumed, s.h.chain, Reached(s.f.latch.last), run.activations, Reached(s.f.latch.last));
  }

  lemma CollectKeepsIds(s: State, cfg: Config)
    requires IdsKept(s, cfg) && s.a.phase.Collecting?
    ensures IdsKept(NextAuthority(s, Collects, cfg), cfg)
  {
    assert InHand(s.a.phase) + s.q.routed == s.q.routed + [];
  }

  lemma TakeKeepsIds(s: State, at: real, cfg: Config)
    requires ChainKept(s, cfg) && IdsKept(s, cfg) && s.a.phase.Asking? && s.q.requests != []
    ensures IdsKept(AuthorityDecide(s, at, cfg), cfg)
  {
    var r := s.q.requests[0];
    var taken := s.(a := s.a.(phase := Asking(s.a.phase.safety, s.a.phase.safe || r.mode == Safe)),
                    q := s.q.(requests := s.q.requests[1..]));
    assert ChainKept(taken, cfg) && IdsKept(taken, cfg);
    DecideKeepsIds(taken, AskOfRequest(r), s.a.phase.safety, at, cfg);
  }

  lemma OpenKeepsIds(s: State, at: real, cfg: Config)
    requires ChainKept(s, cfg) && IdsKept(s, cfg) && s.a.phase.Hearing?
    ensures IdsKept(AuthorityOpen(s, at, cfg), cfg)
  {
    if s.a.authority.active.None? {
      DecideKeepsIds(s, BootAsk(cfg.authority), Effective(s.a.authority.held, s.a.phase.faults), at, cfg);
    }
  }

  lemma HearKeepsIds(s: State, cfg: Config)
    requires IdsKept(s, cfg) && s.a.phase.Hearing? && s.q.authoritySafety != []
    ensures IdsKept(AuthorityHear(s, cfg), cfg)
  {
  }

  lemma AuthorityKeepsIds(s: State, step: AuthorityStep, cfg: Config)
    requires ChainKept(s, cfg) && IdsKept(s, cfg)
    ensures IdsKept(NextAuthority(s, step, cfg), cfg)
  {
    match step
    case Hears => if s.a.phase.Hearing? && s.q.authoritySafety != [] { HearKeepsIds(s, cfg); }
    case Opens(at) => if s.a.phase.Hearing? { OpenKeepsIds(s, at, cfg); }
    case Decides(at) => if s.a.phase.Asking? && s.q.requests != [] { TakeKeepsIds(s, at, cfg); }
    case Collects => if s.a.phase.Collecting? { CollectKeepsIds(s, cfg); }
    case Commands(at) => if s.a.phase.Commanding? && s.a.phase.batch != [] { CommandKeepsIds(s, at, cfg); }
    case Replies => if s.a.phase.Replying? && s.q.syncs != [] { ReplyKeepsIds(s, cfg); }
    case _ =>
  }

  lemma ReplyKeepsIds(s: State, cfg: Config)
    requires IdsKept(s, cfg) && s.a.phase.Replying? && s.q.syncs != []
    ensures IdsKept(AuthorityReply(s, cfg), cfg)
  {
  }

  // --- Payload and the rest ---------------------------------------------------------------

  lemma FinishKeeps(p: Payload, unsafe: bool, now: real, w: World, cfg: Config)
    requires PayloadProofs.Inv(p)
    ensures var q := Finish(p, unsafe, now, w, cfg); PayloadProofs.Inv(q) && q.s == p.s
  {
    if !unsafe && p.c.latched && Recovering(p.s.last) {
      PayloadProofs.ReleaseKeeps(p, cfg.payload, now, w);
    }
  }

  lemma PayloadKeepsChain(s: State, step: PayloadStep, cfg: Config)
    requires ChainKept(s, cfg)
    ensures ChainKept(NextPayload(s, step, cfg), cfg)
  {
    var b := Begin(s.p.payload);
    match step
    case PollHears(w) =>
      if s.p.phase.PollHearing? && s.q.payloadSafety != [] { OneRecord(b, s.q.payloadSafety[0], cfg.payload, s.p.phase.now, w); }
    case PollTurns(w) => PayloadProofs.LocalFaultsKeep(b, w);
    case PollAccepts(w) =>
      if s.p.phase.PollAccepting? && s.q.payloadActivations != [] {
        PayloadProofs.ActivationKeeps(b, s.q.payloadActivations[0], cfg.payload, w);
      }
    case PollEnds(w) => if s.p.phase.PollAccepting? { FinishKeeps(b, s.p.phase.unsafe, s.p.phase.now, w, cfg); }
    case Acts(op, w) => if MayAct(s, op) { ActFrames(s.p.payload, op, cfg.payload, w); }
    case _ =>
  }

  lemma OneRecord(p: Payload, m: SafetyMsg, cfg: PayloadConfig, now: real, w: World)
    requires PayloadProofs.Inv(p)
    ensures var q := TakeEvidence(p, m, cfg, now, w);
      && PayloadProofs.Inv(q) && q.s == p.s
      && (q.c.latest == p.c.latest || q.c.latest == Some(m))
      && PayloadProofs.ReleasedIds(q.c.marks) == PayloadProofs.ReleasedIds(p.c.marks)
  {
    assert [m][..0] == [];
    assert TakeAllEvidence(p, [m][..0], cfg, now, w) == p;
    PayloadProofs.EvidenceKeeps(p, [m], cfg, now, w);
  }

  lemma PayloadKeepsIds(s: State, step: PayloadStep, cfg: Config)
    requires IdsKept(s, cfg)
    ensures IdsKept(NextPayload(s, step, cfg), cfg)
  {
  }

  lemma OutsideKeepsChain(s: State, step: OutsideStep, cfg: Config)
    requires ChainKept(s, cfg)
    ensures ChainKept(NextOutside(s, step, cfg), cfg)
  {
  }

  lemma UplinkKeepsIds(s: State, c: Command, cfg: Config)
    requires IdsKept(s, cfg) && IngressAccepts(s.lastSeq, c)
    ensures IdsKept(NextOutside(s, OutsideStep.Uplinked(c), cfg), cfg)
  {
    var waiting := InHand(s.a.phase) + s.q.routed;
    var keys := KeySet(waiting + s.q.commands);
    NextKey(s.h.drained + keys, s.lastSeq, c);
    OneMore(waiting, s.q.commands, c, s.h.drained);
    assert s.h.drained + (keys + {(c.source, c.seqNo)}) == s.h.drained + keys + {(c.source, c.seqNo)};
  }

  lemma OutsideKeepsIds(s: State, step: OutsideStep, cfg: Config)
    requires IdsKept(s, cfg)
    ensures IdsKept(NextOutside(s, step, cfg), cfg)
  {
    if step.Uplinked? && IngressAccepts(s.lastSeq, step.c) {
      UplinkKeepsIds(s, step.c, cfg);
    }
  }

  lemma RouterKeepsBoth(s: State, step: RouterStep, cfg: Config)
    requires ChainKept(s, cfg) && IdsKept(s, cfg)
    ensures ChainKept(NextRouter(s, step, cfg), cfg) && IdsKept(NextRouter(s, step, cfg), cfg)
  {
    match step
    case RouterRoutes(at) => if s.r.phase.RouterRouting? && s.q.commands != [] { RouterKeepsIds(s, at, cfg); }
    case _ =>
  }

  ghost predicate Kept(s: State, cfg: Config) {
    ChainKept(s, cfg) && IdsKept(s, cfg)
  }

  lemma StepKeeps(s: State, step: Phases.Step, cfg: Config)
    requires Wired(cfg) && Kept(s, cfg)
    ensures Kept(Phases.Next(s, step, cfg), cfg)
  {
    match step
    case OfRouter(rs) => RouterKeepsBoth(s, rs, cfg);
    case OfAuthority(aus) => AuthorityKeepsChain(s, aus, cfg); AuthorityKeepsIds(s, aus, cfg);
    case OfFault(fs) => FaultKeepsBoth(s, fs, cfg);
    case OfPayload(ps) => PayloadKeepsChain(s, ps, cfg); PayloadKeepsIds(s, ps, cfg);
    case Outside(os) => OutsideKeepsChain(s, os, cfg); OutsideKeepsIds(s, os, cfg);
  }
}
