/** Recovery succeeds: from every reachable state at rest in SAFE, an operator's ARM and EXECUTE of EXIT_SAFE take the
    whole system back to INIT with the fault latch clear and the payload released, if nothing fails on the way and
    each app runs within the bounds it is checked against. */
module ProtocolRecovery {
  import opened Basics
  import opened Evidence
  import opened Routing
  import opened CommandRouting
  import opened SystemModes
  import opened AuthorityProofs
  import opened Fault
  import opened PayloadContainment
  import opened Protocol
  import opened ProtocolChain
  import opened ProtocolIds
  import opened ProtocolSafety
  import AuthorityGrants
  import FaultOutcomes
  import PayloadOutcomes
  import PayloadProofs
  import ProtocolCause
  import ProtocolRecords
  import Naming
  import Watchdog

  // --- What every consumer lags behind ----------------------------------------------------

  predicate Named(id: Option<string>, consumed: set<string>) {
    id.Some? ==> id.value in consumed
  }

  predicate NoNewer(msgs: seq<SafetyMsg>, n: int) {
    forall m :: m in msgs ==> m.sequence <= n
  }

  predicate AllNamed(msgs: seq<SafetyMsg>, consumed: set<string>) {
    forall m :: m in msgs ==> Named(m.recoveryId, consumed)
  }

  /** The payload holds no evidence newer than the n-th record, and knows no release that the fault app has not made. */
  predicate PayloadBehind(c: Containment, queue: seq<SafetyMsg>, n: int, consumed: set<string>) {
    && NoNewer(queue, n) && AllNamed(queue, consumed)
    && (c.latest.Some? ==> c.latest.value.sequence <= n && Named(c.latest.value.recoveryId, consumed))
    && c.lastEvidence <= n && c.consumed <= consumed
  }

  predicate Behind(s: System) {
    var n := s.latch.evidenceSequence;
    && 0 <= n && Named(s.latch.releasedId, s.latch.consumed)
    && s.authority.held.sequence <= n && NoNewer(s.q.authoritySafety, n)
    && PayloadBehind(s.payload.c, s.q.payloadSafety, n, s.latch.consumed)
  }

  lemma AuthorityStaysBehind(t: Traced, clock: Clock, cfg: Config)
    requires ChainInv(t, cfg) && Behind(t.s)
    ensures Behind(Next(t.s, AuthorityTicks(clock), cfg))
  {
    ProtocolRecords.AuthorityHolds(t.s.authority, InboxOf(t.s), clock, cfg.authority);
    AuthorityGrants.HeldIsGreatest(t.s.authority.held, t.s.q.authoritySafety, cfg.authority.epoch, clock(0));
    assert forall i :: 0 <= i < |t.s.q.authoritySafety| ==> t.s.q.authoritySafety[i] in t.s.q.authoritySafety;
  }

  lemma FaultStaysBehind(t: Traced, now: real, ids: Ids, cfg: Config)
    requires Behind(t.s)
    ensures Behind(Next(t.s, FaultTicks(now, ids), cfg))
  {
    var inbox := FaultInbox(t.s.q.beats, t.s.q.events, t.s.q.faultActivations);
    var raised := RaisedInTick(cfg.fault, t.s.latch, t.s.entries, inbox, now, ids);
    RaiseFrames(cfg.fault, t.s.latch, t.s.entries, inbox, now, ids);
    ProtocolCause.SpentFrom(raised.latch, t.s.q.faultActivations, cfg.fault.epoch, raised.seen != {});
    EvidenceCounts(t.s, FaultTicks(now, ids), cfg);
  }

  lemma PollStaysBehind(
    p: Payload, safety: seq<SafetyMsg>, xs: seq<Activation>, cfg: PayloadConfig, now: real, w: World, n: int, consumed: set<string>)
    requires PayloadProofs.Inv(p) && PayloadBehind(p.c, safety, n, consumed)
    ensures PayloadBehind(PollActivations(p, safety, xs, cfg, now, w).c, [], n, consumed)
  {
    PayloadProofs.DrainedKeeps(p, safety, xs, cfg, now, w);
    NewestIsMaximal(p.c.latest, safety, cfg.epoch, now);
    var q := Drained(p, safety, xs, cfg, now, w);
    if Recovering(q.s.last) {
      PayloadOutcomes.TriesExactly(q, q.s.last.value.requestId.value, cfg, now, w);
    }
  }

  lemma StepStaysBehind(t: Traced, step: Step, cfg: Config)
    requires ChainInv(t, cfg) && Behind(t.s)
    ensures Behind(Next(t.s, step, cfg))
  {
    match step
    case AuthorityTicks(clock) => AuthorityStaysBehind(t, clock, cfg);
    case FaultTicks(now, ids) => FaultStaysBehind(t, now, ids, cfg);
    case PayloadPolls(now, w) =>
      PollStaysBehind(t.s.payload, t.s.q.payloadSafety, t.s.q.payloadActivations, cfg.payload, now, w,
                      t.s.latch.evidenceSequence, t.s.latch.consumed);
    case PayloadActs(op, w) => if !op.Poll? && !op.Deliver? { ActFrames(t.s.payload, op, cfg.payload, w); }
    case _ =>
  }

  lemma {:induction false} BehindOverRuns(entries: seq<Watchdog.Entry>, steps: seq<Step>, cfg: Config)
    requires Wired(cfg)
    ensures Behind(TraceFrom(Begun(entries), steps, cfg).s)
  {
    if steps != [] {
      BehindOverRuns(entries, steps[..|steps| - 1], cfg);
      SafetyOverRuns(entries, steps[..|steps| - 1], cfg);
      var t := TraceFrom(Begun(entries), steps[..|steps| - 1], cfg);
      StepStaysBehind(t, Last(steps), cfg);
      assert Trace(t, Last(steps), cfg).s == Next(t.s, Last(steps), cfg);
    }
  }

  // --- The apps one by one ----------------------------------------------------------------

  /** ARM and EXECUTE of EXIT_SAFE from one source, addressed to the authority. */
  predicate ExitPair(arm: Command, execute: Command) {
    && arm.source == execute.source && arm.seqNo < execute.seqNo
    && arm.target == "system_modes" && arm.commandId == "EXIT_SAFE"
    && "phase" in arm.params && arm.params["phase"] == Text("ARM")
    && execute.target == "system_modes" && execute.commandId == "EXIT_SAFE"
    && "phase" in execute.params && execute.params["phase"] == Text("EXECUTE")
  }

  /** The router lets the EXECUTE through, in whatever state the fault latch and the evidence are. */
  lemma RouterSends(r: Router, arm: Command, execute: Command, clock: Clock, cfg: RouterConfig)
    requires ExitPair(arm, execute) && "system_modes" in cfg.rules.routable && "EXIT_SAFE" in cfg.rules.hazardous
    requires clock(2) - clock(1) <= cfg.rules.window
    ensures var run := RouterTick(r, [], [arm, execute], clock, cfg).1; run.routed == [execute] && run.faults == []
  {
    var held := DrainHeld(r.held, [], cfg.epoch, clock(0));
    var start := RouterRun(r.armed, [], [], [], []);
    var first, second := OfferOf(arm, held, clock(1), cfg), OfferOf(execute, held, clock(2), cfg);
    assert [arm, execute][..1] == [arm] && [arm][..0] == [];
    assert RouteAll(start, [], held, clock, cfg) == start;
    assert RouteAll(start, [arm], held, clock, cfg) == RouteOne(start, first, cfg.rules);
    assert RouteAll(start, [arm, execute], held, clock, cfg) == RouteOne(RouteOne(start, first, cfg.rules), second, cfg.rules);
  }

  /** No subsystem is overdue. */
  predicate Punctual(entries: seq<Watchdog.Entry>, now: real) {
    forall i :: 0 <= i < |entries| ==> now - entries[i].last <= entries[i].interval
  }

  lemma {:induction false} PunctualIsQuiet(entries: seq<Watchdog.Entry>, now: real, maxMiss: int)
    requires Punctual(entries, now)
    ensures Watchdog.Expired(entries, now, maxMiss) == [] && Watchdog.Checked(entries, now) == entries
  {
    if entries != [] {
      var front, e := entries[..|entries| - 1], Last(entries);
      assert forall i :: 0 <= i < |front| ==> front[i] == entries[i];
      PunctualIsQuiet(front, now, maxMiss);
      assert e == entries[|entries| - 1] && !Watchdog.Overdue(e, now);
      assert entries == front + [e];
    }
  }

  /** A fault tick that hears of no fault consumes its activations and publishes clear evidence. */
  lemma QuietFaultTick(
      cfg: FaultConfig, l: Latch, entries: seq<Watchdog.Entry>, xs: seq<Activation>, now: real, ids: Ids)
    requires Punctual(entries, now)
    ensures var out, consumed := FaultTick(cfg, l, entries, FaultInbox([], [], xs), now, ids), ConsumeAll(l, xs, cfg.epoch, false);
      && out.latch == consumed.(evidenceSequence := l.evidenceSequence + 1)
      && out.entries == entries && out.requests == []
      && out.evidence == SafetyMsg({}, consumed.latched, consumed.reason, cfg.epoch, l.evidenceSequence + 1, Finite(now),
                                   consumed.releasedId)
  {
    PunctualIsQuiet(entries, now, cfg.maxMiss);
    FaultOutcomes.ConsumeKeepsSequence(l, xs, cfg.epoch, false);
  }

  /** The payload has seen the activation in force and waits for nothing. */
  predicate Settled(p: Payload, active: Activation) {
    p.s.last == Some(active) && !PayloadOutcomes.FaultWaits(p)
  }

  ghost predicate Confirming(w: World) {
    forall n: nat :: w.inhibits(n) == Inhibited(true)
  }

  /** In SAFE a poll with no activation publishes nothing and releases nothing, if the driver confirms its inhibits. */
  lemma QuietPoll(p: Payload, m: SafetyMsg, active: Activation, cfg: PayloadConfig, now: real, w: World)
    requires PayloadProofs.Inv(p) && Settled(p, active) && active.active == Safe && Confirming(w)
    ensures var q := PollActivations(p, [m], [], cfg, now, w);
      && Settled(q, active) && q.o.faults == [] && q.o.requests == [] && q.c.consumed == p.c.consumed
      && !PayloadProofs.Releases(p, [m], [], cfg, now, w)
  {
    var b := Begin(p);
    assert [m][..0] == [] && TakeAllEvidence(b, [], cfg, now, w) == b;
    var warned := TakeAllEvidence(b, [m], cfg, now, w);
    assert warned == TakeEvidence(b, m, cfg, now, w);
    assert warned.o == b.o && warned.s == p.s && warned.c.consumed == p.c.consumed;
    PayloadOutcomes.LocalFaultsContainExactly(warned, w);
    assert TakeAllActivations(Install(TakeLocalFaults(warned, w)), [], cfg, w) == Install(TakeLocalFaults(warned, w));
  }

  /** The authority in SAFE on clear evidence just drained grants the EXECUTE. */
  lemma AuthorityExits(
    a: Authority, m: SafetyMsg, execute: Command, arm: Command, clock: Clock, cfg: AuthorityConfig)
    returns (x: Activation)
    requires WellFormed(a, cfg.epoch) && ModeOf(a) == Some(Safe) && ExitPair(arm, execute)
    requires m.epoch == cfg.epoch && m.activeFaults == {} && a.held.sequence < m.sequence && 0 <= m.sequence
    requires m.observed.Finite? && m.observed.at <= clock(0) && m.observed.at <= clock(1) <= m.observed.at + cfg.interval + TOLERANCE
    ensures var run := AuthorityTick(cfg, a, Inbox([m], [], [execute], []), clock);
      && run.activations == [x] && Added(cfg, a, Inbox([m], [], [execute], []), clock) == [x] && run.a.active == Some(x)
    ensures x.epoch == cfg.epoch && x.sequence == a.sequence + 1 && x.previous == Some(Safe) && x.active == Init && x.recovery
    ensures x.requestId == Some(Naming.CommandRequestId(execute.source, execute.seqNo))
  {
    var inbox := Inbox([m], [], [execute], []);
    var effective := EffectiveAt(cfg, a, inbox, clock(0));
    var begun := Opened(cfg, a, inbox, clock);
    assert [m][..0] == [];
    assert DrainHeld(a.held, [], cfg.epoch, clock(0)) == a.held;
    assert DrainHeld(a.held, [m], cfg.epoch, clock(0)) == Hold(m);
    assert DrainFaults(a.held, [m], cfg.epoch, clock(0)) == {};
    assert begun == Run(a.(held := Hold(m)), [], [], [], 0) && effective.faults == {};
    assert [execute][..0] == [];
    assert !SafeAsked(inbox);
    var ask := AskOfCommand(execute, false).value;
    AuthorityGrants.GrantedExactly(cfg, begun, ask, effective, clock(1));
    assert HandleCommands(cfg, begun, [], false, effective, clock) == begun;
    var after := HandleCommands(cfg, begun, [execute], false, effective, clock);
    assert after == HandleCommand(cfg, begun, execute, false, effective, clock);
    x := after.a.active.value;
  }

  /** The fault app, which has read nothing past the activation before it, clears its latch on the recovery. */
  lemma FaultClears(l: Latch, x: Activation, epoch: string, id: string)
    requires x.epoch == epoch && x.recovery && x.previous == Some(Safe) && x.active == Init && x.requestId == Some(id)
    requires id != "" && id !in l.consumed && 0 <= x.sequence && (l.last.Some? ==> l.last.value.sequence < x.sequence)
    ensures var r := ConsumeAll(l, [x], epoch, false);
      !r.latched && r.releasedId == Some(id) && r.last == Some(x) && SpentIds(l, [x], epoch, false) == [id]
  {
    assert [x][..0] == [];
    assert ConsumeAll(l, [], epoch, false) == l && SpentIds(l, [], epoch, false) == [];
    FaultOutcomes.ConsumesExactly(l, x, epoch, false);
  }

  /** The payload, contained and in step with the authority, takes the recovery in and is released. */
  lemma PollFrees(
    p: Payload, m: SafetyMsg, active: Activation, x: Activation, id: string, cfg: PayloadConfig, now: real, w: World)
    requires PayloadProofs.Inv(p) && Settled(p, active) && active.active == Safe
    requires cfg.epoch != "" && x.epoch == cfg.epoch && 0 <= active.sequence < x.sequence
    requires x.recovery && x.previous == Some(Safe) && x.active == Init && x.requestId == Some(id) && id != ""
    requires m.epoch == cfg.epoch && 0 <= m.sequence && m.activeFaults == {} && !m.latched && m.recoveryId == Some(id)
    requires m.observed.Finite? && m.observed.at <= now <= m.observed.at + cfg.interval
    requires (p.c.latest.Some? ==> p.c.latest.value.sequence < m.sequence) && p.c.lastEvidence < m.sequence
    requires id !in p.c.consumed && PayloadOutcomes.Fit(cfg, now, w)
    ensures var q := PollActivations(p, [m], [x], cfg, now, w);
      !q.c.latched && q.s.last == Some(x) && PayloadProofs.Releases(p, [m], [x], cfg, now, w)
  {
    var b := Begin(p);
    assert [m][..0] == [] && TakeAllEvidence(b, [], cfg, now, w) == b;
    var warned := TakeAllEvidence(b, [m], cfg, now, w);
    assert warned == TakeEvidence(b, m, cfg, now, w) && warned == b.(c := b.c.(latest := Some(m)));
    PayloadOutcomes.LocalFaultsContainExactly(warned, w);
    var ready := Install(TakeLocalFaults(warned, w));
    assert [x][..0] == [] && TakeAllActivations(ready, [], cfg, w) == ready;
    assert TakeAllActivations(ready, [x], cfg, w) == TakeActivation(ready, x, cfg, w);
    PayloadOutcomes.DisposedExactly(ready.s.last, x, cfg.epoch);
    PayloadOutcomes.ActivatesExactly(ready, x, cfg, w);
    PayloadOutcomes.ReleasesExactly(p, [m], [x], cfg, now, w);
    PayloadProofs.PollKeeps(p, [m], [x], cfg, now, w);
    var q := Drained(p, [m], [x], cfg, now, w);
    StaysContained(ready, x, cfg, w);
    assert q.c.latched && PayloadOutcomes.RecoversAs(q.s.last, id) && PayloadOutcomes.Announces(q.c, id, cfg, now);
    assert PayloadOutcomes.Quiet(p, [m], cfg, now);
  }

  lemma StaysContained(p: Payload, x: Activation, cfg: PayloadConfig, w: World)
    requires PayloadProofs.Inv(p)
    ensures p.c.latched ==> TakeActivation(p, x, cfg, w).c.latched
  {
    PayloadProofs.ActivationKeeps(p, x, cfg, w);
  }

  // --- The run, step by step --------------------------------------------------------------

  /** What every reachable state keeps. */
  ghost predicate Kept(t: Traced, cfg: Config) {
    Safety(t, cfg) && Behind(t.s)
  }

  lemma StepKept(t: Traced, step: Step, cfg: Config)
    requires Wired(cfg) && Kept(t, cfg)
    ensures Kept(Trace(t, step, cfg), cfg)
  {
    SafetyStep(t, step, cfg);
    StepStaysBehind(t, step, cfg);
    assert Trace(t, step, cfg).s == Next(t.s, step, cfg);
  }

  /** The components besides the router, as one step may leave them. */
  predicate SameApps(s: System, r: System) {
    r.authority == s.authority && r.latch == s.latch && r.entries == s.entries && r.payload == s.payload
  }

  predicate SameStory(t: Traced, u: Traced) {
    u.chain == t.chain && u.drained == t.drained && u.log == t.log
  }

  lemma UplinkArrives(t: Traced, c: Command, cfg: Config)
    requires IngressAccepts(t.s.lastSeq, c)
    ensures var u := Trace(t, Uplinked(c), cfg);
      && SameApps(t.s, u.s) && SameStory(t, u)
      && u.s.q == t.s.q.(commands := t.s.q.commands + [c]) && u.s.lastSeq == t.s.lastSeq[c.source := c.seqNo]
  {
  }

  lemma RouterPasses(t: Traced, arm: Command, execute: Command, clock: Clock, cfg: Config)
    requires ExitPair(arm, execute) && "system_modes" in cfg.router.rules.routable && "EXIT_SAFE" in cfg.router.rules.hazardous
    requires t.s.q == EMPTY.(commands := [arm, execute]) && clock(2) - clock(1) <= cfg.router.rules.window
    ensures var u := Trace(t, RouterTicks(clock), cfg);
      SameApps(t.s, u.s) && SameStory(t, u) && u.s.q == EMPTY.(routed := [execute])
  {
    RouterSends(t.s.router, arm, execute, clock, cfg.router);
    assert [] + [execute] == [execute];
    assert t.s.payload.o.local + [] == t.s.payload.o.local;
  }

  /** The evidence that the next fault tick publishes if it hears of nothing. */
  function NextEvidence(l: Latch, epoch: string, now: real): SafetyMsg {
    SafetyMsg({}, l.latched, l.reason, epoch, l.evidenceSequence + 1, Finite(now), l.releasedId)
  }

  lemma QuietSpends(s: System, now: real, ids: Ids, cfg: Config)
    requires Punctual(s.entries, now) && s.q.beats == [] && s.q.events == []
    ensures SpentBy(s, now, ids, cfg) == SpentIds(s.latch, s.q.faultActivations, cfg.fault.epoch, false)
  {
    PunctualIsQuiet(s.entries, now, cfg.fault.maxMiss);
  }

  lemma FaultIsQuiet(t: Traced, execute: Command, now: real, ids: Ids, cfg: Config)
    requires t.s.q == EMPTY.(routed := [execute]) && Punctual(t.s.entries, now)
    ensures var u, m := Trace(t, FaultTicks(now, ids), cfg), NextEvidence(t.s.latch, cfg.fault.epoch, now);
      && SameApps(t.s.(latch := t.s.latch.(evidenceSequence := t.s.latch.evidenceSequence + 1)), u.s) && SameStory(t, u)
      && u.s.q == EMPTY.(routed := [execute], routerSafety := [m], authoritySafety := [m], payloadSafety := [m])
  {
    QuietFaultTick(cfg.fault, t.s.latch, t.s.entries, [], now, ids);
    QuietSpends(t.s, now, ids, cfg);
    assert t.log + [] == t.log;
  }

  lemma PollIsQuiet(t: Traced, execute: Command, m: SafetyMsg, active: Activation, now: real, w: World, cfg: Config)
    requires Kept(t, cfg) && Settled(t.s.payload, active) && active.active == Safe && Confirming(w)
    requires t.s.q == EMPTY.(routed := [execute], routerSafety := [m], authoritySafety := [m], payloadSafety := [m])
    ensures var u := Trace(t, PayloadPolls(now, w), cfg);
      && SameApps(t.s.(payload := u.s.payload), u.s) && SameStory(t, u) && Settled(u.s.payload, active)
      && u.s.payload.c.consumed == t.s.payload.c.consumed
      && u.s.q == EMPTY.(routed := [execute], routerSafety := [m], authoritySafety := [m])
  {
    QuietPoll(t.s.payload, m, active, cfg.payload, now, w);
    assert t.log + [] == t.log;
  }

  /** The activation has been granted and is on its way to the fault app and the payload. */
  predicate GrantedIn(t: Traced, u: Traced, x: Activation, m: SafetyMsg) {
    && SameApps(t.s.(authority := u.s.authority), u.s) && u.s.authority.active == Some(x)
    && u.log == t.log + [Granted(x, |t.offers|)]
    && u.s.q == EMPTY.(routerSafety := [m], faultActivations := [x], payloadActivations := [x])
  }

  lemma AuthorityGrantsExit(
    t: Traced, arm: Command, execute: Command, m: SafetyMsg, clock: Clock, cfg: Config) returns (x: Activation)
    requires Wired(cfg) && WellFormed(t.s.authority, cfg.authority.epoch) && ModeOf(t.s.authority) == Some(Safe)
    requires ExitPair(arm, execute)
    requires t.s.q == EMPTY.(routed := [execute], routerSafety := [m], authoritySafety := [m])
    requires m.epoch == cfg.fault.epoch && m.activeFaults == {} && t.s.authority.held.sequence < m.sequence && 0 <= m.sequence
    requires m.observed.Finite? && m.observed.at <= clock(0)
    requires m.observed.at <= clock(1) <= m.observed.at + cfg.authority.interval + TOLERANCE
    ensures Leaves(t.s.authority, execute, cfg, x) && GrantedIn(t, Trace(t, AuthorityTicks(clock), cfg), x, m)
  {
    x := AuthorityExits(t.s.authority, m, execute, arm, clock, cfg.authority);
    assert [x][..0] == [] && Grants([], |t.offers|) == [];
    assert Grants([x], |t.offers|) == [Granted(x, |t.offers|)];
  }

  /** The recovery that answers the EXECUTE. */
  predicate Leaves(a: Authority, execute: Command, cfg: Config, x: Activation) {
    && x.epoch == cfg.authority.epoch && x.sequence == a.sequence + 1
    && x.previous == Some(Safe) && x.active == Init && x.recovery
    && x.requestId == Some(IdOf((execute.source, execute.seqNo)))
  }

  /** The id of an EXECUTE still in the queue has been spent by nobody. */
  lemma IdIsUnspent(t: Traced, execute: Command, cfg: Config)
    requires Kept(t, cfg) && execute in t.s.q.routed
    ensures IdOf((execute.source, execute.seqNo)) !in t.s.latch.consumed
    ensures IdOf((execute.source, execute.seqNo)) !in t.s.payload.c.consumed
  {
    var key := (execute.source, execute.seqNo);
    UnusedSplits(t.s.q.routed, t.s.q.commands, t.drained);
    UnusedAvoids(t.s.q.routed, t.drained, execute);
    KeySetJoins(t.s.q.routed, t.s.q.commands);
    KeyInSet(t.s.q.routed, execute);
    if IdOf(key) in t.s.latch.consumed {
      var i :| i < Reached(t.s.latch.last) && RecoversAt(t.chain, i, IdOf(key));
      assert t.chain[i] in t.chain;
      var k :| k in t.drained && t.chain[i].requestId == Some(IdOf(k));
      Naming.CommandRequestIdInjective(k.0, k.1, key.0, key.1);
    }
  }

  /** The evidence that tells of the release. */
  predicate TellsRelease(e: SafetyMsg, id: string, epoch: string, sequence: int, now: real) {
    && e.activeFaults == {} && !e.latched && e.epoch == epoch && e.sequence == sequence
    && e.observed == Finite(now) && e.recoveryId == Some(id)
  }

  lemma FaultReleasesIt(t: Traced, x: Activation, id: string, m: SafetyMsg, now: real, ids: Ids, cfg: Config)
    returns (e: SafetyMsg)
    requires Wired(cfg) && Punctual(t.s.entries, now)
    requires t.s.q == EMPTY.(routerSafety := [m], faultActivations := [x], payloadActivations := [x])
    requires x.epoch == cfg.authority.epoch && x.recovery && x.previous == Some(Safe) && x.active == Init && x.requestId == Some(id)
    requires id != "" && id !in t.s.latch.consumed && 0 <= x.sequence
    requires t.s.latch.last.Some? ==> t.s.latch.last.value.sequence < x.sequence
    ensures TellsRelease(e, id, cfg.fault.epoch, t.s.latch.evidenceSequence + 1, now)
    ensures var u := Trace(t, FaultTicks(now, ids), cfg);
      && u.s.authority == t.s.authority && u.s.payload == t.s.payload && u.chain == t.chain
      && !u.s.latch.latched && u.log == t.log + [FaultReleased(id)]
      && u.s.q.payloadActivations == [x] && u.s.q.payloadSafety == [e]
  {
    QuietFaultTick(cfg.fault, t.s.latch, t.s.entries, [x], now, ids);
    FaultClears(t.s.latch, x, cfg.fault.epoch, id);
    QuietSpends(t.s, now, ids, cfg);
    assert FaultReleases([id]) == [FaultReleased(id)] by {
      assert [id][..0] == [] && FaultReleases([]) == [];
    }
    e := FaultOutOf(t.s, now, ids, cfg).evidence;
  }

  /** The state at rest: every queue empty, SAFE in force and taken in by the payload, and no fault of its own waiting. */
  predicate AtRest(s: System) {
    && s.q == EMPTY
    && s.authority.active.Some? && s.authority.active.value.active == Safe
    && Settled(s.payload, s.authority.active.value)
  }

  /** Readings of the clocks and answers of the hardware along the run. */
  datatype Going = Going(
    router: Clock, first: real, firstIds: Ids, poll: real, world: World, authority: Clock,
    second: real, secondIds: Ids, last: real, lastWorld: World)

  /** The EXECUTE follows the ARM within the window; no subsystem is overdue at either fault tick; the authority decides
      within the interval after the first and the payload within the interval after the second; the driver confirms its
      inhibits, and the hardware is fit at the end. */
  ghost predicate GoesWell(s: System, g: Going, cfg: Config) {
    && g.router(2) - g.router(1) <= cfg.router.rules.window
    && Punctual(s.entries, g.first) && Punctual(s.entries, g.second)
    && g.first <= g.authority(0) && g.first <= g.authority(1) <= g.first + cfg.authority.interval + TOLERANCE
    && g.second <= g.last <= g.second + cfg.payload.interval
    && Confirming(g.world) && PayloadOutcomes.Fit(cfg.payload, g.last, g.lastWorld)
  }

  function Commanded(t: Traced, arm: Command, execute: Command, g: Going, cfg: Config): Traced {
    Trace(Trace(Trace(t, Uplinked(arm), cfg), Uplinked(execute), cfg), RouterTicks(g.router), cfg)
  }

  function Prepared(t: Traced, g: Going, cfg: Config): Traced {
    Trace(Trace(t, FaultTicks(g.first, g.firstIds), cfg), PayloadPolls(g.poll, g.world), cfg)
  }

  function Finished(t: Traced, g: Going, cfg: Config): Traced {
    Trace(Trace(Trace(t, AuthorityTicks(g.authority), cfg), FaultTicks(g.second, g.secondIds), cfg),
          PayloadPolls(g.last, g.lastWorld), cfg)
  }

  lemma CommandsGoThrough(t: Traced, arm: Command, execute: Command, g: Going, cfg: Config)
    requires Wired(cfg) && Kept(t, cfg) && t.s.q == EMPTY && GoesWell(t.s, g, cfg)
    requires ExitPair(arm, execute) && IngressAccepts(t.s.lastSeq, arm) && "system_modes" in cfg.router.rules.routable
    ensures var u := Commanded(t, arm, execute, g, cfg);
      Kept(u, cfg) && SameApps(t.s, u.s) && SameStory(t, u) && u.s.q == EMPTY.(routed := [execute])
  {
    StepKept(t, Uplinked(arm), cfg);
    UplinkArrives(t, arm, cfg);
    var a := Trace(t, Uplinked(arm), cfg);
    assert [] + [arm] == [arm] && [arm] + [execute] == [arm, execute];
    StepKept(a, Uplinked(execute), cfg);
    UplinkArrives(a, execute, cfg);
    var b := Trace(a, Uplinked(execute), cfg);
    StepKept(b, RouterTicks(g.router), cfg);
    RouterPasses(b, arm, execute, g.router, cfg);
  }

  lemma EvidenceArrives(t: Traced, execute: Command, active: Activation, g: Going, cfg: Config)
    requires Wired(cfg) && Kept(t, cfg) && GoesWell(t.s, g, cfg) && t.s.q == EMPTY.(routed := [execute])
    requires Settled(t.s.payload, active) && active.active == Safe
    ensures var u, m := Prepared(t, g, cfg), NextEvidence(t.s.latch, cfg.fault.epoch, g.first);
      && Kept(u, cfg) && SameStory(t, u) && Settled(u.s.payload, active)
      && u.s.authority == t.s.authority && u.s.entries == t.s.entries
      && u.s.latch == t.s.latch.(evidenceSequence := t.s.latch.evidenceSequence + 1)
      && u.s.q == EMPTY.(routed := [execute], routerSafety := [m], authoritySafety := [m])
  {
    StepKept(t, FaultTicks(g.first, g.firstIds), cfg);
    FaultIsQuiet(t, execute, g.first, g.firstIds, cfg);
    var a, m := Trace(t, FaultTicks(g.first, g.firstIds), cfg), NextEvidence(t.s.latch, cfg.fault.epoch, g.first);
    StepKept(a, PayloadPolls(g.poll, g.world), cfg);
    PollIsQuiet(a, execute, m, active, g.poll, g.world, cfg);
  }

  /** The end of a recovery: INIT in force by an authorised recovery that everyone has taken in, nothing latched. */
  predicate Recovered(s: System, x: Activation) {
    && x.active == Init && x.recovery
    && s.authority.active == Some(x) && s.payload.s.last == Some(x)
    && !s.latch.latched && !s.payload.c.latched
  }

  lemma PayloadFollowsUp(
    t: Traced, active: Activation, x: Activation, e: SafetyMsg, id: string, n: int, g: Going, cfg: Config)
    requires Wired(cfg) && cfg.payload.epoch != "" && PayloadProofs.Inv(t.s.payload) && Settled(t.s.payload, active) && active.active == Safe
    requires t.s.q.payloadActivations == [x] && t.s.q.payloadSafety == [e]
    requires x.epoch == cfg.authority.epoch && 0 <= active.sequence < x.sequence
    requires x.recovery && x.previous == Some(Safe) && x.active == Init && x.requestId == Some(id) && id != ""
    requires TellsRelease(e, id, cfg.fault.epoch, n, g.second) && 0 <= n
    requires t.s.payload.c.latest.Some? ==> t.s.payload.c.latest.value.sequence < n
    requires t.s.payload.c.lastEvidence < n && id !in t.s.payload.c.consumed
    requires g.second <= g.last <= g.second + cfg.payload.interval && PayloadOutcomes.Fit(cfg.payload, g.last, g.lastWorld)
    ensures var u := Trace(t, PayloadPolls(g.last, g.lastWorld), cfg);
      && !u.s.payload.c.latched && u.s.payload.s.last == Some(x)
      && u.s.authority == t.s.authority && u.s.latch == t.s.latch && u.log == t.log + [PayloadReleased(id)]
  {
    PollFrees(t.s.payload, e, active, x, id, cfg.payload, g.last, g.lastWorld);
  }

  /** Nobody is ahead of the authority's last activation or of the fault app's last evidence. */
  predicate Lagging(s: System) {
    && s.authority.active.Some? && s.authority.active.value.sequence == s.authority.sequence && 1 <= s.authority.sequence
    && (s.latch.last.Some? ==> s.latch.last.value.sequence <= s.authority.sequence)
    && 0 <= s.latch.evidenceSequence
    && (s.payload.c.latest.Some? ==> s.payload.c.latest.value.sequence <= s.latch.evidenceSequence)
    && s.payload.c.lastEvidence <= s.latch.evidenceSequence
  }

  /** The request can still be answered: nobody is ahead, and nobody has spent its id. */
  predicate Answerable(s: System, id: string, cfg: Config) {
    && Lagging(s) && WellFormed(s.authority, cfg.authority.epoch) && PayloadProofs.Inv(s.payload)
    && id != "" && id !in s.latch.consumed && id !in s.payload.c.consumed
  }

  lemma KeptIsAnswerable(t: Traced, execute: Command, cfg: Config)
    requires Kept(t, cfg) && t.s.authority.active.Some? && execute in t.s.q.routed
    ensures Answerable(t.s, IdOf((execute.source, execute.seqNo)), cfg)
  {
    IdIsUnspent(t, execute, cfg);
    assert IdOf((execute.source, execute.seqNo))[0] == 'c';
  }

  lemma RecoveryIsFollowed(
    t: Traced, before: System, active: Activation, x: Activation, id: string, execute: Command, m: SafetyMsg, g: Going, cfg: Config)
    requires Wired(cfg) && cfg.payload.epoch != "" && GoesWell(before, g, cfg)
    requires Answerable(before, id, cfg) && before.authority.active == Some(active) && active.active == Safe
    requires SameApps(before.(authority := t.s.authority), t.s) && Settled(t.s.payload, active) && t.s.authority.active == Some(x)
    requires t.s.q == EMPTY.(routerSafety := [m], faultActivations := [x], payloadActivations := [x])
    requires Leaves(before.authority, execute, cfg, x) && x.requestId == Some(id)
    ensures var u := Trace(Trace(t, FaultTicks(g.second, g.secondIds), cfg), PayloadPolls(g.last, g.lastWorld), cfg);
      Recovered(u.s, x) && u.log == t.log + [FaultReleased(id), PayloadReleased(id)]
  {
    var e := FaultReleasesIt(t, x, id, m, g.second, g.secondIds, cfg);
    PayloadFollowsUp(Trace(t, FaultTicks(g.second, g.secondIds), cfg), active, x, e, id, t.s.latch.evidenceSequence + 1, g, cfg);
    assert t.log + [FaultReleased(id)] + [PayloadReleased(id)] == t.log + [FaultReleased(id), PayloadReleased(id)];
  }

  lemma GrantIsFollowed(
    t: Traced, a: Traced, active: Activation, x: Activation, execute: Command, m: SafetyMsg, g: Going, cfg: Config)
    requires Wired(cfg) && cfg.payload.epoch != "" && GoesWell(t.s, g, cfg)
    requires Answerable(t.s, IdOf((execute.source, execute.seqNo)), cfg)
    requires t.s.authority.active == Some(active) && active.active == Safe && Settled(t.s.payload, active)
    requires Leaves(t.s.authority, execute, cfg, x) && GrantedIn(t, a, x, m)
    ensures var u, id := Trace(Trace(a, FaultTicks(g.second, g.secondIds), cfg), PayloadPolls(g.last, g.lastWorld), cfg),
        IdOf((execute.source, execute.seqNo));
      Recovered(u.s, x) && u.log == t.log + [Granted(x, |t.offers|), FaultReleased(id), PayloadReleased(id)]
  {
    var id := IdOf((execute.source, execute.seqNo));
    RecoveryIsFollowed(a, t.s, active, x, id, execute, m, g, cfg);
    assert t.log + [Granted(x, |t.offers|)] + [FaultReleased(id), PayloadReleased(id)]
        == t.log + [Granted(x, |t.offers|), FaultReleased(id), PayloadReleased(id)];
  }

  /** From every reachable state at rest in SAFE: the operator's ARM and EXECUTE are uplinked and routed, the fault app
      and the payload run, the authority grants the recovery, the fault app clears its latch and the payload is
      released. The log of the run says so in that order, and INIT is in force. */
  lemma RecoverySucceeds(
    entries: seq<Watchdog.Entry>, steps: seq<Step>, arm: Command, execute: Command, g: Going, cfg: Config)
    returns (x: Activation, id: string)
    requires Wired(cfg) && cfg.payload.epoch != "" && "system_modes" in cfg.router.rules.routable
    requires var s := TraceFrom(Begun(entries), steps, cfg).s;
      AtRest(s) && GoesWell(s, g, cfg) && IngressAccepts(s.lastSeq, arm) && ExitPair(arm, execute)
    ensures var t := TraceFrom(Begun(entries), steps, cfg);
      var u := Finished(Prepared(Commanded(t, arm, execute, g, cfg), g, cfg), g, cfg);
      && Recovered(u.s, x) && x.requestId == Some(id) && id == IdOf((execute.source, execute.seqNo))
      && exists offered :: u.log == t.log + [Granted(x, offered), FaultReleased(id), PayloadReleased(id)]
  {
    var t := TraceFrom(Begun(entries), steps, cfg);
    SafetyOverRuns(entries, steps, cfg);
    BehindOverRuns(entries, steps, cfg);
    var active := t.s.authority.active.value;
    CommandsGoThrough(t, arm, execute, g, cfg);
    var a := Commanded(t, arm, execute, g, cfg);
    EvidenceArrives(a, execute, active, g, cfg);
    var b := Prepared(a, g, cfg);
    KeptIsAnswerable(b, execute, cfg);
    id := IdOf((execute.source, execute.seqNo));
    var m := NextEvidence(a.s.latch, cfg.fault.epoch, g.first);
    x := AuthorityGrantsExit(b, arm, execute, m, g.authority, cfg);
    GrantIsFollowed(b, Trace(b, AuthorityTicks(g.authority), cfg), active, x, execute, m, g, cfg);
  }

  // --- From power-up to rest --------------------------------------------------------------

  /** The first tick of the authority puts SAFE in force; one with nothing to decide changes nothing but the evidence. */
  lemma AuthorityBoots(a: Authority, clock: Clock, cfg: AuthorityConfig) returns (x: Activation)
    requires a == BOOT
    ensures var run, inbox := AuthorityTick(cfg, a, Inbox([], [], [], []), clock), Inbox([], [], [], []);
      && run.activations == [x] && Added(cfg, a, inbox, clock) == [x] && run.a.active == Some(x)
    ensures x.epoch == cfg.epoch && x.sequence == 1 && x.active == Safe && !x.recovery
  {
    var inbox := Inbox([], [], [], []);
    AuthorityGrants.TickIsItsDecisions(cfg, a, inbox, clock);
    var begun := Opened(cfg, a, inbox, clock);
    AuthorityGrants.GrantedExactly(cfg, Run(a, [], [], [], 0), BootAsk(cfg), EffectiveAt(cfg, a, inbox, clock(0)), clock(1));
    assert Decided(cfg, a, inbox, clock) == begun;
    x := begun.a.active.value;
  }

  lemma AuthorityWaits(a: Authority, m: SafetyMsg, clock: Clock, cfg: AuthorityConfig)
    requires a.active.Some?
    ensures var run, inbox := AuthorityTick(cfg, a, Inbox([m], [], [], []), clock), Inbox([m], [], [], []);
      run.activations == [] && Added(cfg, a, inbox, clock) == [] && run.a.active == a.active
  {
  }

  /** On SAFE a payload whose driver confirms and whose policy resolves enters it without a fault. */
  lemma PayloadEntersSafe(p: Payload, x: Activation, cfg: PayloadConfig, now: real, w: World)
    requires p == UNACTIVATED && cfg.epoch != "" && x.epoch == cfg.epoch && 0 <= x.sequence && x.active == Safe
    requires Confirming(w) && w.entry(Safe).EntryValid?
    ensures var q := PollActivations(p, [], [x], cfg, now, w);
      Settled(q, x) && q.o.faults == [] && q.o.requests == [] && !PayloadProofs.Releases(p, [], [x], cfg, now, w)
  {
    var b := Begin(p);
    assert b == p && TakeAllEvidence(b, [], cfg, now, w) == b;
    var ready := Install(TakeLocalFaults(b, w));
    assert ready.o == p.o && ready.s.last.None? && ready.s.pending.None?;
    assert [x][..0] == [] && TakeAllActivations(ready, [], cfg, w) == ready;
    assert TakeAllActivations(ready, [x], cfg, w) == TakeActivation(ready, x, cfg, w);
    var taken := ready.(s := ready.s.(last := Some(x)));
    var contained := PayloadContainment.Latch(taken, w);
    assert contained.o == taken.o && contained.s == taken.s;
    var entered := Reenter(contained, x, w);
    assert entered.o == taken.o && entered.s.last == Some(x) && entered.s.pending.None?;
  }

  /** Readings of the clocks and answers of the hardware after power-up. */
  datatype Waking = Waking(
    boot: Clock, entered: real, world: World, told: real, ids: Ids, router: Clock, authority: Clock, last: real, lastWorld: World)

  ghost predicate WakesWell(entries: seq<Watchdog.Entry>, g: Waking) {
    && Punctual(entries, g.told)
    && Confirming(g.world) && g.world.entry(Safe).EntryValid? && Confirming(g.lastWorld)
  }

  /** The steps after power-up: each app has its turn, the authority and the payload twice. */
  function Woken(g: Waking): seq<Step> {
    [AuthorityTicks(g.boot), PayloadPolls(g.entered, g.world), FaultTicks(g.told, g.ids), RouterTicks(g.router),
     AuthorityTicks(g.authority), PayloadPolls(g.last, g.lastWorld)]
  }

  lemma Boots(t: Traced, g: Waking, cfg: Config) returns (x: Activation)
    requires t.s.authority == BOOT && t.s.q == EMPTY
    ensures x.epoch == cfg.authority.epoch && x.sequence == 1 && x.active == Safe && !x.recovery
    ensures var u := Trace(t, AuthorityTicks(g.boot), cfg);
      && SameApps(t.s.(authority := u.s.authority), u.s) && u.s.authority.active == Some(x)
      && u.s.q == EMPTY.(faultActivations := [x], payloadActivations := [x])
  {
    x := AuthorityBoots(t.s.authority, g.boot, cfg.authority);
  }

  lemma EntersSafe(t: Traced, x: Activation, g: Waking, cfg: Config)
    requires Wired(cfg) && cfg.payload.epoch != "" && t.s.payload == UNACTIVATED
    requires x.epoch == cfg.authority.epoch && x.sequence == 1 && x.active == Safe
    requires Confirming(g.world) && g.world.entry(Safe).EntryValid?
    requires t.s.q == EMPTY.(faultActivations := [x], payloadActivations := [x])
    ensures var u := Trace(t, PayloadPolls(g.entered, g.world), cfg);
      && SameApps(t.s.(payload := u.s.payload), u.s) && Settled(u.s.payload, x) && u.s.q == EMPTY.(faultActivations := [x])
      && PayloadProofs.Inv(u.s.payload)
  {
    PayloadProofs.PollKeeps(t.s.payload, [], [x], cfg.payload, g.entered, g.world);
    PayloadEntersSafe(t.s.payload, x, cfg.payload, g.entered, g.world);
  }

  lemma TellsSafe(t: Traced, x: Activation, g: Waking, cfg: Config) returns (m: SafetyMsg)
    requires Punctual(t.s.entries, g.told) && t.s.q == EMPTY.(faultActivations := [x])
    ensures var u := Trace(t, FaultTicks(g.told, g.ids), cfg);
      && u.s.authority == t.s.authority && u.s.payload == t.s.payload && u.s.entries == t.s.entries
      && u.s.q == EMPTY.(routerSafety := [m], authoritySafety := [m], payloadSafety := [m])
  {
    QuietFaultTick(cfg.fault, t.s.latch, t.s.entries, [x], g.told, g.ids);
    m := FaultOutOf(t.s, g.told, g.ids, cfg).evidence;
  }

  lemma RouterListens(t: Traced, m: SafetyMsg, g: Waking, cfg: Config)
    requires t.s.q == EMPTY.(routerSafety := [m], authoritySafety := [m], payloadSafety := [m])
    ensures var u := Trace(t, RouterTicks(g.router), cfg);
      SameApps(t.s, u.s) && u.s.q == EMPTY.(authoritySafety := [m], payloadSafety := [m])
  {
    assert t.s.payload.o.local + [] == t.s.payload.o.local;
  }

  lemma AuthorityListens(t: Traced, m: SafetyMsg, g: Waking, cfg: Config)
    requires t.s.authority.active.Some? && t.s.q == EMPTY.(authoritySafety := [m], payloadSafety := [m])
    ensures var u := Trace(t, AuthorityTicks(g.authority), cfg);
      && SameApps(t.s.(authority := u.s.authority), u.s) && u.s.authority.active == t.s.authority.active
      && u.s.q == EMPTY.(payloadSafety := [m])
  {
    AuthorityWaits(t.s.authority, m, g.authority, cfg.authority);
  }

  lemma PayloadListens(t: Traced, m: SafetyMsg, x: Activation, g: Waking, cfg: Config)
    requires PayloadProofs.Inv(t.s.payload) && Settled(t.s.payload, x) && x.active == Safe && Confirming(g.lastWorld)
    requires t.s.q == EMPTY.(payloadSafety := [m]) && t.s.authority.active == Some(x)
    ensures AtRest(Trace(t, PayloadPolls(g.last, g.lastWorld), cfg).s)
  {
    QuietPoll(t.s.payload, m, x, cfg.payload, g.last, g.lastWorld);
  }

  /** The first three turns: SAFE is granted, entered and told. */
  function Begins(t: Traced, g: Waking, cfg: Config): Traced {
    Trace(Trace(Trace(t, AuthorityTicks(g.boot), cfg), PayloadPolls(g.entered, g.world), cfg), FaultTicks(g.told, g.ids), cfg)
  }

  /** The other three: everyone takes the evidence in. */
  function Listens(t: Traced, g: Waking, cfg: Config): Traced {
    Trace(Trace(Trace(t, RouterTicks(g.router), cfg), AuthorityTicks(g.authority), cfg), PayloadPolls(g.last, g.lastWorld), cfg)
  }

  lemma BeginsSafely(t: Traced, g: Waking, cfg: Config) returns (x: Activation, m: SafetyMsg)
    requires Wired(cfg) && cfg.payload.epoch != "" && WakesWell(t.s.entries, g)
    requires t.s.authority == BOOT && t.s.q == EMPTY && t.s.payload == UNACTIVATED
    ensures x.active == Safe
    ensures var u := Begins(t, g, cfg);
      && u.s.q == EMPTY.(routerSafety := [m], authoritySafety := [m], payloadSafety := [m])
      && u.s.authority.active == Some(x) && Settled(u.s.payload, x) && PayloadProofs.Inv(u.s.payload)
  {
    x := Boots(t, g, cfg);
    var a := Trace(t, AuthorityTicks(g.boot), cfg);
    EntersSafe(a, x, g, cfg);
    m := TellsSafe(Trace(a, PayloadPolls(g.entered, g.world), cfg), x, g, cfg);
  }

  lemma ListensAndRests(t: Traced, x: Activation, m: SafetyMsg, g: Waking, cfg: Config)
    requires x.active == Safe && Confirming(g.lastWorld)
    requires t.s.q == EMPTY.(routerSafety := [m], authoritySafety := [m], payloadSafety := [m])
    requires t.s.authority.active == Some(x) && Settled(t.s.payload, x) && PayloadProofs.Inv(t.s.payload)
    ensures AtRest(Listens(t, g, cfg).s)
  {
    RouterListens(t, m, g, cfg);
    var a := Trace(t, RouterTicks(g.router), cfg);
    AuthorityListens(a, m, g, cfg);
    PayloadListens(Trace(a, AuthorityTicks(g.authority), cfg), m, x, g, cfg);
  }

  lemma TracedOnce(t: Traced, steps: seq<Step>, n: nat, cfg: Config)
    requires n < |steps|
    ensures TraceFrom(t, steps[..n + 1], cfg) == Trace(TraceFrom(t, steps[..n], cfg), steps[n], cfg)
  {
    assert steps[..n + 1][..n] == steps[..n];
  }

  lemma WokenInTurn(t: Traced, g: Waking, cfg: Config)
    ensures TraceFrom(t, Woken(g), cfg) == Listens(Begins(t, g, cfg), g, cfg)
  {
    var steps := Woken(g);
    assert TraceFrom(t, steps[..0], cfg) == t && steps[..6] == steps;
    TracedOnce(t, steps, 0, cfg);
    TracedOnce(t, steps, 1, cfg);
    TracedOnce(t, steps, 2, cfg);
    TracedOnce(t, steps, 3, cfg);
    TracedOnce(t, steps, 4, cfg);
    TracedOnce(t, steps, 5, cfg);
  }

  /** A system powered up comes to rest in SAFE once every app has had its turn, and a recovery can begin. */
  lemma PowerUpRests(entries: seq<Watchdog.Entry>, g: Waking, cfg: Config)
    requires Wired(cfg) && cfg.payload.epoch != "" && WakesWell(entries, g)
    ensures AtRest(TraceFrom(Begun(entries), Woken(g), cfg).s)
  {
    WokenInTurn(Begun(entries), g, cfg);
    var x, m := BeginsSafely(Begun(entries), g, cfg);
    ListensAndRests(Begins(Begun(entries), g, cfg), x, m, g, cfg);
  }
}
