/** The recovery chain of cause: an armed and executed EXIT_SAFE, a recovery granted by the authority,
    a release by the fault app and, last, a release of the payload's containment; once per request. */
module ProtocolCause {
  import opened Basics
  import opened Evidence
  import opened Routing
  import opened CommandRouting
  import opened SystemModes
  import opened AuthorityProofs
  import opened Fault
  import opened PayloadContainment
  import opened Protocol
  import opened ProtocolChain
  import opened ProtocolSafety
  import PayloadProofs
  import Naming
  import Watchdog

  // --- Routed commands are dispatched offers ----------------------------------------------

  /** The n-th command offered to the router was this one, and it was dispatched. */
  predicate DispatchedAt(offers: seq<Offer>, n: int, c: Command, rules: Rules) {
    0 <= n < |offers| && offers[n].command == c && ResultAt(offers, n, rules).routed == Some(c)
  }

  lemma DispatchStays(offers: seq<Offer>, more: seq<Offer>, n: int, c: Command, rules: Rules)
    requires DispatchedAt(offers, n, c, rules)
    ensures DispatchedAt(offers + more, n, c, rules)
  {
    PastIsFixed(offers, more, n, rules);
  }

  /** The router's state and output, in terms of everything offered to it so far. */
  ghost predicate RoutedBy(armed: map<ArmKey, real>, routed: seq<Command>, offers: seq<Offer>, rules: Rules) {
    && armed == ArmedBefore(offers, |offers|, rules)
    && forall c :: c in routed ==> exists n :: DispatchedAt(offers, n, c, rules)
  }

  lemma RouteOneTraced(waiting: seq<Command>, past: seq<Offer>, run: RouterRun, o: Offer, rules: Rules)
    requires RoutedBy(run.armed, waiting + run.routed, past + run.offers, rules)
    ensures var after := RouteOne(run, o, rules);
      RoutedBy(after.armed, waiting + after.routed, past + after.offers, rules)
  {
    var offers, after := past + run.offers, RouteOne(run, o, rules);
    var n := |offers|;
    assert past + after.offers == offers + [o];
    PastIsFixed(offers, [o], n, rules);
    assert ResultAt(offers + [o], n, rules) == RouteCommand(o.command, rules, o.latched, o.timely, run.armed, o.now);
    assert ArmedBefore(offers + [o], n + 1, rules) == ResultAt(offers + [o], n, rules).armed;
    forall c | c in waiting + after.routed ensures exists k :: DispatchedAt(offers + [o], k, c, rules) {
      if c in waiting + run.routed {
        var k :| DispatchedAt(offers, k, c, rules);
        DispatchStays(offers, [o], k, c, rules);
      } else {
        AnsweredOnce(o.command, rules, o.latched, o.timely, run.armed, o.now);
        assert DispatchedAt(offers + [o], n, c, rules);
      }
    }
  }

  lemma {:induction false} RouteAllTraced(
    waiting: seq<Command>, past: seq<Offer>, armed: map<ArmKey, real>, commands: seq<Command>, held: Held,
    clock: Clock, cfg: RouterConfig)
    requires RoutedBy(armed, waiting, past, cfg.rules)
    ensures var out := RouteAll(RouterRun(armed, [], [], [], []), commands, held, clock, cfg);
      RoutedBy(out.armed, waiting + out.routed, past + out.offers, cfg.rules)
  {
    var start := RouterRun(armed, [], [], [], []);
    if commands == [] {
      assert waiting + [] == waiting && past + [] == past;
    } else {
      var n := |commands| - 1;
      RouteAllTraced(waiting, past, armed, commands[..n], held, clock, cfg);
      RouteOneTraced(waiting, past, RouteAll(start, commands[..n], held, clock, cfg),
                     OfferOf(commands[n], held, clock(n + 1), cfg), cfg.rules);
    }
  }

  // --- The log ----------------------------------------------------------------------------

  predicate Recovers(e: Event, id: string) {
    e.Granted? && e.x.recovery && e.x.requestId == Some(id)
  }

  ghost predicate GrantedIn(id: string, log: seq<Event>) {
    exists g :: g in log && Recovers(g, id)
  }

  /** By the time of the grant, an EXIT_SAFE EXECUTE with this request id had been dispatched. */
  ghost predicate ExitDispatched(offers: seq<Offer>, before: nat, id: string, rules: Rules) {
    exists n, c :: n < before && DispatchedAt(offers, n, c, rules) && CommandsExit(c)
      && id == Naming.CommandRequestId(c.source, c.seqNo)
  }

  /** What an event needs to have happened before it. */
  ghost predicate Justified(e: Event, past: seq<Event>, offers: seq<Offer>, rules: Rules) {
    match e
    case Granted(x, offered) => x.recovery ==>
      && x.previous == Some(Safe) && x.active == Init
      && x.requestId.Some? && ExitDispatched(offers, offered, x.requestId.value, rules)
    case FaultReleased(id) => GrantedIn(id, past)
    case PayloadReleased(id) => FaultReleased(id) in past
  }

  ghost predicate Caused(log: seq<Event>, offers: seq<Offer>, rules: Rules) {
    log == [] || (Caused(log[..|log| - 1], offers, rules) && Justified(Last(log), log[..|log| - 1], offers, rules))
  }

  lemma ExitStaysDispatched(offers: seq<Offer>, more: seq<Offer>, before: nat, id: string, rules: Rules)
    requires ExitDispatched(offers, before, id, rules)
    ensures ExitDispatched(offers + more, before, id, rules)
  {
    var n, c :| n < before && DispatchedAt(offers, n, c, rules) && CommandsExit(c)
      && id == Naming.CommandRequestId(c.source, c.seqNo);
    DispatchStays(offers, more, n, c, rules);
  }

  lemma {:induction false} CausedStays(log: seq<Event>, offers: seq<Offer>, more: seq<Offer>, rules: Rules)
    requires Caused(log, offers, rules)
    ensures Caused(log, offers + more, rules)
  {
    if log != [] {
      CausedStays(log[..|log| - 1], offers, more, rules);
      var e := Last(log);
      if e.Granted? && e.x.recovery {
        ExitStaysDispatched(offers, more, e.offered, e.x.requestId.value, rules);
      }
    }
  }

  lemma CausedExtends(log: seq<Event>, e: Event, offers: seq<Offer>, rules: Rules)
    requires Caused(log, offers, rules) && Justified(e, log, offers, rules)
    ensures Caused(log + [e], offers, rules)
  {
  }

  /** A recovery from SAFE to INIT for an EXIT_SAFE EXECUTE of the batch. */
  predicate LeavesSafeBy(x: Activation, routed: seq<Command>) {
    x.previous == Some(Safe) && x.active == Init && FromExit(x, routed)
  }

  lemma {:induction false} GrantsCaused(
    log: seq<Event>, added: seq<Activation>, routed: seq<Command>, offers: seq<Offer>, rules: Rules)
    requires Caused(log, offers, rules)
    requires forall x :: x in added && x.recovery ==> LeavesSafeBy(x, routed)
    requires forall c :: c in routed ==> exists n :: DispatchedAt(offers, n, c, rules)
    ensures Caused(log + Grants(added, |offers|), offers, rules)
  {
    if added == [] {
      assert log + [] == log;
    } else {
      var front, x := added[..|added| - 1], Last(added);
      assert added == front + [x];
      GrantsCaused(log, front, routed, offers, rules);
      if x.recovery {
        var c :| c in routed && CommandsExit(c) && x.requestId == Some(Naming.CommandRequestId(c.source, c.seqNo));
        var n :| DispatchedAt(offers, n, c, rules);
        assert ExitDispatched(offers, |offers|, x.requestId.value, rules);
      }
      CausedExtends(log + Grants(front, |offers|), Granted(x, |offers|), offers, rules);
      assert log + Grants(added, |offers|) == (log + Grants(front, |offers|)) + [Granted(x, |offers|)];
    }
  }

  /** Every link of the chain was logged when it was granted. */
  ghost predicate Logged(chain: seq<Activation>, log: seq<Event>) {
    forall x :: x in chain ==> LoggedOne(x, log)
  }

  ghost predicate LoggedOne(x: Activation, log: seq<Event>) {
    exists offered :: Granted(x, offered) in log
  }

  lemma LogGrows(x: Activation, log: seq<Event>, more: seq<Event>)
    requires LoggedOne(x, log)
    ensures LoggedOne(x, log + more)
  {
  }

  lemma {:induction false} GrantsLogged(added: seq<Activation>, offered: nat, x: Activation)
    requires x in added
    ensures Granted(x, offered) in Grants(added, offered)
  {
    if x != Last(added) {
      GrantsLogged(added[..|added| - 1], offered, x);
    }
  }

  lemma LoggedExtends(chain: seq<Activation>, log: seq<Event>, added: seq<Activation>, offered: nat)
    requires Logged(chain, log)
    ensures Logged(chain + added, log + Grants(added, offered))
  {
    forall x | x in chain + added ensures LoggedOne(x, log + Grants(added, offered)) {
      if x in chain {
        LogGrows(x, log, Grants(added, offered));
      } else {
        GrantsLogged(added, offered, x);
        assert Granted(x, offered) in log + Grants(added, offered);
      }
    }
  }

  // --- The fault app's releases -----------------------------------------------------------

  /** One activation spends at most its own id, and only a recovery's, and only a new one. */
  lemma ConsumeOne(l: Latch, x: Activation, epoch: string, faulted: bool)
    ensures var r := Consume(l, x, epoch, faulted);
      || (r.consumed == l.consumed && r.releasedId == l.releasedId)
      || (x.recovery && x.requestId.Some? && x.requestId.value !in l.consumed && r.releasedId == x.requestId
          && r.consumed == l.consumed + {x.requestId.value} && r.consumed != l.consumed)
  {
  }

  predicate CarriedBy(id: string, xs: seq<Activation>) {
    exists x :: x in xs && x.recovery && x.requestId == Some(id)
  }

  /** The ids a drain spent: carried by its recoveries, new, different, the last one in the latch. */
  predicate Spent(ids: seq<string>, xs: seq<Activation>, before: set<string>, after: set<string>) {
    && (forall id :: id in ids ==> CarriedBy(id, xs) && id in after && id !in before)
    && before <= after
    && PayloadProofs.NoRepeats(ids)
  }

  lemma SpentGrowsBy(ids: seq<string>, xs: seq<Activation>, before: set<string>, after: set<string>, x: Activation)
    requires Spent(ids, xs, before, after)
    ensures Spent(ids, xs + [x], before, after)
    ensures x.recovery && x.requestId.Some? && x.requestId.value !in after ==>
      Spent(ids + [x.requestId.value], xs + [x], before, after + {x.requestId.value})
  {
  }

  lemma {:induction false} SpentFrom(l: Latch, xs: seq<Activation>, epoch: string, faulted: bool)
    ensures var ids, r := SpentIds(l, xs, epoch, faulted), ConsumeAll(l, xs, epoch, faulted);
      && Spent(ids, xs, l.consumed, r.consumed)
      && (r.releasedId == l.releasedId || (r.releasedId.Some? && r.releasedId.value in ids))
  {
    if xs != [] {
      var front, x := xs[..|xs| - 1], Last(xs);
      SpentFrom(l, front, epoch, faulted);
      var ids, before := SpentIds(l, front, epoch, faulted), ConsumeAll(l, front, epoch, faulted);
      SpentGrowsBy(ids, front, l.consumed, before.consumed, x);
      ConsumeOne(before, x, epoch, faulted);
      assert xs == front + [x];
      assert ids + [] == ids;
    }
  }

  /** Evidence and latch name an id as released only after its release. */
  predicate Announced(id: Option<string>, log: seq<Event>) {
    id.Some? ==> FaultReleased(id.value) in log
  }

  predicate AllAnnounced(msgs: seq<SafetyMsg>, log: seq<Event>) {
    forall m :: m in msgs ==> Announced(m.recoveryId, log)
  }

  function FaultIds(log: seq<Event>): seq<string> {
    if log == [] then []
    else FaultIds(log[..|log| - 1]) + (if Last(log).FaultReleased? then [Last(log).id] else [])
  }

  function PayloadIds(log: seq<Event>): seq<string> {
    if log == [] then []
    else PayloadIds(log[..|log| - 1]) + (if Last(log).PayloadReleased? then [Last(log).id] else [])
  }

  lemma {:induction false} IdsJoin(a: seq<Event>, b: seq<Event>)
    ensures FaultIds(a + b) == FaultIds(a) + FaultIds(b)
    ensures PayloadIds(a + b) == PayloadIds(a) + PayloadIds(b)
  {
    if b == [] {
      assert a + b == a;
    } else {
      IdsJoin(a, b[..|b| - 1]);
      assert (a + b)[..|a + b| - 1] == a + b[..|b| - 1] && Last(a + b) == Last(b);
    }
  }

  lemma {:induction false} GrantsReleaseNothing(xs: seq<Activation>, offered: nat)
    ensures FaultIds(Grants(xs, offered)) == [] && PayloadIds(Grants(xs, offered)) == []
  {
    if xs != [] {
      GrantsReleaseNothing(xs[..|xs| - 1], offered);
      IdsJoin(Grants(xs[..|xs| - 1], offered), [Granted(Last(xs), offered)]);
      assert [Granted(Last(xs), offered)][..0] == [];
    }
  }

  lemma IdsOfOneMore(log: seq<Event>, e: Event)
    ensures FaultIds(log + [e]) == FaultIds(log) + (if e.FaultReleased? then [e.id] else [])
    ensures PayloadIds(log + [e]) == PayloadIds(log) + (if e.PayloadReleased? then [e.id] else [])
  {
    assert (log + [e])[..|log|] == log;
  }

  lemma {:induction false} ReleasesRead(ids: seq<string>)
    ensures FaultIds(FaultReleases(ids)) == ids && PayloadIds(FaultReleases(ids)) == []
    ensures forall id :: id in ids ==> FaultReleased(id) in FaultReleases(ids)
  {
    if ids != [] {
      var front, id := ids[..|ids| - 1], Last(ids);
      ReleasesRead(front);
      IdsOfOneMore(FaultReleases(front), FaultReleased(id));
      assert FaultReleases(ids) == FaultReleases(front) + [FaultReleased(id)];
      assert ids == front + [id];
    }
  }

  lemma {:induction false} ReleasesCaused(log: seq<Event>, ids: seq<string>, offers: seq<Offer>, rules: Rules)
    requires Caused(log, offers, rules)
    requires forall id :: id in ids ==> GrantedIn(id, log)
    ensures Caused(log + FaultReleases(ids), offers, rules)
  {
    if ids == [] {
      assert log + [] == log;
    } else {
      var front, id := ids[..|ids| - 1], Last(ids);
      assert forall i :: 0 <= i < |ids| ==> ids[i] in ids;
      assert forall x :: x in front ==> x in ids;
      ReleasesCaused(log, front, offers, rules);
      var g :| g in log && Recovers(g, id);
      assert g in log + FaultReleases(front);
      CausedExtends(log + FaultReleases(front), FaultReleased(id), offers, rules);
      assert log + FaultReleases(ids) == (log + FaultReleases(front)) + [FaultReleased(id)];
    }
  }

  // --- The invariant ----------------------------------------------------------------------

  ghost predicate Story(log: seq<Event>, chain: seq<Activation>, offers: seq<Offer>, rules: Rules) {
    Caused(log, offers, rules) && Logged(chain, log)
  }

  predicate Announcements(
      log: seq<Event>, released: Option<string>, evidence: seq<SafetyMsg>, latest: Option<SafetyMsg>) {
    && Announced(released, log) && AllAnnounced(evidence, log)
    && (latest.Some? ==> Announced(latest.value.recoveryId, log))
  }

  predicate Counted(log: seq<Event>, consumed: set<string>, marks: seq<Mark>) {
    && PayloadProofs.NoRepeats(FaultIds(log)) && (forall id :: id in FaultIds(log) ==> id in consumed)
    && PayloadIds(log) == PayloadProofs.ReleasedIds(marks)
  }

  ghost predicate CauseInv(t: Traced, cfg: Config) {
    && RoutedBy(t.s.router.armed, t.s.q.routed, t.offers, cfg.router.rules)
    && Story(t.log, t.chain, t.offers, cfg.router.rules)
    && Announcements(t.log, t.s.latch.releasedId, t.s.q.payloadSafety, t.s.payload.c.latest)
    && Counted(t.log, t.s.latch.consumed, t.s.payload.c.marks)
  }

  lemma AnnouncementsGrow(
    log: seq<Event>, more: seq<Event>, released: Option<string>, evidence: seq<SafetyMsg>, latest: Option<SafetyMsg>)
    requires Announcements(log, released, evidence, latest)
    ensures Announcements(log + more, released, evidence, latest)
  {
  }

  lemma RouterKeepsCause(t: Traced, clock: Clock, cfg: Config)
    requires CauseInv(t, cfg)
    ensures CauseInv(Trace(t, RouterTicks(clock), cfg), cfg)
  {
    var held := DrainHeld(t.s.router.held, t.s.q.routerSafety, cfg.router.epoch, clock(0));
    RouteAllTraced(t.s.q.routed, t.offers, t.s.router.armed, t.s.q.commands, held, clock, cfg.router);
    CausedStays(t.log, t.offers, RouterRunOf(t.s, clock, cfg).1.offers, cfg.router.rules);
  }

  lemma AddedFromExit(a: Authority, inbox: Inbox, clock: Clock, cfg: AuthorityConfig)
    requires WellFormed(a, cfg.epoch)
    ensures forall x :: x in Added(cfg, a, inbox, clock) && x.recovery ==> LeavesSafeBy(x, inbox.routed)
  {
    var added := Added(cfg, a, inbox, clock);
    RecoveryComesFromExit(cfg, a, inbox, clock);
    TickExtendsChain(cfg, a, inbox, clock);
    forall x | x in added && x.recovery ensures LeavesSafeBy(x, inbox.routed) {
      var i :| 0 <= i < |added| && added[i] == x;
      LinkedAt(cfg.epoch, ModeOf(a), a.sequence, added, i);
    }
  }

  lemma StoryGrows(
    log: seq<Event>, chain: seq<Activation>, offers: seq<Offer>, rules: Rules, added: seq<Activation>,
    armed: map<ArmKey, real>, routed: seq<Command>)
    requires Story(log, chain, offers, rules) && RoutedBy(armed, routed, offers, rules)
    requires forall x :: x in added && x.recovery ==> LeavesSafeBy(x, routed)
    ensures Story(log + Grants(added, |offers|), chain + added, offers, rules)
    ensures RoutedBy(armed, [], offers, rules)
  {
    GrantsCaused(log, added, routed, offers, rules);
    LoggedExtends(chain, log, added, |offers|);
  }

  lemma AuthorityKeepsCause(t: Traced, clock: Clock, cfg: Config)
    requires ChainInv(t, cfg) && CauseInv(t, cfg)
    ensures CauseInv(Trace(t, AuthorityTicks(clock), cfg), cfg)
  {
    var added := Added(cfg.authority, t.s.authority, InboxOf(t.s), clock);
    AddedFromExit(t.s.authority, InboxOf(t.s), clock, cfg.authority);
    StoryGrows(t.log, t.chain, t.offers, cfg.router.rules, added, t.s.router.armed, t.s.q.routed);
    AnnouncementsGrow(t.log, Grants(added, |t.offers|), t.s.latch.releasedId, t.s.q.payloadSafety, t.s.payload.c.latest);
    IdsJoin(t.log, Grants(added, |t.offers|));
    GrantsReleaseNothing(added, |t.offers|);
  }

  /** The activation that carried a spent id is a link of the chain, so its grant is in the log. */
  lemma SpentWereGranted(ids: seq<string>, xs: seq<Activation>, chain: seq<Activation>, log: seq<Event>)
    requires forall id :: id in ids ==> CarriedBy(id, xs)
    requires OnChain(xs, chain) && Logged(chain, log)
    ensures forall id :: id in ids ==> GrantedIn(id, log)
  {
    forall id | id in ids ensures GrantedIn(id, log) {
      var x :| x in xs && x.recovery && x.requestId == Some(id);
      assert IsLink(x, chain) && x in chain;
      var offered :| Granted(x, offered) in log;
      assert Recovers(Granted(x, offered), id);
    }
  }

  lemma NoRepeatsJoin(a: seq<string>, b: seq<string>, spent: set<string>)
    requires PayloadProofs.NoRepeats(a) && PayloadProofs.NoRepeats(b)
    requires (forall id :: id in a ==> id in spent) && forall id :: id in b ==> id !in spent
    ensures PayloadProofs.NoRepeats(a + b)
  {
    forall i, j | 0 <= i < j < |a + b| ensures (a + b)[i] != (a + b)[j] {
      if i < |a| <= j {
        assert (a + b)[i] in a && (a + b)[j] in b;
      }
    }
  }

  lemma CountedGrows(
      log: seq<Event>, ids: seq<string>, before: set<string>, after: set<string>, marks: seq<Mark>,
      xs: seq<Activation>)
    requires Counted(log, before, marks) && Spent(ids, xs, before, after)
    ensures Counted(log + FaultReleases(ids), after, marks)
  {
    IdsJoin(log, FaultReleases(ids));
    ReleasesRead(ids);
    NoRepeatsJoin(FaultIds(log), ids, before);
    assert PayloadIds(log) + [] == PayloadIds(log);
  }

  lemma FaultAnnounces(
    log: seq<Event>, ids: seq<string>, old_: Option<string>, released: Option<string>, evidence: seq<SafetyMsg>,
    latest: Option<SafetyMsg>, m: SafetyMsg)
    requires Announcements(log, old_, evidence, latest) && m.recoveryId == released
    requires released == old_ || released == None || (released.Some? && released.value in ids)
    ensures Announcements(log + FaultReleases(ids), released, evidence + [m], latest)
  {
  }

  lemma FaultKeepsCause(t: Traced, now: real, ids: Ids, cfg: Config)
    requires ChainInv(t, cfg) && CauseInv(t, cfg)
    ensures CauseInv(Trace(t, FaultTicks(now, ids), cfg), cfg)
  {
    var inbox := FaultInbox(t.s.q.beats, t.s.q.events, t.s.q.faultActivations);
    var raised := RaisedInTick(cfg.fault, t.s.latch, t.s.entries, inbox, now, ids);
    var xs, spent := t.s.q.faultActivations, SpentBy(t.s, now, ids, cfg);
    RaiseFrames(cfg.fault, t.s.latch, t.s.entries, inbox, now, ids);
    SpentFrom(raised.latch, xs, cfg.fault.epoch, raised.seen != {});
    SpentWereGranted(spent, xs, t.chain, t.log);
    ReleasesCaused(t.log, spent, t.offers, cfg.router.rules);
    forall x | x in t.chain ensures LoggedOne(x, t.log + FaultReleases(spent)) {
      LogGrows(x, t.log, FaultReleases(spent));
    }
    var after := ConsumeAll(raised.latch, xs, cfg.fault.epoch, raised.seen != {});
    CountedGrows(t.log, spent, t.s.latch.consumed, after.consumed, t.s.payload.c.marks, xs);
    FaultAnnounces(t.log, spent, t.s.latch.releasedId, after.releasedId, t.s.q.payloadSafety, t.s.payload.c.latest,
                   FaultOutOf(t.s, now, ids, cfg).evidence);
  }

  /** A poll releases on evidence that announced the release it asks for. */
  lemma PollIsAnnounced(
      p: Payload, safety: seq<SafetyMsg>, xs: seq<Activation>, cfg: PayloadConfig, now: real, w: World,
      log: seq<Event>)
    requires PayloadProofs.Inv(p) && AllAnnounced(safety, log)
    requires p.c.latest.Some? ==> Announced(p.c.latest.value.recoveryId, log)
    ensures var r := PollActivations(p, safety, xs, cfg, now, w);
      && (r.c.latest.Some? ==> Announced(r.c.latest.value.recoveryId, log))
      && (if PayloadProofs.Releases(p, safety, xs, cfg, now, w)
          then Recovering(r.s.last) && FaultReleased(r.s.last.value.requestId.value) in log
               && PayloadProofs.ReleasedIds(r.c.marks) == PayloadProofs.ReleasedIds(p.c.marks) + [r.s.last.value.requestId.value]
          else PayloadProofs.ReleasedIds(r.c.marks) == PayloadProofs.ReleasedIds(p.c.marks))
  {
    PayloadProofs.PollKeeps(p, safety, xs, cfg, now, w);
    PayloadProofs.DrainedKeeps(p, safety, xs, cfg, now, w);
    NewestIsMaximal(p.c.latest, safety, cfg.epoch, now);
  }

  lemma ReleaseLogged(
    log: seq<Event>, id: string, chain: seq<Activation>, offers: seq<Offer>, rules: Rules, consumed: set<string>,
    before: seq<Mark>, after: seq<Mark>)
    requires Story(log, chain, offers, rules) && Counted(log, consumed, before) && FaultReleased(id) in log
    requires PayloadProofs.ReleasedIds(after) == PayloadProofs.ReleasedIds(before) + [id]
    ensures Story(log + [PayloadReleased(id)], chain, offers, rules)
    ensures Counted(log + [PayloadReleased(id)], consumed, after)
  {
  }

  lemma PollKeepsCause(t: Traced, now: real, w: World, cfg: Config)
    requires ChainInv(t, cfg) && CauseInv(t, cfg)
    ensures CauseInv(Trace(t, PayloadPolls(now, w), cfg), cfg)
  {
    var p, r := t.s.payload, PollOf(t.s, now, w, cfg);
    PollIsAnnounced(p, t.s.q.payloadSafety, t.s.q.payloadActivations, cfg.payload, now, w, t.log);
    if PollReleases(t.s, now, w, cfg) {
      ReleaseLogged(t.log, r.s.last.value.requestId.value, t.chain, t.offers, cfg.router.rules, t.s.latch.consumed,
                    p.c.marks, r.c.marks);
    } else {
      assert t.log + [] == t.log;
    }
  }

  lemma StepKeepsCause(t: Traced, step: Step, cfg: Config)
    requires ChainInv(t, cfg) && CauseInv(t, cfg)
    ensures CauseInv(Trace(t, step, cfg), cfg)
  {
    match step
    case RouterTicks(clock) => RouterKeepsCause(t, clock, cfg);
    case AuthorityTicks(clock) => AuthorityKeepsCause(t, clock, cfg);
    case FaultTicks(now, ids) => FaultKeepsCause(t, now, ids, cfg);
    case PayloadPolls(now, w) => PollKeepsCause(t, now, w, cfg);
    case PayloadActs(op, w) => if !op.Poll? && !op.Deliver? { ActFrames(t.s.payload, op, cfg.payload, w); }
    case _ =>
  }

  lemma {:induction false} CauseOverRuns(entries: seq<Watchdog.Entry>, steps: seq<Step>, cfg: Config)
    requires Wired(cfg)
    ensures CauseInv(TraceFrom(Begun(entries), steps, cfg), cfg)
  {
    if steps != [] {
      CauseOverRuns(entries, steps[..|steps| - 1], cfg);
      SafetyOverRuns(entries, steps[..|steps| - 1], cfg);
      StepKeepsCause(TraceFrom(Begun(entries), steps[..|steps| - 1], cfg), Last(steps), cfg);
    }
  }

  // --- The whole chain of cause -----------------------------------------------------------

  lemma {:induction false} JustifiedAt(log: seq<Event>, i: nat, offers: seq<Offer>, rules: Rules)
    requires Caused(log, offers, rules) && i < |log|
    ensures Justified(log[i], log[..i], offers, rules)
  {
    var front := log[..|log| - 1];
    if i < |front| {
      JustifiedAt(front, i, offers, rules);
      assert front[..i] == log[..i];
    } else {
      assert front == log[..i];
    }
  }

  /** An EXIT_SAFE EXECUTE, dispatched as offer n, that spent the ARM of offer m: the same source and
      command, armed at most the window before, with no other ARM or EXECUTE between. */
  predicate ArmedExit(offers: seq<Offer>, m: int, n: int, id: string, rules: Rules) {
    && 0 <= m < n < |offers|
    && CommandsExit(offers[n].command)
    && id == Naming.CommandRequestId(offers[n].command.source, offers[n].command.seqNo)
    && Standing(offers, n, rules, KeyOf(offers[n].command), m)
    && offers[n].now - offers[m].now <= rules.window
  }

  lemma ExitWasArmed(offers: seq<Offer>, before: nat, id: string, rules: Rules) returns (m: int, n: int)
    requires ExitDispatched(offers, before, id, rules) && EXIT_SAFE in rules.hazardous
    ensures n < before && ArmedExit(offers, m, n, id, rules)
  {
    var k, c :| k < before && DispatchedAt(offers, k, c, rules) && CommandsExit(c)
      && id == Naming.CommandRequestId(c.source, c.seqNo);
    n := k;
    var o := offers[n];
    assert o.command.target in rules.routable && o.command.target != CORE by {
      assert ResultAt(offers, n, rules)
        == RouteCommand(o.command, rules, o.latched, o.timely, ArmedBefore(offers, n, rules), o.now);
    }
    DispatchedExactly(offers, n, rules);
    m :| Standing(offers, n, rules, KeyOf(o.command), m) && o.now - offers[m].now <= rules.window;
  }

  /** Where in the log a containment release finds the release by the fault app, the grant behind that
      and, in the stream of commands, the EXECUTE and its ARM. */
  predicate ReleaseChain(log: seq<Event>, offers: seq<Offer>, p: int, f: int, g: int, m: int, n: int, rules: Rules) {
    && 0 <= g < f < p < |log| && log[p].PayloadReleased?
    && log[f] == FaultReleased(log[p].id)
    && Recovers(log[g], log[p].id)
    && log[g].x.previous == Some(Safe) && log[g].x.active == Init
    && n < log[g].offered
    && ArmedExit(offers, m, n, log[p].id, rules)
  }

  lemma CausedChain(log: seq<Event>, offers: seq<Offer>, p: nat, rules: Rules) returns (f: int, g: int, m: int, n: int)
    requires Caused(log, offers, rules) && EXIT_SAFE in rules.hazardous && p < |log| && log[p].PayloadReleased?
    ensures ReleaseChain(log, offers, p, f, g, m, n, rules)
  {
    JustifiedAt(log, p, offers, rules);
    f :| 0 <= f < p && log[f] == FaultReleased(log[p].id);
    JustifiedAt(log, f, offers, rules);
    g :| 0 <= g < f && Recovers(log[g], log[p].id);
    JustifiedAt(log, g, offers, rules);
    m, n := ExitWasArmed(offers, log[g].offered, log[p].id, rules);
  }

  /** Over every run, each release of payload containment has the whole chain of cause behind it. */
  lemma ReleaseIsCaused(entries: seq<Watchdog.Entry>, steps: seq<Step>, cfg: Config, p: nat)
    returns (f: int, g: int, m: int, n: int)
    requires Wired(cfg)
    requires var t := TraceFrom(Begun(entries), steps, cfg); p < |t.log| && t.log[p].PayloadReleased?
    ensures var t := TraceFrom(Begun(entries), steps, cfg);
      ReleaseChain(t.log, t.offers, p, f, g, m, n, cfg.router.rules)
  {
    var t := TraceFrom(Begun(entries), steps, cfg);
    CauseOverRuns(entries, steps, cfg);
    f, g, m, n := CausedChain(t.log, t.offers, p, cfg.router.rules);
  }

  lemma {:induction false} PayloadIdAt(log: seq<Event>, i: nat, j: nat)
    requires i <= j < |log| && log[i].PayloadReleased? && log[j].PayloadReleased?
    ensures log[i].id in PayloadIds(log)
    ensures i < j && PayloadProofs.NoRepeats(PayloadIds(log)) ==> log[i].id != log[j].id
  {
    var front := log[..|log| - 1];
    if j < |front| {
      PayloadIdAt(front, i, j);
      assert PayloadIds(log)[..|PayloadIds(front)|] == PayloadIds(front);
    } else if i < |front| {
      PayloadIdAt(front, i, i);
      var k :| 0 <= k < |PayloadIds(front)| && PayloadIds(front)[k] == log[i].id;
      assert PayloadIds(log)[k] == log[i].id && PayloadIds(log)[|PayloadIds(front)|] == log[j].id;
    }
  }

  /** Over every run, no request id releases containment twice. */
  lemma ReleasedOncePerRequest(entries: seq<Watchdog.Entry>, steps: seq<Step>, cfg: Config, i: nat, j: nat)
    requires Wired(cfg)
    requires var log := TraceFrom(Begun(entries), steps, cfg).log;
      i < j < |log| && log[i].PayloadReleased? && log[j].PayloadReleased?
    ensures var log := TraceFrom(Begun(entries), steps, cfg).log; log[i].id != log[j].id
  {
    CauseOverRuns(entries, steps, cfg);
    SafetyOverRuns(entries, steps, cfg);
    PayloadIdAt(TraceFrom(Begun(entries), steps, cfg).log, i, j);
  }
}
