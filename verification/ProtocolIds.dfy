/** Recovery request ids are never reused: the ingress sequence guard keeps the commands in flight
    distinct, so no two recovery activations of a run carry one id, and the fault app can spend
    each of them. */
module ProtocolIds {
  import opened Basics
  import opened Routing
  import opened CommandRouting
  import opened SystemModes
  import opened AuthorityProofs
  import opened Fault
  import opened Protocol
  import opened ProtocolChain
  import Naming

  type Key = (string, int)

  function IdOf(k: Key): string {
    Naming.CommandRequestId(k.0, k.1)
  }

  // --- Commands in flight -----------------------------------------------------------------

  /** The commands carry different keys, none of them used before. */
  predicate Unused(cs: seq<Command>, used: set<Key>) {
    cs == [] ||
    var front, c := cs[..|cs| - 1], Last(cs);
    Unused(front, used) && (c.source, c.seqNo) !in used + KeySet(front)
  }

  /** Ingress has accepted each of these keys. */
  predicate Within(keys: set<Key>, lastSeq: map<string, int>) {
    && (forall source :: source in lastSeq ==> 0 <= lastSeq[source])
    && (forall k :: k in keys ==> k.0 in lastSeq && 0 <= k.1 <= lastSeq[k.0])
  }

  lemma {:induction false} KeySetJoins(a: seq<Command>, b: seq<Command>)
    ensures KeySet(a + b) == KeySet(a) + KeySet(b)
  {
    if b == [] {
      assert a + b == a;
    } else {
      KeySetJoins(a, b[..|b| - 1]);
      assert (a + b)[..|a + b| - 1] == a + b[..|b| - 1] && Last(a + b) == Last(b);
    }
  }

  lemma {:induction false} KeyInSet(cs: seq<Command>, c: Command)
    requires c in cs
    ensures (c.source, c.seqNo) in KeySet(cs)
  {
    if c != Last(cs) {
      KeyInSet(cs[..|cs| - 1], c);
    }
  }

  /** Draining the front of the pipeline leaves the rest unused. */
  lemma {:induction false} UnusedSplits(a: seq<Command>, b: seq<Command>, used: set<Key>)
    requires Unused(a + b, used)
    ensures Unused(a, used) && Unused(b, used + KeySet(a))
  {
    if b == [] {
      assert a + b == a;
    } else {
      var n := |b| - 1;
      assert (a + b)[..|a + b| - 1] == a + b[..n];
      UnusedSplits(a, b[..n], used);
      KeySetJoins(a, b[..n]);
      assert Last(a + b) == Last(b);
    }
  }

  /** What the router lets through is still unused. */
  lemma {:induction false} RoutedUnused(
    waiting: seq<Command>, commands: seq<Command>, used: set<Key>, armed: map<ArmKey, real>, held: Evidence.Held,
    clock: Clock, cfg: RouterConfig)
    requires Unused(waiting + commands, used)
    ensures var routed := RouteAll(RouterRun(armed, [], [], [], []), commands, held, clock, cfg).routed;
      Unused(waiting + routed, used) && KeySet(waiting + routed) <= KeySet(waiting + commands)
  {
    var start := RouterRun(armed, [], [], [], []);
    if commands == [] {
      assert RouteAll(start, commands, held, clock, cfg).routed == commands;
    } else {
      var n := |commands| - 1;
      var front, c := commands[..n], commands[n];
      UnusedFront(waiting, commands, used);
      RoutedUnused(waiting, front, used, armed, held, clock, cfg);
      var before := RouteAll(start, front, held, clock, cfg);
      RouteOneUnused(waiting, front, before, OfferOf(c, held, clock(n + 1), cfg), cfg.rules, used);
    }
  }

  lemma UnusedFront(waiting: seq<Command>, commands: seq<Command>, used: set<Key>)
    requires commands != [] && Unused(waiting + commands, used)
    ensures var front, c := commands[..|commands| - 1], Last(commands);
      && Unused(waiting + front, used)
      && (c.source, c.seqNo) !in used + KeySet(waiting + front)
      && KeySet(waiting + commands) == KeySet(waiting + front) + {(c.source, c.seqNo)}
  {
    var all := waiting + commands;
    assert all[..|all| - 1] == waiting + commands[..|commands| - 1] && Last(all) == Last(commands);
  }

  lemma RouteOneUnused(
    waiting: seq<Command>, front: seq<Command>, before: RouterRun, o: Offer, rules: Rules, used: set<Key>)
    requires Unused(waiting + before.routed, used) && KeySet(waiting + before.routed) <= KeySet(waiting + front)
    requires (o.command.source, o.command.seqNo) !in used + KeySet(waiting + front)
    ensures var routed := RouteOne(before, o, rules).routed;
      && Unused(waiting + routed, used)
      && KeySet(waiting + routed) <= KeySet(waiting + front) + {(o.command.source, o.command.seqNo)}
  {
    AnsweredOnce(o.command, rules, o.latched, o.timely, before.armed, o.now);
    OneMore(waiting, before.routed, o.command, used);
    assert before.routed + [] == before.routed;
  }

  lemma OneMore(waiting: seq<Command>, routed: seq<Command>, c: Command, used: set<Key>)
    requires Unused(waiting + routed, used)
    requires (c.source, c.seqNo) !in used + KeySet(waiting + routed)
    ensures Unused(waiting + (routed + [c]), used)
    ensures KeySet(waiting + (routed + [c])) == KeySet(waiting + routed) + {(c.source, c.seqNo)}
  {
    var longer := waiting + (routed + [c]);
    assert longer[..|longer| - 1] == waiting + routed && Last(longer) == c;
  }

  // --- Recovery ids -----------------------------------------------------------------------

  /** Every recovery of the chain answers a command the authority has drained. */
  ghost predicate Issued(chain: seq<Activation>, drained: set<Key>) {
    forall x :: x in chain && x.recovery ==> IssuedFrom(x, drained)
  }

  ghost predicate IssuedFrom(x: Activation, drained: set<Key>) {
    exists k :: k in drained && x.requestId == Some(IdOf(k))
  }

  predicate DistinctRecoveries(chain: seq<Activation>) {
    forall i, j :: 0 <= i < j < |chain| && chain[i].recovery && chain[j].recovery ==>
      chain[i].requestId != chain[j].requestId
  }

  predicate NonNegative(keys: set<Key>) {
    forall k :: k in keys ==> 0 <= k.1
  }

  lemma {:induction false} UnusedAvoids(cs: seq<Command>, used: set<Key>, c: Command)
    requires Unused(cs, used) && c in cs
    ensures (c.source, c.seqNo) !in used
  {
    if c != Last(cs) {
      UnusedAvoids(cs[..|cs| - 1], used, c);
    }
  }

  /** A tick's recovery, if it authorises one, carries an id no earlier recovery carries. */
  lemma TickIssuesNewIds(
    a: Authority, chain: seq<Activation>, inbox: Inbox, clock: Clock, cfg: AuthorityConfig, drained: set<Key>)
    requires AtEnd(a, chain, cfg.epoch)
    requires Unused(inbox.routed, drained) && NonNegative(drained + KeySet(inbox.routed))
    requires Issued(chain, drained) && DistinctRecoveries(chain)
    ensures var added := Added(cfg, a, inbox, clock);
      Issued(chain + added, drained + KeySet(inbox.routed)) && DistinctRecoveries(chain + added)
  {
    var added := Added(cfg, a, inbox, clock);
    RecoveryComesFromExit(cfg, a, inbox, clock);
    forall i | 0 <= i < |added| && added[i].recovery
      ensures NewId(added[i], inbox.routed, chain, drained)
    {
      IdIsNew(added[i], inbox.routed, chain, drained);
    }
    NewIdsExtend(chain, added, inbox.routed, drained);
  }

  ghost predicate NewId(x: Activation, routed: seq<Command>, chain: seq<Activation>, drained: set<Key>) {
    && IssuedFrom(x, KeySet(routed))
    && (forall y :: y in chain && y.recovery ==> y.requestId != x.requestId)
  }

  lemma IdIsNew(x: Activation, routed: seq<Command>, chain: seq<Activation>, drained: set<Key>)
    requires FromExit(x, routed)
    requires Unused(routed, drained) && NonNegative(drained + KeySet(routed)) && Issued(chain, drained)
    ensures NewId(x, routed, chain, drained)
  {
    var c :| c in routed && CommandsExit(c) && x.requestId == Some(Naming.CommandRequestId(c.source, c.seqNo));
    var key := (c.source, c.seqNo);
    KeyInSet(routed, c);
    assert key in KeySet(routed) && x.requestId == Some(IdOf(key));
    UnusedAvoids(routed, drained, c);
    forall y | y in chain && y.recovery ensures y.requestId != x.requestId {
      var k :| k in drained && y.requestId == Some(IdOf(k));
      if y.requestId == x.requestId {
        Naming.CommandRequestIdInjective(k.0, k.1, key.0, key.1);
      }
    }
  }

  lemma NewIdsExtend(chain: seq<Activation>, added: seq<Activation>, routed: seq<Command>, drained: set<Key>)
    requires Issued(chain, drained) && DistinctRecoveries(chain)
    requires forall i :: 0 <= i < |added| && added[i].recovery ==> NewId(added[i], routed, chain, drained)
    requires forall i, j :: 0 <= i < j < |added| ==> !(added[i].recovery && added[j].recovery)
    ensures Issued(chain + added, drained + KeySet(routed)) && DistinctRecoveries(chain + added)
  {
  }

  // --- Spending ids -----------------------------------------------------------------------

  /** The recovery at this place of the chain carries this id. */
  predicate RecoversAt(chain: seq<Activation>, i: int, id: string) {
    0 <= i < |chain| && chain[i].recovery && chain[i].requestId == Some(id)
  }

  /** The ids were spent on recoveries among the first n links. */
  ghost predicate SpentBelow(ids: set<string>, chain: seq<Activation>, n: int) {
    forall id :: id in ids ==> exists i :: i < n && RecoversAt(chain, i, id)
  }

  lemma SpentGrows(ids: set<string>, chain: seq<Activation>, n: int, added: seq<Activation>, m: int)
    requires SpentBelow(ids, chain, n) && n <= m
    ensures SpentBelow(ids, chain + added, m)
  {
    forall id | id in ids ensures exists i :: i < m && RecoversAt(chain + added, i, id) {
      var i :| i < n && RecoversAt(chain, i, id);
      assert RecoversAt(chain + added, i, id);
    }
  }

  /** The chain as the fault app relies on it. */
  ghost predicate Recoverable(chain: seq<Activation>, drained: set<Key>, epoch: string) {
    Linked(epoch, None, 0, chain) && Issued(chain, drained) && DistinctRecoveries(chain)
  }

  predicate Unread(l: Latch, xs: seq<Activation>) {
    exists x :: x in xs && x.recovery && x.sequence > Reached(l.last)
  }

  /** A recovery the fault app has not yet passed is authorised when it comes up. */
  lemma RecoveryPasses(l: Latch, x: Activation, chain: seq<Activation>, drained: set<Key>, epoch: string)
    requires Recoverable(chain, drained, epoch) && IsLink(x, chain) && x.recovery
    requires x.sequence > Reached(l.last) && SpentBelow(l.consumed, chain, Reached(l.last))
    ensures RecoveryAuthorized(x, epoch, SequenceOf(l.last), x.requestId.value in l.consumed, false)
  {
    LinkFacts(epoch, chain, x.sequence - 1);
    assert x in chain;
    var k :| k in drained && x.requestId == Some(IdOf(k));
    assert IdOf(k)[0] == 'c';
    forall i | i < Reached(l.last) ensures !RecoversAt(chain, i, x.requestId.value) {
      if 0 <= i < |chain| && chain[i].recovery {
        assert i < x.sequence - 1 && chain[i].requestId != chain[x.sequence - 1].requestId;
      }
    }
  }

  lemma ConsumeSpends(l: Latch, x: Activation, chain: seq<Activation>, epoch: string, faulted: bool)
    requires IsLink(x, chain) && SpentBelow(l.consumed, chain, Reached(l.last))
    ensures var r := Consume(l, x, epoch, faulted); SpentBelow(r.consumed, chain, Reached(r.last))
  {
    var r := Consume(l, x, epoch, faulted);
    SpentGrows(l.consumed, chain, Reached(l.last), [], if Reached(r.last) >= Reached(l.last) then Reached(r.last) else Reached(l.last));
    assert chain + [] == chain;
    if r.consumed != l.consumed {
      assert RecoversAt(chain, x.sequence - 1, x.requestId.value);
    }
  }

  /** Draining activations spends only ids of links passed. */
  lemma {:induction false} ConsumeAllSpends(
      l: Latch, xs: seq<Activation>, chain: seq<Activation>, epoch: string, faulted: bool)
    requires OnChain(xs, chain) && SpentBelow(l.consumed, chain, Reached(l.last))
    ensures var r := ConsumeAll(l, xs, epoch, faulted); SpentBelow(r.consumed, chain, Reached(r.last))
  {
    if xs != [] {
      var front, x := xs[..|xs| - 1], Last(xs);
      assert xs == front + [x];
      ConsumeAllSpends(l, front, chain, epoch, faulted);
      ConsumeSpends(ConsumeAll(l, front, epoch, faulted), x, chain, epoch, faulted);
    }
  }

  lemma ViewOfFront(xs: seq<Activation>, last: Option<Activation>, chain: seq<Activation>)
    requires xs != [] && FaultView(xs, last, chain)
    ensures FaultView(xs[..|xs| - 1], last, chain)
  {
  }

  /** With no fault in the tick an unread recovery clears the latch. */
  lemma {:induction false} ConsumeReleases(
    l: Latch, xs: seq<Activation>, chain: seq<Activation>, drained: set<Key>, epoch: string)
    requires Recoverable(chain, drained, epoch) && FaultView(xs, l.last, chain)
    requires SpentBelow(l.consumed, chain, Reached(l.last))
    requires Unread(l, xs)
    ensures !ConsumeAll(l, xs, epoch, false).latched
  {
    var front, x := xs[..|xs| - 1], Last(xs);
    ViewOfFront(xs, l.last, chain);
    var before := ConsumeAll(l, front, epoch, false);
    if Unread(l, front) {
      ConsumeReleases(l, front, chain, drained, epoch);
      assert !Consume(before, x, epoch, false).latched;
    } else {
      assert xs == front + [x];
      ConsumeAllSpends(l, front, chain, epoch, false);
      ConsumeAdvances(l, front, epoch, false);
      FirstUnread(l, front, x, before, chain);
      ReleaseOn(before, x, chain, drained, epoch);
    }
  }

  lemma ReleaseOn(l: Latch, x: Activation, chain: seq<Activation>, drained: set<Key>, epoch: string)
    requires Recoverable(chain, drained, epoch) && IsLink(x, chain) && x.recovery
    requires x.sequence > Reached(l.last) && SpentBelow(l.consumed, chain, Reached(l.last))
    ensures !Consume(l, x, epoch, false).latched
  {
    LinkFacts(epoch, chain, x.sequence - 1);
    RecoveryPasses(l, x, chain, drained, epoch);
  }

  /** If the last activation is the only unread recovery, the ones before it stopped short of it. */
  lemma FirstUnread(l: Latch, front: seq<Activation>, x: Activation, before: Latch, chain: seq<Activation>)
    requires FaultView(front + [x], l.last, chain) && Unread(l, front + [x]) && !Unread(l, front)
    requires before.last == l.last || (before.last.Some? && before.last.value in front)
    requires l.last.Some? && before.last != l.last ==> Reached(l.last) < Reached(before.last)
    ensures x.recovery && IsLink(x, chain) && x.sequence > Reached(before.last)
  {
  }

  // --- The invariant ----------------------------------------------------------------------

  predicate KeysHold(routed: seq<Command>, commands: seq<Command>, drained: set<Key>, lastSeq: map<string, int>) {
    Unused(routed + commands, drained) && Within(drained + KeySet(routed + commands), lastSeq)
  }

  ghost predicate IdInv(t: Traced, cfg: Config) {
    && KeysHold(t.s.q.routed, t.s.q.commands, t.drained, t.s.lastSeq)
    && Issued(t.chain, t.drained) && DistinctRecoveries(t.chain)
    && SpentBelow(t.s.latch.consumed, t.chain, Reached(t.s.latch.last))
  }

  lemma RouterKeepsIds(t: Traced, clock: Clock, cfg: Config)
    requires IdInv(t, cfg)
    ensures IdInv(Trace(t, RouterTicks(clock), cfg), cfg)
  {
    var held := Evidence.DrainHeld(t.s.router.held, t.s.q.routerSafety, cfg.router.epoch, clock(0));
    RoutedUnused(t.s.q.routed, t.s.q.commands, t.drained, t.s.router.armed, held, clock, cfg.router);
    var routed := RouterRunOf(t.s, clock, cfg).1.routed;
    assert (t.s.q.routed + routed) + [] == t.s.q.routed + routed;
  }

  lemma AuthorityKeepsIds(t: Traced, clock: Clock, cfg: Config)
    requires ChainInv(t, cfg) && IdInv(t, cfg)
    ensures IdInv(Trace(t, AuthorityTicks(clock), cfg), cfg)
  {
    UnusedSplits(t.s.q.routed, t.s.q.commands, t.drained);
    KeySetJoins(t.s.q.routed, t.s.q.commands);
    assert [] + t.s.q.commands == t.s.q.commands;
    TickIssuesNewIds(t.s.authority, t.chain, InboxOf(t.s), clock, cfg.authority, t.drained);
    SpentGrows(t.s.latch.consumed, t.chain, Reached(t.s.latch.last),
               Added(cfg.authority, t.s.authority, InboxOf(t.s), clock), Reached(t.s.latch.last));
  }

  lemma NextKey(keys: set<Key>, lastSeq: map<string, int>, c: Command)
    requires Within(keys, lastSeq) && IngressAccepts(lastSeq, c)
    ensures (c.source, c.seqNo) !in keys
    ensures Within(keys + {(c.source, c.seqNo)}, lastSeq[c.source := c.seqNo])
  {
  }

  lemma UplinkKeepsIds(t: Traced, c: Command, cfg: Config)
    requires IdInv(t, cfg)
    ensures IdInv(Trace(t, Uplinked(c), cfg), cfg)
  {
    if IngressAccepts(t.s.lastSeq, c) {
      var routed, commands, keys := t.s.q.routed, t.s.q.commands, KeySet(t.s.q.routed + t.s.q.commands);
      NextKey(t.drained + keys, t.s.lastSeq, c);
      OneMore(routed, commands, c, t.drained);
      assert t.drained + (keys + {(c.source, c.seqNo)}) == t.drained + keys + {(c.source, c.seqNo)};
    }
  }

  lemma FaultKeepsIds(t: Traced, now: real, ids: Ids, cfg: Config)
    requires Wired(cfg) && ChainInv(t, cfg) && IdInv(t, cfg)
    ensures IdInv(Trace(t, FaultTicks(now, ids), cfg), cfg)
  {
    var inbox := FaultInbox(t.s.q.beats, t.s.q.events, t.s.q.faultActivations);
    var raised := RaisedInTick(cfg.fault, t.s.latch, t.s.entries, inbox, now, ids);
    RaiseFrames(cfg.fault, t.s.latch, t.s.entries, inbox, now, ids);
    ConsumeAllSpends(raised.latch, t.s.q.faultActivations, t.chain, cfg.fault.epoch, raised.seen != {});
  }

  lemma StepKeepsIds(t: Traced, step: Step, cfg: Config)
    requires Wired(cfg) && ChainInv(t, cfg) && IdInv(t, cfg)
    ensures IdInv(Trace(t, step, cfg), cfg)
  {
    match step
    case RouterTicks(clock) => RouterKeepsIds(t, clock, cfg);
    case AuthorityTicks(clock) => AuthorityKeepsIds(t, clock, cfg);
    case FaultTicks(now, ids) => FaultKeepsIds(t, now, ids, cfg);
    case Uplinked(c) => UplinkKeepsIds(t, c, cfg);
    case _ =>
  }
}
