/** Every activation in flight is a link of the authority's one chain, and reaches the fault app in
    rising order, whatever the order of the ticks. */
module ProtocolChain {
  import opened Basics
  import opened CommandRouting
  import opened SystemModes
  import opened AuthorityProofs
  import opened Fault
  import opened PayloadContainment
  import opened Protocol
  import PayloadProofs
  import Watchdog

  predicate IsLink(x: Activation, chain: seq<Activation>) {
    1 <= x.sequence <= |chain| && chain[x.sequence - 1] == x
  }

  predicate OnChain(xs: seq<Activation>, chain: seq<Activation>) {
    forall x :: x in xs ==> IsLink(x, chain)
  }

  predicate Rising(xs: seq<Activation>) {
    xs == [] || (Rising(xs[..|xs| - 1]) && forall x :: x in xs ==> x.sequence <= Last(xs).sequence)
  }

  predicate LastIsLink(last: Option<Activation>, chain: seq<Activation>) {
    last.Some? ==> IsLink(last.value, chain)
  }

  function Reached(last: Option<Activation>): int {
    if last.None? then 0 else last.value.sequence
  }

  /** The authority is at the end of its chain. */
  predicate AtEnd(a: Authority, chain: seq<Activation>, epoch: string) {
    && WellFormed(a, epoch)
    && Linked(epoch, None, 0, chain)
    && |chain| == a.sequence
    && a.active == (if chain == [] then None else Some(Last(chain)))
  }

  /** What the fault app holds and has queued: links, in order, none older than what it holds. */
  predicate FaultView(queue: seq<Activation>, last: Option<Activation>, chain: seq<Activation>) {
    && OnChain(queue, chain) && Rising(queue) && LastIsLink(last, chain)
    && forall x :: x in queue ==> Reached(last) <= x.sequence
  }

  predicate PayloadView(queue: seq<Activation>, last: Option<Activation>, chain: seq<Activation>) {
    OnChain(queue, chain) && LastIsLink(last, chain)
  }

  predicate ChainInv(t: Traced, cfg: Config) {
    && AtEnd(t.s.authority, t.chain, cfg.authority.epoch)
    && FaultView(t.s.q.faultActivations, t.s.latch.last, t.chain)
    && PayloadView(t.s.q.payloadActivations, t.s.payload.s.last, t.chain)
    && PayloadProofs.Inv(t.s.payload)
  }

  // --- Reading the chain ------------------------------------------------------------------

  lemma LinkFacts(epoch: string, chain: seq<Activation>, i: nat)
    requires Linked(epoch, None, 0, chain) && i < |chain|
    ensures chain[i].sequence == i + 1 && IsLink(chain[i], chain) && chain[i].epoch == epoch
    ensures chain[i].recovery ==> chain[i].previous == Some(Safe) && chain[i].active == Init
    ensures chain[i].requestId.Some?
  {
  }

  lemma {:induction false} RisingJoins(xs: seq<Activation>, ys: seq<Activation>, bound: int)
    requires Rising(xs) && Rising(ys)
    requires forall x :: x in xs ==> x.sequence <= bound
    requires forall y :: y in ys ==> bound <= y.sequence
    ensures Rising(xs + ys)
  {
    if ys == [] {
      assert xs + ys == xs;
    } else {
      RisingJoins(xs, ys[..|ys| - 1], bound);
      assert (xs + ys)[..|xs + ys| - 1] == xs + ys[..|ys| - 1];
      assert Last(xs + ys) == Last(ys) && Last(ys) in ys;
    }
  }

  lemma {:induction false} LinkedRises(epoch: string, from: Option<SystemMode>, start: int, xs: seq<Activation>)
    requires Linked(epoch, from, start, xs)
    ensures Rising(xs) && forall x :: x in xs ==> start < x.sequence <= start + |xs|
  {
    if xs != [] {
      LinkedRises(epoch, from, start, xs[..|xs| - 1]);
      assert xs == xs[..|xs| - 1] + [Last(xs)];
    }
  }

  lemma {:induction false} CopiesRise(xs: seq<Activation>, link: Activation)
    requires forall i :: 0 <= i < |xs| ==> xs[i] == link
    ensures Rising(xs)
  {
    if xs != [] {
      CopiesRise(xs[..|xs| - 1], link);
    }
  }

  // --- Authority ticks --------------------------------------------------------------------

  lemma EndMoves(a: Authority, b: Authority, chain: seq<Activation>, added: seq<Activation>, epoch: string)
    requires AtEnd(a, chain, epoch) && WellFormed(b, epoch)
    requires Linked(epoch, ModeOf(a), a.sequence, added)
    requires b.sequence == a.sequence + |added|
    requires b.active == (if added == [] then a.active else Some(Last(added)))
    ensures AtEnd(b, chain + added, epoch)
    ensures Rising(added) && forall x :: x in added ==> |chain| < x.sequence <= |chain + added|
  {
    assert ModeAfter(None, chain) == ModeOf(a);
    LinkedJoins(epoch, None, 0, chain, added);
    LinkedRises(epoch, ModeOf(a), a.sequence, added);
    assert added == [] ==> chain + added == chain;
    assert added != [] ==> Last(chain + added) == Last(added);
  }

  lemma LinksOf(epoch: string, chain: seq<Activation>, added: seq<Activation>)
    requires Linked(epoch, None, 0, chain + added)
    ensures OnChain(added, chain + added)
  {
    var whole := chain + added;
    forall x | x in added ensures IsLink(x, whole) {
      var i :| 0 <= i < |added| && added[i] == x;
      assert whole[|chain| + i] == x;
      LinkFacts(epoch, whole, |chain| + i);
    }
  }

  /** What an authority tick publishes: the links it adds and copies of its last link. */
  lemma TickPublishesLinks(a: Authority, chain: seq<Activation>, inbox: Inbox, clock: Clock, cfg: AuthorityConfig)
    requires AtEnd(a, chain, cfg.epoch)
    ensures var run, added := AuthorityTick(cfg, a, inbox, clock), Added(cfg, a, inbox, clock);
      && AtEnd(run.a, chain + added, cfg.epoch)
      && OnChain(run.activations, chain + added)
      && Rising(run.activations)
      && (forall x :: x in run.activations ==> |chain| <= x.sequence)
  {
    var added, replayed := Added(cfg, a, inbox, clock), Replayed(cfg, a, inbox, clock);
    var whole := chain + added;
    TickExtendsChain(cfg, a, inbox, clock);
    EndMoves(a, AuthorityTick(cfg, a, inbox, clock).a, chain, added, cfg.epoch);
    LinksOf(cfg.epoch, chain, added);
    LinkFacts(cfg.epoch, whole, |whole| - 1);
    assert forall i :: 0 <= i < |replayed| ==> replayed[i] in replayed;
    CopiesRise(replayed, Last(whole));
    RisingJoins(added, replayed, |whole|);
  }

  lemma ViewsGrow(
    queue: seq<Activation>, last: Option<Activation>, chain: seq<Activation>, published: seq<Activation>,
    added: seq<Activation>)
    requires OnChain(published, chain + added) && Rising(published)
    requires forall x :: x in published ==> |chain| <= x.sequence
    ensures FaultView(queue, last, chain) ==> FaultView(queue + published, last, chain + added)
    ensures PayloadView(queue, last, chain) ==> PayloadView(queue + published, last, chain + added)
  {
    if FaultView(queue, last, chain) {
      RisingJoins(queue, published, |chain|);
    }
  }

  lemma AuthorityKeepsChain(t: Traced, clock: Clock, cfg: Config)
    requires ChainInv(t, cfg)
    ensures ChainInv(Trace(t, AuthorityTicks(clock), cfg), cfg)
  {
    var run, added := AuthorityRunOf(t.s, clock, cfg), Added(cfg.authority, t.s.authority, InboxOf(t.s), clock);
    TickPublishesLinks(t.s.authority, t.chain, InboxOf(t.s), clock, cfg.authority);
    ViewsGrow(t.s.q.faultActivations, t.s.latch.last, t.chain, run.activations, added);
    ViewsGrow(t.s.q.payloadActivations, t.s.payload.s.last, t.chain, run.activations, added);
  }

  // --- Fault ticks ------------------------------------------------------------------------

  /** Consuming activations only moves the fault app forward along the chain. */
  lemma {:induction false} ConsumeAdvances(l: Latch, xs: seq<Activation>, epoch: string, faulted: bool)
    ensures var r := ConsumeAll(l, xs, epoch, faulted);
      && (r.last == l.last || (r.last.Some? && r.last.value in xs && (l.last.Some? ==> Reached(l.last) < Reached(r.last))))
      && l.consumed <= r.consumed && r.evidenceSequence == l.evidenceSequence
      && (r.latched ==> l.latched)
  {
    if xs != [] {
      ConsumeAdvances(l, xs[..|xs| - 1], epoch, faulted);
      assert xs == xs[..|xs| - 1] + [Last(xs)];
    }
  }

  /** Raising faults: the latch and the SAFE requests go together, and nothing else moves. */
  lemma RaiseFrames(cfg: FaultConfig, l: Latch, entries: seq<Watchdog.Entry>, inbox: FaultInbox, now: real, ids: Ids)
    ensures var raised := RaisedInTick(cfg, l, entries, inbox, now, ids);
      && raised.latch.last == l.last && raised.latch.consumed == l.consumed
      && raised.latch.evidenceSequence == l.evidenceSequence
      && (raised.seen == {} ==> raised.latch == l && raised.requests == [])
      && (raised.seen != {} ==>
            RequestsSafe(raised.requests) && raised.latch.latched && raised.latch.releasedId.None?)
  {
    var expired := Watchdog.Expired(Watchdog.Heard(entries, inbox.beats, now), now, cfg.maxMiss);
    var start := Raised(l, [], {}, 0);
    RaiseAllFrames(l, start, inbox.events, ids);
    RaiseAllFrames(l, RaiseAll(start, inbox.events, ids), expired, ids);
  }

  predicate RaisedFrom(l: Latch, r: Raised) {
    && r.latch.last == l.last && r.latch.consumed == l.consumed && r.latch.evidenceSequence == l.evidenceSequence
    && (r.seen == {} ==> r.latch == l && r.requests == [])
    && (r.seen != {} ==> RequestsSafe(r.requests) && r.latch.latched && r.latch.releasedId.None?)
  }

  lemma {:induction false} RaiseAllFrames(l: Latch, r: Raised, events: seq<FaultEvent>, ids: Ids)
    requires RaisedFrom(l, r)
    ensures RaisedFrom(l, RaiseAll(r, events, ids))
  {
    if events != [] {
      RaiseAllFrames(l, r, events[..|events| - 1], ids);
      var before, after := RaiseAll(r, events[..|events| - 1], ids), RaiseAll(r, events, ids);
      if after != before && DecideModeRequest(Last(events).code, ids(before.drawn)).Some? {
        assert Last(after.requests) in after.requests && Last(after.requests).mode == Safe;
        assert Last(events).code in after.seen;
      }
    }
  }

  lemma FaultKeepsChain(t: Traced, now: real, ids: Ids, cfg: Config)
    requires ChainInv(t, cfg)
    ensures ChainInv(Trace(t, FaultTicks(now, ids), cfg), cfg)
  {
    var inbox := FaultInbox(t.s.q.beats, t.s.q.events, t.s.q.faultActivations);
    var raised := RaisedInTick(cfg.fault, t.s.latch, t.s.entries, inbox, now, ids);
    RaiseFrames(cfg.fault, t.s.latch, t.s.entries, inbox, now, ids);
    ConsumeAdvances(raised.latch, t.s.q.faultActivations, cfg.fault.epoch, raised.seen != {});
  }

  // --- Payload steps ----------------------------------------------------------------------

  lemma PollKeepsChain(t: Traced, now: real, w: World, cfg: Config)
    requires ChainInv(t, cfg)
    ensures ChainInv(Trace(t, PayloadPolls(now, w), cfg), cfg)
  {
    PayloadProofs.PollKeeps(t.s.payload, t.s.q.payloadSafety, t.s.q.payloadActivations, cfg.payload, now, w);
    PayloadProofs.DrainedKeeps(t.s.payload, t.s.q.payloadSafety, t.s.q.payloadActivations, cfg.payload, now, w);
  }

  /** No payload operation but a poll takes activations or evidence in, or releases. */
  predicate ActFrame(p: Payload, q: Payload) {
    && PayloadProofs.Inv(q) && q.s.last == p.s.last
    && q.c.latest == p.c.latest && q.c.consumed == p.c.consumed && q.c.lastEvidence == p.c.lastEvidence
    && PayloadProofs.ReleasedIds(q.c.marks) == PayloadProofs.ReleasedIds(p.c.marks)
  }

  lemma ReadFrames(p: Payload, code: FaultCode, cfg: PayloadConfig, w: World)
    requires PayloadProofs.Inv(p)
    ensures ActFrame(p, ReadFailed(p, code, cfg, w))
  {
    var b := Begin(p);
    PayloadProofs.RecordFailureHolds(b, code, cfg, w.clockNow, w);
    var r := RecordFailure(b, code, cfg, w.clockNow, w);
    PayloadProofs.InhibitHolds(r, false, w);
    PayloadProofs.EngageHolds(InhibitMotion(r, false, w).0.c);
  }

  lemma CommitFrames(
      p: Payload, r: Reference, revision: nat, last: Option<Activation>, cfg: PayloadConfig, now: real,
      w: World)
    requires PayloadProofs.Inv(p)
    ensures ActFrame(p, CommitReference(p, r, revision, last, cfg, now, w).0)
  {
    PayloadProofs.CommitKeeps(p, r, revision, last, cfg, now, w);
  }

  lemma WriteFrames(p: Payload, m: Motion, revision: nat, cfg: PayloadConfig, now: real, w: World)
    requires PayloadProofs.Inv(p)
    ensures ActFrame(p, WriteLeased(p, m, revision, cfg, now, w).0)
  {
    PayloadProofs.WriteKeeps(p, m, revision, cfg, now, w);
    var b := Begin(p);
    if b.c.latched {
      PayloadProofs.InhibitHolds(b, false, w);
    } else {
      PayloadProofs.LatchHolds(b, w);
      PayloadProofs.SendHolds(b, m, cfg, now, w);
    }
  }

  lemma ActFrames(p: Payload, op: PayloadProofs.Op, cfg: PayloadConfig, w: World)
    requires PayloadProofs.Inv(p) && !op.Poll?
    ensures ActFrame(p, PayloadProofs.Apply(p, op, cfg, w))
  {
    match op
    case Poll(safety, xs, at) => assert false;
    case Write(m, revision, at) => WriteFrames(p, m, revision, cfg, at, w);
    case Commit(r, revision, state, at) => CommitFrames(p, r, revision, state, cfg, at, w);
    case ReadFault(code) => ReadFrames(p, code, cfg, w);
    case LoneInhibit => PayloadProofs.InhibitHolds(Begin(p), false, w);
    case LocalLatch => PayloadProofs.LatchHolds(Begin(p), w);
    case ImagingFault(code) =>
    case Deliver(e) =>
  }

  // --- Every step -------------------------------------------------------------------------

  lemma StepKeepsChain(t: Traced, step: Step, cfg: Config)
    requires ChainInv(t, cfg)
    ensures ChainInv(Trace(t, step, cfg), cfg)
  {
    match step
    case AuthorityTicks(clock) => AuthorityKeepsChain(t, clock, cfg);
    case FaultTicks(now, ids) => FaultKeepsChain(t, now, ids, cfg);
    case PayloadPolls(now, w) => PollKeepsChain(t, now, w, cfg);
    case PayloadActs(op, w) => if !op.Poll? && !op.Deliver? { ActFrames(t.s.payload, op, cfg.payload, w); }
    case _ =>
  }
}
