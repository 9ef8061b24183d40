/** While the fault app is latched the system is in SAFE, or on its way there, or on its way out by
    an authorised recovery: whatever the order of the ticks, each taken whole. */
module ProtocolSafety {
  import opened Basics
  import opened SystemModes
  import opened AuthorityProofs
  import opened Fault
  import opened PayloadContainment
  import opened Protocol
  import opened ProtocolChain
  import opened ProtocolIds
  import Transitions
  import Watchdog

  /** Latched means: the authority is in SAFE, or a SAFE request waits in its queue, or a recovery
      the fault app has not read waits in the fault app's queue. */
  predicate SafeOrSoon(l: Latch, a: Authority, q: Queues) {
    l.latched ==>
      || ModeOf(a) == Some(Safe)
      || RequestsSafe(q.requests)
      || Unread(l, q.faultActivations)
  }

  predicate SafelyLatched(s: System) {
    SafeOrSoon(s.latch, s.authority, s.q)
  }

  ghost predicate Safety(t: Traced, cfg: Config) {
    ChainInv(t, cfg) && IdInv(t, cfg) && SafelyLatched(t.s)
  }

  lemma MoreRequests(before: seq<ModeRequestMsg>, more: seq<ModeRequestMsg>)
    ensures RequestsSafe(before) || RequestsSafe(more) ==> RequestsSafe(before + more)
  {
  }

  lemma MoreUnread(l: Latch, xs: seq<Activation>, more: seq<Activation>)
    ensures Unread(l, xs) || Unread(l, more) ==> Unread(l, xs + more)
  {
  }

  /** A tick that leaves SAFE does so by a recovery newer than anything the fault app has read. */
  lemma LeavingPublishesRecovery(
    a: Authority, chain: seq<Activation>, inbox: Inbox, clock: Clock, cfg: AuthorityConfig, l: Latch)
    requires AtEnd(a, chain, cfg.epoch) && LastIsLink(l.last, chain)
    requires ModeOf(a) == Some(Safe)
    ensures var run := AuthorityTick(cfg, a, inbox, clock);
      ModeOf(run.a) == Some(Safe) || Unread(l, run.activations)
  {
    var run, added := AuthorityTick(cfg, a, inbox, clock), Added(cfg, a, inbox, clock);
    TickExtendsChain(cfg, a, inbox, clock);
    LinkedRises(cfg.epoch, ModeOf(a), a.sequence, added);
    if RecoveryFree(added) {
      if added != [] {
        LeavingSafeIsRecovery(cfg.epoch, ModeOf(a), a.sequence, added);
      }
    } else {
      var x :| x in added && x.recovery;
      assert x in run.activations && x.sequence > Reached(l.last);
    }
  }

  lemma AuthorityKeepsSafe(t: Traced, clock: Clock, cfg: Config)
    requires Safety(t, cfg)
    ensures SafelyLatched(Next(t.s, AuthorityTicks(clock), cfg))
  {
    var inbox, run := InboxOf(t.s), AuthorityRunOf(t.s, clock, cfg);
    if RequestsSafe(t.s.q.requests) {
      SafeRequestWins(cfg.authority, t.s.authority, inbox, clock);
    } else if ModeOf(t.s.authority) == Some(Safe) {
      LeavingPublishesRecovery(t.s.authority, t.chain, inbox, clock, cfg.authority, t.s.latch);
      MoreUnread(t.s.latch, t.s.q.faultActivations, run.activations);
    } else {
      MoreUnread(t.s.latch, t.s.q.faultActivations, run.activations);
    }
  }

  lemma FaultKeepsSafe(t: Traced, now: real, ids: Ids, cfg: Config)
    requires Wired(cfg) && Safety(t, cfg)
    ensures SafelyLatched(Next(t.s, FaultTicks(now, ids), cfg))
  {
    var inbox := FaultInbox(t.s.q.beats, t.s.q.events, t.s.q.faultActivations);
    var raised := RaisedInTick(cfg.fault, t.s.latch, t.s.entries, inbox, now, ids);
    RaiseFrames(cfg.fault, t.s.latch, t.s.entries, inbox, now, ids);
    MoreRequests(t.s.q.requests, raised.requests);
    if raised.seen == {} {
      ConsumeAdvances(t.s.latch, t.s.q.faultActivations, cfg.fault.epoch, false);
      if Unread(t.s.latch, t.s.q.faultActivations) {
        ConsumeReleases(t.s.latch, t.s.q.faultActivations, t.chain, t.drained, cfg.fault.epoch);
      }
    }
  }

  lemma StepKeepsSafe(t: Traced, step: Step, cfg: Config)
    requires Wired(cfg) && Safety(t, cfg)
    ensures SafelyLatched(Next(t.s, step, cfg))
  {
    match step
    case AuthorityTicks(clock) => AuthorityKeepsSafe(t, clock, cfg);
    case FaultTicks(now, ids) => FaultKeepsSafe(t, now, ids, cfg);
    case PayloadPolls(now, w) => MoreRequests(t.s.q.requests, PollOf(t.s, now, w, cfg).o.requests);
    case ModeAsked(r) => MoreRequests(t.s.q.requests, [r]);
    case _ =>
  }

  /** In every state reachable by whole ticks in any order: the activations in flight are links of one
      chain, recovery ids are never reused, and a set latch finds the authority in SAFE, a SAFE
      request queued to it, or an unread recovery queued to the fault app. */
  lemma SafetyOverRuns(entries: seq<Watchdog.Entry>, steps: seq<Step>, cfg: Config)
    requires Wired(cfg)
    ensures Safety(TraceFrom(Begun(entries), steps, cfg), cfg)
  {
    SafetyFrom(Begun(entries), steps, cfg);
  }

  lemma {:induction false} SafetyFrom(t: Traced, steps: seq<Step>, cfg: Config)
    requires Wired(cfg) && Safety(t, cfg)
    ensures Safety(TraceFrom(t, steps, cfg), cfg)
  {
    if steps != [] {
      SafetyFrom(t, steps[..|steps| - 1], cfg);
      SafetyStep(TraceFrom(t, steps[..|steps| - 1], cfg), Last(steps), cfg);
    }
  }

  /** The chain position by position: numbered 1, 2, 3, ... without gaps, each link starting from the
      mode the one before it set, the first one SAFE from no mode, every edge a legal one. */
  predicate ReadsAsChain(chain: seq<Activation>, epoch: string) {
    forall i :: 0 <= i < |chain| ==>
      && chain[i].sequence == i + 1 && chain[i].epoch == epoch
      && chain[i].previous == (if i == 0 then None else Some(chain[i - 1].active))
      && Transitions.Legal(chain[i].previous, chain[i].active, chain[i].recovery)
      && (i == 0 ==> chain[i].active == Safe)
      && (chain[i].recovery <==> chain[i].previous == Some(Safe))
  }

  lemma LinkedReads(chain: seq<Activation>, epoch: string)
    requires Linked(epoch, None, 0, chain)
    ensures ReadsAsChain(chain, epoch)
  {
    forall i | 0 <= i < |chain|
      ensures Link(epoch, if i == 0 then None else Some(chain[i - 1].active), i + 1, chain[i])
    {
      LinkedAt(epoch, None, 0, chain, i);
      assert i > 0 ==> Last(chain[..i]) == chain[i - 1];
    }
  }

  /** Over every run the accepted activations form one chain. */
  lemma ChainOverRuns(entries: seq<Watchdog.Entry>, steps: seq<Step>, cfg: Config)
    requires Wired(cfg)
    ensures ReadsAsChain(TraceFrom(Begun(entries), steps, cfg).chain, cfg.authority.epoch)
  {
    SafetyOverRuns(entries, steps, cfg);
    LinkedReads(TraceFrom(Begun(entries), steps, cfg).chain, cfg.authority.epoch);
  }

  lemma SafetyStep(t: Traced, step: Step, cfg: Config)
    requires Wired(cfg) && Safety(t, cfg)
    ensures Safety(Trace(t, step, cfg), cfg)
  {
    StepKeepsChain(t, step, cfg);
    StepKeepsIds(t, step, cfg);
    StepKeepsSafe(t, step, cfg);
    assert Trace(t, step, cfg).s == Next(t.s, step, cfg);
  }

  // --- Published evidence -----------------------------------------------------------------

  function PublishedBy(s: System, step: Step, cfg: Config): seq<SafetyMsg> {
    match step
    case FaultTicks(now, ids) => [FaultOutOf(s, now, ids, cfg).evidence]
    case _ => []
  }

  /** The evidence the fault app has published over the steps of a run. */
  function Published(t: Traced, steps: seq<Step>, cfg: Config): seq<SafetyMsg> {
    if steps == [] then []
    else
      var front := steps[..|steps| - 1];
      Published(t, front, cfg) + PublishedBy(TraceFrom(t, front, cfg).s, Last(steps), cfg)
  }

  lemma EvidenceCounts(s: System, step: Step, cfg: Config)
    ensures var after := Next(s, step, cfg);
      if step.FaultTicks? then
        && after.latch.evidenceSequence == s.latch.evidenceSequence + 1
        && FaultOutOf(s, step.now, step.ids, cfg).evidence.sequence == after.latch.evidenceSequence
      else after.latch == s.latch
  {
    if step.FaultTicks? {
      var inbox := FaultInbox(s.q.beats, s.q.events, s.q.faultActivations);
      var raised := RaisedInTick(cfg.fault, s.latch, s.entries, inbox, step.now, step.ids);
      RaiseFrames(cfg.fault, s.latch, s.entries, inbox, step.now, step.ids);
      ConsumeAdvances(raised.latch, s.q.faultActivations, cfg.fault.epoch, raised.seen != {});
    }
  }

  /** Over every run the published records are numbered 1, 2, 3, ..., so that a sequence number names one
      record: what the agreement of the evidence consumers rests on. */
  lemma {:induction false} EvidenceIsNumbered(t: Traced, steps: seq<Step>, cfg: Config)
    ensures var published := Published(t, steps, cfg);
      && TraceFrom(t, steps, cfg).s.latch.evidenceSequence == t.s.latch.evidenceSequence + |published|
      && forall i :: 0 <= i < |published| ==> published[i].sequence == t.s.latch.evidenceSequence + 1 + i
  {
    if steps != [] {
      EvidenceIsNumbered(t, steps[..|steps| - 1], cfg);
      var before := TraceFrom(t, steps[..|steps| - 1], cfg);
      EvidenceCounts(before.s, Last(steps), cfg);
      assert Trace(before, Last(steps), cfg).s == Next(before.s, Last(steps), cfg);
    }
  }
}
