/** Over every run: one transition record per request decided, and evidence consumers that agree. */
module ProtocolRecords {
  import opened Basics
  import opened Evidence
  import opened CommandRouting
  import opened SystemModes
  import opened AuthorityProofs
  import opened Fault
  import opened PayloadContainment
  import opened Protocol
  import opened ProtocolChain
  import opened ProtocolSafety
  import PayloadProofs
  import Transitions
  import Watchdog

  // --- Transition records -----------------------------------------------------------------

  lemma {:induction false} AnswersJoin(
    records: seq<TransitionMsg>, asks: seq<Ask>, start: int, more: seq<TransitionMsg>, moreAsks: seq<Ask>)
    requires Answers(records, asks, start) && Answers(more, moreAsks, start + |asks|)
    ensures Answers(records + more, asks + moreAsks, start)
  {
    if moreAsks == [] {
      assert records + more == records && asks + moreAsks == asks;
    } else {
      AnswersJoin(records, asks, start, more[..|more| - 1], moreAsks[..|moreAsks| - 1]);
      assert (records + more)[..|records + more| - 1] == records + more[..|more| - 1];
      assert (asks + moreAsks)[..|asks + moreAsks| - 1] == asks + moreAsks[..|moreAsks| - 1];
    }
  }

  lemma {:induction false} AnswersAt(records: seq<TransitionMsg>, asks: seq<Ask>, start: int, i: nat)
    requires Answers(records, asks, start)
    ensures |records| == |asks|
    ensures i < |asks| ==> Answer(records[i], asks[i], start + i + 1)
  {
    if asks != [] {
      AnswersAt(records[..|records| - 1], asks[..|asks| - 1], start, i);
    }
  }

  lemma {:induction false} GrantedJoin(a: seq<TransitionMsg>, b: seq<TransitionMsg>)
    ensures GrantedSequences(a + b) == GrantedSequences(a) + GrantedSequences(b)
  {
    if b == [] {
      assert a + b == a;
    } else {
      GrantedJoin(a, b[..|b| - 1]);
      assert (a + b)[..|a + b| - 1] == a + b[..|b| - 1] && Last(a + b) == Last(b);
    }
  }

  lemma {:induction false} SequencesJoin(a: seq<Activation>, b: seq<Activation>)
    ensures Sequences(a + b) == Sequences(a) + Sequences(b)
  {
    if b == [] {
      assert a + b == a;
    } else {
      SequencesJoin(a, b[..|b| - 1]);
      assert (a + b)[..|a + b| - 1] == a + b[..|b| - 1] && Last(a + b) == Last(b);
    }
  }

  predicate RecordsHold(t: Traced) {
    && Answers(t.records, t.asks, 0)
    && t.s.authority.transitions == |t.asks|
    && GrantedSequences(t.records) == Sequences(t.chain)
  }

  lemma StepRecords(t: Traced, step: Step, cfg: Config)
    requires ChainInv(t, cfg) && RecordsHold(t)
    ensures RecordsHold(Trace(t, step, cfg))
  {
    match step
    case AuthorityTicks(clock) =>
      var a, inbox := t.s.authority, InboxOf(t.s);
      var run, added := AuthorityRunOf(t.s, clock, cfg), Added(cfg.authority, a, inbox, clock);
      OneRecordPerRequest(cfg.authority, a, inbox, clock);
      AnswersJoin(t.records, t.asks, 0, run.records, Asks(cfg.authority, a, inbox));
      GrantedJoin(t.records, run.records);
      SequencesJoin(t.chain, added);
    case _ =>
  }

  lemma {:induction false} RecordsHoldOverRuns(entries: seq<Watchdog.Entry>, steps: seq<Step>, cfg: Config)
    requires Wired(cfg)
    ensures RecordsHold(TraceFrom(Begun(entries), steps, cfg))
  {
    if steps != [] {
      var front := steps[..|steps| - 1];
      RecordsHoldOverRuns(entries, front, cfg);
      SafetyOverRuns(entries, front, cfg);
      StepRecords(TraceFrom(Begun(entries), front, cfg), Last(steps), cfg);
    }
  }

  /** Over every run each request the authority decides has exactly one transition record, numbered 1, 2, 3, ...
      in the order of the decisions, and the accepted ones name the activations of the chain, in order. */
  lemma RecordsOverRuns(entries: seq<Watchdog.Entry>, steps: seq<Step>, cfg: Config)
    requires Wired(cfg)
    ensures var t := TraceFrom(Begun(entries), steps, cfg);
      && |t.records| == |t.asks|
      && (forall i :: 0 <= i < |t.records| ==> Answer(t.records[i], t.asks[i], i + 1))
      && GrantedSequences(t.records) == Sequences(t.chain)
  {
    var t := TraceFrom(Begun(entries), steps, cfg);
    RecordsHoldOverRuns(entries, steps, cfg);
    AnswersAt(t.records, t.asks, 0, 0);
    forall i | 0 <= i < |t.records| ensures Answer(t.records[i], t.asks[i], i + 1) {
      AnswersAt(t.records, t.asks, 0, i);
    }
  }

  // --- The evidence each consumer holds ---------------------------------------------------

  /** The clock reading a step judges or dates evidence by. */
  function Reading(step: Step): Option<real> {
    match step
    case RouterTicks(clock) => Some(clock(0))
    case AuthorityTicks(clock) => Some(clock(0))
    case FaultTicks(now, ids) => Some(now)
    case PayloadPolls(now, w) => Some(now)
    case _ => None
  }

  predicate NoLaterThan(steps: seq<Step>, now: real) {
    forall i :: 0 <= i < |steps| && Reading(steps[i]).Some? ==> Reading(steps[i]).value <= now
  }

  /** All apps read one clock, and it never runs back. */
  predicate OneClock(steps: seq<Step>) {
    steps == [] ||
    var front := steps[..|steps| - 1];
    OneClock(front) && (Reading(Last(steps)).Some? ==> NoLaterThan(front, Reading(Last(steps)).value))
  }

  /** The record is the n-th of the run and was observed by the time given. */
  predicate Reads(m: SafetyMsg, n: int, epoch: string, now: real) {
    m.epoch == epoch && m.sequence == n && m.observed.Finite? && m.observed.at <= now
  }

  predicate AllRead(published: seq<SafetyMsg>, epoch: string, now: real) {
    forall i :: 0 <= i < |published| ==> Reads(published[i], i + 1, epoch, now)
  }

  lemma {:induction false} PublishedRead(entries: seq<Watchdog.Entry>, steps: seq<Step>, cfg: Config, now: real)
    requires NoLaterThan(steps, now)
    ensures AllRead(Published(Begun(entries), steps, cfg), cfg.fault.epoch, now)
  {
    var t := Begun(entries);
    EvidenceIsNumbered(t, steps, cfg);
    if steps != [] {
      var front := steps[..|steps| - 1];
      assert forall i :: 0 <= i < |front| ==> front[i] == steps[i];
      PublishedRead(entries, front, cfg, now);
      var before, all := Published(t, front, cfg), Published(t, steps, cfg);
      assert Last(steps) == steps[|steps| - 1];
      forall i | 0 <= i < |all| ensures Reads(all[i], i + 1, cfg.fault.epoch, now) {
        if i < |before| {
          assert all[i] == before[i];
        }
      }
    }
  }

  /** What a consumer holds that has drained these records: the last of them. */
  function HeldOf(drained: seq<SafetyMsg>): Held
    requires drained != [] ==> Last(drained).observed.Finite?
  {
    if drained == [] then NOTHING_HELD else Hold(Last(drained))
  }

  function NewestOf(drained: seq<SafetyMsg>): Option<SafetyMsg> {
    if drained == [] then None else Some(Last(drained))
  }

  lemma LastOfSlice(published: seq<SafetyMsg>, k: nat, n: nat)
    requires k < n <= |published|
    ensures published[k..n] == published[k..n - 1] + [published[n - 1]]
    ensures published[..n] == published[..n - 1] + [published[n - 1]]
  {
  }

  lemma {:induction false} DrainReaches(published: seq<SafetyMsg>, k: nat, n: nat, epoch: string, now: real)
    requires k <= n <= |published| && AllRead(published, epoch, now)
    ensures DrainHeld(HeldOf(published[..k]), published[k..n], epoch, now) == HeldOf(published[..n])
    ensures Newest(NewestOf(published[..k]), published[k..n], epoch, now) == NewestOf(published[..n])
  {
    if k < n {
      DrainReaches(published, k, n - 1, epoch, now);
      LastOfSlice(published, k, n);
      var front, m := published[k..n - 1], published[n - 1];
      assert (front + [m])[..|front + [m]| - 1] == front && Last(front + [m]) == m;
      assert Reads(m, n, epoch, now);
      if n > 1 {
        assert Last(published[..n - 1]) == published[n - 2] && Reads(published[n - 2], n - 1, epoch, now);
      }
    }
  }

  /** The consumer's queue is the rest of what was published, and it holds the last record before that. */
  predicate Follows(published: seq<SafetyMsg>, queue: seq<SafetyMsg>, held: Held) {
    && |queue| <= |published|
    && var k := |published| - |queue|;
    && published[k..] == queue
    && (k > 0 ==> published[k - 1].observed.Finite? && held == Hold(published[k - 1]))
    && (k == 0 ==> held == NOTHING_HELD)
  }

  predicate PayloadFollows(published: seq<SafetyMsg>, queue: seq<SafetyMsg>, latest: Option<SafetyMsg>) {
    && |queue| <= |published|
    && var k := |published| - |queue|;
    && published[k..] == queue && latest == NewestOf(published[..k])
  }

  lemma DrainFollows(published: seq<SafetyMsg>, queue: seq<SafetyMsg>, held: Held, epoch: string, now: real)
    requires Follows(published, queue, held) && AllRead(published, epoch, now)
    ensures Follows(published, [], DrainHeld(held, queue, epoch, now))
  {
    var n, k := |published|, |published| - |queue|;
    DrainReaches(published, k, n, epoch, now);
    assert published[k..n] == queue && published[..n] == published;
    assert k > 0 ==> Last(published[..k]) == published[k - 1];
    assert n > 0 ==> Reads(published[n - 1], n, epoch, now);
  }

  lemma DrainPayloadFollows(
      published: seq<SafetyMsg>, queue: seq<SafetyMsg>, latest: Option<SafetyMsg>, epoch: string, now: real)
    requires PayloadFollows(published, queue, latest) && AllRead(published, epoch, now)
    ensures PayloadFollows(published, [], Newest(latest, queue, epoch, now))
  {
    var n, k := |published|, |published| - |queue|;
    DrainReaches(published, k, n, epoch, now);
    assert published[k..n] == queue && published[..n] == published;
  }

  lemma OneMoreFollows(published: seq<SafetyMsg>, queue: seq<SafetyMsg>, held: Held, m: SafetyMsg)
    requires Follows(published, queue, held)
    ensures Follows(published + [m], queue + [m], held)
  {
  }

  lemma OneMorePayloadFollows(published: seq<SafetyMsg>, queue: seq<SafetyMsg>, latest: Option<SafetyMsg>, m: SafetyMsg)
    requires PayloadFollows(published, queue, latest)
    ensures PayloadFollows(published + [m], queue + [m], latest)
  {
    var k := |published| - |queue|;
    assert (published + [m])[..k] == published[..k];
  }

  predicate AllFollow(published: seq<SafetyMsg>, s: System) {
    && Follows(published, s.q.routerSafety, s.router.held)
    && Follows(published, s.q.authoritySafety, s.authority.held)
    && PayloadFollows(published, s.q.payloadSafety, s.payload.c.latest)
  }

  lemma AuthorityHolds(a: Authority, inbox: Inbox, clock: Clock, cfg: AuthorityConfig)
    requires WellFormed(a, cfg.epoch)
    ensures AuthorityTick(cfg, a, inbox, clock).a.held == DrainHeld(a.held, inbox.safety, cfg.epoch, clock(0))
  {
    var begun := Opened(cfg, a, inbox, clock);
    var effective := EffectiveAt(cfg, a, inbox, clock(0));
    OpenedHolds(a, inbox, clock, cfg);
    RequestsHold(cfg, begun, inbox.requests, effective, clock);
    CommandsHold(cfg, ProcessRequests(cfg, begun, inbox.requests, effective, clock), inbox.routed, SafeAsked(inbox),
                 effective, clock);
    SyncsRepeat(cfg, Decided(cfg, a, inbox, clock), inbox.syncs);
  }

  lemma OpenedHolds(a: Authority, inbox: Inbox, clock: Clock, cfg: AuthorityConfig)
    ensures Opened(cfg, a, inbox, clock).a.held == DrainHeld(a.held, inbox.safety, cfg.epoch, clock(0))
  {
  }

  lemma {:induction false} RequestsHold(
    cfg: AuthorityConfig, run: Run, requests: seq<ModeRequestMsg>, safety: Transitions.SafetyEvidence, clock: Clock)
    ensures ProcessRequests(cfg, run, requests, safety, clock).a.held == run.a.held
  {
    if requests != [] {
      RequestsHold(cfg, run, requests[..|requests| - 1], safety, clock);
    }
  }

  lemma {:induction false} CommandsHold(
    cfg: AuthorityConfig, run: Run, batch: seq<Command>, safe: bool, safety: Transitions.SafetyEvidence, clock: Clock)
    ensures HandleCommands(cfg, run, batch, safe, safety, clock).a.held == run.a.held
  {
    if batch != [] {
      CommandsHold(cfg, run, batch[..|batch| - 1], safe, safety, clock);
      CommandHolds(cfg, HandleCommands(cfg, run, batch[..|batch| - 1], safe, safety, clock), Last(batch), safe, safety, clock);
    }
  }

  lemma CommandHolds(
    cfg: AuthorityConfig, run: Run, c: Command, safe: bool, safety: Transitions.SafetyEvidence, clock: Clock)
    ensures HandleCommand(cfg, run, c, safe, safety, clock).a.held == run.a.held
  {
  }

  lemma FaultFollows(s: System, now: real, ids: Ids, published: seq<SafetyMsg>, cfg: Config)
    requires AllFollow(published, s)
    ensures AllFollow(published + PublishedBy(s, FaultTicks(now, ids), cfg), Next(s, FaultTicks(now, ids), cfg))
  {
    var m := FaultOutOf(s, now, ids, cfg).evidence;
    OneMoreFollows(published, s.q.routerSafety, s.router.held, m);
    OneMoreFollows(published, s.q.authoritySafety, s.authority.held, m);
    OneMorePayloadFollows(published, s.q.payloadSafety, s.payload.c.latest, m);
  }

  lemma AuthorityFollows(t: Traced, clock: Clock, published: seq<SafetyMsg>, cfg: Config)
    requires Wired(cfg) && ChainInv(t, cfg) && AllFollow(published, t.s) && AllRead(published, cfg.fault.epoch, clock(0))
    ensures AllFollow(published, Next(t.s, AuthorityTicks(clock), cfg))
  {
    AuthorityHolds(t.s.authority, InboxOf(t.s), clock, cfg.authority);
    DrainFollows(published, t.s.q.authoritySafety, t.s.authority.held, cfg.authority.epoch, clock(0));
  }

  lemma PollFollows(t: Traced, now: real, w: World, published: seq<SafetyMsg>, cfg: Config)
    requires Wired(cfg) && ChainInv(t, cfg) && AllFollow(published, t.s) && AllRead(published, cfg.fault.epoch, now)
    ensures AllFollow(published, Next(t.s, PayloadPolls(now, w), cfg))
  {
    PayloadProofs.PollKeeps(t.s.payload, t.s.q.payloadSafety, t.s.q.payloadActivations, cfg.payload, now, w);
    PayloadProofs.DrainedKeeps(t.s.payload, t.s.q.payloadSafety, t.s.q.payloadActivations, cfg.payload, now, w);
    DrainPayloadFollows(published, t.s.q.payloadSafety, t.s.payload.c.latest, cfg.payload.epoch, now);
  }

  lemma StepFollows(t: Traced, step: Step, published: seq<SafetyMsg>, cfg: Config)
    requires Wired(cfg) && ChainInv(t, cfg) && AllFollow(published, t.s)
    requires Reading(step).Some? ==> AllRead(published, cfg.fault.epoch, Reading(step).value)
    ensures AllFollow(published + PublishedBy(t.s, step, cfg), Next(t.s, step, cfg))
  {
    assert !step.FaultTicks? ==> published + PublishedBy(t.s, step, cfg) == published;
    match step
    case RouterTicks(clock) => DrainFollows(published, t.s.q.routerSafety, t.s.router.held, cfg.router.epoch, clock(0));
    case AuthorityTicks(clock) => AuthorityFollows(t, clock, published, cfg);
    case FaultTicks(now, ids) => FaultFollows(t.s, now, ids, published, cfg);
    case PayloadPolls(now, w) => PollFollows(t, now, w, published, cfg);
    case PayloadActs(op, w) => if !op.Poll? && !op.Deliver? { ActFrames(t.s.payload, op, cfg.payload, w); }
    case _ =>
  }

  /** Over every run on one clock, each consumer of the evidence holds exactly the newest record it has drained, and
      its queue is all that was published since. */
  lemma {:induction false} EvidenceFollows(entries: seq<Watchdog.Entry>, steps: seq<Step>, cfg: Config)
    requires Wired(cfg) && OneClock(steps)
    ensures AllFollow(Published(Begun(entries), steps, cfg), TraceFrom(Begun(entries), steps, cfg).s)
  {
    if steps != [] {
      var front, step := steps[..|steps| - 1], Last(steps);
      var t, published := TraceFrom(Begun(entries), front, cfg), Published(Begun(entries), front, cfg);
      EvidenceFollows(entries, front, cfg);
      SafetyOverRuns(entries, front, cfg);
      if Reading(step).Some? {
        PublishedRead(entries, front, cfg, Reading(step).value);
      }
      StepFollows(t, step, published, cfg);
      assert Trace(t, step, cfg).s == Next(t.s, step, cfg);
    }
  }

  /** Router and authority hold the fields of the record the payload holds, and that is the last one published. */
  predicate Agree(s: System, published: seq<SafetyMsg>) {
    && s.router.held == s.authority.held
    && (if published == [] then s.payload.c.latest == None && s.router.held == NOTHING_HELD
        else s.payload.c.latest == Some(Last(published)) && Last(published).observed.Finite?
             && s.router.held == Hold(Last(published)))
  }

  lemma DrainedAgree(s: System, published: seq<SafetyMsg>)
    requires AllFollow(published, s) && s.q.routerSafety == [] && s.q.authoritySafety == [] && s.q.payloadSafety == []
    ensures Agree(s, published)
  {
    assert published[..|published|] == published;
  }

  /** On one clock the consumers agree whenever their queues are empty, however often and in whatever batches they
      drained them. */
  lemma ConsumersAgreeOverRuns(entries: seq<Watchdog.Entry>, steps: seq<Step>, cfg: Config)
    requires Wired(cfg) && OneClock(steps)
    requires var q := TraceFrom(Begun(entries), steps, cfg).s.q;
      q.routerSafety == [] && q.authoritySafety == [] && q.payloadSafety == []
    ensures Agree(TraceFrom(Begun(entries), steps, cfg).s, Published(Begun(entries), steps, cfg))
  {
    EvidenceFollows(entries, steps, cfg);
    DrainedAgree(TraceFrom(Begun(entries), steps, cfg).s, Published(Begun(entries), steps, cfg));
  }
}
