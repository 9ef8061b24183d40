/** What every authority tick keeps, whatever it drains and whatever its clock reads. */
module AuthorityProofs {
  import opened Basics
  import opened Evidence
  import opened SystemModes
  import opened Transitions

  // --- The activation chain ---------------------------------------------------------------

  function ModeAfter(from: Option<SystemMode>, chain: seq<Activation>): Option<SystemMode> {
    if chain == [] then from else Some(Last(chain).active)
  }

  /** Consecutive activations of one authority session, the first one following `from` and `start`. */
  predicate Linked(epoch: string, from: Option<SystemMode>, start: int, chain: seq<Activation>) {
    chain == [] ||
    var front := chain[..|chain| - 1];
    Linked(epoch, from, start, front)
    && Link(epoch, ModeAfter(from, front), start + |chain|, Last(chain))
  }

  predicate Link(epoch: string, from: Option<SystemMode>, sequence: int, x: Activation) {
    && x.epoch == epoch
    && x.sequence == sequence
    && x.previous == from
    && Legal(from, x.active, x.recovery)
    && x.requestId.Some?
  }

  predicate WellFormed(a: Authority, epoch: string) {
    if a.active.None? then a.sequence == 0
    else
      && a.active.value.epoch == epoch
      && a.active.value.sequence == a.sequence >= 1
      && (a.active.value.active == Safe ==> !a.active.value.recovery)
  }

  /** The run's activations continue the chain from where the tick found it. */
  predicate Chained(cfg: AuthorityConfig, a0: Authority, run: Run) {
    && WellFormed(a0, cfg.epoch)
    && Linked(cfg.epoch, ModeOf(a0), a0.sequence, run.activations)
    && run.a.sequence == a0.sequence + |run.activations|
    && run.a.active == (if run.activations == [] then a0.active else Some(Last(run.activations)))
  }

  lemma ChainedGrows(cfg: AuthorityConfig, a0: Authority, run: Run, after: Run, x: Activation)
    requires Chained(cfg, a0, run)
    requires after.activations == run.activations + [x] && after.a.active == Some(x)
    requires after.a.sequence == run.a.sequence + 1
    requires Link(cfg.epoch, ModeOf(run.a), run.a.sequence + 1, x)
    ensures Chained(cfg, a0, after)
  {
    assert after.activations[..|run.activations|] == run.activations;
    assert ModeAfter(ModeOf(a0), run.activations) == ModeOf(run.a);
  }

  /** One decision: at most one activation, and it is the next link. */
  lemma ProcessExtends(cfg: AuthorityConfig, a0: Authority, run: Run, ask: Ask, safety: SafetyEvidence, now: real)
    requires Chained(cfg, a0, run)
    ensures var after := Process(cfg, run, ask, safety, now);
      && Chained(cfg, a0, after)
      && after.acks == run.acks
      && after.a.held == run.a.held
      && (after.activations == run.activations ==> after.a.active == run.a.active)
      && (after.activations != run.activations ==>
            && after.activations == run.activations + [Last(after.activations)]
            && Last(after.activations).active == ask.target
            && Last(after.activations).previous == ModeOf(run.a)
            && Last(after.activations).requestId == Some(ask.requestId)
            && (Last(after.activations).recovery ==> ask.kind == ExitSafe && ask.forced == None))
  {
    DecideExactly(ModeOf(run.a), ask.target, ask.kind, safety);
    var after := Process(cfg, run, ask, safety, now);
    if DecisionFor(cfg, run.a, ask, safety, now).accepted {
      ChainedGrows(cfg, a0, run, after, after.a.active.value);
    } else {
      assert run.activations + [] == run.activations;
    }
  }

  /** A granted or standing SAFE request leaves the mode SAFE; without recovery SAFE is not left. */
  lemma SafeHolds(cfg: AuthorityConfig, run: Run, ask: Ask, safety: SafetyEvidence, now: real)
    requires (ask.target == Safe && ask.forced == None)
          || (ModeOf(run.a) == Some(Safe) && (ask.kind != ExitSafe || ask.forced.Some?))
    ensures ModeOf(Process(cfg, run, ask, safety, now).a) == Some(Safe)
  {
  }

  function Recoveries(chain: seq<Activation>): nat {
    if chain == [] then 0
    else Recoveries(chain[..|chain| - 1]) + (if Last(chain).recovery then 1 else 0)
  }

  lemma {:induction false} RecoveriesCounted(chain: seq<Activation>, i: nat, j: nat)
    requires i <= j < |chain|
    ensures chain[i].recovery ==> Recoveries(chain) >= 1
    ensures i < j && chain[i].recovery && chain[j].recovery ==> Recoveries(chain) >= 2
  {
    var front := chain[..|chain| - 1];
    if j < |front| {
      RecoveriesCounted(front, i, j);
    } else if i < |front| {
      RecoveriesCounted(front, i, i);
    }
  }

  lemma {:induction false} RequestsChained(
    cfg: AuthorityConfig, a0: Authority, run: Run, requests: seq<ModeRequestMsg>, safety: SafetyEvidence, clock: Clock)
    requires Chained(cfg, a0, run) && run.a.active.Some?
    ensures var after := ProcessRequests(cfg, run, requests, safety, clock);
      Chained(cfg, a0, after) && after.a.active.Some? && Recoveries(after.activations) == Recoveries(run.activations)
  {
    if requests != [] {
      var n := |requests| - 1;
      RequestsChained(cfg, a0, run, requests[..n], safety, clock);
      var before := ProcessRequests(cfg, run, requests[..n], safety, clock);
      ProcessExtends(cfg, a0, before, AskOfRequest(requests[n]), safety, clock(before.decided + 1));
    }
  }

  lemma {:induction false} RequestsReachSafe(
    cfg: AuthorityConfig, run: Run, requests: seq<ModeRequestMsg>, safety: SafetyEvidence, clock: Clock)
    requires ModeOf(run.a) == Some(Safe) || RequestsSafe(requests)
    ensures ModeOf(ProcessRequests(cfg, run, requests, safety, clock).a) == Some(Safe)
  {
    if requests != [] {
      var n := |requests| - 1;
      assert requests == requests[..n] + [requests[n]];
      var before := ProcessRequests(cfg, run, requests[..n], safety, clock);
      if requests[n].mode != Safe {
        RequestsReachSafe(cfg, run, requests[..n], safety, clock);
      }
      SafeHolds(cfg, before, AskOfRequest(requests[n]), safety, clock(before.decided + 1));
    }
  }

  /** A recovery activation of this tick comes from one EXIT_SAFE EXECUTE of the drained batch. */
  predicate FromExit(x: Activation, batch: seq<Command>) {
    exists c :: c in batch && CommandsExit(c) && x.requestId == Some(Naming.CommandRequestId(c.source, c.seqNo))
  }

  predicate AllFromExit(chain: seq<Activation>, batch: seq<Command>) {
    chain == [] ||
    (AllFromExit(chain[..|chain| - 1], batch) && (Last(chain).recovery ==> FromExit(Last(chain), batch)))
  }

  lemma {:induction false} AllFromExitGrows(chain: seq<Activation>, batch: seq<Command>, c: Command)
    requires AllFromExit(chain, batch)
    ensures AllFromExit(chain, batch + [c])
  {
    if chain != [] {
      AllFromExitGrows(chain[..|chain| - 1], batch, c);
    }
  }

  lemma {:induction false} AllFromExitAt(chain: seq<Activation>, batch: seq<Command>, i: nat)
    requires AllFromExit(chain, batch) && i < |chain| && chain[i].recovery
    ensures FromExit(chain[i], batch)
  {
    if i < |chain| - 1 {
      AllFromExitAt(chain[..|chain| - 1], batch, i);
    }
  }

  lemma {:induction false} NoneFromExit(chain: seq<Activation>, batch: seq<Command>)
    requires Recoveries(chain) == 0
    ensures AllFromExit(chain, batch)
  {
    if chain != [] {
      NoneFromExit(chain[..|chain| - 1], batch);
    }
  }

  /** What a routed command asks for. */
  lemma AskFacts(c: Command, safe: bool)
    requires c.target == SYSTEM_MODES && AskOfCommand(c, safe).Some?
    ensures var ask := AskOfCommand(c, safe).value;
      && (CommandsSafe(c) <==> ask.target == Safe)
      && (ask.kind == ExitSafe <==> CommandsExit(c))
      && (ask.kind == ExitSafe ==> ask.target == Init && (ask.forced.Some? <==> safe))
      && (ask.kind != ExitSafe ==> ask.kind == SetMode && ask.forced.None?)
      && ask.requestId == Naming.CommandRequestId(c.source, c.seqNo)
      && ask.message.None?
  {
  }

  /** What one command may do to the chain. */
  predicate StepsTo(run: Run, after: Run, c: Command, safe: bool) {
    && (|| (after.activations == run.activations && after.a.active == run.a.active)
        || (after.activations != []
            && after.activations == run.activations + [Last(after.activations)]
            && Last(after.activations).previous == ModeOf(run.a)
            && (Last(after.activations).active == Safe ==> safe)
            && (Last(after.activations).recovery ==> !safe && FromExit(Last(after.activations), [c]))))
    && (safe && (ModeOf(run.a) == Some(Safe) || CommandsSafe(c)) ==> ModeOf(after.a) == Some(Safe))
  }

  lemma AskStep(
    cfg: AuthorityConfig, a0: Authority, run: Run, c: Command, safe: bool, safety: SafetyEvidence, now: real)
    requires Chained(cfg, a0, run) && run.a.active.Some? && c.target == SYSTEM_MODES
    requires CommandsSafe(c) ==> safe
    requires AskOfCommand(c, safe).Some?
    ensures var after := Process(cfg, run, AskOfCommand(c, safe).value, safety, now);
      Chained(cfg, a0, after) && after.a.active.Some? && StepsTo(run, after, c, safe)
  {
    var ask := AskOfCommand(c, safe).value;
    AskFacts(c, safe);
    ProcessExtends(cfg, a0, run, ask, safety, now);
    if safe && (ModeOf(run.a) == Some(Safe) || CommandsSafe(c)) {
      SafeHolds(cfg, run, ask, safety, now);
    }
    assert c in [c];
  }

  lemma CommandStep(
    cfg: AuthorityConfig, a0: Authority, run: Run, c: Command, safe: bool, safety: SafetyEvidence, clock: Clock)
    requires Chained(cfg, a0, run) && run.a.active.Some? && c.target == SYSTEM_MODES
    requires CommandsSafe(c) ==> safe
    ensures var after := HandleCommand(cfg, run, c, safe, safety, clock);
      Chained(cfg, a0, after) && after.a.active.Some? && StepsTo(run, after, c, safe)
  {
    if AskOfCommand(c, safe).Some? {
      AskStep(cfg, a0, run, c, safe, safety, clock(run.decided + 1));
    }
  }

  lemma {:induction false} CommandsChained(
    cfg: AuthorityConfig, a0: Authority, run: Run, batch: seq<Command>, safe: bool, safety: SafetyEvidence, clock: Clock)
    requires Chained(cfg, a0, run) && run.a.active.Some?
    requires BatchSafe(batch) ==> safe
    ensures var after := HandleCommands(cfg, run, batch, safe, safety, clock);
      Chained(cfg, a0, after) && after.a.active.Some?
  {
    if batch != [] {
      var n := |batch| - 1;
      assert batch == batch[..n] + [batch[n]];
      CommandsChained(cfg, a0, run, batch[..n], safe, safety, clock);
      var before := HandleCommands(cfg, run, batch[..n], safe, safety, clock);
      if batch[n].target == SYSTEM_MODES {
        CommandStep(cfg, a0, before, batch[n], safe, safety, clock);
      }
    }
  }

  /** With a SAFE request seen this tick, commands reach SAFE, keep it and authorise nothing. */
  lemma {:induction false} SafeCommands(
    cfg: AuthorityConfig, a0: Authority, run: Run, batch: seq<Command>, safety: SafetyEvidence, clock: Clock)
    requires Chained(cfg, a0, run) && run.a.active.Some? && Recoveries(run.activations) == 0
    ensures var after := HandleCommands(cfg, run, batch, true, safety, clock);
      && Recoveries(after.activations) == 0
      && (ModeOf(run.a) == Some(Safe) || BatchSafe(batch) ==> ModeOf(after.a) == Some(Safe))
  {
    if batch != [] {
      var n := |batch| - 1;
      assert batch == batch[..n] + [batch[n]];
      CommandsChained(cfg, a0, run, batch[..n], true, safety, clock);
      SafeCommands(cfg, a0, run, batch[..n], safety, clock);
      var before := HandleCommands(cfg, run, batch[..n], true, safety, clock);
      if batch[n].target == SYSTEM_MODES {
        CommandStep(cfg, a0, before, batch[n], true, safety, clock);
      }
    }
  }

  /** Without one, at most one EXIT_SAFE succeeds, since nothing in the batch leads back to SAFE. */
  lemma {:induction false} ExitCommands(
    cfg: AuthorityConfig, a0: Authority, run: Run, batch: seq<Command>, safety: SafetyEvidence, clock: Clock)
    requires Chained(cfg, a0, run) && run.a.active.Some? && Recoveries(run.activations) == 0
    requires !BatchSafe(batch)
    ensures var after := HandleCommands(cfg, run, batch, false, safety, clock);
      && Recoveries(after.activations) <= 1
      && (Recoveries(after.activations) == 1 ==> ModeOf(after.a) != Some(Safe))
      && AllFromExit(after.activations, batch)
  {
    if batch == [] {
      NoneFromExit(run.activations, batch);
    } else {
      var n := |batch| - 1;
      assert batch == batch[..n] + [batch[n]];
      CommandsChained(cfg, a0, run, batch[..n], false, safety, clock);
      ExitCommands(cfg, a0, run, batch[..n], safety, clock);
      var before := HandleCommands(cfg, run, batch[..n], false, safety, clock);
      AllFromExitGrows(before.activations, batch[..n], batch[n]);
      if batch[n].target == SYSTEM_MODES {
        ExitCommand(cfg, a0, before, batch, safety, clock);
      }
    }
  }

  lemma ExitCommand(
    cfg: AuthorityConfig, a0: Authority, before: Run, batch: seq<Command>, safety: SafetyEvidence, clock: Clock)
    requires Chained(cfg, a0, before) && before.a.active.Some? && batch != [] && Last(batch).target == SYSTEM_MODES
    requires !BatchSafe(batch) && AllFromExit(before.activations, batch)
    requires Recoveries(before.activations) <= 1
    requires Recoveries(before.activations) == 1 ==> ModeOf(before.a) != Some(Safe)
    ensures var after := HandleCommand(cfg, before, Last(batch), false, safety, clock);
      && Recoveries(after.activations) <= 1
      && (Recoveries(after.activations) == 1 ==> ModeOf(after.a) != Some(Safe))
      && AllFromExit(after.activations, batch)
  {
    var c := Last(batch);
    assert c in batch;
    CommandStep(cfg, a0, before, c, false, safety, clock);
    var after := HandleCommand(cfg, before, c, false, safety, clock);
    if after.activations != before.activations {
      RecoveryNeedsSafe(cfg, a0, after);
      if Last(after.activations).recovery {
        assert FromExit(Last(after.activations), [c]);
        assert FromExit(Last(after.activations), batch);
      }
    }
  }

  lemma RecoveryNeedsSafe(cfg: AuthorityConfig, a0: Authority, run: Run)
    requires Chained(cfg, a0, run) && run.activations != []
    ensures Last(run.activations).recovery ==>
      Last(run.activations).previous == Some(Safe) && Last(run.activations).active == Init
  {
  }

  lemma OpenedChained(cfg: AuthorityConfig, a: Authority, inbox: Inbox, clock: Clock)
    requires WellFormed(a, cfg.epoch)
    ensures var run := Opened(cfg, a, inbox, clock);
      && Chained(cfg, a, run) && Recoveries(run.activations) == 0 && run.a.active.Some?
      && (a.active.Some? ==> ModeOf(run.a) == ModeOf(a) && run.activations == [])
      && (a.active.None? ==> ModeOf(run.a) == Some(Safe) && |run.activations| == 1)
  {
    var now := clock(0);
    var run := Run(a.(held := DrainHeld(a.held, inbox.safety, cfg.epoch, now)), [], [], [], 0);
    if a.active.None? {
      assert Chained(cfg, a, run);
      ProcessExtends(cfg, a, run, BootAsk(cfg), EffectiveAt(cfg, a, inbox, now), clock(1));
      SafeHolds(cfg, run, BootAsk(cfg), EffectiveAt(cfg, a, inbox, now), clock(1));
    }
  }

  lemma {:induction false} SyncsRepeat(cfg: AuthorityConfig, run: Run, syncs: seq<SyncRequestMsg>)
    ensures var after := ReplySyncs(cfg, run, syncs);
      && after.a == run.a && after.records == run.records && after.acks == run.acks
      && |run.activations| <= |after.activations|
      && after.activations[..|run.activations|] == run.activations
      && (forall x :: x in after.activations[|run.activations|..] ==> Some(x) == run.a.active)
  {
    if syncs != [] {
      SyncsRepeat(cfg, run, syncs[..|syncs| - 1]);
    }
  }

  /** Activations a tick adds to the chain, as opposed to replays of the current one. */
  function Added(cfg: AuthorityConfig, a: Authority, inbox: Inbox, clock: Clock): seq<Activation> {
    Decided(cfg, a, inbox, clock).activations
  }

  function Replayed(cfg: AuthorityConfig, a: Authority, inbox: Inbox, clock: Clock): seq<Activation> {
    var n := |Added(cfg, a, inbox, clock)|;
    var all := AuthorityTick(cfg, a, inbox, clock).activations;
    if n <= |all| then all[n..] else []
  }

  /** A tick publishes the links it adds to the chain, in order and without gaps, and after them
      nothing but copies of the link it ends on. */
  lemma TickExtendsChain(cfg: AuthorityConfig, a: Authority, inbox: Inbox, clock: Clock)
    requires WellFormed(a, cfg.epoch)
    ensures var run, added := AuthorityTick(cfg, a, inbox, clock), Added(cfg, a, inbox, clock);
      && run.activations == added + Replayed(cfg, a, inbox, clock)
      && Linked(cfg.epoch, ModeOf(a), a.sequence, added)
      && run.a.sequence == a.sequence + |added|
      && run.a.active == (if added == [] then a.active else Some(Last(added)))
      && run.a.active.Some?
      && (forall x :: x in Replayed(cfg, a, inbox, clock) ==> Some(x) == run.a.active)
      && WellFormed(run.a, cfg.epoch)
  {
    DecidedFacts(cfg, a, inbox, clock);
    SyncsRepeat(cfg, Decided(cfg, a, inbox, clock), inbox.syncs);
  }

  lemma DecidedFacts(cfg: AuthorityConfig, a: Authority, inbox: Inbox, clock: Clock)
    requires WellFormed(a, cfg.epoch)
    ensures var run := Decided(cfg, a, inbox, clock);
      && Chained(cfg, a, run) && run.a.active.Some?
      && (SafeAsked(inbox) ==> ModeOf(run.a) == Some(Safe) && Recoveries(run.activations) == 0)
      && Recoveries(run.activations) <= 1
      && AllFromExit(run.activations, inbox.routed)
  {
    var effective := EffectiveAt(cfg, a, inbox, clock(0));
    var begun := Opened(cfg, a, inbox, clock);
    OpenedChained(cfg, a, inbox, clock);
    RequestsChained(cfg, a, begun, inbox.requests, effective, clock);
    var requested := ProcessRequests(cfg, begun, inbox.requests, effective, clock);
    CommandsChained(cfg, a, requested, inbox.routed, SafeAsked(inbox), effective, clock);
    if SafeAsked(inbox) {
      if RequestsSafe(inbox.requests) {
        RequestsReachSafe(cfg, begun, inbox.requests, effective, clock);
      }
      SafeCommands(cfg, a, requested, inbox.routed, effective, clock);
      NoneFromExit(Decided(cfg, a, inbox, clock).activations, inbox.routed);
    } else {
      ExitCommands(cfg, a, requested, inbox.routed, effective, clock);
    }
  }

  predicate RecoveryFree(chain: seq<Activation>) {
    forall x :: x in chain ==> !x.recovery
  }

  /** SAFE precedence: a tick that drains a SAFE request, from a subsystem or as a routed command,
      anywhere in its batches, ends in SAFE and publishes no recovery. */
  lemma SafeRequestWins(cfg: AuthorityConfig, a: Authority, inbox: Inbox, clock: Clock)
    requires WellFormed(a, cfg.epoch) && SafeAsked(inbox)
    ensures var run := AuthorityTick(cfg, a, inbox, clock);
      ModeOf(run.a) == Some(Safe) && RecoveryFree(run.activations)
  {
    DecidedFacts(cfg, a, inbox, clock);
    TickExtendsChain(cfg, a, inbox, clock);
    var run, added := AuthorityTick(cfg, a, inbox, clock), Added(cfg, a, inbox, clock);
    forall x | x in run.activations ensures !x.recovery {
      if x in added {
        var i :| 0 <= i < |added| && added[i] == x;
        RecoveriesCounted(added, i, i);
      } else {
        assert Some(x) == run.a.active;
      }
    }
  }

  /** A tick authorises at most one recovery, for an EXIT_SAFE EXECUTE it drained. */
  lemma RecoveryComesFromExit(cfg: AuthorityConfig, a: Authority, inbox: Inbox, clock: Clock)
    requires WellFormed(a, cfg.epoch)
    ensures var added := Added(cfg, a, inbox, clock);
      && (forall i :: 0 <= i < |added| && added[i].recovery ==> FromExit(added[i], inbox.routed))
      && (forall i, j :: 0 <= i < j < |added| ==> !(added[i].recovery && added[j].recovery))
  {
    DecidedFacts(cfg, a, inbox, clock);
    var added := Added(cfg, a, inbox, clock);
    forall i | 0 <= i < |added| && added[i].recovery ensures FromExit(added[i], inbox.routed) {
      AllFromExitAt(added, inbox.routed, i);
    }
    forall i, j | 0 <= i < j < |added| ensures !(added[i].recovery && added[j].recovery) {
      RecoveriesCounted(added, i, j);
    }
  }

  /** SAFE, once entered, is only left through an activation marked as recovery. */
  lemma {:induction false} LeavingSafeIsRecovery(
      epoch: string, from: Option<SystemMode>, start: int, chain: seq<Activation>)
    requires Linked(epoch, from, start, chain) && chain != []
    requires from == None || from == Some(Safe)
    requires RecoveryFree(chain)
    ensures Last(chain).active == Safe
    decreases |chain|
  {
    var front := chain[..|chain| - 1];
    assert Last(chain) in chain;
    if front != [] {
      LeavingSafeIsRecovery(epoch, from, start, front);
    }
  }

  /** The chain read link by link. */
  lemma {:induction false} LinkedAt(epoch: string, from: Option<SystemMode>, start: int, chain: seq<Activation>, i: nat)
    requires Linked(epoch, from, start, chain) && i < |chain|
    ensures Link(epoch, ModeAfter(from, chain[..i]), start + 1 + i, chain[i])
  {
    var front := chain[..|chain| - 1];
    if i < |front| {
      assert front[..i] == chain[..i];
      LinkedAt(epoch, from, start, front, i);
    }
  }

  /** Two stretches of a chain make a chain. */
  lemma {:induction false} LinkedJoins(
    epoch: string, from: Option<SystemMode>, start: int, chain: seq<Activation>, more: seq<Activation>)
    requires Linked(epoch, from, start, chain)
    requires Linked(epoch, ModeAfter(from, chain), start + |chain|, more)
    ensures Linked(epoch, from, start, chain + more)
  {
    if more == [] {
      assert chain + more == chain;
    } else {
      var front := more[..|more| - 1];
      LinkedJoins(epoch, from, start, chain, front);
      assert (chain + more)[..|chain + more| - 1] == chain + front;
    }
  }

  // --- One record per decision ------------------------------------------------------------

  function AsksOfBatch(batch: seq<Command>, safe: bool): seq<Ask> {
    if batch == [] then []
    else
      var ask := AskOfCommand(Last(batch), safe);
      AsksOfBatch(batch[..|batch| - 1], safe)
      + (if Last(batch).target == SYSTEM_MODES && ask.Some? then [ask.value] else [])
  }

  function AsksOfRequests(requests: seq<ModeRequestMsg>): seq<Ask> {
    if requests == [] then []
    else AsksOfRequests(requests[..|requests| - 1]) + [AskOfRequest(Last(requests))]
  }

  /** The requests a tick decides, in the order it decides them. */
  function Asks(cfg: AuthorityConfig, a: Authority, inbox: Inbox): seq<Ask> {
    (if a.active.None? then [BootAsk(cfg)] else [])
    + AsksOfRequests(inbox.requests)
    + AsksOfBatch(inbox.routed, SafeAsked(inbox))
  }

  function GrantedSequences(records: seq<TransitionMsg>): seq<int> {
    if records == [] then []
    else GrantedSequences(records[..|records| - 1])
         + (if Last(records).activationSequence.Some? then [Last(records).activationSequence.value] else [])
  }

  function Sequences(chain: seq<Activation>): seq<int> {
    if chain == [] then [] else Sequences(chain[..|chain| - 1]) + [Last(chain).sequence]
  }

  predicate Answer(r: TransitionMsg, ask: Ask, number: int) {
    && r.number == number
    && r.requestId == ask.requestId
    && r.requested == ask.target
    && (r.accepted <==> r.activationSequence.Some?)
    && (if r.accepted then r.resulting == ask.target else r.previous == Some(r.resulting))
  }

  predicate Answers(records: seq<TransitionMsg>, asks: seq<Ask>, start: int) {
    if asks == [] then records == []
    else
      && records != []
      && Answers(records[..|records| - 1], asks[..|asks| - 1], start)
      && Answer(Last(records), Last(asks), start + |asks|)
  }

  /** The records answer the asks one by one, numbered consecutively, and the granted ones name the
      activations published, in order. */
  predicate Recorded(a0: Authority, run: Run, asks: seq<Ask>) {
    && Answers(run.records, asks, a0.transitions)
    && run.a.transitions == a0.transitions + |asks|
    && GrantedSequences(run.records) == Sequences(run.activations)
  }

  /** The record and the activation, if any, that one decision adds. */
  ghost predicate Adds(run: Run, after: Run, ask: Ask, r: TransitionMsg) {
    && after.records == run.records + [r]
    && Answer(r, ask, run.a.transitions + 1)
    && after.a.transitions == run.a.transitions + 1
    && (if r.activationSequence.Some?
        then exists x :: after.activations == run.activations + [x] && x.sequence == r.activationSequence.value
        else after.activations == run.activations)
  }

  lemma ProcessAdds(
      cfg: AuthorityConfig, run: Run, ask: Ask, safety: SafetyEvidence, now: real)
    returns (r: TransitionMsg)
    requires run.a.active.Some? || (ask.target == Safe && ask.forced == None)
    ensures Adds(run, Process(cfg, run, ask, safety, now), ask, r)
  {
    DecideExactly(ModeOf(run.a), ask.target, ask.kind, safety);
    var after := Process(cfg, run, ask, safety, now);
    r := Last(after.records);
    if r.accepted {
      assert after.activations == run.activations + [after.a.active.value];
    } else {
      assert after.activations == run.activations;
    }
  }

  lemma RecordedExtends(a0: Authority, run: Run, after: Run, asks: seq<Ask>, ask: Ask, r: TransitionMsg)
    requires Recorded(a0, run, asks) && Adds(run, after, ask, r)
    ensures Recorded(a0, after, asks + [ask])
  {
  }

  lemma {:induction false} RequestsRecorded(
    cfg: AuthorityConfig, a0: Authority, run: Run, asks: seq<Ask>, requests: seq<ModeRequestMsg>,
    safety: SafetyEvidence, clock: Clock)
    requires run.a.active.Some? && Recorded(a0, run, asks)
    ensures var after := ProcessRequests(cfg, run, requests, safety, clock);
      Recorded(a0, after, asks + AsksOfRequests(requests)) && after.a.active.Some?
  {
    if requests == [] {
      assert asks + AsksOfRequests(requests) == asks;
    } else {
      var front := requests[..|requests| - 1];
      RequestsRecorded(cfg, a0, run, asks, front, safety, clock);
      LastRequestRecorded(cfg, a0, run, ProcessRequests(cfg, run, front, safety, clock), asks + AsksOfRequests(front), requests,
                          safety, clock);
      AsksGrow(asks, requests);
    }
  }

  lemma AsksGrow(asks: seq<Ask>, requests: seq<ModeRequestMsg>)
    requires requests != []
    ensures asks + AsksOfRequests(requests)
         == asks + AsksOfRequests(requests[..|requests| - 1]) + [AskOfRequest(Last(requests))]
  {
    var before, ask := AsksOfRequests(requests[..|requests| - 1]), [AskOfRequest(Last(requests))];
    assert AsksOfRequests(requests) == before + ask;
    assert asks + (before + ask) == asks + before + ask;
  }

  lemma LastRequestRecorded(
    cfg: AuthorityConfig, a0: Authority, run: Run, before: Run, asks: seq<Ask>, requests: seq<ModeRequestMsg>,
    safety: SafetyEvidence, clock: Clock)
    requires requests != [] && before == ProcessRequests(cfg, run, requests[..|requests| - 1], safety, clock)
    requires before.a.active.Some? && Recorded(a0, before, asks)
    ensures var after := ProcessRequests(cfg, run, requests, safety, clock);
      Recorded(a0, after, asks + [AskOfRequest(Last(requests))]) && after.a.active.Some?
  {
    DecisionRecorded(cfg, a0, before, asks, AskOfRequest(Last(requests)), safety, clock(before.decided + 1));
  }

  lemma DecisionRecorded(
    cfg: AuthorityConfig, a0: Authority, before: Run, asks: seq<Ask>, ask: Ask, safety: SafetyEvidence, now: real)
    requires before.a.active.Some? && Recorded(a0, before, asks)
    ensures var after := Process(cfg, before, ask, safety, now);
      Recorded(a0, after, asks + [ask]) && after.a.active.Some?
  {
    var r := ProcessAdds(cfg, before, ask, safety, now);
    RecordedExtends(a0, before, Process(cfg, before, ask, safety, now), asks, ask, r);
  }

  lemma {:induction false} CommandsRecorded(
    cfg: AuthorityConfig, a0: Authority, run: Run, asks: seq<Ask>, batch: seq<Command>, safe: bool,
    safety: SafetyEvidence, clock: Clock)
    requires run.a.active.Some? && Recorded(a0, run, asks)
    requires BatchSafe(batch) ==> safe
    ensures var after := HandleCommands(cfg, run, batch, safe, safety, clock);
      Recorded(a0, after, asks + AsksOfBatch(batch, safe)) && after.a.active.Some?
  {
    if batch == [] {
      assert asks + AsksOfBatch(batch, safe) == asks;
    } else {
      var n := |batch| - 1;
      assert batch == batch[..n] + [batch[n]];
      CommandsRecorded(cfg, a0, run, asks, batch[..n], safe, safety, clock);
      var before := HandleCommands(cfg, run, batch[..n], safe, safety, clock);
      var front := asks + AsksOfBatch(batch[..n], safe);
      if batch[n].target == SYSTEM_MODES && AskOfCommand(batch[n], safe).Some? {
        DecisionRecorded(cfg, a0, before, front, AskOfCommand(batch[n], safe).value, safety, clock(before.decided + 1));
        HandleIsProcess(cfg, before, batch[n], safe, safety, clock);
        assert asks + AsksOfBatch(batch, safe) == front + [AskOfCommand(batch[n], safe).value];
      } else {
        assert asks + AsksOfBatch(batch, safe) == front;
      }
    }
  }

  lemma HandleIsProcess(cfg: AuthorityConfig, run: Run, c: Command, safe: bool, safety: SafetyEvidence, clock: Clock)
    requires AskOfCommand(c, safe).Some?
    ensures var handled := HandleCommand(cfg, run, c, safe, safety, clock);
      handled == Process(cfg, run, AskOfCommand(c, safe).value, safety, clock(run.decided + 1)).(acks := handled.acks)
  {
  }

  /** Every request a tick drains gets exactly one transition record, and nothing else does. */
  lemma OneRecordPerRequest(cfg: AuthorityConfig, a: Authority, inbox: Inbox, clock: Clock)
    requires WellFormed(a, cfg.epoch)
    ensures Recorded(a, AuthorityTick(cfg, a, inbox, clock).(activations := Added(cfg, a, inbox, clock)), Asks(cfg, a, inbox))
  {
    var effective := EffectiveAt(cfg, a, inbox, clock(0));
    var start := Run(a.(held := DrainHeld(a.held, inbox.safety, cfg.epoch, clock(0))), [], [], [], 0);
    var boot := if a.active.None? then [BootAsk(cfg)] else [];
    var begun := Opened(cfg, a, inbox, clock);
    OpenedChained(cfg, a, inbox, clock);
    assert Recorded(a, start, []);
    if a.active.None? {
      var r := ProcessAdds(cfg, start, BootAsk(cfg), effective, clock(1));
      RecordedExtends(a, start, begun, [], BootAsk(cfg), r);
      assert [] + [BootAsk(cfg)] == boot;
    }
    assert Recorded(a, begun, boot);
    RequestsChained(cfg, a, begun, inbox.requests, effective, clock);
    RequestsRecorded(cfg, a, begun, boot, inbox.requests, effective, clock);
    var requested := ProcessRequests(cfg, begun, inbox.requests, effective, clock);
    CommandsRecorded(cfg, a, requested, boot + AsksOfRequests(inbox.requests), inbox.routed, SafeAsked(inbox), effective, clock);
    SyncsRepeat(cfg, Decided(cfg, a, inbox, clock), inbox.syncs);
  }

  // --- Grants other than SAFE -------------------------------------------------------------

  /** The payload's own completion request, for the INIT activation just before this link. */
  predicate Completes(r: ModeRequestMsg, x: Activation) {
    && r.requestedBy == PAYLOAD && r.reason == INIT_COMPLETE
    && r.key == Some(ActivationKey(x.epoch, x.sequence - 1))
    && x.requestId == Some(r.requestId)
  }

  predicate KeyedReady(x: Activation, requests: seq<ModeRequestMsg>) {
    exists r :: r in requests && Completes(r, x)
  }

  predicate LeavesInit(x: Activation) {
    x.previous == Some(Init) && x.active != Safe
  }

  predicate AllKeyed(chain: seq<Activation>, requests: seq<ModeRequestMsg>) {
    chain == [] ||
    (AllKeyed(chain[..|chain| - 1], requests) && (LeavesInit(Last(chain)) ==> KeyedReady(Last(chain), requests)))
  }

  /** A grant of anything but SAFE rests on fresh evidence; out of INIT it answers the payload's completion
      request for that very activation. */
  lemma GrantIsAuthorised(cfg: AuthorityConfig, a0: Authority, run: Run, ask: Ask, safety: SafetyEvidence, now: real)
    requires Chained(cfg, a0, run)
    ensures var after := Process(cfg, run, ask, safety, now);
      after.activations != run.activations && ask.target != Safe ==>
        && Fresh(run.a.held, now, cfg.interval)
        && (ModeOf(run.a) == Some(Init) ==>
              ask.kind == Subsystem && ask.message.Some? && Completes(ask.message.value.(requestId := ask.requestId), Last(after.activations)))
  {
    ProcessExtends(cfg, a0, run, ask, safety, now);
    DecideExactly(ModeOf(run.a), ask.target, ask.kind, safety);
  }

  lemma {:induction false} AllKeyedGrows(chain: seq<Activation>, requests: seq<ModeRequestMsg>, r: ModeRequestMsg)
    requires AllKeyed(chain, requests)
    ensures AllKeyed(chain, requests + [r])
  {
    if chain != [] {
      AllKeyedGrows(chain[..|chain| - 1], requests, r);
      if LeavesInit(Last(chain)) {
        var q :| q in requests && Completes(q, Last(chain));
        assert q in requests + [r];
      }
    }
  }

  lemma AskKeyed(
    cfg: AuthorityConfig, a0: Authority, run: Run, ask: Ask, safety: SafetyEvidence, now: real, requests: seq<ModeRequestMsg>)
    requires Chained(cfg, a0, run) && AllKeyed(run.activations, requests)
    requires ask.kind == Subsystem && ask.message.Some? ==>
      ask.message.value in requests && ask.message.value.requestId == ask.requestId
    ensures AllKeyed(Process(cfg, run, ask, safety, now).activations, requests)
  {
    ProcessExtends(cfg, a0, run, ask, safety, now);
    GrantIsAuthorised(cfg, a0, run, ask, safety, now);
    var after := Process(cfg, run, ask, safety, now);
    if after.activations != run.activations {
      assert after.activations[..|run.activations|] == run.activations;
    }
  }

  lemma {:induction false} RequestsKeyed(
    cfg: AuthorityConfig, a0: Authority, run: Run, requests: seq<ModeRequestMsg>, safety: SafetyEvidence, clock: Clock)
    requires Chained(cfg, a0, run) && run.a.active.Some? && AllKeyed(run.activations, [])
    ensures AllKeyed(ProcessRequests(cfg, run, requests, safety, clock).activations, requests)
  {
    if requests != [] {
      var front, r := requests[..|requests| - 1], Last(requests);
      assert requests == front + [r];
      RequestsKeyed(cfg, a0, run, front, safety, clock);
      RequestsChained(cfg, a0, run, front, safety, clock);
      var before := ProcessRequests(cfg, run, front, safety, clock);
      AllKeyedGrows(before.activations, front, r);
      AskKeyed(cfg, a0, before, AskOfRequest(r), safety, clock(before.decided + 1), requests);
    }
  }

  lemma {:induction false} CommandsKeyed(
    cfg: AuthorityConfig, a0: Authority, run: Run, batch: seq<Command>, safe: bool, safety: SafetyEvidence, clock: Clock,
    requests: seq<ModeRequestMsg>)
    requires Chained(cfg, a0, run) && run.a.active.Some? && AllKeyed(run.activations, requests)
    requires BatchSafe(batch) ==> safe
    ensures AllKeyed(HandleCommands(cfg, run, batch, safe, safety, clock).activations, requests)
  {
    if batch != [] {
      var n := |batch| - 1;
      assert batch == batch[..n] + [batch[n]];
      CommandsChained(cfg, a0, run, batch[..n], safe, safety, clock);
      CommandsKeyed(cfg, a0, run, batch[..n], safe, safety, clock, requests);
      var before := HandleCommands(cfg, run, batch[..n], safe, safety, clock);
      if batch[n].target == SYSTEM_MODES && AskOfCommand(batch[n], safe).Some? {
        AskFacts(batch[n], safe);
        AskKeyed(cfg, a0, before, AskOfCommand(batch[n], safe).value, safety, clock(before.decided + 1), requests);
        HandleIsProcess(cfg, before, batch[n], safe, safety, clock);
      }
    }
  }

  lemma {:induction false} AllKeyedAt(chain: seq<Activation>, requests: seq<ModeRequestMsg>, i: nat)
    requires AllKeyed(chain, requests) && i < |chain| && LeavesInit(chain[i])
    ensures KeyedReady(chain[i], requests)
  {
    if i < |chain| - 1 {
      AllKeyedAt(chain[..|chain| - 1], requests, i);
    }
  }

  /** A tick leaves INIT for anything but SAFE only on a drained completion request of the payload that
      carries the key of the INIT activation it leaves. */
  lemma InitLeftByItsKey(cfg: AuthorityConfig, a: Authority, inbox: Inbox, clock: Clock, i: nat)
    requires WellFormed(a, cfg.epoch) && i < |Added(cfg, a, inbox, clock)| && LeavesInit(Added(cfg, a, inbox, clock)[i])
    ensures KeyedReady(Added(cfg, a, inbox, clock)[i], inbox.requests)
  {
    var effective := EffectiveAt(cfg, a, inbox, clock(0));
    var begun := Opened(cfg, a, inbox, clock);
    OpenedChained(cfg, a, inbox, clock);
    BootKeyed(cfg, a, inbox, clock);
    RequestsKeyed(cfg, a, begun, inbox.requests, effective, clock);
    RequestsChained(cfg, a, begun, inbox.requests, effective, clock);
    CommandsKeyed(cfg, a, ProcessRequests(cfg, begun, inbox.requests, effective, clock), inbox.routed, SafeAsked(inbox),
                  effective, clock, inbox.requests);
    AllKeyedAt(Added(cfg, a, inbox, clock), inbox.requests, i);
  }

  lemma BootKeyed(cfg: AuthorityConfig, a: Authority, inbox: Inbox, clock: Clock)
    requires WellFormed(a, cfg.epoch)
    ensures AllKeyed(Opened(cfg, a, inbox, clock).activations, [])
  {
    var run := Opened(cfg, a, inbox, clock);
    OpenedChained(cfg, a, inbox, clock);
    if a.active.None? {
      assert run.activations[..0] == [];
      assert Last(run.activations).active == Safe;
    }
  }

  // --- One acknowledgement per command ----------------------------------------------------

  /** The commands of a batch addressed to the authority. */
  function Addressed(batch: seq<Command>): seq<Command> {
    if batch == [] then []
    else Addressed(batch[..|batch| - 1]) + (if Last(batch).target == SYSTEM_MODES then [Last(batch)] else [])
  }

  predicate Acknowledges(k: Ack, c: Command) {
    && (k.commandId, k.source, k.seqNo) == (c.commandId, c.source, c.seqNo)
    && k.fault == (if k.accepted then NoFault else CommandInvalid)
  }

  predicate AcksAnswer(acks: seq<Ack>, cs: seq<Command>) {
    if cs == [] then acks == []
    else acks != [] && AcksAnswer(acks[..|acks| - 1], cs[..|cs| - 1]) && Acknowledges(Last(acks), Last(cs))
  }

  /** The request id a command is decided under. */
  function IdOfCommand(c: Command): string {
    Naming.CommandRequestId(c.source, c.seqNo)
  }

  function IdIf(accepted: bool, c: Command): seq<Option<string>> {
    if accepted then [Some(IdOfCommand(c))] else []
  }

  /** The request ids of the commands that the acknowledgements beside them accept, in order. */
  function AcceptedIds(acks: seq<Ack>, cs: seq<Command>): seq<Option<string>> {
    if acks == [] || cs == [] then []
    else AcceptedIds(acks[..|acks| - 1], cs[..|cs| - 1]) + IdIf(Last(acks).accepted, Last(cs))
  }

  /** The ids of the requests the activations answer, in order. */
  function RequestIds(chain: seq<Activation>): seq<Option<string>> {
    if chain == [] then [] else RequestIds(chain[..|chain| - 1]) + [Last(chain).requestId]
  }

  /** The acknowledgements so far answer the commands so far, and the activations since `ids` the accepted ones. */
  predicate Answered(run: Run, ids: seq<Option<string>>, cs: seq<Command>) {
    AcksAnswer(run.acks, cs) && RequestIds(run.activations) == ids + AcceptedIds(run.acks, cs)
  }

  lemma AnsweredGrows(run: Run, after: Run, ids: seq<Option<string>>, cs: seq<Command>, c: Command, k: Ack)
    requires Answered(run, ids, cs) && after.acks == run.acks + [k] && Acknowledges(k, c)
    requires RequestIds(after.activations) == RequestIds(run.activations) + IdIf(k.accepted, c)
    ensures Answered(after, ids, cs + [c])
  {
    AnswerOneMore(run.acks, cs, k, c);
    assert ids + (AcceptedIds(run.acks, cs) + IdIf(k.accepted, c)) == ids + AcceptedIds(run.acks, cs) + IdIf(k.accepted, c);
  }

  lemma LastAnswered(
      cfg: AuthorityConfig, before: Run, ids: seq<Option<string>>, cs: seq<Command>, c: Command, safe: bool,
      safety: SafetyEvidence, clock: Clock)
    requires Answered(before, ids, cs)
    ensures Answered(HandleCommand(cfg, before, c, safe, safety, clock), ids, cs + [c])
  {
    OneAcknowledged(cfg, before, c, safe, safety, clock);
    var after := HandleCommand(cfg, before, c, safe, safety, clock);
    AnsweredGrows(before, after, ids, cs, c, Last(after.acks));
  }

  lemma {:induction false} CommandsAcknowledged(
    cfg: AuthorityConfig, run: Run, batch: seq<Command>, safe: bool, safety: SafetyEvidence, clock: Clock)
    requires run.acks == []
    ensures Answered(HandleCommands(cfg, run, batch, safe, safety, clock), RequestIds(run.activations), Addressed(batch))
  {
    if batch == [] {
      assert RequestIds(run.activations) + [] == RequestIds(run.activations);
    } else {
      var front, c := batch[..|batch| - 1], Last(batch);
      CommandsAcknowledged(cfg, run, front, safe, safety, clock);
      var before := HandleCommands(cfg, run, front, safe, safety, clock);
      if c.target == SYSTEM_MODES {
        LastAnswered(cfg, before, RequestIds(run.activations), Addressed(front), c, safe, safety, clock);
      } else {
        assert Addressed(batch) == Addressed(front);
      }
    }
  }

  lemma AnswerOneMore(acks: seq<Ack>, cs: seq<Command>, k: Ack, c: Command)
    requires AcksAnswer(acks, cs) && Acknowledges(k, c)
    ensures AcksAnswer(acks + [k], cs + [c])
    ensures AcceptedIds(acks + [k], cs + [c]) == AcceptedIds(acks, cs) + IdIf(k.accepted, c)
  {
    assert (acks + [k])[..|acks|] == acks && (cs + [c])[..|cs|] == cs;
  }

  lemma AckGiven(cfg: AuthorityConfig, run: Run, c: Command, safe: bool, safety: SafetyEvidence, clock: Clock)
    ensures var after, ask := HandleCommand(cfg, run, c, safe, safety, clock), AskOfCommand(c, safe);
      && after.acks != [] && after.acks == run.acks + [Last(after.acks)] && Acknowledges(Last(after.acks), c)
      && (if ask.None? then after.activations == run.activations && !Last(after.acks).accepted
          else var now := clock(run.decided + 1);
               && after.activations == Process(cfg, run, ask.value, safety, now).activations
               && (Last(after.acks).accepted <==> DecisionFor(cfg, run.a, ask.value, safety, now).accepted))
  {
    if AskOfCommand(c, safe).Some? {
      DecisionAcksNothing(cfg, run, AskOfCommand(c, safe).value, safety, clock(run.decided + 1));
    }
  }

  lemma DecisionAcksNothing(cfg: AuthorityConfig, run: Run, ask: Ask, safety: SafetyEvidence, now: real)
    ensures Process(cfg, run, ask, safety, now).acks == run.acks
  {
  }

  lemma AskNamesCommand(c: Command, safe: bool)
    requires AskOfCommand(c, safe).Some?
    ensures AskOfCommand(c, safe).value.requestId == IdOfCommand(c)
  {
  }

  lemma OneAcknowledged(cfg: AuthorityConfig, run: Run, c: Command, safe: bool, safety: SafetyEvidence, clock: Clock)
    ensures var after := HandleCommand(cfg, run, c, safe, safety, clock);
      && after.acks != [] && after.acks == run.acks + [Last(after.acks)] && Acknowledges(Last(after.acks), c)
      && RequestIds(after.activations) == RequestIds(run.activations) + IdIf(Last(after.acks).accepted, c)
  {
    var ask := AskOfCommand(c, safe);
    AckGiven(cfg, run, c, safe, safety, clock);
    if ask.Some? {
      AskNamesCommand(c, safe);
      ProcessAnswers(cfg, run, ask.value, safety, clock(run.decided + 1));
    }
    assert RequestIds(run.activations) + [] == RequestIds(run.activations);
  }

  /** A decision that grants adds an activation under the id of the request, and no decision acknowledges. */
  lemma ProcessAnswers(cfg: AuthorityConfig, run: Run, ask: Ask, safety: SafetyEvidence, now: real)
    ensures var after := Process(cfg, run, ask, safety, now);
      && after.acks == run.acks
      && RequestIds(after.activations)
         == RequestIds(run.activations) + (if DecisionFor(cfg, run.a, ask, safety, now).accepted then [Some(ask.requestId)] else [])
  {
    DecideExactly(ModeOf(run.a), ask.target, ask.kind, safety);
    var after := Process(cfg, run, ask, safety, now);
    if DecisionFor(cfg, run.a, ask, safety, now).accepted {
      assert after.activations == run.activations + [after.a.active.value];
      assert after.activations[..|run.activations|] == run.activations;
    } else {
      assert after.activations == run.activations;
      assert RequestIds(run.activations) + [] == RequestIds(run.activations);
    }
  }

  lemma {:induction false} RequestsAckNothing(
    cfg: AuthorityConfig, run: Run, requests: seq<ModeRequestMsg>, safety: SafetyEvidence, clock: Clock)
    ensures ProcessRequests(cfg, run, requests, safety, clock).acks == run.acks
  {
    if requests != [] {
      RequestsAckNothing(cfg, run, requests[..|requests| - 1], safety, clock);
    }
  }

  /** Every routed command addressed to the authority is acknowledged once, in order; and the activations the
      commands brought about answer, in order, exactly the commands acknowledged positively. */
  lemma EveryCommandAcknowledged(cfg: AuthorityConfig, a: Authority, inbox: Inbox, clock: Clock)
    ensures var run, requested := AuthorityTick(cfg, a, inbox, clock),
        ProcessRequests(cfg, Opened(cfg, a, inbox, clock), inbox.requests, EffectiveAt(cfg, a, inbox, clock(0)), clock);
      && AcksAnswer(run.acks, Addressed(inbox.routed))
      && RequestIds(Added(cfg, a, inbox, clock)) == RequestIds(requested.activations) + AcceptedIds(run.acks, Addressed(inbox.routed))
  {
    var effective := EffectiveAt(cfg, a, inbox, clock(0));
    var begun := Opened(cfg, a, inbox, clock);
    RequestsAckNothing(cfg, begun, inbox.requests, effective, clock);
    var requested := ProcessRequests(cfg, begun, inbox.requests, effective, clock);
    CommandsAcknowledged(cfg, requested, inbox.routed, SafeAsked(inbox), effective, clock);
    SyncsRepeat(cfg, Decided(cfg, a, inbox, clock), inbox.syncs);
  }
}
