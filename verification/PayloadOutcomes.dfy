/** What each payload operation comes to: when it contains, when it releases, what it publishes and what it asks of the
    driver, with the codes, bounds and words of each condition written out. */
module PayloadOutcomes {
  import opened Basics
  import opened Evidence
  import opened PayloadContainment
  import opened PayloadProofs

  /** The operation published this fault, on the bus and into the payload's own queue. */
  predicate Tells(o: Outbox, after: Outbox, code: FaultCode) {
    && after.faults == o.faults + [FaultEvent(code, "payload")]
    && after.local == o.local + [FaultEvent(code, "payload")]
    && after.requests == o.requests
  }

  predicate Confirms(p: Payload, w: World) {
    w.inhibits(p.a.inhibitCalls) == Inhibited(true)
  }

  /** An inhibit request is one call to the driver; unless it is confirmed, the payload is contained and says why. */
  lemma InhibitsExactly(p: Payload, latching: bool, w: World)
    ensures var (q, ok), answer := InhibitMotion(p, latching, w), w.inhibits(p.a.inhibitCalls);
      && q.a == p.a.(inhibitCalls := p.a.inhibitCalls + 1) && q.s == p.s
      && q.c.inhibitApplied == p.c.inhibitApplied
      && (ok <==> Confirms(p, w))
      && (q.c.latched <==> p.c.latched || !ok)
      && (if ok then q.o == p.o else Tells(p.o, q.o, if answer.InhibitFailed? then answer.code else GimbalFault))
  {
  }

  /** The latch contains, and asks for an inhibit once: not again while one of its own is confirmed. */
  lemma LatchesExactly(p: Payload, w: World)
    ensures var q := Latch(p, w);
      && q.c.latched && q.s == p.s
      && q.a == p.a.(inhibitCalls := p.a.inhibitCalls + if p.c.inhibitApplied then 0 else 1)
      && (q.c.inhibitApplied <==> p.c.inhibitApplied || Confirms(p, w))
      && q.c.generation == p.c.generation + (if p.c.latched then 0 else 1)
  {
  }

  // --- Evidence and local faults ----------------------------------------------------------

  /** The i-th record is accepted: it qualifies and is newer than the one held and every qualifying one before it. */
  predicate Rises(held: Option<SafetyMsg>, msgs: seq<SafetyMsg>, epoch: string, now: real, i: nat)
    requires i < |msgs|
  {
    && msgs[i].epoch == epoch && 0 <= msgs[i].sequence && msgs[i].observed.Finite? && msgs[i].observed.at <= now
    && (held.Some? ==> held.value.sequence < msgs[i].sequence)
    && forall j :: 0 <= j < i && Qualifies(msgs[j], epoch, now) ==> msgs[j].sequence < msgs[i].sequence
  }

  lemma RisesInFront(held: Option<SafetyMsg>, msgs: seq<SafetyMsg>, epoch: string, now: real, i: nat)
    requires i < |msgs| - 1
    ensures msgs[..|msgs| - 1][i] == msgs[i]
    ensures Rises(held, msgs[..|msgs| - 1], epoch, now, i) <==> Rises(held, msgs, epoch, now, i)
  {
    assert forall j :: 0 <= j <= i ==> msgs[..|msgs| - 1][j] == msgs[j];
  }

  lemma RisesLast(held: Option<SafetyMsg>, msgs: seq<SafetyMsg>, epoch: string, now: real)
    requires msgs != []
    ensures var before := Newest(held, msgs[..|msgs| - 1], epoch, now);
      Rises(held, msgs, epoch, now, |msgs| - 1) <==>
        Qualifies(Last(msgs), epoch, now) && (before.Some? ==> before.value.sequence < Last(msgs).sequence)
  {
    var front := msgs[..|msgs| - 1];
    NewestIsMaximal(held, front, epoch, now);
    var before := Newest(held, front, epoch, now);
    assert forall j :: 0 <= j < |front| ==> front[j] == msgs[j] && front[j] in front;
    if before.Some? && before != held {
      var j :| 0 <= j < |front| && front[j] == before.value;
    }
  }

  predicate LatchRises(held: Option<SafetyMsg>, msgs: seq<SafetyMsg>, epoch: string, now: real) {
    exists i :: 0 <= i < |msgs| && Rises(held, msgs, epoch, now, i) && msgs[i].latched
  }

  lemma LatchRisesSplits(held: Option<SafetyMsg>, msgs: seq<SafetyMsg>, epoch: string, now: real)
    requires msgs != []
    ensures LatchRises(held, msgs, epoch, now) <==>
      LatchRises(held, msgs[..|msgs| - 1], epoch, now) || (Rises(held, msgs, epoch, now, |msgs| - 1) && Last(msgs).latched)
  {
    var front := msgs[..|msgs| - 1];
    if LatchRises(held, front, epoch, now) {
      var i :| 0 <= i < |front| && Rises(held, front, epoch, now, i) && front[i].latched;
      RisesInFront(held, msgs, epoch, now, i);
    }
    if LatchRises(held, msgs, epoch, now) {
      var i :| 0 <= i < |msgs| && Rises(held, msgs, epoch, now, i) && msgs[i].latched;
      if i < |front| {
        RisesInFront(held, msgs, epoch, now, i);
      }
    }
  }

  /** Draining evidence contains exactly if some accepted record says that SAFE is latched; otherwise nothing but the
      record held changes. */
  lemma {:induction false} EvidenceContainsExactly(p: Payload, msgs: seq<SafetyMsg>, cfg: PayloadConfig, now: real, w: World)
    ensures var q, rises := TakeAllEvidence(p, msgs, cfg, now, w), LatchRises(p.c.latest, msgs, cfg.epoch, now);
      && q.c.latest == Newest(p.c.latest, msgs, cfg.epoch, now)
      && (q.c.latched <==> p.c.latched || rises)
      && (!rises ==> q == p.(c := p.c.(latest := q.c.latest)))
  {
    if msgs != [] {
      EvidenceContainsExactly(p, msgs[..|msgs| - 1], cfg, now, w);
      LatchRisesSplits(p.c.latest, msgs, cfg.epoch, now);
      RisesLast(p.c.latest, msgs, cfg.epoch, now);
    }
  }

  /** The payload's own fault that stops the actuator. */
  predicate StopsActuator(e: FaultEvent) {
    && e.subsystem == "payload"
    && (|| e.code == GimbalFault || e.code == GimbalRunaway || e.code == GimbalSafetyTimeout
        || e.code == GimbalStaleFeedback || e.code == GimbalWatchdogUnconfirmed || e.code == InferenceNan)
  }

  predicate FaultWaits(p: Payload) {
    p.s.pending.Some? || exists e :: e in p.o.local && StopsActuator(e)
  }

  /** Draining the payload's own faults contains exactly if one of six codes of its own or an imaging fault waits; the
      queue and the imaging fault are used up either way. */
  lemma LocalFaultsContainExactly(p: Payload, w: World)
    ensures var q := TakeLocalFaults(p, w);
      && (q.c.latched <==> p.c.latched || FaultWaits(p))
      && q.s == p.s.(pending := None)
      && (if FaultWaits(p) then q == Latch(p.(o := p.o.(local := []), s := p.s.(pending := None)), w)
          else q == p.(o := p.o.(local := []), s := p.s.(pending := None)))
      && (UnsafeFaults(p) <==> FaultWaits(p))
  {
    assert forall e :: Containing(e) <==> StopsActuator(e);
  }

  // --- Activations ------------------------------------------------------------------------

  /** How an activation compares with the last one accepted. */
  lemma DisposedExactly(last: Option<Activation>, x: Activation, epoch: string)
    ensures var d, ours := AcceptActivation(last, x, epoch), x.epoch == epoch && epoch != "" && 0 <= x.sequence;
      && (d == Accepted <==> ours && (last.Some? ==> last.value.sequence < x.sequence))
      && (d == Duplicate <==> ours && last == Some(x))
      && (d == Stale <==> ours && last.Some? && x.sequence < last.value.sequence)
      && (d == Conflict <==> !ours || (last.Some? && last.value.sequence == x.sequence && last.value != x))
  {
  }

  /** The SAFE request of a payload that cannot run the activation. */
  predicate RefusesOperate(r: ModeRequestMsg, x: Activation) {
    && r.mode == Safe && r.requestedBy == "payload" && r.reason == "graph_intent:safe"
    && r.key == Some(ActivationKey(x.epoch, x.sequence))
  }

  /** A reentry asks for an inhibit, forgets the stow progress and starts two new revisions; it queues and publishes the
      fault of an entry policy that does not resolve, and asks for SAFE exactly if it is to operate with inference and
      without a runtime. */
  lemma ReentersExactly(p: Payload, x: Activation, w: World)
    ensures var q, entry := Reenter(p, x, w), w.entry(x.active);
      var cannot := x.active == Operate && !w.runtimeReady && entry.EntryValid? && entry.inferenceEnabled;
      && q.a == p.a.(inhibitCalls := p.a.inhibitCalls + 1, stowArmed := false, stowComplete := false)
      && (q.c.latched <==> p.c.latched || !Confirms(p, w))
      && q.s == p.s.(policyRevision := p.s.policyRevision + 1, controlRevision := p.s.controlRevision + 1,
                     pending := if entry.EntryInvalid? then Some(entry.code) else p.s.pending)
      && p.o.faults <= q.o.faults
      && (entry.EntryInvalid? ==> |q.o.faults| > |p.o.faults| && Last(q.o.faults) == FaultEvent(entry.code, "payload"))
      && (if cannot
          then
            && |q.o.requests| == |p.o.requests| + 1 && p.o.requests <= q.o.requests && RefusesOperate(Last(q.o.requests), x)
            && |q.o.faults| > |p.o.faults| && Last(q.o.faults) == FaultEvent(ModelCorrupt, "payload")
          else q.o.requests == p.o.requests)
  {
    InhibitsExactly(p, false, w);
  }

  /** What an activation does to the payload: a conflict contains and is told, an old one does nothing, and a new one is
      entered, contained first if it is SAFE. */
  lemma ActivatesExactly(p: Payload, x: Activation, cfg: PayloadConfig, w: World)
    ensures var q, d := TakeActivation(p, x, cfg, w), AcceptActivation(p.s.last, x, cfg.epoch);
      && (d == Duplicate || d == Stale ==> q == p)
      && (d == Conflict ==>
            && q.c.latched && q.s == p.s && |q.o.faults| > |p.o.faults|
            && q.o.faults[|p.o.faults|] == FaultEvent(GimbalFault, "payload") && p.o.faults <= q.o.faults)
      && (d == Accepted ==>
            && (x.active == Safe ==> q.c.latched)
            && q.s.last == Some(x) && q.s.installed == p.s.installed
            && q.s.policyRevision == p.s.policyRevision + 1 && q.s.controlRevision == p.s.controlRevision + 1
            && !q.a.stowArmed && !q.a.stowComplete
            && q.a.inhibitCalls == p.a.inhibitCalls + 1 + (if x.active == Safe && !p.c.inhibitApplied then 1 else 0))
  {
    var taken := p.(s := p.s.(last := Some(x)));
    LatchesExactly(taken, w);
    ReentersExactly(if x.active == Safe then Latch(taken, w) else taken, x, w);
    LatchesExactly(Publish(p, GimbalFault), w);
    LatchTells(Publish(p, GimbalFault), w);
  }

  lemma LatchTells(p: Payload, w: World)
    ensures p.o.faults <= Latch(p, w).o.faults
  {
  }

  // --- Release ----------------------------------------------------------------------------

  /** Nothing in the poll speaks against a release: no qualifying record is latched or names a fault, and no fault of
      the payload's own waits. */
  predicate Quiet(p: Payload, safety: seq<SafetyMsg>, cfg: PayloadConfig, now: real) {
    && (forall m :: m in safety && m.epoch == cfg.epoch && 0 <= m.sequence && m.observed.Finite? && m.observed.at <= now ==>
          !m.latched && m.activeFaults == {})
    && !FaultWaits(p)
  }

  /** The last activation recovers: it leads from SAFE to INIT with authority, under this id. */
  predicate RecoversAs(last: Option<Activation>, id: string) {
    && last.Some? && last.value.recovery && last.value.previous == Some(Safe) && last.value.active == Init
    && last.value.requestId == Some(id) && id != ""
  }

  /** The evidence held announces the release of this id: newer than any used before, of our session, observed within
      the interval, clear of latch and faults. */
  predicate Announces(c: Containment, id: string, cfg: PayloadConfig, now: real) {
    && c.latest.Some?
    && var m := c.latest.value;
    && m.recoveryId == Some(id) && m.epoch == cfg.epoch && c.lastEvidence < m.sequence
    && m.observed.Finite? && m.observed.at <= now <= m.observed.at + cfg.interval
    && !m.latched && m.activeFaults == {}
  }

  /** The hardware is fit to be released: valid and recent feedback, a confirmed inhibit, and a finite, recent encoder
      sample within the limits, give or take the slack. */
  predicate Fit(cfg: PayloadConfig, now: real, w: World) {
    var slack := 0.000000000001;
    && w.health.Some? && w.health.value.feedbackValid && w.health.value.inhibitConfirmed
    && w.health.value.lastFeedback.Some? && w.health.value.lastFeedback.value.Finite?
    && now - cfg.maxAge <= w.health.value.lastFeedback.value.at <= now + slack
    && w.sample.Some? && w.sample.value.t.Finite? && w.sample.value.angle.Finite? && w.sample.value.variance.Finite?
    && 0.0 <= w.sample.value.variance.at
    && now - cfg.maxAge <= w.sample.value.t.at <= now + slack
    && cfg.lo - slack <= w.sample.value.angle.at <= cfg.hi + slack
  }

  lemma QuietExactly(p: Payload, safety: seq<SafetyMsg>, cfg: PayloadConfig, now: real, w: World)
    ensures UnsafePoll(p, safety, cfg, now, w) <==> !Quiet(p, safety, cfg, now)
  {
    EvidenceContainsExactly(Begin(p), safety, cfg, now, w);
    var warned := TakeAllEvidence(Begin(p), safety, cfg, now, w);
    LocalFaultsContainExactly(warned, w);
    if LatchRises(p.c.latest, safety, cfg.epoch, now) {
      var i :| 0 <= i < |safety| && Rises(p.c.latest, safety, cfg.epoch, now, i) && safety[i].latched;
      assert safety[i] in safety && Qualifies(safety[i], cfg.epoch, now) && Unsafe(safety[i]);
    } else {
      assert FaultWaits(warned) <==> FaultWaits(p);
    }
  }

  /** What a release in progress does: an id announced and not yet used is used up; with the hardware fit containment
      ends, else the payload says so and stays contained; otherwise nothing happens. */
  lemma TriesExactly(q: Payload, id: string, cfg: PayloadConfig, now: real, w: World)
    requires RecoversAs(q.s.last, id)
    ensures var r := TryRelease(q, cfg, now, w);
      if id in q.c.consumed || !Announces(q.c, id, cfg, now) then r == q
      else
        && r.c.consumed == q.c.consumed + {id} && r.c.lastEvidence == q.c.latest.value.sequence
        && r.s == q.s && r.c.latest == q.c.latest
        && (if Fit(cfg, now, w)
            then !r.c.latched && !r.c.inhibitApplied && r.a == q.a.(pendingReset := true) && r.o == q.o
            else r.c.latched == q.c.latched && r.a == q.a && Tells(q.o, r.o, GimbalFault))
  {
  }

  /** After its drains a poll ends containment if and only if the drains were quiet, the last activation recovers under
      an id not used before, the newest evidence announces that id, and the hardware is fit. */
  lemma ReleasesExactly(p: Payload, safety: seq<SafetyMsg>, xs: seq<Activation>, cfg: PayloadConfig, now: real, w: World)
    requires Inv(p)
    ensures var q, r := Drained(p, safety, xs, cfg, now, w), PollActivations(p, safety, xs, cfg, now, w);
      && q.c.consumed == p.c.consumed && q.c.lastEvidence == p.c.lastEvidence
      && q.c.latest == Newest(p.c.latest, safety, cfg.epoch, now)
      && (q.c.latched && !r.c.latched <==>
            && q.c.latched && Quiet(p, safety, cfg, now)
            && q.s.last.Some? && q.s.last.value.requestId.Some?
            && var id := q.s.last.value.requestId.value;
            && RecoversAs(q.s.last, id) && id !in p.c.consumed
            && Announces(q.c, id, cfg, now) && Fit(cfg, now, w))
      && r.s.installed == Some(Installed(q.s.controlRevision, q.s.last))
  {
    DrainedKeeps(p, safety, xs, cfg, now, w);
    QuietExactly(p, safety, cfg, now, w);
    var q := Drained(p, safety, xs, cfg, now, w);
    if Recovering(q.s.last) {
      TriesExactly(q, q.s.last.value.requestId.value, cfg, now, w);
    }
  }

  // --- Failures and successes -------------------------------------------------------------

  /** The number of transient failures in the retry window, this one included. */
  function AttemptsWith(a: Actuator, cfg: PayloadConfig, now: real): int {
    if a.windowStart.None? || now > a.windowStart.value + cfg.recoveryWindow then 1 else a.attempts + 1
  }

  /** A failure that is not the transient one, or one too many of those. */
  predicate Fatal(a: Actuator, code: FaultCode, cfg: PayloadConfig, now: real) {
    code != CommTimeout || AttemptsWith(a, cfg, now) > cfg.maxAttempts
  }

  /** A failure is fatal or counted: a fatal one contains and is published, any but the transient one with an inhibit
      request; the transient one is counted in its window. */
  lemma FailureExactly(p: Payload, code: FaultCode, cfg: PayloadConfig, now: real, w: World)
    ensures var q := RecordFailure(p, code, cfg, now, w);
      && (q.c.latched <==> p.c.latched || Fatal(p.a, code, cfg, now))
      && q.a.inhibitCalls == p.a.inhibitCalls + (if code == CommTimeout then 0 else 1)
      && (if code == CommTimeout
          then
            && q.a.attempts == AttemptsWith(p.a, cfg, now) && q.a.pendingReset
            && q.a.windowStart == (if q.a.attempts == 1 && (p.a.windowStart.None? || now > p.a.windowStart.value + cfg.recoveryWindow)
                                   then Some(now) else p.a.windowStart)
          else q.a == p.a.(inhibitCalls := p.a.inhibitCalls + 1))
      && p.o.faults <= q.o.faults
      && (Fatal(p.a, code, cfg, now) ==> |q.o.faults| > |p.o.faults| && Last(q.o.faults) == FaultEvent(code, "payload"))
      && (!Fatal(p.a, code, cfg, now) ==> q.o == p.o && q.c == p.c)
      && q.s == p.s && q.a.stowArmed == p.a.stowArmed && q.a.motionCalls == p.a.motionCalls
  {
    if code != CommTimeout {
      InhibitsExactly(Engage(p), false, w);
    }
  }

  /** The gates of a leased write before the driver's health is read. */
  predicate Admits(p: Payload, m: Motion, revision: nat, cfg: PayloadConfig) {
    && (m == SetRate ==> cfg.rateMode)
    && revision == (if p.s.installed.Some? then p.s.installed.value.controlRevision else 0)
  }

  /** Feedback that is valid and no older than its bound. */
  predicate Healthy(cfg: PayloadConfig, w: World) {
    && w.health.Some? && w.health.value.feedbackValid
    && w.health.value.lastFeedback.Some? && w.health.value.lastFeedback.value.Finite?
    && w.clockNow <= w.health.value.lastFeedback.value.at + cfg.maxAge
  }

  /** A leased write refused by the driver asks for an inhibit and leaves the payload contained exactly if the failure
      was fatal or the inhibit went unconfirmed: any code but COMM_TIMEOUT always does. */
  lemma RefusedWriteContainsExactly(
    p: Payload, m: Motion, revision: nat, cfg: PayloadConfig, now: real, w: World, code: FaultCode)
    requires !p.c.latched && Admits(p, m, revision, cfg) && Healthy(cfg, w) && w.sends(p.a.motionCalls) == Some(code)
    ensures var (q, written) := WriteLeased(p, m, revision, cfg, now, w);
      && !written
      && (q.c.latched <==> Fatal(p.a, code, cfg, now) || !Confirms(p, w))
      && (code != CommTimeout ==> q.c.latched)
      && q.a.inhibitCalls == p.a.inhibitCalls + (if code == CommTimeout then 1 else 2)
      && (Fatal(p.a, code, cfg, now) ==> FaultEvent(code, "payload") in q.o.faults)
      && (if code == CommTimeout then q.a.attempts == AttemptsWith(p.a, cfg, now) && q.a.pendingReset
          else q.a.attempts == p.a.attempts && q.a.windowStart == p.a.windowStart)
  {
    var moved := Move(Begin(p), m);
    FailureExactly(moved, code, cfg, now, w);
    var failed := RecordFailure(moved, code, cfg, now, w);
    InhibitsExactly(failed, false, w);
    var q := InhibitMotion(failed, false, w).0;
    if Fatal(p.a, code, cfg, now) {
      assert Last(failed.o.faults) in failed.o.faults && failed.o.faults <= q.o.faults;
    }
  }

  /** A leased write accepted by the driver closes the retry window and neither contains nor asks for anything. */
  lemma AcceptedWriteResets(p: Payload, m: Motion, revision: nat, cfg: PayloadConfig, now: real, w: World)
    requires !p.c.latched && Admits(p, m, revision, cfg) && Healthy(cfg, w) && w.sends(p.a.motionCalls).None?
    ensures var (q, written) := WriteLeased(p, m, revision, cfg, now, w);
      && written && !q.c.latched && q.o.faults == [] && q.s == p.s
      && q.a == p.a.(motionCalls := p.a.motionCalls + 1, attempts := 0, windowStart := None, pendingReset := false)
      && q.c.marks == p.c.marks + [Moved(m)]
  {
  }

  /** A leased write that does not reach the driver: not admitted, it does nothing; contained, it asks for an inhibit and
      reports whether it got it; on bad feedback it contains and says so, a rate write with a code of its own for stale
      feedback. */
  lemma BlockedWriteExactly(p: Payload, m: Motion, revision: nat, cfg: PayloadConfig, now: real, w: World)
    requires !Admits(p, m, revision, cfg) || p.c.latched || !Healthy(cfg, w)
    ensures var (q, written), b := WriteLeased(p, m, revision, cfg, now, w), p.(o := p.o.(faults := [], requests := []));
      if !Admits(p, m, revision, cfg) then q == b && !written
      else if p.c.latched then q.a == p.a.(inhibitCalls := p.a.inhibitCalls + 1) && (written <==> Confirms(p, w)) && q.c.latched
      else
        && !written && q.c.latched
        && q.a.inhibitCalls == p.a.inhibitCalls + (if p.c.inhibitApplied then 0 else 1)
        && q.o.faults != []
        && Last(q.o.faults)
           == FaultEvent(if m == SetRate && w.health.Some? && w.health.value.feedbackValid then GimbalStaleFeedback else GimbalFault, "payload")
  {
    LatchesExactly(Begin(p), w);
    InhibitsExactly(Begin(p), false, w);
  }

  /** The reference is still wanted: not contained and of the installed state. */
  predicate Wanted(p: Payload, revision: nat, last: Option<Activation>) {
    !p.c.latched && (p.s.installed.Some? ==> p.s.installed.value.controlRevision == revision && p.s.installed.value.last == last)
  }

  /** The motion a reference issues, if any. */
  function Issues(p: Payload, r: Reference, cfg: PayloadConfig): Option<Motion> {
    match r
    case StowRef => if p.a.stowArmed then None else Some(StowArm)
    case PoseRef => if cfg.rateMode then None else Some(Goto)
    case Inhibit => None
    case RateRef => None
  }

  /** A reference refused by the driver always contains, is told, and leaves the stow drive as it was. */
  lemma RefusedReferenceContains(
    p: Payload, r: Reference, revision: nat, last: Option<Activation>, cfg: PayloadConfig, now: real, w: World, code: FaultCode)
    requires Wanted(p, revision, last) && Issues(p, r, cfg).Some? && w.sends(p.a.motionCalls) == Some(code)
    ensures var (q, issued) := CommitReference(p, r, revision, last, cfg, now, w);
      && !issued && q.c.latched && q.s == p.s && q.a.stowArmed == p.a.stowArmed
      && q.o.faults != [] && Last(q.o.faults) == FaultEvent(code, "payload")
      && q.a.inhibitCalls == p.a.inhibitCalls + (if code == CommTimeout then 0 else 1) + (if p.c.inhibitApplied then 0 else 1)
  {
    var moved := Move(Begin(p), Issues(p, r, cfg).value);
    FailureExactly(moved, code, cfg, now, w);
    FailureAppliesNothing(moved, code, cfg, now, w);
    LatchesExactly(RecordFailure(moved, code, cfg, now, w), w);
    assert CommitReference(p, r, revision, last, cfg, now, w) == (ReferenceFailed(moved, code, cfg, now, w), false);
  }

  lemma FailureAppliesNothing(p: Payload, code: FaultCode, cfg: PayloadConfig, now: real, w: World)
    ensures RecordFailure(p, code, cfg, now, w).c.inhibitApplied == p.c.inhibitApplied
  {
  }

  /** A reference no longer wanted does nothing; a stow or a pose that the driver accepts, or that needs no command, is
      reported as issued, and a stow is armed and not yet complete; an inhibit reference asks for one. */
  lemma CommitsExactly(
    p: Payload, r: Reference, revision: nat, last: Option<Activation>, cfg: PayloadConfig, now: real, w: World)
    requires Wanted(p, revision, last) && Issues(p, r, cfg).Some? ==> w.sends(p.a.motionCalls).None?
    ensures var (q, issued), motion := CommitReference(p, r, revision, last, cfg, now, w), Issues(p, r, cfg);
      if !Wanted(p, revision, last) then q == p.(o := p.o.(faults := [], requests := [])) && !issued
      else
        && (issued <==> r == StowRef || r == PoseRef)
        && q.a.stowArmed == (p.a.stowArmed || r == StowRef)
        && q.a.stowComplete == (p.a.stowComplete && r != StowRef)
        && q.a.motionCalls == p.a.motionCalls + (if motion.Some? then 1 else 0)
        && q.a.inhibitCalls == p.a.inhibitCalls + (if r == Inhibit then 1 else 0)
        && (q.c.latched <==> r == Inhibit && !Confirms(p, w))
        && (motion.Some? ==> q.c.marks == p.c.marks + [Moved(motion.value)])
  {
    InhibitsExactly(Begin(p), false, w);
  }

  /** A failed encoder read contains, whatever its code, and asks for an inhibit. */
  lemma ReadFailureContains(p: Payload, code: FaultCode, cfg: PayloadConfig, w: World)
    ensures var q := ReadFailed(p, code, cfg, w);
      && q.c.latched && q.s == p.s
      && q.a.inhibitCalls == p.a.inhibitCalls + (if code == CommTimeout then 1 else 2)
      && (Fatal(p.a, code, cfg, w.clockNow) ==> FaultEvent(code, "payload") in q.o.faults)
  {
    var failed := RecordFailure(Begin(p), code, cfg, w.clockNow, w);
    FailureExactly(Begin(p), code, cfg, w.clockNow, w);
    InhibitsExactly(failed, false, w);
    if Fatal(p.a, code, cfg, w.clockNow) {
      assert Last(failed.o.faults) in failed.o.faults && failed.o.faults <= InhibitMotion(failed, false, w).0.o.faults;
    }
  }

  // --- Before the first operation ---------------------------------------------------------

  /** Power-up: not contained, no motion or inhibit asked for, no stow armed, no retry counted, nothing taken in, entered
      or installed, and nothing published. */
  lemma PowersUpIdle(cfg: PayloadConfig)
    ensures var p := PayloadProofs.Run([], cfg);
      && !p.c.latched && !p.c.inhibitApplied && p.c.latest.None? && p.c.consumed == {} && p.c.lastEvidence == 0
      && p.c.generation == 0 && p.c.marks == []
      && !p.a.stowArmed && !p.a.stowComplete && !p.a.pendingReset
      && p.a.windowStart.None? && p.a.attempts == 0 && p.a.inhibitCalls == 0 && p.a.motionCalls == 0
      && p.s.last.None? && p.s.installed.None? && p.s.pending.None? && p.s.policyRevision == 0 && p.s.controlRevision == 0
      && p.o.local == [] && p.o.faults == [] && p.o.requests == []
  {
  }
}
