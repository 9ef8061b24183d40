/** Containment over every run of payload operations. */
module PayloadProofs {
  import opened Basics
  import opened Evidence
  import opened PayloadContainment

  // --- Reading the history ----------------------------------------------------------------

  /** Whether the history leaves the actuator contained. */
  predicate Contained(marks: seq<Mark>) {
    marks != [] &&
    match Last(marks)
    case Engaged => true
    case Released(_) => false
    case Moved(_) => Contained(marks[..|marks| - 1])
    case Asked(_, _) => Contained(marks[..|marks| - 1])
  }

  /** Engagements and releases alternate, and no motion command falls inside containment. */
  predicate Sound(marks: seq<Mark>) {
    marks == [] ||
    var before := marks[..|marks| - 1];
    Sound(before) &&
    match Last(marks)
    case Engaged => !Contained(before)
    case Released(_) => Contained(before)
    case Moved(_) => !Contained(before)
    case Asked(_, _) => true
  }

  function Engagements(marks: seq<Mark>): nat {
    if marks == [] then 0 else Engagements(marks[..|marks| - 1]) + (if Last(marks) == Engaged then 1 else 0)
  }

  function ReleasedIds(marks: seq<Mark>): seq<string> {
    if marks == [] then []
    else ReleasedIds(marks[..|marks| - 1]) + (if Last(marks).Released? then [Last(marks).id] else [])
  }

  /** A sound history read position by position: no motion while contained. */
  lemma {:induction false} MotionOnlyUncontained(marks: seq<Mark>, i: nat)
    requires Sound(marks) && i < |marks| && marks[i].Moved?
    ensures !Contained(marks[..i])
  {
    if i < |marks| - 1 {
      var front := marks[..|marks| - 1];
      assert front[..i] == marks[..i];
      MotionOnlyUncontained(front, i);
    }
  }

  // --- The invariant ----------------------------------------------------------------------

  predicate NoRepeats(ids: seq<string>) {
    forall i, j :: 0 <= i < j < |ids| ==> ids[i] != ids[j]
  }

  /** The history agrees with the latch, its generation counter and the ids already spent. */
  predicate HistoryHolds(c: Containment) {
    && Sound(c.marks)
    && Contained(c.marks) == c.latched
    && Engagements(c.marks) == c.generation
    && NoRepeats(ReleasedIds(c.marks))
    && (forall id :: id in ReleasedIds(c.marks) ==> id in c.consumed)
  }

  /** SAFE, commanded or reported by the fault app, contains the actuator. */
  predicate SafeContains(p: Payload) {
    && (p.s.last.Some? && p.s.last.value.active == Safe ==> p.c.latched)
    && (p.c.latest.Some? && p.c.latest.value.latched ==> p.c.latched)
  }

  predicate Inv(p: Payload) {
    HistoryHolds(p.c) && SafeContains(p)
  }

  /** What everything short of a release does: it may engage or move, and changes no evidence. */
  predicate Holds(c: Containment, d: Containment) {
    && HistoryHolds(d)
    && (c.latched ==> d.latched)
    && d.latest == c.latest && d.consumed == c.consumed && d.lastEvidence == c.lastEvidence
    && ReleasedIds(d.marks) == ReleasedIds(c.marks)
  }

  lemma EngageHolds(c: Containment)
    requires HistoryHolds(c)
    ensures Holds(c, EngageLatch(c)) && EngageLatch(c).latched
  {
  }

  lemma AskHolds(p: Payload, latching: bool, confirmed: bool)
    requires HistoryHolds(p.c)
    ensures Holds(p.c, Ask(p, latching, confirmed).c)
  {
  }

  lemma InhibitHolds(p: Payload, latching: bool, w: World)
    requires HistoryHolds(p.c)
    ensures var q := InhibitMotion(p, latching, w).0;
      Holds(p.c, q.c) && q.s == p.s && q.a == p.a.(inhibitCalls := p.a.inhibitCalls + 1)
  {
    var confirmed := w.inhibits(p.a.inhibitCalls) == Inhibited(true);
    AskHolds(p, latching, confirmed);
    EngageHolds(Ask(p, latching, confirmed).c);
  }

  lemma LatchHolds(p: Payload, w: World)
    requires HistoryHolds(p.c)
    ensures var q := Latch(p, w);
      Holds(p.c, q.c) && q.c.latched && q.s == p.s && q.a.motionCalls == p.a.motionCalls
  {
    EngageHolds(p.c);
    InhibitHolds(Engage(p), true, w);
  }

  lemma MoveHolds(p: Payload, m: Motion)
    requires HistoryHolds(p.c) && !p.c.latched
    ensures Holds(p.c, Move(p, m).c)
  {
  }

  lemma RecordFailureHolds(p: Payload, code: FaultCode, cfg: PayloadConfig, now: real, w: World)
    requires HistoryHolds(p.c)
    ensures var q := RecordFailure(p, code, cfg, now, w);
      Holds(p.c, q.c) && q.s == p.s && q.a.motionCalls == p.a.motionCalls
  {
    EngageHolds(p.c);
    InhibitHolds(Engage(p), false, w);
  }

  // --- One lemma per operation ------------------------------------------------------------

  lemma {:induction false} EvidenceKeeps(p: Payload, msgs: seq<SafetyMsg>, cfg: PayloadConfig, now: real, w: World)
    requires Inv(p)
    ensures var q := TakeAllEvidence(p, msgs, cfg, now, w);
      && Inv(q) && q.s == p.s && Holds(p.c.(latest := q.c.latest), q.c)
      && q.c.latest == Newest(p.c.latest, msgs, cfg.epoch, now)
  {
    if msgs != [] {
      EvidenceKeeps(p, msgs[..|msgs| - 1], cfg, now, w);
      var q, m := TakeAllEvidence(p, msgs[..|msgs| - 1], cfg, now, w), Last(msgs);
      LatchHolds(q.(c := q.c.(latest := Some(m))), w);
    }
  }

  lemma LocalFaultsKeep(p: Payload, w: World)
    requires Inv(p)
    ensures var q := TakeLocalFaults(p, w);
      Inv(q) && Holds(p.c, q.c) && q.s == p.s.(pending := None) && (UnsafeFaults(p) ==> q.c.latched)
  {
    LatchHolds(p.(o := p.o.(local := []), s := p.s.(pending := None)), w);
  }

  lemma ReenterKeeps(p: Payload, x: Activation, w: World)
    requires HistoryHolds(p.c)
    ensures var q := Reenter(p, x, w);
      && Holds(p.c, q.c) && q.s.last == p.s.last
      && q.s.policyRevision == p.s.policyRevision + 1 && q.s.controlRevision == p.s.controlRevision + 1
  {
    InhibitHolds(p, false, w);
  }

  lemma ActivationKeeps(p: Payload, x: Activation, cfg: PayloadConfig, w: World)
    requires Inv(p)
    ensures var q := TakeActivation(p, x, cfg, w);
      && Inv(q) && Holds(p.c, q.c)
      && q.s.last == (if AcceptActivation(p.s.last, x, cfg.epoch) == Accepted then Some(x) else p.s.last)
  {
    match AcceptActivation(p.s.last, x, cfg.epoch)
    case Conflict => LatchHolds(Publish(p, GimbalFault), w);
    case Duplicate =>
    case Stale =>
    case Accepted =>
      var taken := p.(s := p.s.(last := Some(x)));
      LatchHolds(taken, w);
      ReenterKeeps(if x.active == Safe then Latch(taken, w) else taken, x, w);
  }

  lemma {:induction false} ActivationsKeep(p: Payload, xs: seq<Activation>, cfg: PayloadConfig, w: World)
    requires Inv(p)
    ensures var q := TakeAllActivations(p, xs, cfg, w);
      && Inv(q) && Holds(p.c, q.c)
      && (q.s.last == p.s.last || (q.s.last.Some? && q.s.last.value in xs))
  {
    if xs != [] {
      var front, x := xs[..|xs| - 1], Last(xs);
      ActivationsKeep(p, front, cfg, w);
      ActivationKeeps(TakeAllActivations(p, front, cfg, w), x, cfg, w);
      assert x in xs && forall y :: y in front ==> y in xs;
    }
  }

  lemma DrainedKeeps(p: Payload, safety: seq<SafetyMsg>, xs: seq<Activation>, cfg: PayloadConfig, now: real, w: World)
    requires Inv(p)
    ensures var q := Drained(p, safety, xs, cfg, now, w);
      && Inv(q) && Holds(p.c.(latest := q.c.latest), q.c)
      && q.c.latest == Newest(p.c.latest, safety, cfg.epoch, now)
      && (q.s.last == p.s.last || (q.s.last.Some? && q.s.last.value in xs))
      && (UnsafeFaults(TakeAllEvidence(Begin(p), safety, cfg, now, w)) ==> q.c.latched)
  {
    EvidenceKeeps(Begin(p), safety, cfg, now, w);
    var warned := TakeAllEvidence(Begin(p), safety, cfg, now, w);
    LocalFaultsKeep(warned, w);
    ActivationsKeep(Install(TakeLocalFaults(warned, w)), xs, cfg, w);
  }

  /** The recovery contract of one poll, in terms of what the poll drained. */
  predicate Releases(p: Payload, safety: seq<SafetyMsg>, xs: seq<Activation>, cfg: PayloadConfig, now: real, w: World) {
    var q := Drained(p, safety, xs, cfg, now, w);
    && !UnsafePoll(p, safety, cfg, now, w)
    && q.c.latched
    && Recovering(q.s.last)
    && q.s.last.value.requestId.value !in q.c.consumed
    && EvidenceReleases(q, q.s.last.value.requestId.value, cfg, now)
    && HardwareValid(cfg, now, w)
  }

  lemma ReleaseKeeps(q: Payload, cfg: PayloadConfig, now: real, w: World)
    requires Inv(q) && q.c.latched && Recovering(q.s.last)
    ensures var r, id := TryRelease(q, cfg, now, w), q.s.last.value.requestId.value;
      && Inv(r) && r.s == q.s && r.c.latest == q.c.latest && q.c.consumed <= r.c.consumed
      && (if id !in q.c.consumed && EvidenceReleases(q, id, cfg, now) && HardwareValid(cfg, now, w)
          then !r.c.latched && ReleasedIds(r.c.marks) == ReleasedIds(q.c.marks) + [id]
          else r.c.latched && ReleasedIds(r.c.marks) == ReleasedIds(q.c.marks))
  {
    var id := q.s.last.value.requestId.value;
    assert (q.c.marks + [Released(id)])[..|q.c.marks|] == q.c.marks;
  }

  /** A poll releases exactly when it was contained and every condition of the recovery contract is
      met by what it drained; the id is then new, and no poll with an unsafe record in it releases. */
  lemma PollKeeps(p: Payload, safety: seq<SafetyMsg>, xs: seq<Activation>, cfg: PayloadConfig, now: real, w: World)
    requires Inv(p)
    ensures var q, r := Drained(p, safety, xs, cfg, now, w), PollActivations(p, safety, xs, cfg, now, w);
      && Inv(r) && r.s.last == q.s.last && r.c.latest == q.c.latest && p.c.consumed <= r.c.consumed
      && (if Releases(p, safety, xs, cfg, now, w)
          then !r.c.latched && ReleasedIds(r.c.marks) == ReleasedIds(p.c.marks) + [q.s.last.value.requestId.value]
          else r.c.latched == q.c.latched && ReleasedIds(r.c.marks) == ReleasedIds(p.c.marks))
  {
    DrainedKeeps(p, safety, xs, cfg, now, w);
    var q := Drained(p, safety, xs, cfg, now, w);
    if q.c.latched && Recovering(q.s.last) {
      ReleaseKeeps(q, cfg, now, w);
    }
  }

  lemma SendHolds(p: Payload, m: Motion, cfg: PayloadConfig, now: real, w: World)
    requires HistoryHolds(p.c) && !p.c.latched
    ensures var q := Send(p, m, cfg, now, w).0;
      Holds(p.c, q.c) && q.s == p.s && q.a.motionCalls == p.a.motionCalls + 1
  {
    MoveHolds(p, m);
    if w.sends(p.a.motionCalls).Some? {
      WriteFailedHolds(Move(p, m), w.sends(p.a.motionCalls).value, cfg, now, w);
    }
  }

  /** A leased write sends at most one command, and only while not contained. */
  lemma WriteKeeps(p: Payload, m: Motion, revision: nat, cfg: PayloadConfig, now: real, w: World)
    requires Inv(p)
    ensures var (q, written) := WriteLeased(p, m, revision, cfg, now, w);
      && Inv(q) && Holds(p.c, q.c)
      && p.a.motionCalls <= q.a.motionCalls <= p.a.motionCalls + 1
      && (q.a.motionCalls > p.a.motionCalls ==> !p.c.latched)
  {
    var b := Begin(p);
    if b.c.latched {
      InhibitHolds(b, false, w);
    } else {
      LatchHolds(b, w);
      SendHolds(b, m, cfg, now, w);
      var (q, written) := WriteLeased(p, m, revision, cfg, now, w);
      assert q == b || q.c == Latch(b, w).c || (q, written) == Send(b, m, cfg, now, w);
    }
  }

  lemma WriteFailedHolds(p: Payload, code: FaultCode, cfg: PayloadConfig, now: real, w: World)
    requires HistoryHolds(p.c)
    ensures var q := WriteFailed(p, code, cfg, now, w);
      Holds(p.c, q.c) && q.s == p.s && q.a.motionCalls == p.a.motionCalls
  {
    RecordFailureHolds(p, code, cfg, now, w);
    InhibitHolds(RecordFailure(p, code, cfg, now, w), false, w);
  }

  lemma ReferenceFailedHolds(p: Payload, code: FaultCode, cfg: PayloadConfig, now: real, w: World)
    requires HistoryHolds(p.c)
    ensures var q := ReferenceFailed(p, code, cfg, now, w);
      Holds(p.c, q.c) && q.s == p.s && q.c.latched
  {
    RecordFailureHolds(p, code, cfg, now, w);
    LatchHolds(RecordFailure(p, code, cfg, now, w), w);
  }

  lemma ArmHolds(p: Payload, m: Motion, cfg: PayloadConfig, now: real, w: World)
    requires HistoryHolds(p.c) && !p.c.latched
    ensures var moved, sent := Move(p, m), w.sends(p.a.motionCalls);
      && Holds(p.c, moved.c) && moved.s == p.s
      && (sent.Some? ==>
            Holds(p.c, ReferenceFailed(moved, sent.value, cfg, now, w).c) && ReferenceFailed(moved, sent.value, cfg, now, w).s == p.s)
  {
    MoveHolds(p, m);
    if w.sends(p.a.motionCalls).Some? {
      ReferenceFailedHolds(Move(p, m), w.sends(p.a.motionCalls).value, cfg, now, w);
    }
  }

  lemma CommitKeeps(
    p: Payload, r: Reference, revision: nat, last: Option<Activation>, cfg: PayloadConfig, now: real, w: World)
    requires Inv(p)
    ensures var q := CommitReference(p, r, revision, last, cfg, now, w).0;
      Inv(q) && Holds(p.c, q.c) && q.s == p.s
  {
    var b := Begin(p);
    if !b.c.latched {
      InhibitHolds(b, false, w);
      ArmHolds(b, StowArm, cfg, now, w);
      ArmHolds(b, Goto, cfg, now, w);
    }
  }

  // --- When a command is issued, and what failures cost -----------------------------------

  lemma LatchMovesNothing(p: Payload, w: World)
    ensures Latch(p, w).a.motionCalls == p.a.motionCalls
  {
  }

  lemma FailureMovesNothing(p: Payload, code: FaultCode, cfg: PayloadConfig, now: real, w: World)
    ensures RecordFailure(p, code, cfg, now, w).a.motionCalls == p.a.motionCalls
  {
  }

  /** A leased write reaches the driver if and only if the mode fits, its revision is the installed one, the
      payload is not contained, and the feedback is valid and fresh. */
  lemma WriteSendsExactly(p: Payload, m: Motion, revision: nat, cfg: PayloadConfig, now: real, w: World)
    ensures WriteLeased(p, m, revision, cfg, now, w).0.a.motionCalls == p.a.motionCalls + 1 <==>
      && (m == SetRate ==> cfg.rateMode)
      && revision == (if p.s.installed.Some? then p.s.installed.value.controlRevision else 0)
      && !p.c.latched
      && w.health.Some? && w.health.value.feedbackValid && LeaseFresh(w.health.value, cfg, w)
  {
    var b := Begin(p);
    LatchMovesNothing(b, w);
    var sent := w.sends(b.a.motionCalls);
    if sent.Some? {
      FailureMovesNothing(Move(b, m), sent.value, cfg, now, w);
    }
  }

  /** A reference arms the stow drive or latches a pose if and only if it is neither contained nor superseded
      and there is something to issue. */
  lemma CommitSendsExactly(
    p: Payload, r: Reference, revision: nat, last: Option<Activation>, cfg: PayloadConfig, now: real, w: World)
    ensures CommitReference(p, r, revision, last, cfg, now, w).0.a.motionCalls == p.a.motionCalls + 1 <==>
      && !p.c.latched
      && (p.s.installed.Some? ==> p.s.installed.value == Installed(revision, last))
      && ((r == StowRef && !p.a.stowArmed) || (r == PoseRef && !cfg.rateMode))
  {
    var b := Begin(p);
    var sent := w.sends(b.a.motionCalls);
    if sent.Some? {
      RefusalMovesNothing(Move(b, StowArm), sent.value, cfg, now, w);
      RefusalMovesNothing(Move(b, Goto), sent.value, cfg, now, w);
    }
  }

  lemma RefusalMovesNothing(p: Payload, code: FaultCode, cfg: PayloadConfig, now: real, w: World)
    ensures ReferenceFailed(p, code, cfg, now, w).a.motionCalls == p.a.motionCalls
  {
    FailureMovesNothing(p, code, cfg, now, w);
    LatchMovesNothing(RecordFailure(p, code, cfg, now, w), w);
  }

  /** Consecutive transient failures, none of them followed by a successful command. */
  function FailTransiently(p: Payload, times: seq<real>, cfg: PayloadConfig, w: World): Payload {
    if times == [] then p
    else RecordFailure(FailTransiently(p, times[..|times| - 1], cfg, w), CommTimeout, cfg, Last(times), w)
  }

  /** Inside one window the retry budget is exact: the failures up to the budget leave motion uncontained, one
      more contains. */
  lemma {:induction false} RetryBudgetIsExact(p: Payload, times: seq<real>, cfg: PayloadConfig, w: World)
    requires times != [] && p.a.windowStart.None? && !p.c.latched && cfg.maxAttempts >= 0
    requires forall i :: 0 <= i < |times| ==> times[i] - times[0] <= cfg.recoveryWindow
    ensures var q := FailTransiently(p, times, cfg, w);
      && q.a.attempts == |times| && q.a.windowStart == Some(times[0])
      && (q.c.latched <==> |times| > cfg.maxAttempts)
  {
    var front := times[..|times| - 1];
    if front == [] {
      assert FailTransiently(p, front, cfg, w) == p;
    } else {
      RetryBudgetIsExact(p, front, cfg, w);
    }
  }

  // --- Runs -------------------------------------------------------------------------------

  /** One payload operation, or something happening to the payload from outside. */
  datatype Op =
    | Poll(safety: seq<SafetyMsg>, xs: seq<Activation>, now: real)
    | Write(m: Motion, revision: nat, now: real)
    | Commit(r: Reference, revision: nat, state: Option<Activation>, now: real)
    | ReadFault(code: FaultCode)
    | LoneInhibit                         // the rate branch, contained or under an inhibit reference
    | LocalLatch                          // a catch-up cap, an integrity trip, an invalid reference
    | ImagingFault(code: FaultCode)       // queued by the capture loop
    | Deliver(e: FaultEvent)              // any fault event on the bus

  function Apply(p: Payload, op: Op, cfg: PayloadConfig, w: World): Payload {
    match op
    case Poll(safety, xs, now) => PollActivations(p, safety, xs, cfg, now, w)
    case Write(m, revision, now) => WriteLeased(p, m, revision, cfg, now, w).0
    case Commit(r, revision, state, now) => CommitReference(p, r, revision, state, cfg, now, w).0
    case ReadFault(code) => ReadFailed(p, code, cfg, w)
    case LoneInhibit => InhibitMotion(Begin(p), false, w).0
    case LocalLatch => Latch(Begin(p), w)
    case ImagingFault(code) => Publish(Begin(p).(s := p.s.(pending := Some(code))), code)
    case Deliver(e) => p.(o := p.o.(local := p.o.local + [e]))
  }

  lemma ApplyKeeps(p: Payload, op: Op, cfg: PayloadConfig, w: World)
    requires Inv(p)
    ensures Inv(Apply(p, op, cfg, w))
  {
    match op
    case Poll(safety, xs, now) => PollKeeps(p, safety, xs, cfg, now, w);
    case Write(m, revision, now) => WriteKeeps(p, m, revision, cfg, now, w);
    case Commit(r, revision, state, now) => CommitKeeps(p, r, revision, state, cfg, now, w);
    case ReadFault(code) =>
      RecordFailureHolds(Begin(p), code, cfg, w.clockNow, w);
      InhibitHolds(RecordFailure(Begin(p), code, cfg, w.clockNow, w), false, w);
      EngageHolds(InhibitMotion(RecordFailure(Begin(p), code, cfg, w.clockNow, w), false, w).0.c);
    case LoneInhibit => InhibitHolds(Begin(p), false, w);
    case LocalLatch => LatchHolds(Begin(p), w);
    case ImagingFault(code) =>
    case Deliver(e) =>
  }

  /** Each operation meets its own world: hardware results may change from call to call. */
  datatype Step = Step(op: Op, w: World)

  function Run(steps: seq<Step>, cfg: PayloadConfig): Payload {
    if steps == [] then UNACTIVATED
    else Apply(Run(steps[..|steps| - 1], cfg), Last(steps).op, cfg, Last(steps).w)
  }

  /** Over every run: an accepted SAFE activation or SAFE-latched evidence means contained; the
      generation counts the engagements; every motion command was issued while not contained; and no
      recovery id was spent on two releases. */
  lemma {:induction false} ContainmentOverRuns(steps: seq<Step>, cfg: PayloadConfig)
    ensures var p := Run(steps, cfg);
      && Inv(p)
      && (forall i :: 0 <= i < |p.c.marks| && p.c.marks[i].Moved? ==> !Contained(p.c.marks[..i]))
      && p.c.generation == Engagements(p.c.marks)
      && NoRepeats(ReleasedIds(p.c.marks))
  {
    var p := Run(steps, cfg);
    if steps != [] {
      ContainmentOverRuns(steps[..|steps| - 1], cfg);
      ApplyKeeps(Run(steps[..|steps| - 1], cfg), Last(steps).op, cfg, Last(steps).w);
    }
    forall i | 0 <= i < |p.c.marks| && p.c.marks[i].Moved? ensures !Contained(p.c.marks[..i]) {
      MotionOnlyUncontained(p.c.marks, i);
    }
  }
}
