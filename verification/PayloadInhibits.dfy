/** Containment stops the hardware: every engagement comes with an inhibit request, the latch keeps asking until
    one is confirmed, and it remembers exactly that. */
module PayloadInhibits {
  import opened Basics
  import opened Evidence
  import opened PayloadContainment
  import opened PayloadProofs

  // --- Reading the history ----------------------------------------------------------------

  function Asks(marks: seq<Mark>): nat {
    if marks == [] then 0 else Asks(marks[..|marks| - 1]) + (if Last(marks).Asked? then 1 else 0)
  }

  function LatchAsks(marks: seq<Mark>): nat {
    if marks == [] then 0
    else LatchAsks(marks[..|marks| - 1]) + (if Last(marks).Asked? && Last(marks).latching then 1 else 0)
  }

  /** The latch asked for an inhibit and got it confirmed, and nothing has been released since. */
  predicate AppliedSince(marks: seq<Mark>) {
    marks != [] &&
    match Last(marks)
    case Released(_) => false
    case Asked(latching, confirmed) => (latching && confirmed) || AppliedSince(marks[..|marks| - 1])
    case _ => AppliedSince(marks[..|marks| - 1])
  }

  /** The engagement at k comes right after an inhibit request or right before one. */
  predicate Accompanied(marks: seq<Mark>, k: int)
    requires 0 <= k < |marks|
  {
    (k > 0 && marks[k - 1].Asked?) || (k + 1 < |marks| && marks[k + 1].Asked?)
  }

  /** All engagements among the first n marks are accompanied. */
  predicate AllAccompanied(marks: seq<Mark>, n: nat)
    requires n <= |marks|
  {
    forall k :: 0 <= k < n && marks[k] == Engaged ==> Accompanied(marks, k)
  }

  type Driver = nat -> InhibitResult

  /** Each request is marked with the driver's answer to it. */
  predicate Told(marks: seq<Mark>, h: Driver) {
    marks == [] ||
    var before := marks[..|marks| - 1];
    Told(before, h) && (Last(marks).Asked? ==> (Last(marks).confirmed <==> h(Asks(before)) == Inhibited(true)))
  }

  // --- The invariant ----------------------------------------------------------------------

  predicate Agrees(c: Containment, calls: nat, h: Driver) {
    && Asks(c.marks) == calls && Told(c.marks, h)
    && (c.inhibitApplied <==> AppliedSince(c.marks))
    && (c.inhibitApplied ==> c.latched)
  }

  predicate Stopped(c: Containment, calls: nat, h: Driver) {
    Agrees(c, calls, h) && AllAccompanied(c.marks, |c.marks|)
  }

  /** An engagement whose inhibit request is still to come. */
  predicate Due(c: Containment, calls: nat, h: Driver) {
    && Agrees(c, calls, h) && c.latched && !c.inhibitApplied
    && c.marks != [] && Last(c.marks) == Engaged && AllAccompanied(c.marks, |c.marks| - 1)
  }

  /** What an operation does to the requests of the latch: an inhibit it has applied was asked for in it. */
  predicate Goes(c: Containment, d: Containment) {
    && LatchAsks(c.marks) <= LatchAsks(d.marks)
    && (d.inhibitApplied ==> c.inhibitApplied || LatchAsks(c.marks) < LatchAsks(d.marks))
  }

  /** In the operation the latch asked for an inhibit, unless it had one confirmed. */
  predicate Demands(c: Containment, d: Containment) {
    c.inhibitApplied || LatchAsks(c.marks) < LatchAsks(d.marks)
  }

  /** From now on the driver answers as this world says. */
  ghost predicate Serves(w: World, calls: nat, h: Driver) {
    forall k: nat :: calls <= k ==> w.inhibits(k) == h(k)
  }

  // --- Primitives -------------------------------------------------------------------------

  lemma MarkGrows(marks: seq<Mark>, x: Mark, h: Driver)
    ensures var more := marks + [x];
      && Asks(more) == Asks(marks) + (if x.Asked? then 1 else 0)
      && LatchAsks(more) == LatchAsks(marks) + (if x.Asked? && x.latching then 1 else 0)
      && (Told(more, h) <==> Told(marks, h) && (x.Asked? ==> (x.confirmed <==> h(Asks(marks)) == Inhibited(true))))
      && (AppliedSince(more) <==> !x.Released? && ((x.Asked? && x.latching && x.confirmed) || AppliedSince(marks)))
  {
    assert (marks + [x])[..|marks|] == marks && Last(marks + [x]) == x;
  }

  /** A further mark accompanies what was accompanied, and an inhibit request what was due. */
  lemma AccompaniedGrows(marks: seq<Mark>, x: Mark)
    ensures AllAccompanied(marks, |marks|) ==> AllAccompanied(marks + [x], |marks|)
    ensures AllAccompanied(marks, |marks|) && (x == Engaged ==> marks != [] && Last(marks).Asked?) ==>
      AllAccompanied(marks + [x], |marks| + 1)
    ensures x.Asked? && marks != [] && AllAccompanied(marks, |marks| - 1) ==> AllAccompanied(marks + [x], |marks| + 1)
  {
    var more := marks + [x];
    forall k | 0 <= k < |marks| && Accompanied(marks, k) ensures Accompanied(more, k) {
    }
  }

  lemma AskStops(p: Payload, latching: bool, confirmed: bool, h: Driver)
    requires Stopped(p.c, p.a.inhibitCalls, h) || Due(p.c, p.a.inhibitCalls, h)
    requires confirmed <==> h(p.a.inhibitCalls) == Inhibited(true)
    requires !(latching && confirmed)
    ensures var q := Ask(p, latching, confirmed);
      Stopped(q.c, q.a.inhibitCalls, h) && Goes(p.c, q.c) && (latching ==> Demands(p.c, q.c))
  {
    MarkGrows(p.c.marks, Asked(latching, confirmed), h);
    AccompaniedGrows(p.c.marks, Asked(latching, confirmed));
  }

  /** An engagement right after an inhibit request. */
  lemma AskedEngages(c: Containment, calls: nat, h: Driver)
    requires Stopped(c, calls, h) && c.marks != [] && Last(c.marks).Asked?
    ensures var d := EngageLatch(c); Stopped(d, calls, h) && Goes(c, d) && LatchAsks(d.marks) == LatchAsks(c.marks)
  {
    MarkGrows(c.marks, Engaged, h);
    AccompaniedGrows(c.marks, Engaged);
  }

  lemma InhibitStops(p: Payload, w: World, h: Driver)
    requires Stopped(p.c, p.a.inhibitCalls, h) || Due(p.c, p.a.inhibitCalls, h)
    requires Serves(w, p.a.inhibitCalls, h)
    ensures var q := InhibitMotion(p, false, w).0;
      Stopped(q.c, q.a.inhibitCalls, h) && Goes(p.c, q.c) && p.a.inhibitCalls <= q.a.inhibitCalls
  {
    var confirmed := w.inhibits(p.a.inhibitCalls) == Inhibited(true);
    AskStops(p, false, confirmed, h);
    if !confirmed {
      AskedEngages(Ask(p, false, false).c, p.a.inhibitCalls + 1, h);
    }
  }

  lemma EngageIsDue(c: Containment, calls: nat, h: Driver)
    requires Stopped(c, calls, h)
    ensures var d := EngageLatch(c);
      && (if c.latched then d == c else Due(d, calls, h))
      && LatchAsks(d.marks) == LatchAsks(c.marks) && d.inhibitApplied == c.inhibitApplied
  {
    MarkGrows(c.marks, Engaged, h);
    AccompaniedGrows(c.marks, Engaged);
  }

  /** The latch's own request, and what it remembers of the answer. */
  lemma LatchAskStops(p: Payload, w: World, h: Driver)
    requires (Stopped(p.c, p.a.inhibitCalls, h) && p.c.latched) || Due(p.c, p.a.inhibitCalls, h)
    requires Serves(w, p.a.inhibitCalls, h) && !p.c.inhibitApplied
    ensures var (after, confirmed) := InhibitMotion(p, true, w);
      var c := after.c.(inhibitApplied := confirmed);
      && Stopped(c, after.a.inhibitCalls, h) && LatchAsks(c.marks) == LatchAsks(p.c.marks) + 1
      && after.a.inhibitCalls == p.a.inhibitCalls + 1
  {
    var confirmed := w.inhibits(p.a.inhibitCalls) == Inhibited(true);
    MarkGrows(p.c.marks, Asked(true, confirmed), h);
    AccompaniedGrows(p.c.marks, Asked(true, confirmed));
  }

  /** Latching asks for an inhibit unless one was confirmed before. */
  lemma LatchStops(p: Payload, w: World, h: Driver)
    requires Stopped(p.c, p.a.inhibitCalls, h) || Due(p.c, p.a.inhibitCalls, h)
    requires Serves(w, p.a.inhibitCalls, h)
    ensures var q := Latch(p, w);
      && Stopped(q.c, q.a.inhibitCalls, h) && Goes(p.c, q.c) && Demands(p.c, q.c)
      && p.a.inhibitCalls <= q.a.inhibitCalls
      && (q.c.inhibitApplied <==> p.c.inhibitApplied || w.inhibits(p.a.inhibitCalls) == Inhibited(true))
  {
    if Stopped(p.c, p.a.inhibitCalls, h) {
      EngageIsDue(p.c, p.a.inhibitCalls, h);
    }
    if !p.c.inhibitApplied {
      LatchAskStops(Engage(p), w, h);
    }
  }

  // --- Operations -------------------------------------------------------------------------

  ghost predicate Keeps(p: Payload, q: Payload, h: Driver) {
    Stopped(q.c, q.a.inhibitCalls, h) && Goes(p.c, q.c) && p.a.inhibitCalls <= q.a.inhibitCalls
  }

  ghost predicate Ready(p: Payload, w: World, h: Driver) {
    Stopped(p.c, p.a.inhibitCalls, h) && Serves(w, p.a.inhibitCalls, h)
  }

  lemma EvidenceStops(p: Payload, m: SafetyMsg, cfg: PayloadConfig, now: real, w: World, h: Driver)
    requires Ready(p, w, h)
    ensures var q := TakeEvidence(p, m, cfg, now, w);
      Keeps(p, q, h) && (m.latched && Accept(p.c.latest, m, cfg.epoch, now) != p.c.latest ==> Demands(p.c, q.c))
  {
    LatchStops(p.(c := p.c.(latest := Accept(p.c.latest, m, cfg.epoch, now))), w, h);
  }

  /** Some record of a drain is newer than all accepted before it, qualifies, and reports SAFE latched. */
  predicate TakesLatched(held: Option<SafetyMsg>, msgs: seq<SafetyMsg>, epoch: string, now: real) {
    exists i :: 0 <= i < |msgs| && NewlyLatched(Newest(held, msgs[..i], epoch, now), msgs[i], epoch, now)
  }

  predicate NewlyLatched(held: Option<SafetyMsg>, m: SafetyMsg, epoch: string, now: real) {
    m.latched && Qualifies(m, epoch, now) && (held.Some? ==> held.value.sequence < m.sequence)
  }

  lemma {:induction false} EvidencesStop(p: Payload, msgs: seq<SafetyMsg>, cfg: PayloadConfig, now: real, w: World, h: Driver)
    requires Ready(p, w, h) && Inv(p)
    ensures var q := TakeAllEvidence(p, msgs, cfg, now, w);
      Keeps(p, q, h) && (TakesLatched(p.c.latest, msgs, cfg.epoch, now) ==> Demands(p.c, q.c))
  {
    if msgs != [] {
      var front, m := msgs[..|msgs| - 1], Last(msgs);
      EvidencesStop(p, front, cfg, now, w, h);
      EvidenceKeeps(p, front, cfg, now, w);
      EvidenceStops(TakeAllEvidence(p, front, cfg, now, w), m, cfg, now, w, h);
      if TakesLatched(p.c.latest, msgs, cfg.epoch, now) {
        var i :| 0 <= i < |msgs| && NewlyLatched(Newest(p.c.latest, msgs[..i], cfg.epoch, now), msgs[i], cfg.epoch, now);
        if i < |front| {
          assert front[..i] == msgs[..i] && front[i] == msgs[i];
          assert TakesLatched(p.c.latest, front, cfg.epoch, now);
        } else {
          assert msgs[..i] == front;
        }
      }
    }
  }

  lemma LocalFaultsStop(p: Payload, w: World, h: Driver)
    requires Ready(p, w, h)
    ensures var q := TakeLocalFaults(p, w); Keeps(p, q, h) && (UnsafeFaults(p) ==> Demands(p.c, q.c))
  {
    LatchStops(p.(o := p.o.(local := []), s := p.s.(pending := None)), w, h);
  }

  lemma ReenterStops(p: Payload, x: Activation, w: World, h: Driver)
    requires Ready(p, w, h)
    ensures Keeps(p, Reenter(p, x, w), h)
  {
    InhibitStops(p, w, h);
  }

  /** An activation the payload cannot reconcile, or one that commands SAFE. */
  predicate Alarming(last: Option<Activation>, x: Activation, epoch: string) {
    || x.epoch == "" || x.epoch != epoch || x.sequence < 0
    || (last.Some? && x.sequence == last.value.sequence && x != last.value)
    || (x.active == Safe && (last.Some? ==> x.sequence > last.value.sequence))
  }

  lemma ActivationStops(p: Payload, x: Activation, cfg: PayloadConfig, w: World, h: Driver)
    requires Ready(p, w, h)
    ensures var q := TakeActivation(p, x, cfg, w);
      Keeps(p, q, h) && (Alarming(p.s.last, x, cfg.epoch) ==> Demands(p.c, q.c))
  {
    match AcceptActivation(p.s.last, x, cfg.epoch)
    case Conflict => LatchStops(Publish(p, GimbalFault), w, h);
    case Duplicate =>
    case Stale =>
    case Accepted =>
      var taken := p.(s := p.s.(last := Some(x)));
      LatchStops(taken, w, h);
      ReenterStops(if x.active == Safe then Latch(taken, w) else taken, x, w, h);
  }

  predicate TakesAlarm(p: Payload, xs: seq<Activation>, cfg: PayloadConfig, w: World) {
    exists i :: 0 <= i < |xs| && Alarming(TakeAllActivations(p, xs[..i], cfg, w).s.last, xs[i], cfg.epoch)
  }

  lemma {:induction false} ActivationsStop(p: Payload, xs: seq<Activation>, cfg: PayloadConfig, w: World, h: Driver)
    requires Ready(p, w, h)
    ensures var q := TakeAllActivations(p, xs, cfg, w);
      Keeps(p, q, h) && (TakesAlarm(p, xs, cfg, w) ==> Demands(p.c, q.c))
  {
    if xs != [] {
      var front, x := xs[..|xs| - 1], Last(xs);
      ActivationsStop(p, front, cfg, w, h);
      ActivationStops(TakeAllActivations(p, front, cfg, w), x, cfg, w, h);
      if TakesAlarm(p, xs, cfg, w) {
        var i :| 0 <= i < |xs| && Alarming(TakeAllActivations(p, xs[..i], cfg, w).s.last, xs[i], cfg.epoch);
        if i < |front| {
          assert front[..i] == xs[..i] && front[i] == xs[i];
          assert TakesAlarm(p, front, cfg, w);
        } else {
          assert xs[..i] == front;
        }
      }
    }
  }

  lemma ReleaseStops(p: Payload, cfg: PayloadConfig, now: real, w: World, h: Driver)
    requires Stopped(p.c, p.a.inhibitCalls, h) && Recovering(p.s.last)
    ensures Keeps(p, TryRelease(p, cfg, now, w), h)
  {
    var id := p.s.last.value.requestId.value;
    MarkGrows(p.c.marks, Released(id), h);
    AccompaniedGrows(p.c.marks, Released(id));
  }

  /** What in a poll calls for an inhibit: accepted SAFE-latched evidence, a fault of the payload's own that
      contains or a pending imaging fault, an irreconcilable activation or one that commands SAFE. */
  predicate Calls(p: Payload, safety: seq<SafetyMsg>, xs: seq<Activation>, cfg: PayloadConfig, now: real, w: World) {
    var warned := TakeAllEvidence(Begin(p), safety, cfg, now, w);
    || TakesLatched(p.c.latest, safety, cfg.epoch, now)
    || UnsafeFaults(warned)
    || TakesAlarm(Install(TakeLocalFaults(warned, w)), xs, cfg, w)
  }

  lemma PollStops(
      p: Payload, safety: seq<SafetyMsg>, xs: seq<Activation>, cfg: PayloadConfig, now: real, w: World, h: Driver)
    requires Inv(p) && Ready(p, w, h)
    ensures var q := PollActivations(p, safety, xs, cfg, now, w);
      Keeps(p, q, h) && (Calls(p, safety, xs, cfg, now, w) ==> Demands(p.c, q.c))
  {
    var warned := TakeAllEvidence(Begin(p), safety, cfg, now, w);
    EvidencesStop(Begin(p), safety, cfg, now, w, h);
    LocalFaultsStop(warned, w, h);
    ActivationsStop(Install(TakeLocalFaults(warned, w)), xs, cfg, w, h);
    var drained := Drained(p, safety, xs, cfg, now, w);
    if Recovering(drained.s.last) {
      ReleaseStops(drained, cfg, now, w, h);
    }
  }

  lemma MoveStops(p: Payload, m: Motion, h: Driver)
    requires Stopped(p.c, p.a.inhibitCalls, h)
    ensures Keeps(p, Move(p, m), h)
  {
    MarkGrows(p.c.marks, Moved(m), h);
    AccompaniedGrows(p.c.marks, Moved(m));
  }

  /** A failure either leaves its request to what follows, or has made it. */
  lemma RecordStops(p: Payload, code: FaultCode, cfg: PayloadConfig, now: real, w: World, h: Driver)
    requires Ready(p, w, h)
    ensures var q := RecordFailure(p, code, cfg, now, w);
      && (Stopped(q.c, q.a.inhibitCalls, h) || Due(q.c, q.a.inhibitCalls, h))
      && Goes(p.c, q.c) && p.a.inhibitCalls <= q.a.inhibitCalls
  {
    EngageIsDue(p.c, p.a.inhibitCalls, h);
    if code != CommTimeout {
      InhibitStops(Engage(p), w, h);
    }
  }

  lemma WriteFailedStops(p: Payload, code: FaultCode, cfg: PayloadConfig, now: real, w: World, h: Driver)
    requires Ready(p, w, h)
    ensures Keeps(p, WriteFailed(p, code, cfg, now, w), h)
  {
    RecordStops(p, code, cfg, now, w, h);
    InhibitStops(RecordFailure(p, code, cfg, now, w), w, h);
  }

  lemma ReferenceFailedStops(p: Payload, code: FaultCode, cfg: PayloadConfig, now: real, w: World, h: Driver)
    requires Ready(p, w, h)
    ensures var q := ReferenceFailed(p, code, cfg, now, w); Keeps(p, q, h) && Demands(p.c, q.c)
  {
    RecordStops(p, code, cfg, now, w, h);
    LatchStops(RecordFailure(p, code, cfg, now, w), w, h);
  }

  lemma SendStops(p: Payload, m: Motion, cfg: PayloadConfig, now: real, w: World, h: Driver)
    requires Ready(p, w, h)
    ensures Keeps(p, Send(p, m, cfg, now, w).0, h)
  {
    MoveStops(p, m, h);
    if w.sends(p.a.motionCalls).Some? {
      WriteFailedStops(Move(p, m), w.sends(p.a.motionCalls).value, cfg, now, w, h);
    }
  }

  lemma WriteStops(p: Payload, m: Motion, revision: nat, cfg: PayloadConfig, now: real, w: World, h: Driver)
    requires Ready(p, w, h)
    ensures Keeps(p, WriteLeased(p, m, revision, cfg, now, w).0, h)
  {
    var b := Begin(p);
    InhibitStops(b, w, h);
    LatchStops(b, w, h);
    SendStops(b, m, cfg, now, w, h);
    var q := WriteLeased(p, m, revision, cfg, now, w).0;
    assert q == b || q == InhibitMotion(b, false, w).0 || (q.c, q.a) == (Latch(b, w).c, Latch(b, w).a)
      || q == Send(b, m, cfg, now, w).0;
  }

  /** The driver refuses to arm the stow drive or to latch a pose that is due. */
  predicate Refuses(
    p: Payload, r: Reference, revision: nat, last: Option<Activation>, cfg: PayloadConfig, w: World)
  {
    && !p.c.latched && (p.s.installed.Some? ==> p.s.installed.value == Installed(revision, last))
    && ((r == StowRef && !p.a.stowArmed) || (r == PoseRef && !cfg.rateMode))
    && w.sends(p.a.motionCalls).Some?
  }

  lemma CommitStops(
    p: Payload, r: Reference, revision: nat, last: Option<Activation>, cfg: PayloadConfig, now: real, w: World, h: Driver)
    requires Ready(p, w, h)
    ensures var q := CommitReference(p, r, revision, last, cfg, now, w).0;
      Keeps(p, q, h) && (Refuses(p, r, revision, last, cfg, w) ==> Demands(p.c, q.c))
  {
    var b, sent := Begin(p), w.sends(p.a.motionCalls);
    InhibitStops(b, w, h);
    MoveStops(b, StowArm, h);
    MoveStops(b, Goto, h);
    if sent.Some? {
      ReferenceFailedStops(Move(b, StowArm), sent.value, cfg, now, w, h);
      ReferenceFailedStops(Move(b, Goto), sent.value, cfg, now, w, h);
    }
  }

  lemma InhibitAsks(p: Payload, w: World)
    ensures var c := InhibitMotion(p, false, w).0.c;
      c.marks != [] && (Last(c.marks).Asked? || (c.latched && Last(c.marks) == Engaged))
  {
  }

  lemma ReadStops(p: Payload, code: FaultCode, cfg: PayloadConfig, w: World, h: Driver)
    requires Ready(p, w, h)
    ensures Keeps(p, ReadFailed(p, code, cfg, w), h)
  {
    var b := Begin(p);
    var r := RecordFailure(b, code, cfg, w.clockNow, w);
    RecordStops(b, code, cfg, w.clockNow, w, h);
    InhibitStops(r, w, h);
    InhibitAsks(r, w);
    var q := InhibitMotion(r, false, w).0;
    if !q.c.latched {
      AskedEngages(q.c, q.a.inhibitCalls, h);
    }
  }

  // --- Every run --------------------------------------------------------------------------

  lemma ApplyStops(p: Payload, op: Op, cfg: PayloadConfig, w: World, h: Driver)
    requires Inv(p) && Ready(p, w, h)
    ensures Keeps(p, Apply(p, op, cfg, w), h)
  {
    match op
    case Poll(safety, xs, now) => PollStops(p, safety, xs, cfg, now, w, h);
    case Write(m, revision, now) => WriteStops(p, m, revision, cfg, now, w, h);
    case Commit(r, revision, state, now) => CommitStops(p, r, revision, state, cfg, now, w, h);
    case ReadFault(code) => ReadStops(p, code, cfg, w, h);
    case LoneInhibit => InhibitStops(Begin(p), w, h);
    case LocalLatch => LatchStops(Begin(p), w, h);
    case ImagingFault(code) =>
    case Deliver(e) =>
  }

  /** The driver's answer to the k-th inhibit request of a run: that of the step that made it. */
  function AnswerTo(steps: seq<Step>, cfg: PayloadConfig, k: nat): InhibitResult {
    if steps == [] then Inhibited(false)
    else
      var front := steps[..|steps| - 1];
      if k < Run(front, cfg).a.inhibitCalls then AnswerTo(front, cfg, k) else Last(steps).w.inhibits(k)
  }

  function DriverOf(steps: seq<Step>, cfg: PayloadConfig): Driver {
    (k: nat) => AnswerTo(steps, cfg, k)
  }

  /** Requests already made were answered by the steps that made them. */
  lemma {:induction false} ToldStays(marks: seq<Mark>, g: Driver, h: Driver)
    requires Told(marks, g) && forall k: nat :: k < Asks(marks) ==> g(k) == h(k)
    ensures Told(marks, h)
  {
    if marks != [] {
      ToldStays(marks[..|marks| - 1], g, h);
    }
  }

  lemma {:induction false} RunsStop(steps: seq<Step>, cfg: PayloadConfig)
    ensures var p := Run(steps, cfg); Stopped(p.c, p.a.inhibitCalls, DriverOf(steps, cfg))
  {
    if steps != [] {
      var front, last := steps[..|steps| - 1], Last(steps);
      RunsStop(front, cfg);
      ContainmentOverRuns(front, cfg);
      var p, h := Run(front, cfg), DriverOf(steps, cfg);
      ToldStays(p.c.marks, DriverOf(front, cfg), h);
      ApplyStops(p, last.op, cfg, last.w, h);
    }
  }

  /** Over every run: each engagement of containment stands beside an inhibit request to the driver; the requests
      are those made, each marked with the answer it got; and the payload counts its inhibit as applied if and only
      if a request of the latch was confirmed since the last release, which only containment outlives. */
  lemma InhibitsOverRuns(steps: seq<Step>, cfg: PayloadConfig)
    ensures var p := Run(steps, cfg);
      && (forall k :: 0 <= k < |p.c.marks| && p.c.marks[k] == Engaged ==> Accompanied(p.c.marks, k))
      && Asks(p.c.marks) == p.a.inhibitCalls && Told(p.c.marks, DriverOf(steps, cfg))
      && (p.c.inhibitApplied <==> AppliedSince(p.c.marks))
      && (p.c.inhibitApplied ==> p.c.latched)
  {
    RunsStop(steps, cfg);
  }

  /** The operation calls for an inhibit: a poll with a cause for it, a leased write on invalid or stale feedback,
      a refused reference, or a local trip. */
  predicate Causes(p: Payload, op: Op, cfg: PayloadConfig, w: World) {
    match op
    case Poll(safety, xs, now) => Calls(p, safety, xs, cfg, now, w)
    case Write(m, revision, now) =>
      && (m == SetRate ==> cfg.rateMode) && !p.c.latched
      && revision == (if p.s.installed.Some? then p.s.installed.value.controlRevision else 0)
      && (w.health.None? || !w.health.value.feedbackValid || !LeaseFresh(w.health.value, cfg, w))
    case Commit(r, revision, state, now) => Refuses(p, r, revision, state, cfg, w)
    case LocalLatch => true
    case _ => false
  }

  /** From every reachable state: an operation with a cause for it asks the driver for an inhibit on behalf of the
      latch, unless the latch has one confirmed; so an unconfirmed one is asked for again by the next cause. */
  lemma CausesAsk(steps: seq<Step>, op: Op, cfg: PayloadConfig, w: World)
    requires Causes(Run(steps, cfg), op, cfg, w)
    ensures var p := Run(steps, cfg); Demands(p.c, Apply(p, op, cfg, w).c)
  {
    var p, next := Run(steps, cfg), steps + [Step(op, w)];
    var h := DriverOf(next, cfg);
    assert next[..|next| - 1] == steps && Last(next) == Step(op, w);
    RunsStop(steps, cfg);
    ContainmentOverRuns(steps, cfg);
    ToldStays(p.c.marks, DriverOf(steps, cfg), h);
    match op
    case Poll(safety, xs, now) => PollStops(p, safety, xs, cfg, now, w, h);
    case Write(m, revision, now) => LatchStops(Begin(p), w, h);
    case Commit(r, revision, state, now) => CommitStops(p, r, revision, state, cfg, now, w, h);
    case LocalLatch => LatchStops(Begin(p), w, h);
    case _ =>
  }
}
