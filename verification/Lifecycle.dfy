/** The INIT lifecycle executor: what each locked section computes, as functions on its fields. A run
    is any interleaving of the control owner's calls with the worker's completions. */
module Lifecycle {
  import opened Basics

  datatype EffectKind = SelfTest | ModelLoad | Home | VerifyInit

  const PREREQUISITES: set<EffectKind> := {SelfTest, ModelLoad, Home}

  function EffectName(kind: EffectKind): string {
    match kind
    case SelfTest => "selftest"
    case ModelLoad => "model_load"
    case Home => "home"
    case VerifyInit => "verify_init"
  }

  datatype Intent = Intent(key: ActivationKey, effectId: string, kind: EffectKind)

  datatype Token = Token(key: ActivationKey, controlRevision: int, containment: int)

  datatype Status = Pending | Succeeded | Failed

  datatype EffectResult = EffectResult(
    key: ActivationKey, effectId: string, kind: EffectKind, status: Status, fault: FaultCode, evidence: string)

  /** PENDING, VERIFIED and FAILED of the verification seam. */
  datatype Verdict = Undecided | Verified | Refused

  datatype Verification = Verification(key: ActivationKey, verdict: Verdict, evidence: string)

  datatype Session = Session(identity: string, handle: nat)

  datatype Outstanding = Outstanding(intent: Intent, issued: real)

  /** What a service sees: issue time, evidence of the prerequisites in order, candidate identity. */
  datatype Observation = Observation(issued: real, prerequisites: seq<(EffectKind, string)>, candidate: string)

  /** `era` is history: the number of cancellations and failures before the claim. */
  datatype Job = Job(intent: Intent, token: Token, cancelled: bool, observation: Observation, era: nat)

  datatype Completion = Completion(
    intent: Intent, token: Token, result: Option<EffectResult>, verification: Option<Verification>,
    session: Option<Session>, era: nat)

  /** What a poll has returned: a terminal result, with the session it loaded and the era its job was
      claimed in (None for an expiry), a refused verification, or a promotion. */
  datatype Item =
    | Terminal(result: EffectResult, loaded: Option<Session>, claimed: Option<nat>, era: nat)
    | Rejection(verification: Verification, claimed: Option<nat>, era: nat)
    | Promotion(session: Session, verification: Verification, claimed: Option<nat>, era: nat)

  /** `outstanding` keeps the order of issue. The last three fields are history: `era` as above, the
      items returned in this generation, and those of the generations before it. */
  datatype Executor = Executor(
    shutdown: bool, token: Option<Token>, outstanding: seq<Outstanding>, retired: set<EffectKind>,
    job: Option<Job>, mailbox: seq<Completion>, evidence: map<EffectKind, string>, candidate: Option<Session>,
    era: nat, items: seq<Item>, past: seq<seq<Item>>)

  const IDLE := Executor(false, None, [], {}, None, [], map[], None, 0, [], [])

  datatype PollOut = PollOut(
    results: seq<EffectResult>, verification: Option<Verification>, install: Option<Session>)

  const NOTHING := PollOut([], None, None)

  const MAILBOX_BOUND: nat := 4

  // --- Generations ------------------------------------------------------------------------

  function Signal(job: Option<Job>): Option<Job> {
    if job.Some? then Some(job.value.(cancelled := true)) else None
  }

  function ClearGeneration(e: Executor): Executor {
    Executor(e.shutdown, None, [], {}, Signal(e.job), [], map[], None, e.era + 1, [], e.past + [e.items])
  }

  function FailGeneration(e: Executor): Executor {
    e.(job := Signal(e.job), retired := e.retired + KindsOf(e.outstanding), outstanding := [], candidate := None,
       era := e.era + 1)
  }

  function KindsOf(outstanding: seq<Outstanding>): set<EffectKind> {
    set p | p in outstanding :: p.intent.kind
  }

  // --- Submitting -------------------------------------------------------------------------

  predicate Canonical(e: Executor, intent: Intent, token: Token) {
    && intent.key == token.key
    && intent.effectId == EffectName(intent.kind)
    && intent.kind !in KindsOf(e.outstanding)
    && intent.kind !in e.retired
  }

  function Register(e: Executor, intent: Intent, token: Token, now: real): Executor {
    if Canonical(e, intent, token) then e.(outstanding := e.outstanding + [Outstanding(intent, now)]) else e
  }

  function RegisterAll(e: Executor, intents: seq<Intent>, token: Token, now: real): Executor {
    if intents == [] then e
    else Register(RegisterAll(e, intents[..|intents| - 1], token, now), Last(intents), token, now)
  }

  function Submit(e: Executor, intents: seq<Intent>, token: Token, now: real): Executor {
    RegisterAll(if e.token == Some(token) then e else ClearGeneration(e).(token := Some(token)), intents, token, now)
  }

  // --- Polling ----------------------------------------------------------------------------

  function ExpiryFault(kind: EffectKind): FaultCode {
    if kind == ModelLoad then InferenceTimeout else GimbalFault
  }

  function FailedResult(intent: Intent, token: Token, fault: FaultCode): EffectResult {
    EffectResult(token.key, intent.effectId, intent.kind, Failed, fault, "")
  }

  predicate Overdue(p: Outstanding, now: real, deadline: real) {
    now - p.issued >= deadline
  }

  /** Position of the first overdue intent in order of issue, or the number of intents. */
  function FirstOverdue(outstanding: seq<Outstanding>, now: real, deadline: real): (i: nat)
    ensures i <= |outstanding|
    ensures i < |outstanding| ==> Overdue(outstanding[i], now, deadline)
    ensures forall j :: 0 <= j < i ==> !Overdue(outstanding[j], now, deadline)
  {
    if outstanding == [] || Overdue(outstanding[0], now, deadline) then 0
    else 1 + FirstOverdue(outstanding[1..], now, deadline)
  }

  /** Position of the outstanding intent of a kind, or the number of intents. */
  function Find(outstanding: seq<Outstanding>, kind: EffectKind): (i: nat)
    ensures i <= |outstanding|
    ensures i < |outstanding| ==> outstanding[i].intent.kind == kind
    ensures forall j :: 0 <= j < i ==> outstanding[j].intent.kind != kind
  {
    if outstanding == [] || outstanding[0].intent.kind == kind then 0 else 1 + Find(outstanding[1..], kind)
  }

  function Without(outstanding: seq<Outstanding>, i: nat): seq<Outstanding>
    requires i < |outstanding|
  {
    outstanding[..i] + outstanding[i + 1..]
  }

  /** Take the i-th outstanding intent out and never register its kind again. */
  function Retire(e: Executor, i: nat): Executor
    requires i < |e.outstanding|
  {
    e.(outstanding := Without(e.outstanding, i), retired := e.retired + {e.outstanding[i].intent.kind})
  }

  function Returned(e: Executor, item: Item): Executor {
    e.(items := e.items + [item])
  }

  function Expire(e: Executor, i: nat, token: Token): (Executor, PollOut)
    requires i < |e.outstanding|
  {
    var intent := e.outstanding[i].intent;
    var result := FailedResult(intent, token, ExpiryFault(intent.kind));
    (FailGeneration(Returned(Retire(e, i), Terminal(result, None, None, e.era))), PollOut([result], None, None))
  }

  /** The completion answers the outstanding intent at i under this token. */
  predicate Answers(e: Executor, c: Completion, token: Token, i: nat) {
    && c.token == token && c.intent.key == token.key
    && i < |e.outstanding| && e.outstanding[i].intent.effectId == c.intent.effectId
  }

  predicate TerminalResult(r: EffectResult, c: Completion, token: Token) {
    && r.status != Pending
    && r.key == token.key && r.kind == c.intent.kind && r.effectId == c.intent.effectId
    && (r.status == Succeeded ==> r.evidence != "")
  }

  predicate Promotable(e: Executor, v: Verification) {
    v.evidence != "" && PREREQUISITES <= e.evidence.Keys && e.candidate.Some?
  }

  function Consume(e: Executor, c: Completion, token: Token, now: real): (Executor, PollOut) {
    var i := Find(e.outstanding, c.intent.kind);
    if !Answers(e, c, token, i) then (e, NOTHING)
    else if c.result.Some? then
      var r := c.result.value;
      if !TerminalResult(r, c, token) then (e, NOTHING)
      else
        var done := Returned(Retire(e, i), Terminal(r, c.session, Some(c.era), e.era));
        (if r.status == Failed then FailGeneration(done)
         else done.(evidence := e.evidence[c.intent.kind := r.evidence],
                    candidate := if c.intent.kind == ModelLoad && c.session.Some? then c.session else e.candidate),
         PollOut([r], None, None))
    else if c.verification.None? || c.verification.value.key != token.key then (e, NOTHING)
    else
      var v := c.verification.value;
      match v.verdict
      case Undecided =>
        (e.(outstanding := e.outstanding[i := Outstanding(e.outstanding[i].intent, now)]), NOTHING)
      case Refused =>
        (FailGeneration(Returned(Retire(e, i), Rejection(v, Some(c.era), e.era))), PollOut([], Some(v), None))
      case Verified =>
        if !Promotable(e, v) then (e, NOTHING)
        else (Returned(Retire(e, i), Promotion(e.candidate.value, v, Some(c.era), e.era)),
              PollOut([], Some(v), e.candidate))
  }

  function Later<T>(a: Option<T>, b: Option<T>): Option<T> {
    if b.Some? then b else a
  }

  function Join(a: PollOut, b: PollOut): PollOut {
    PollOut(a.results + b.results, Later(a.verification, b.verification), Later(a.install, b.install))
  }

  /** Consume these completions in order; the mailbox itself is emptied by the caller. */
  function ConsumeAll(e: Executor, cs: seq<Completion>, token: Token, now: real): (Executor, PollOut) {
    if cs == [] then (e, NOTHING)
    else
      var (before, out) := ConsumeAll(e, cs[..|cs| - 1], token, now);
      var (after, more) := Consume(before, Last(cs), token, now);
      (after, Join(out, more))
  }

  function ObservationOf(e: Executor, p: Outstanding): Observation {
    Observation(p.issued,
                Shown(e.evidence, SelfTest) + Shown(e.evidence, ModelLoad) + Shown(e.evidence, Home),
                if e.candidate.None? then "" else e.candidate.value.identity)
  }

  function Shown(evidence: map<EffectKind, string>, kind: EffectKind): seq<(EffectKind, string)> {
    if kind in evidence then [(kind, evidence[kind])] else []
  }

  /** Hand the oldest outstanding intent to the worker, if the worker is free. */
  function Claim(e: Executor, token: Token): Executor {
    if e.job.None? && e.outstanding != [] && !e.shutdown then
      e.(job := Some(Job(e.outstanding[0].intent, token, false, ObservationOf(e, e.outstanding[0]), e.era)))
    else e
  }

  function Poll(e: Executor, token: Token, now: real, deadline: real): (Executor, PollOut) {
    if e.token != Some(token) then (e, NOTHING)
    else
      var i := FirstOverdue(e.outstanding, now, deadline);
      var (after, out) :=
        if i < |e.outstanding| then Expire(e, i, token)
        else ConsumeAll(e.(mailbox := []), e.mailbox, token, now);
      (Claim(after, token), out)
  }

  function Shutdown(e: Executor): Executor {
    ClearGeneration(e.(shutdown := true))
  }

  // --- The worker -------------------------------------------------------------------------

  /** What a service call came to: an exception, an error, or an answer. */
  datatype Outcome<T> = Raised | Error(code: FaultCode) | Answer(value: T)

  /** Everything a job may meet outside the executor. `factory` is None when none is configured and the
      installed session, if any, stands in; `signalled` says whether cancellation was seen mid-load. */
  datatype World = World(
    probe: Outcome<Option<string>>, factory: Option<Outcome<Session>>, installed: Option<Session>,
    signalled: bool, warmUp: Outcome<bool>, verify: Outcome<Verification>)

  function Done(job: Job, result: EffectResult, session: Option<Session>): Completion {
    Completion(job.intent, job.token, Some(result), None, session, job.era)
  }

  function FailedJob(job: Job, fault: FaultCode): Completion {
    Done(job, FailedResult(job.intent, job.token, fault), None)
  }

  function SucceededResult(intent: Intent, evidence: string): EffectResult {
    EffectResult(intent.key, intent.effectId, intent.kind, Succeeded, NoFault, evidence)
  }

  function PendingResult(intent: Intent): EffectResult {
    EffectResult(intent.key, intent.effectId, intent.kind, Pending, NoFault, "")
  }

  function RunProbe(job: Job, w: World): Completion {
    match w.probe
    case Raised => FailedJob(job, GimbalFault)
    case Error(code) => FailedJob(job, code)
    case Answer(evidence) =>
      if evidence.None? || evidence.value == "" then Done(job, PendingResult(job.intent), None)
      else Done(job, SucceededResult(job.intent, evidence.value), None)
  }

  function LoadedSession(w: World): Outcome<Session> {
    if w.factory.Some? then (if w.factory.value.Raised? then Error(ModelCorrupt) else w.factory.value)
    else if w.installed.None? then Error(ModelCorrupt)
    else Answer(w.installed.value)
  }

  function RunModelLoad(job: Job, w: World): Completion {
    match LoadedSession(w)
    case Raised => FailedJob(job, ModelCorrupt)
    case Error(code) => FailedJob(job, code)
    case Answer(session) =>
      if session.identity == "" then FailedJob(job, ModelCorrupt)
      else if w.signalled then FailedJob(job, InferenceTimeout)
      else match w.warmUp
        case Raised => FailedJob(job, ModelCorrupt)
        case Error(code) => FailedJob(job, code)
        case Answer(_) => Done(job, SucceededResult(job.intent, session.identity), Some(session))
  }

  function RunVerify(job: Job, w: World): Completion {
    match w.verify
    case Raised => FailedJob(job, GimbalFault)
    case Error(code) => FailedJob(job, code)
    case Answer(v) => Completion(job.intent, job.token, None, Some(v), None, job.era)
  }

  function RunJob(job: Job, w: World): Completion {
    match job.intent.kind
    case ModelLoad => RunModelLoad(job, w)
    case SelfTest => RunProbe(job, w)
    case Home => RunProbe(job, w)
    case VerifyInit => RunVerify(job, w)
  }

  /** Appending to a full mailbox drops its oldest completion. */
  function Mail(mailbox: seq<Completion>, c: Completion): seq<Completion> {
    (if |mailbox| < MAILBOX_BOUND then mailbox else mailbox[1..]) + [c]
  }

  /** The worker ends its job: the slot is freed, and the completion mailed unless the job was
      cancelled, the executor shut down, or the token changed. */
  function Complete(e: Executor, w: World): Executor {
    if e.job.None? then e
    else
      var job := e.job.value;
      var freed := e.(job := None);
      if job.cancelled || e.shutdown || e.token != Some(job.token) then freed
      else freed.(mailbox := Mail(e.mailbox, RunJob(job, w)))
  }

  // --- Runs -------------------------------------------------------------------------------

  datatype Step =
    | Submits(intents: seq<Intent>, token: Token, at: real)
    | Polls(token: Token, at: real)
    | Cancels
    | ShutsDown
    | Completes(w: World)

  function Next(e: Executor, step: Step, deadline: real): Executor {
    match step
    case Submits(intents, token, at) => Submit(e, intents, token, at)
    case Polls(token, at) => Poll(e, token, at, deadline).0
    case Cancels => ClearGeneration(e)
    case ShutsDown => Shutdown(e)
    case Completes(w) => Complete(e, w)
  }

  function Run(steps: seq<Step>, deadline: real): Executor {
    if steps == [] then IDLE else Next(Run(steps[..|steps| - 1], deadline), Last(steps), deadline)
  }
}
