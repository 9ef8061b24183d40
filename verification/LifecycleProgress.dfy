/** What the lifecycle executor does for its caller: what a submission registers, what a poll hands to the worker, what
    ends a generation early, and that a generation served in time ends in the promotion of the loaded session. */
module LifecycleProgress {
  import opened Basics
  import opened Lifecycle
  import opened LifecycleProofs

  // --- What a submission registers --------------------------------------------------------

  /** An intent of the token's activation under the effect id of its kind. */
  predicate WellNamed(intent: Intent, token: Token) {
    && intent.key == token.key
    && intent.effectId == (match intent.kind
                           case SelfTest => "selftest"
                           case ModelLoad => "model_load"
                           case Home => "home"
                           case VerifyInit => "verify_init")
  }

  /** The kind is neither waiting nor done with. */
  predicate Unused(e: Executor, kind: EffectKind) {
    kind !in e.retired && forall i :: 0 <= i < |e.outstanding| ==> e.outstanding[i].intent.kind != kind
  }

  /** The i-th intent is the first well-named one of its kind and its kind is unused. */
  predicate Admitted(e: Executor, intents: seq<Intent>, token: Token, i: nat)
    requires i < |intents|
  {
    && WellNamed(intents[i], token)
    && Unused(e, intents[i].kind)
    && forall j :: 0 <= j < i && WellNamed(intents[j], token) ==> intents[j].kind != intents[i].kind
  }

  function Issued(e: Executor, intents: seq<Intent>, token: Token, now: real, n: nat): seq<Outstanding>
    requires n <= |intents|
  {
    if n == 0 then []
    else Issued(e, intents, token, now, n - 1)
         + (if Admitted(e, intents, token, n - 1) then [Outstanding(intents[n - 1], now)] else [])
  }

  lemma {:induction false} IssuedAre(e: Executor, intents: seq<Intent>, token: Token, now: real, n: nat, kind: EffectKind)
    requires n <= |intents|
    ensures kind in KindsOf(Issued(e, intents, token, now, n)) <==>
      Unused(e, kind) && exists i :: 0 <= i < n && WellNamed(intents[i], token) && intents[i].kind == kind
  {
    if n > 0 {
      IssuedAre(e, intents, token, now, n - 1, kind);
      var before, all := Issued(e, intents, token, now, n - 1), Issued(e, intents, token, now, n);
      assert forall p :: p in all <==> p in before || (Admitted(e, intents, token, n - 1) && p == Outstanding(intents[n - 1], now));
      if Admitted(e, intents, token, n - 1) {
        assert Outstanding(intents[n - 1], now) in all;
      }
    }
  }

  lemma {:induction false} RegistersIssued(e: Executor, intents: seq<Intent>, token: Token, now: real, n: nat)
    requires n <= |intents|
    ensures RegisterAll(e, intents[..n], token, now) == e.(outstanding := e.outstanding + Issued(e, intents, token, now, n))
  {
    if n == 0 {
      assert e.outstanding + [] == e.outstanding;
    } else {
      RegistersIssued(e, intents, token, now, n - 1);
      assert intents[..n][..n - 1] == intents[..n - 1];
      var intent, issued := intents[n - 1], Issued(e, intents, token, now, n - 1);
      IssuedAre(e, intents, token, now, n - 1, intent.kind);
      KindsJoin(e.outstanding, issued);
      assert intent.kind in KindsOf(e.outstanding) <==> exists i :: 0 <= i < |e.outstanding| && e.outstanding[i].intent.kind == intent.kind;
      assert Canonical(e.(outstanding := e.outstanding + issued), intent, token) <==> Admitted(e, intents, token, n - 1);
      assert e.outstanding + issued + [Outstanding(intent, now)] == e.outstanding + (issued + [Outstanding(intent, now)]);
      assert e.outstanding + issued + [] == e.outstanding + (issued + []);
    }
  }

  lemma KindsJoin(a: seq<Outstanding>, b: seq<Outstanding>)
    ensures KindsOf(a + b) == KindsOf(a) + KindsOf(b)
  {
  }

  /** A new generation: nothing is left of the one before but its items, and its job is cancelled. */
  predicate StartsOver(e: Executor, begun: Executor) {
    && begun.outstanding == [] && begun.retired == {} && begun.mailbox == [] && begun.evidence == map[] && begun.candidate.None?
    && begun.job == (if e.job.Some? then Some(e.job.value.(cancelled := true)) else None)
    && begun.era == e.era + 1 && begun.items == [] && begun.past == e.past + [e.items] && begun.shutdown == e.shutdown
  }

  /** A submission under the current token goes on with its generation and one under another token starts over; the
      intents admitted then wait in their order behind those already waiting, and nothing else changes. */
  lemma SubmitsExactly(e: Executor, intents: seq<Intent>, token: Token, now: real) returns (begun: Executor)
    ensures begun.token == Some(token)
    ensures if e.token == Some(token) then begun == e else StartsOver(e, begun)
    ensures Submit(e, intents, token, now)
         == begun.(outstanding := begun.outstanding + Issued(begun, intents, token, now, |intents|))
  {
    begun := if e.token == Some(token) then e else ClearGeneration(e).(token := Some(token));
    RegistersIssued(begun, intents, token, now, |intents|);
    assert intents[..|intents|] == intents;
  }

  // --- What a poll hands to the worker ----------------------------------------------------

  /** The evidence of the successes returned so far. */
  function EvidenceOf(items: seq<Item>): map<EffectKind, string> {
    if items == [] then map[]
    else
      var before, x := EvidenceOf(items[..|items| - 1]), Last(items);
      if x.Terminal? && x.result.status == Succeeded then before[x.result.kind := x.result.evidence] else before
  }

  /** The session MODEL_LOAD returned, if nothing has failed since. */
  function CandidateOf(items: seq<Item>): Option<Session> {
    if items == [] then None
    else
      var before, x := CandidateOf(items[..|items| - 1]), Last(items);
      if Failure(x) then None
      else if x.Terminal? && x.result.kind == ModelLoad && x.result.status == Succeeded && x.loaded.Some? then x.loaded
      else before
  }

  predicate Remembers(e: Executor) {
    e.evidence == EvidenceOf(e.items) && e.candidate == CandidateOf(e.items)
  }

  lemma OneMoreRemembered(items: seq<Item>, x: Item)
    ensures EvidenceOf(items + [x])
      == (if x.Terminal? && x.result.status == Succeeded then EvidenceOf(items)[x.result.kind := x.result.evidence]
          else EvidenceOf(items))
    ensures CandidateOf(items + [x])
      == (if Failure(x) then None
          else if x.Terminal? && x.result.kind == ModelLoad && x.result.status == Succeeded && x.loaded.Some? then x.loaded
          else CandidateOf(items))
  {
    assert (items + [x])[..|items|] == items;
  }

  lemma ResultRemembers(e: Executor, c: Completion, token: Token, now: real)
    requires Remembers(e) && c.result.Some?
    ensures Remembers(Consume(e, c, token, now).0)
  {
    OneMoreRemembered(e.items, Terminal(c.result.value, c.session, Some(c.era), e.era));
  }

  lemma ConsumeRemembers(e: Executor, c: Completion, token: Token, now: real)
    requires Remembers(e)
    ensures Remembers(Consume(e, c, token, now).0)
  {
    if c.result.Some? {
      ResultRemembers(e, c, token, now);
    } else if c.verification.Some? {
      OneMoreRemembered(e.items, Rejection(c.verification.value, Some(c.era), e.era));
      if e.candidate.Some? {
        OneMoreRemembered(e.items, Promotion(e.candidate.value, c.verification.value, Some(c.era), e.era));
      }
    }
  }

  lemma {:induction false} DrainRemembers(e: Executor, cs: seq<Completion>, token: Token, now: real)
    requires Remembers(e)
    ensures Remembers(ConsumeAll(e, cs, token, now).0)
  {
    if cs != [] {
      DrainRemembers(e, cs[..|cs| - 1], token, now);
      ConsumeRemembers(ConsumeAll(e, cs[..|cs| - 1], token, now).0, Last(cs), token, now);
    }
  }

  lemma {:induction false} RegisterRemembers(e: Executor, intents: seq<Intent>, token: Token, now: real)
    requires Remembers(e)
    ensures Remembers(RegisterAll(e, intents, token, now))
  {
    if intents != [] {
      RegisterRemembers(e, intents[..|intents| - 1], token, now);
    }
  }

  lemma PollRemembers(e: Executor, token: Token, now: real, deadline: real)
    requires Remembers(e)
    ensures Remembers(Poll(e, token, now, deadline).0)
  {
    var i := FirstOverdue(e.outstanding, now, deadline);
    if i < |e.outstanding| {
      var intent := e.outstanding[i].intent;
      OneMoreRemembered(e.items, Terminal(FailedResult(intent, token, ExpiryFault(intent.kind)), None, None, e.era));
    } else {
      DrainRemembers(e.(mailbox := []), e.mailbox, token, now);
    }
  }

  lemma {:induction false} RemembersOverRuns(steps: seq<Step>, deadline: real)
    ensures Remembers(Run(steps, deadline))
  {
    if steps != [] {
      RemembersOverRuns(steps[..|steps| - 1], deadline);
      var e := Run(steps[..|steps| - 1], deadline);
      match Last(steps)
      case Submits(intents, token, at) =>
        RegisterRemembers(if e.token == Some(token) then e else ClearGeneration(e).(token := Some(token)), intents, token, at);
      case Polls(token, at) => PollRemembers(e, token, at, deadline);
      case Cancels =>
      case ShutsDown =>
      case Completes(w) =>
    }
  }

  function Rank(kind: EffectKind): nat {
    match kind
    case SelfTest => 0
    case ModelLoad => 1
    case Home => 2
    case VerifyInit => 3
  }

  /** What the worker is shown: the issue time, the evidence of every success of this generation, SELFTEST before
      MODEL_LOAD before HOME, and the identity of the loaded session. */
  ghost predicate Informed(o: Observation, p: Outstanding, items: seq<Item>) {
    && o.issued == p.issued
    && (forall i, j :: 0 <= i < j < |o.prerequisites| ==> Rank(o.prerequisites[i].0) < Rank(o.prerequisites[j].0))
    && (forall kind, evidence ::
          (kind, evidence) in o.prerequisites <==> kind in EvidenceOf(items) && EvidenceOf(items)[kind] == evidence)
    && o.candidate == (match CandidateOf(items) case None => "" case Some(session) => session.identity)
  }

  /** What a poll leaves in the worker's slot. */
  ghost predicate Feeds(e: Executor, after: Executor, token: Token) {
    if e.job.Some? then
      after.job.Some? && after.job.value == e.job.value.(cancelled := after.job.value.cancelled)
    else if after.outstanding == [] || e.shutdown then
      after.job.None?
    else
      && after.job.Some?
      && var job := after.job.value;
      && job.intent == after.outstanding[0].intent && job.token == token && !job.cancelled && job.era == after.era
      && Informed(job.observation, after.outstanding[0], after.items)
  }

  lemma ConsumeKeepsSlot(e: Executor, c: Completion, token: Token, now: real)
    ensures var after := Consume(e, c, token, now).0;
      && after.shutdown == e.shutdown && after.job.Some? == e.job.Some?
      && (e.job.Some? ==> after.job.value == e.job.value.(cancelled := after.job.value.cancelled))
  {
  }

  lemma {:induction false} DrainKeepsSlot(e: Executor, cs: seq<Completion>, token: Token, now: real)
    ensures var after := ConsumeAll(e, cs, token, now).0;
      && after.shutdown == e.shutdown && after.job.Some? == e.job.Some?
      && (e.job.Some? ==> after.job.value == e.job.value.(cancelled := after.job.value.cancelled))
  {
    if cs != [] {
      DrainKeepsSlot(e, cs[..|cs| - 1], token, now);
      ConsumeKeepsSlot(ConsumeAll(e, cs[..|cs| - 1], token, now).0, Last(cs), token, now);
    }
  }

  lemma ShownInOrder(evidence: map<EffectKind, string>, i: nat, j: nat)
    requires i < j < |Shown(evidence, SelfTest) + Shown(evidence, ModelLoad) + Shown(evidence, Home)|
    ensures var all := Shown(evidence, SelfTest) + Shown(evidence, ModelLoad) + Shown(evidence, Home);
      Rank(all[i].0) < Rank(all[j].0)
  {
  }

  lemma ClaimInforms(e: Executor, token: Token)
    requires Remembers(e) && e.evidence.Keys <= {SelfTest, ModelLoad, Home}
    requires e.job.None? && e.outstanding != [] && !e.shutdown
    ensures Feeds(e, Claim(e, token), token)
  {
    forall i, j | 0 <= i < j < |ObservationOf(e, e.outstanding[0]).prerequisites|
      ensures Rank(ObservationOf(e, e.outstanding[0]).prerequisites[i].0) < Rank(ObservationOf(e, e.outstanding[0]).prerequisites[j].0)
    {
      ShownInOrder(e.evidence, i, j);
    }
  }

  /** After any run, a poll under the current token finds the worker busy and leaves it its job, or finds it free and
      hands it the oldest intent still outstanding, unless there is none or shutdown has begun; a poll under any other
      token does nothing. */
  lemma PollFeedsWorker(steps: seq<Step>, deadline: real, token: Token, now: real)
    ensures var e := Run(steps, deadline);
      var (after, out) := Poll(e, token, now, deadline);
      if e.token == Some(token) then Feeds(e, after, token) else after == e && out == NOTHING
  {
    var e := Run(steps, deadline);
    InvOverRuns(steps, deadline);
    RemembersOverRuns(steps, deadline);
    if e.token == Some(token) {
      PollKeeps(e, token, now, deadline);
      PollRemembers(e, token, now, deadline);
      DrainKeepsSlot(e.(mailbox := []), e.mailbox, token, now);
      var after := Poll(e, token, now, deadline).0;
      if e.job.None? && after.outstanding != [] && !e.shutdown {
        ClaimInforms(after.(job := None), token);
      }
    }
  }

  // --- What ends a generation early -------------------------------------------------------

  /** The generation is over: nothing waits, what waited is done with, the candidate is gone and the job cancelled. */
  predicate Ended(e: Executor, after: Executor) {
    && after.outstanding == [] && after.candidate.None? && after.era == e.era + 1
    && after.retired == e.retired + (set p | p in e.outstanding :: p.intent.kind)
    && after.job == (if e.job.Some? then Some(e.job.value.(cancelled := true)) else None)
    && after.token == e.token && after.evidence == e.evidence && after.shutdown == e.shutdown && after.past == e.past
  }

  /** As soon as some outstanding intent has waited for the deadline, the next poll under its token reports the first of
      them as failed, MODEL_LOAD for a timeout and any other kind for the gimbal, and the generation is over; what the
      mailbox holds is not looked at. */
  lemma OverdueFails(e: Executor, token: Token, now: real, deadline: real, i: nat)
    requires e.token == Some(token) && i < |e.outstanding| && now - e.outstanding[i].issued >= deadline
    requires forall j :: 0 <= j < i ==> now - e.outstanding[j].issued < deadline
    ensures var (after, out), intent := Poll(e, token, now, deadline), e.outstanding[i].intent;
      var failed := EffectResult(
        token.key, intent.effectId, intent.kind, Failed, if intent.kind == ModelLoad then InferenceTimeout else GimbalFault, "");
      && out == PollOut([failed], None, None)
      && Ended(e, after) && after.mailbox == e.mailbox
      && after.items == e.items + [Terminal(failed, None, None, e.era)]
  {
    EverythingRetires(e, i);
  }

  /** The completion is for the outstanding intent at i, made for this token. */
  predicate For(e: Executor, c: Completion, token: Token, i: nat) {
    && i < |e.outstanding| && e.outstanding[i].intent.kind == c.intent.kind
    && e.outstanding[i].intent.effectId == c.intent.effectId
    && c.token == token && c.intent.key == token.key
  }

  /** A final result of the very effect, with evidence if it succeeded. */
  predicate Final(c: Completion, token: Token) {
    && c.result.Some?
    && var r := c.result.value;
    && r.key == token.key && r.kind == c.intent.kind && r.effectId == c.intent.effectId
    && (r.status == Failed || (r.status == Succeeded && r.evidence != ""))
  }

  predicate Verifying(c: Completion, token: Token, verdict: Verdict) {
    && c.result.None? && c.verification.Some?
    && c.verification.value.key == token.key && c.verification.value.verdict == verdict
  }

  /** All of the executor but the outstanding intent at i, which is done with. */
  predicate Settles(e: Executor, after: Executor, i: nat)
    requires i < |e.outstanding|
  {
    && after.outstanding == e.outstanding[..i] + e.outstanding[i + 1..]
    && after.retired == e.retired + {e.outstanding[i].intent.kind}
    && after.job == e.job && after.era == e.era && after.token == e.token && after.past == e.past && after.shutdown == e.shutdown
  }

  /** What one completion brings about, case by case. */
  ghost predicate Outcome(e: Executor, c: Completion, token: Token, now: real, i: nat, after: Executor, out: PollOut)
    requires i < |e.outstanding|
  {
    if Final(c, token) then
      && out == PollOut([c.result.value], None, None)
      && after.items == e.items + [Terminal(c.result.value, c.session, Some(c.era), e.era)]
      && (if c.result.value.status == Failed then Ended(e, after)
          else
            && Settles(e, after, i)
            && after.evidence == e.evidence[c.intent.kind := c.result.value.evidence]
            && after.candidate == (if c.intent.kind == ModelLoad && c.session.Some? then c.session else e.candidate))
    else if Verifying(c, token, Undecided) then
      && out == NOTHING
      && after == e.(outstanding := after.outstanding)
      && after.outstanding == e.outstanding[..i] + [Outstanding(e.outstanding[i].intent, now)] + e.outstanding[i + 1..]
    else if Verifying(c, token, Refused) then
      && out == PollOut([], c.verification, None)
      && after.items == e.items + [Rejection(c.verification.value, Some(c.era), e.era)]
      && Ended(e, after)
    else if Verifying(c, token, Verified) && c.verification.value.evidence != ""
         && {SelfTest, ModelLoad, Home} <= e.evidence.Keys && e.candidate.Some? then
      && out == PollOut([], c.verification, e.candidate)
      && after.items == e.items + [Promotion(e.candidate.value, c.verification.value, Some(c.era), e.era)]
      && Settles(e, after, i) && after.evidence == e.evidence && after.candidate == e.candidate
    else
      after == e && out == NOTHING
  }

  lemma ResultOutcome(e: Executor, c: Completion, token: Token, now: real, i: nat)
    requires For(e, c, token, i) && i == Find(e.outstanding, c.intent.kind) && c.result.Some?
    ensures Outcome(e, c, token, now, i, Consume(e, c, token, now).0, Consume(e, c, token, now).1)
  {
    EverythingRetires(e, i);
  }

  lemma VerificationOutcome(e: Executor, c: Completion, token: Token, now: real, i: nat)
    requires For(e, c, token, i) && i == Find(e.outstanding, c.intent.kind) && c.result.None?
    ensures Outcome(e, c, token, now, i, Consume(e, c, token, now).0, Consume(e, c, token, now).1)
  {
    if Verifying(c, token, Refused) {
      EverythingRetires(e, i);
    }
  }

  /** A completion that is for no outstanding intent is dropped; one that is has exactly the outcome stated. */
  lemma ConsumesExactly(e: Executor, c: Completion, token: Token, now: real)
    requires forall i, j :: 0 <= i < j < |e.outstanding| ==> e.outstanding[i].intent.kind != e.outstanding[j].intent.kind
    ensures var (after, out) := Consume(e, c, token, now);
      && (forall i :: For(e, c, token, i) ==> Outcome(e, c, token, now, i, after, out))
      && ((forall i :: !For(e, c, token, i)) ==> after == e && out == NOTHING)
  {
    var k := Find(e.outstanding, c.intent.kind);
    if For(e, c, token, k) {
      if c.result.Some? {
        ResultOutcome(e, c, token, now, k);
      } else {
        VerificationOutcome(e, c, token, now, k);
      }
    } else {
      assert !Answers(e, c, token, k);
    }
  }

  // --- What the worker answers ------------------------------------------------------------

  /** The session a load comes to. */
  predicate Provides(w: World, session: Session) {
    || w.factory == Some(Answer(session))
    || (w.factory.None? && w.installed == Some(session))
  }

  /** The service of this kind answers well: a probe with evidence, a load with an identified session that was not
      interrupted and warms up. */
  predicate Serves(w: World, kind: EffectKind, session: Session) {
    match kind
    case SelfTest => w.probe.Answer? && w.probe.value.Some? && w.probe.value.value != ""
    case Home => w.probe.Answer? && w.probe.value.Some? && w.probe.value.value != ""
    case ModelLoad => Provides(w, session) && session.identity != "" && !w.signalled && w.warmUp.Answer?
    case VerifyInit => false
  }

  function Shows(w: World, kind: EffectKind, session: Session): string
    requires Serves(w, kind, session)
  {
    if kind == ModelLoad then session.identity else w.probe.value.value
  }

  /** A prerequisite succeeds exactly if its service answers well, and then with that evidence; otherwise its result is
      a failure, or still pending if a probe has nothing to show yet. */
  lemma WorkerSucceedsExactly(job: Job, w: World, session: Session)
    requires job.intent.kind in {SelfTest, ModelLoad, Home} && (job.intent.kind == ModelLoad ==> Provides(w, session))
    ensures var c, kind := RunJob(job, w), job.intent.kind;
      && c.result.Some? && c.verification.None?
      && c.result.value.key == (if c.result.value.status == Failed then job.token.key else job.intent.key)
      && c.result.value.effectId == job.intent.effectId && c.result.value.kind == kind
      && (c.result.value.status == Succeeded <==> Serves(w, kind, session))
      && (Serves(w, kind, session) ==> c.result.value.evidence == Shows(w, kind, session))
      && (c.result.value.status == Pending <==>
            kind != ModelLoad && w.probe.Answer? && (w.probe.value.None? || w.probe.value.value == ""))
      && (c.result.value.status == Pending ==> c.result.value.evidence == "")
      && (c.result.value.status != Failed ==> c.result.value.fault == NoFault)
      && c.session == (if kind == ModelLoad && Serves(w, kind, session) then Some(session) else None)
  {
  }

  /** The end of a job frees the slot, and leaves its completion last in the mailbox exactly if the job was neither
      cancelled nor overtaken by shutdown or by another token; a mailbox of four loses its oldest for it. */
  lemma MailsExactly(e: Executor, w: World)
    requires e.job.Some?
    ensures var after, job := Complete(e, w), e.job.value;
      && after == e.(job := None, mailbox := after.mailbox)
      && (if !job.cancelled && !e.shutdown && e.token == Some(job.token)
          then after.mailbox != [] && after.mailbox[..|after.mailbox| - 1] == e.mailbox[if |e.mailbox| < 4 then 0 else 1..]
               && Last(after.mailbox) == RunJob(job, w)
          else after.mailbox == e.mailbox)
  {
  }

  /** Why a worker's job fails: a service that raises counts as the gimbal's fault, or for a load as a corrupt model; an
      error is passed on; a session without an identity is corrupt, and one interrupted has timed out. */
  lemma WorkerFailsBecause(job: Job, w: World, session: Session)
    requires RunJob(job, w).result.Some? && RunJob(job, w).result.value.status == Failed
    requires w.factory.Some? && w.factory.value.Answer? ==> w.factory.value.value == session
    requires w.factory.None? && w.installed.Some? ==> w.installed.value == session
    ensures var fault := RunJob(job, w).result.value.fault;
      match job.intent.kind
      case SelfTest => fault == (if w.probe.Error? then w.probe.code else GimbalFault)
      case Home => fault == (if w.probe.Error? then w.probe.code else GimbalFault)
      case VerifyInit => fault == (if w.verify.Error? then w.verify.code else GimbalFault)
      case ModelLoad =>
        fault == (if w.factory.Some? && w.factory.value.Error? then w.factory.value.code
                  else if !Provides(w, session) || session.identity == "" then ModelCorrupt
                  else if w.signalled then InferenceTimeout
                  else if w.warmUp.Error? then w.warmUp.code
                  else ModelCorrupt)
  {
  }

  // --- Progress ---------------------------------------------------------------------------

  /** The worker finishes its job in this world, and then the owner polls. */
  datatype Round = Round(w: World, at: real)

  function Served(e: Executor, r: Round, token: Token, deadline: real): (Executor, PollOut) {
    Poll(Complete(e, r.w), token, r.at, deadline)
  }

  /** Intents that wait: well named, one of a kind, VERIFY_INIT last. */
  predicate Planned(todo: seq<Outstanding>, token: Token) {
    && todo != [] && Last(todo).intent.kind == VerifyInit
    && (forall i :: 0 <= i < |todo| ==> WellNamed(todo[i].intent, token))
    && (forall i, j :: 0 <= i < j < |todo| ==> todo[i].intent.kind != todo[j].intent.kind)
  }

  predicate Awaits(todo: seq<Outstanding>, kind: EffectKind) {
    exists i :: 0 <= i < |todo| && todo[i].intent.kind == kind
  }

  lemma PlannedOn(todo: seq<Outstanding>, token: Token)
    requires Planned(todo, token) && |todo| > 1
    ensures Planned(todo[1..], token) && todo[0].intent.kind in {SelfTest, ModelLoad, Home}
    ensures forall kind :: Awaits(todo, kind) <==> kind == todo[0].intent.kind || Awaits(todo[1..], kind)
  {
    assert todo[0].intent.kind != todo[|todo| - 1].intent.kind;
    forall kind ensures Awaits(todo, kind) <==> kind == todo[0].intent.kind || Awaits(todo[1..], kind) {
      assert todo == [todo[0]] + todo[1..];
      if Awaits(todo[1..], kind) {
        var i :| 0 <= i < |todo| - 1 && todo[1..][i].intent.kind == kind;
        assert todo[i + 1].intent.kind == kind;
      }
      if Awaits(todo, kind) && kind != todo[0].intent.kind {
        var i :| 0 <= i < |todo| && todo[i].intent.kind == kind;
        assert todo[1..][i - 1].intent.kind == kind;
      }
    }
  }

  /** A prerequisite that no longer waits has left its evidence, and MODEL_LOAD the session. */
  predicate Evidenced(todo: seq<Outstanding>, evidence: map<EffectKind, string>, candidate: Option<Session>, session: Session) {
    && (Awaits(todo, SelfTest) || SelfTest in evidence)
    && (Awaits(todo, Home) || Home in evidence)
    && (Awaits(todo, ModelLoad) || (ModelLoad in evidence && candidate == Some(session)))
  }

  predicate Holding(e: Executor, token: Token) {
    && e.outstanding != [] && e.job.Some?
    && e.job.value.intent == e.outstanding[0].intent && e.job.value.token == token && !e.job.value.cancelled
  }

  /** A generation that is going well: the worker has the first of the intents that wait, the others have succeeded. */
  predicate GoingWell(e: Executor, token: Token, session: Session) {
    && e.token == Some(token) && !e.shutdown && e.mailbox == []
    && Planned(e.outstanding, token)
    && Evidenced(e.outstanding, e.evidence, e.candidate, session)
    && Holding(e, token)
  }

  predicate InTime(todo: seq<Outstanding>, now: real, deadline: real) {
    forall i :: 0 <= i < |todo| ==> now - todo[i].issued < deadline
  }

  /** The completion the worker mails, and how the poll after it goes on. */
  lemma ServedConsumes(e: Executor, r: Round, token: Token, session: Session, deadline: real) returns (c: Completion)
    requires GoingWell(e, token, session) && InTime(e.outstanding, r.at, deadline)
    ensures c == RunJob(e.job.value, r.w) && For(e.(job := None), c, token, 0)
    ensures Find(e.outstanding, c.intent.kind) == 0
    ensures var (after, out) := Consume(e.(job := None), c, token, r.at);
      Served(e, r, token, deadline) == (Claim(after, token), out)
  {
    c := RunJob(e.job.value, r.w);
    RunsAreProper(e.job.value, r.w);
    var mailed := Complete(e, r.w);
    assert mailed.(mailbox := []) == e.(job := None);
    assert FirstOverdue(mailed.outstanding, r.at, deadline) == |mailed.outstanding|;
    ConsumeAllIsOne(mailed.(mailbox := []), mailed.mailbox, token, r.at);
  }

  /** The step from one prerequisite to the next intent. */
  lemma GoesOnWell(e: Executor, next: Executor, token: Token, evidence: string, session: Session)
    requires GoingWell(e, token, session) && |e.outstanding| > 1 && next.job.None?
    requires next.outstanding == e.outstanding[1..] && next.token == e.token && !next.shutdown && next.mailbox == []
    requires next.evidence == e.evidence[e.outstanding[0].intent.kind := evidence]
    requires next.candidate == (if e.outstanding[0].intent.kind == ModelLoad then Some(session) else e.candidate)
    ensures GoingWell(Claim(next, token), token, session)
  {
    PlannedOn(e.outstanding, token);
    assert Evidenced(next.outstanding, next.evidence, next.candidate, session);
  }

  /** A success for the first of the intents that wait is taken. */
  lemma SuccessConsumed(e: Executor, c: Completion, token: Token, now: real) returns (next: Executor, out: PollOut)
    requires For(e, c, token, 0) && Final(c, token) && c.result.value.status == Succeeded
    requires forall i, j :: 0 <= i < j < |e.outstanding| ==> e.outstanding[i].intent.kind != e.outstanding[j].intent.kind
    ensures (next, out) == Consume(e, c, token, now)
    ensures out == PollOut([c.result.value], None, None)
    ensures next.outstanding == e.outstanding[1..] && next.evidence == e.evidence[c.intent.kind := c.result.value.evidence]
    ensures next.candidate == (if c.intent.kind == ModelLoad && c.session.Some? then c.session else e.candidate)
    ensures next.job == e.job && next.token == e.token && next.shutdown == e.shutdown && next.mailbox == e.mailbox
  {
    next, out := Consume(e, c, token, now).0, Consume(e, c, token, now).1;
    ConsumesExactly(e, c, token, now);
    assert Outcome(e, c, token, now, 0, next, out);
    assert e.outstanding[..0] + e.outstanding[1..] == e.outstanding[1..];
  }

  lemma JobServed(e: Executor, w: World, token: Token, session: Session)
    requires GoingWell(e, token, session) && |e.outstanding| > 1 && Serves(w, e.outstanding[0].intent.kind, session)
    ensures var c, intent := RunJob(e.job.value, w), e.outstanding[0].intent;
      && Final(c, token)
      && c.result.value == EffectResult(token.key, intent.effectId, intent.kind, Succeeded, NoFault, Shows(w, intent.kind, session))
      && c.session == (if intent.kind == ModelLoad then Some(session) else None)
  {
    PlannedOn(e.outstanding, token);
    WorkerSucceedsExactly(e.job.value, w, session);
  }

  /** One prerequisite served in time is reported as succeeded, and the worker gets the next intent. */
  lemma PrerequisiteServed(e: Executor, r: Round, token: Token, session: Session, deadline: real)
    requires GoingWell(e, token, session) && InTime(e.outstanding, r.at, deadline)
    requires |e.outstanding| > 1 && Serves(r.w, e.outstanding[0].intent.kind, session)
    ensures var (after, out), intent := Served(e, r, token, deadline), e.outstanding[0].intent;
      && GoingWell(after, token, session) && after.outstanding == e.outstanding[1..]
      && out == PollOut(
           [EffectResult(token.key, intent.effectId, intent.kind, Succeeded, NoFault, Shows(r.w, intent.kind, session))], None, None)
  {
    var c := ServedConsumes(e, r, token, session, deadline);
    JobServed(e, r.w, token, session);
    var next, out := SuccessConsumed(e.(job := None), c, token, r.at);
    GoesOnWell(e, next, token, Shows(r.w, e.outstanding[0].intent.kind, session), session);
  }

  predicate Rules(w: World, token: Token, verdict: Verdict) {
    w.verify.Answer? && w.verify.value.key == token.key && w.verify.value.verdict == verdict
  }

  /** Only the verification waits, issued at this time. */
  predicate OnlyVerifies(e: Executor, issued: real) {
    |e.outstanding| == 1 && e.outstanding[0].issued == issued
  }

  /** A verification still undecided is asked for again with a new issue time. */
  lemma VerificationPostponed(e: Executor, r: Round, token: Token, session: Session, issued: real, deadline: real)
    requires GoingWell(e, token, session) && OnlyVerifies(e, issued) && r.at - issued < deadline
    requires Rules(r.w, token, Undecided)
    ensures var (after, out) := Served(e, r, token, deadline);
      && GoingWell(after, token, session) && OnlyVerifies(after, r.at) && out == NOTHING
  {
    var c := ServedConsumes(e, r, token, session, deadline);
    var todo := e.outstanding[0 := Outstanding(e.outstanding[0].intent, r.at)];
    assert forall kind :: Awaits(todo, kind) <==> kind == VerifyInit by {
      assert todo[0].intent.kind == VerifyInit;
    }
    assert forall kind :: Awaits(e.outstanding, kind) <==> kind == VerifyInit by {
      assert e.outstanding[0].intent.kind == VerifyInit;
    }
  }

  /** A verification that holds promotes the loaded session. */
  lemma VerificationServed(e: Executor, r: Round, token: Token, session: Session, issued: real, deadline: real)
    requires GoingWell(e, token, session) && OnlyVerifies(e, issued) && r.at - issued < deadline
    requires Rules(r.w, token, Verified) && r.w.verify.value.evidence != ""
    ensures var (after, out) := Served(e, r, token, deadline);
      && out == PollOut([], Some(r.w.verify.value), Some(session))
      && after.items != [] && Last(after.items).Promotion? && Last(after.items).session == session
      && after.outstanding == [] && after.job.None?
  {
    var c := ServedConsumes(e, r, token, session, deadline);
    assert !Awaits(e.outstanding, SelfTest) && !Awaits(e.outstanding, ModelLoad) && !Awaits(e.outstanding, Home);
  }

  /** Rounds one after another. */
  function AllServed(e: Executor, rounds: seq<Round>, token: Token, deadline: real): Executor {
    if rounds == [] then e
    else Served(AllServed(e, rounds[..|rounds| - 1], token, deadline), Last(rounds), token, deadline).0
  }

  lemma OneMoreServed(e: Executor, rounds: seq<Round>, token: Token, deadline: real, n: nat)
    requires 0 < n <= |rounds|
    ensures AllServed(e, rounds[..n], token, deadline)
         == Served(AllServed(e, rounds[..n - 1], token, deadline), rounds[n - 1], token, deadline).0
  {
    assert rounds[..n][..n - 1] == rounds[..n - 1];
  }

  /** Going well, with the first n of these intents done. */
  predicate ServedTo(e: Executor, todo: seq<Outstanding>, n: nat, token: Token, session: Session)
    requires n <= |todo|
  {
    GoingWell(e, token, session) && e.outstanding == todo[n..]
  }

  lemma NextServed(
    before: Executor, after: Executor, todo: seq<Outstanding>, n: nat, r: Round, token: Token, session: Session, deadline: real)
    requires n + 1 < |todo| && ServedTo(before, todo, n, token, session)
    requires Serves(r.w, todo[n].intent.kind, session) && InTime(todo, r.at, deadline)
    requires after == Served(before, r, token, deadline).0
    ensures ServedTo(after, todo, n + 1, token, session)
  {
    assert before.outstanding[0] == todo[n] && before.outstanding[1..] == todo[n + 1..];
    assert InTime(before.outstanding, r.at, deadline);
    PrerequisiteServed(before, r, token, session, deadline);
  }

  /** The round serves the intent at i, before any intent is overdue. */
  predicate ServesInTime(todo: seq<Outstanding>, rounds: seq<Round>, session: Session, deadline: real, i: nat)
    requires i < |todo| && i < |rounds|
  {
    Serves(rounds[i].w, todo[i].intent.kind, session) && InTime(todo, rounds[i].at, deadline)
  }

  /** The first n rounds serve the first n intents in their order. */
  lemma {:induction false} PrerequisitesServed(
    e: Executor, rounds: seq<Round>, token: Token, session: Session, deadline: real, n: nat)
    requires GoingWell(e, token, session) && n <= |rounds| && n < |e.outstanding|
    requires forall i :: 0 <= i < n ==> ServesInTime(e.outstanding, rounds, session, deadline, i)
    ensures ServedTo(AllServed(e, rounds[..n], token, deadline), e.outstanding, n, token, session)
  {
    if n > 0 {
      PrerequisitesServed(e, rounds, token, session, deadline, n - 1);
      OneMoreServed(e, rounds, token, deadline, n);
      assert ServesInTime(e.outstanding, rounds, session, deadline, n - 1);
      NextServed(AllServed(e, rounds[..n - 1], token, deadline), AllServed(e, rounds[..n], token, deadline), e.outstanding, n - 1,
                 rounds[n - 1], token, session, deadline);
    }
  }

  /** The time from which the n-th undecided round has its deadline. */
  function Since(issued: real, rounds: seq<Round>, n: nat): real
    requires n <= |rounds|
  {
    if n == 0 then issued else rounds[n - 1].at
  }

  lemma {:induction false} VerificationPostponedFor(
    e: Executor, rounds: seq<Round>, token: Token, session: Session, issued: real, deadline: real, n: nat)
    requires GoingWell(e, token, session) && OnlyVerifies(e, issued) && n <= |rounds|
    requires forall i :: 0 <= i < n ==> Rules(rounds[i].w, token, Undecided) && rounds[i].at - Since(issued, rounds, i) < deadline
    ensures var after := AllServed(e, rounds[..n], token, deadline);
      GoingWell(after, token, session) && OnlyVerifies(after, Since(issued, rounds, n))
  {
    if n > 0 {
      OneMoreServed(e, rounds, token, deadline, n);
      VerificationPostponedFor(e, rounds, token, session, issued, deadline, n - 1);
      VerificationPostponed(AllServed(e, rounds[..n - 1], token, deadline), rounds[n - 1], token, session,
                            Since(issued, rounds, n - 1), deadline);
    }
  }

  // --- A whole generation -----------------------------------------------------------------

  /** The canonical intent of a kind. */
  function IntentFor(kind: EffectKind, token: Token): Intent {
    Intent(token.key, match kind case SelfTest => "selftest" case ModelLoad => "model_load" case Home => "home" case VerifyInit => "verify_init", kind)
  }

  /** The three prerequisites in any order, and VERIFY_INIT behind them. */
  predicate AllFour(kinds: seq<EffectKind>) {
    && |kinds| == 4 && kinds[3] == VerifyInit
    && kinds[0] != VerifyInit && kinds[1] != VerifyInit && kinds[2] != VerifyInit
    && kinds[0] != kinds[1] && kinds[0] != kinds[2] && kinds[1] != kinds[2]
  }

  function IntentsFor(kinds: seq<EffectKind>, token: Token): seq<Intent>
    requires |kinds| == 4
  {
    [IntentFor(kinds[0], token), IntentFor(kinds[1], token), IntentFor(kinds[2], token), IntentFor(kinds[3], token)]
  }

  function WaitingFor(kinds: seq<EffectKind>, token: Token, now: real): seq<Outstanding>
    requires |kinds| == 4
  {
    [Outstanding(IntentFor(kinds[0], token), now), Outstanding(IntentFor(kinds[1], token), now),
     Outstanding(IntentFor(kinds[2], token), now), Outstanding(IntentFor(kinds[3], token), now)]
  }

  lemma AllIssued(e: Executor, kinds: seq<EffectKind>, token: Token, now: real)
    requires AllFour(kinds) && e.outstanding == [] && e.retired == {}
    ensures Issued(e, IntentsFor(kinds, token), token, now, 4) == WaitingFor(kinds, token, now)
  {
    var intents, all := IntentsFor(kinds, token), WaitingFor(kinds, token, now);
    assert Admitted(e, intents, token, 0) && Admitted(e, intents, token, 1) && Admitted(e, intents, token, 2) && Admitted(e, intents, token, 3);
    assert Issued(e, intents, token, now, 0) == [];
    assert Issued(e, intents, token, now, 1) == all[..1];
    assert Issued(e, intents, token, now, 2) == all[..2];
    assert Issued(e, intents, token, now, 3) == all[..3];
  }

  lemma AllPlanned(kinds: seq<EffectKind>, token: Token, now: real)
    requires AllFour(kinds)
    ensures Planned(WaitingFor(kinds, token, now), token)
  {
    var todo := WaitingFor(kinds, token, now);
    forall i | 0 <= i < 4 ensures todo[i].intent == IntentFor(kinds[i], token) {
    }
  }

  lemma AllAwaited(kinds: seq<EffectKind>, token: Token, now: real, kind: EffectKind)
    requires AllFour(kinds)
    ensures Awaits(WaitingFor(kinds, token, now), kind)
  {
    var todo := WaitingFor(kinds, token, now);
    var i := if kinds[0] == kind then 0 else if kinds[1] == kind then 1 else if kinds[2] == kind then 2 else 3;
    assert todo[i].intent.kind == kind;
  }

  /** A free worker, nothing in the mailbox and intents in time: the poll starts the first of them. */
  lemma StartsFirst(ready: Executor, token: Token, at: real, deadline: real, session: Session)
    requires ready.job.None? && ready.mailbox == [] && ready.token == Some(token) && !ready.shutdown
    requires Planned(ready.outstanding, token) && InTime(ready.outstanding, at, deadline)
    requires Evidenced(ready.outstanding, ready.evidence, ready.candidate, session)
    ensures var begun := Poll(ready, token, at, deadline).0;
      GoingWell(begun, token, session) && begun.outstanding == ready.outstanding
  {
    assert ready.(mailbox := []) == ready;
    assert FirstOverdue(ready.outstanding, at, deadline) == |ready.outstanding|;
  }

  /** The four are submitted, and the worker ends the job it may have had. */
  function Submitted(e: Executor, w: World, kinds: seq<EffectKind>, token: Token, issued: real): Executor
    requires |kinds| == 4
  {
    Complete(Submit(e, IntentsFor(kinds, token), token, issued), w)
  }

  /** What the last poll returns: the poll that starts the first intent, the rounds that serve the prerequisites, those
      that leave the verification undecided, and one more. */
  function LastPoll(
    ready: Executor, token: Token, at: real, served: seq<Round>, undecided: seq<Round>, last: Round, deadline: real): PollOut
  {
    var begun := Poll(ready, token, at, deadline).0;
    var waited := AllServed(AllServed(begun, served, token, deadline), undecided, token, deadline);
    Served(waited, last, token, deadline).1
  }

  /** Submitted under a new token, with the worker's slot empty or freed by the end of the job cancelled then, the four
      wait for a free worker. */
  lemma SubmitsFour(e: Executor, w: World, kinds: seq<EffectKind>, token: Token, issued: real)
    requires !e.shutdown && e.token != Some(token) && AllFour(kinds)
    ensures var ready := Submitted(e, w, kinds, token, issued);
      && ready.job.None? && ready.mailbox == [] && ready.token == Some(token) && !ready.shutdown
      && ready.outstanding == WaitingFor(kinds, token, issued)
  {
    var begun := SubmitsExactly(e, IntentsFor(kinds, token), token, issued);
    AllIssued(begun, kinds, token, issued);
    assert [] + WaitingFor(kinds, token, issued) == WaitingFor(kinds, token, issued);
  }

  /** The four intents just issued are ready to be worked on. */
  lemma FourWait(
    kinds: seq<EffectKind>, token: Token, issued: real, at: real, evidence: map<EffectKind, string>, candidate: Option<Session>,
    session: Session, deadline: real)
    requires AllFour(kinds) && at - issued < deadline
    ensures var todo := WaitingFor(kinds, token, issued);
      Planned(todo, token) && InTime(todo, at, deadline) && Evidenced(todo, evidence, candidate, session)
  {
    AllPlanned(kinds, token, issued);
    AllAwaited(kinds, token, issued, SelfTest);
    AllAwaited(kinds, token, issued, ModelLoad);
    AllAwaited(kinds, token, issued, Home);
  }

  lemma GenerationServed(
    begun: Executor, kinds: seq<EffectKind>, token: Token, issued: real, served: seq<Round>,
    undecided: seq<Round>, last: Round, session: Session, deadline: real)
    requires GoingWell(begun, token, session) && |kinds| == 4 && begun.outstanding == WaitingFor(kinds, token, issued)
    requires |served| == 3
    requires forall i :: 0 <= i < 3 ==> Serves(served[i].w, kinds[i], session) && served[i].at - issued < deadline
    requires forall i :: 0 <= i < |undecided| ==>
      Rules(undecided[i].w, token, Undecided) && undecided[i].at - Since(issued, undecided, i) < deadline
    requires Rules(last.w, token, Verified) && last.w.verify.value.evidence != ""
    requires last.at - Since(issued, undecided, |undecided|) < deadline
    ensures var waited := AllServed(AllServed(begun, served, token, deadline), undecided, token, deadline);
      Served(waited, last, token, deadline).1 == PollOut([], Some(last.w.verify.value), Some(session))
  {
    AllInTime(begun, kinds, token, issued, served, session, deadline);
    PrerequisitesServed(begun, served, token, session, deadline, 3);
    assert served[..3] == served && undecided[..|undecided|] == undecided;
    var ready := AllServed(begun, served, token, deadline);
    VerificationPostponedFor(ready, undecided, token, session, issued, deadline, |undecided|);
    VerificationServed(AllServed(ready, undecided, token, deadline), last, token, session,
                       Since(issued, undecided, |undecided|), deadline);
  }

  lemma {:induction false} RegisterKeepsRunning(e: Executor, intents: seq<Intent>, token: Token, now: real)
    ensures RegisterAll(e, intents, token, now).shutdown == e.shutdown
  {
    if intents != [] {
      RegisterKeepsRunning(e, intents[..|intents| - 1], token, now);
    }
  }

  predicate Told(steps: seq<Step>) {
    steps != [] && (Told(steps[..|steps| - 1]) || Last(steps).ShutsDown?)
  }

  /** Over every run the executor has shut down exactly if it was told to. */
  lemma {:induction false} StopsWhenTold(steps: seq<Step>, deadline: real)
    ensures Run(steps, deadline).shutdown <==> Told(steps)
  {
    if steps != [] {
      StopsWhenTold(steps[..|steps| - 1], deadline);
      var e := Run(steps[..|steps| - 1], deadline);
      match Last(steps)
      case Submits(intents, token, at) =>
        RegisterKeepsRunning(if e.token == Some(token) then e else ClearGeneration(e).(token := Some(token)), intents, token, at);
      case Polls(token, at) => DrainKeepsSlot(e.(mailbox := []), e.mailbox, token, at);
      case Cancels =>
      case ShutsDown =>
      case Completes(w) =>
    }
  }

  /** Progress: from whatever state a run has reached short of shutdown, submit the four intents under a new token and
      poll; if the worker then serves the prerequisites, is undecided about the verification any number of times and
      finds it good at last, every poll within the deadline of the intents it waits for, the last poll returns the
      session that MODEL_LOAD loaded, for installation. */
  lemma ServedInTimeIsPromoted(
    e: Executor, w: World, kinds: seq<EffectKind>, token: Token, issued: real, at: real, served: seq<Round>,
    undecided: seq<Round>, last: Round, session: Session, deadline: real)
    requires !e.shutdown && e.token != Some(token) && AllFour(kinds) && at - issued < deadline
    requires |served| == 3
    requires forall i :: 0 <= i < 3 ==> Serves(served[i].w, kinds[i], session) && served[i].at - issued < deadline
    requires forall i :: 0 <= i < |undecided| ==>
      Rules(undecided[i].w, token, Undecided) && undecided[i].at - Since(issued, undecided, i) < deadline
    requires Rules(last.w, token, Verified) && last.w.verify.value.evidence != ""
    requires last.at - Since(issued, undecided, |undecided|) < deadline
    ensures LastPoll(Submitted(e, w, kinds, token, issued), token, at, served, undecided, last, deadline)
         == PollOut([], Some(last.w.verify.value), Some(session))
  {
    SubmitsFour(e, w, kinds, token, issued);
    var ready := Submitted(e, w, kinds, token, issued);
    FourWait(kinds, token, issued, at, ready.evidence, ready.candidate, session, deadline);
    StartsFirst(ready, token, at, deadline, session);
    GenerationServed(Poll(ready, token, at, deadline).0, kinds, token, issued, served, undecided, last, session, deadline);
  }

  lemma AllInTime(
    begun: Executor, kinds: seq<EffectKind>, token: Token, issued: real, served: seq<Round>, session: Session, deadline: real)
    requires |kinds| == 4 && |served| == 3 && begun.outstanding == WaitingFor(kinds, token, issued)
    requires forall i :: 0 <= i < 3 ==> Serves(served[i].w, kinds[i], session) && served[i].at - issued < deadline
    ensures forall i :: 0 <= i < 3 ==> ServesInTime(begun.outstanding, served, session, deadline, i)
  {
  }

  // --- A generation submitted in turn -----------------------------------------------------

  /** Between two effects: these kinds are done, each with evidence, and nothing waits. */
  predicate Between(e: Executor, token: Token, past: set<EffectKind>, session: Session) {
    && e.token == Some(token) && !e.shutdown && e.job.None? && e.mailbox == [] && e.outstanding == []
    && e.retired == past && past <= e.evidence.Keys
    && (ModelLoad in past ==> e.candidate == Some(session))
  }

  /** Nothing is done yet: the token is new, and the worker may still have the job of the generation before. */
  predicate Untouched(e: Executor, token: Token, past: set<EffectKind>) {
    e.token != Some(token) && !e.shutdown && past == {}
  }

  /** One effect from submission to report: the intent is submitted, a job of an earlier generation ends if there is one,
      a poll starts the effect, the worker serves it, and the next poll reports it. */
  function Turn(
    e: Executor, kind: EffectKind, token: Token, issued: real, w: World, at: real, r: Round, deadline: real): (Executor, PollOut)
  {
    Served(Started(e, kind, token, issued, w, at, deadline), r, token, deadline)
  }

  function Started(e: Executor, kind: EffectKind, token: Token, issued: real, w: World, at: real, deadline: real): Executor {
    Poll(Complete(Submit(e, [IntentFor(kind, token)], token, issued), w), token, at, deadline).0
  }

  /** The worker has the one intent that waits. */
  predicate Busy(e: Executor, kind: EffectKind, token: Token, issued: real, past: set<EffectKind>, session: Session) {
    && e.token == Some(token) && !e.shutdown && e.mailbox == []
    && e.outstanding == [Outstanding(IntentFor(kind, token), issued)] && Holding(e, token)
    && e.retired == past && past <= e.evidence.Keys
    && (ModelLoad in past ==> e.candidate == Some(session))
  }

  lemma Starts(
    e: Executor, kind: EffectKind, token: Token, issued: real, w: World, at: real, past: set<EffectKind>, session: Session,
    deadline: real)
    requires Between(e, token, past, session) || Untouched(e, token, past)
    requires kind !in past && at - issued < deadline
    ensures Busy(Started(e, kind, token, issued, w, at, deadline), kind, token, issued, past, session)
  {
    var begun := SubmitsExactly(e, [IntentFor(kind, token)], token, issued);
    assert Admitted(begun, [IntentFor(kind, token)], token, 0);
    assert Issued(begun, [IntentFor(kind, token)], token, issued, 0) == [];
    assert Issued(begun, [IntentFor(kind, token)], token, issued, 1) == [Outstanding(IntentFor(kind, token), issued)];
    var ready := Complete(Submit(e, [IntentFor(kind, token)], token, issued), w);
    assert ready.outstanding == [Outstanding(IntentFor(kind, token), issued)] && ready.job.None? && ready.mailbox == [];
    assert ready.(mailbox := []) == ready;
    assert FirstOverdue(ready.outstanding, at, deadline) == 1;
  }

  lemma TurnConsumes(
    e: Executor, kind: EffectKind, token: Token, issued: real, r: Round, past: set<EffectKind>, session: Session, deadline: real)
    returns (c: Completion)
    requires Busy(e, kind, token, issued, past, session) && r.at - issued < deadline
    ensures c == RunJob(e.job.value, r.w) && For(e.(job := None), c, token, 0)
    ensures var (after, out) := Consume(e.(job := None), c, token, r.at);
      Served(e, r, token, deadline) == (Claim(after, token), out)
  {
    c := RunJob(e.job.value, r.w);
    RunsAreProper(e.job.value, r.w);
    var mailed := Complete(e, r.w);
    assert mailed.(mailbox := []) == e.(job := None);
    assert FirstOverdue(mailed.outstanding, r.at, deadline) == 1;
    ConsumeAllIsOne(mailed.(mailbox := []), mailed.mailbox, token, r.at);
  }

  lemma TurnServed(
    e: Executor, kind: EffectKind, token: Token, issued: real, r: Round, past: set<EffectKind>, session: Session, deadline: real)
    requires Busy(e, kind, token, issued, past, session) && r.at - issued < deadline && Serves(r.w, kind, session)
    ensures Between(Served(e, r, token, deadline).0, token, past + {kind}, session)
  {
    var c := TurnConsumes(e, kind, token, issued, r, past, session, deadline);
    WorkerSucceedsExactly(e.job.value, r.w, session);
    ConsumesExactly(e.(job := None), c, token, r.at);
    var (next, out) := Consume(e.(job := None), c, token, r.at);
    assert Outcome(e.(job := None), c, token, r.at, 0, next, out);
  }

  lemma TurnVerified(
    e: Executor, token: Token, issued: real, r: Round, past: set<EffectKind>, session: Session, deadline: real)
    requires Busy(e, VerifyInit, token, issued, past, session) && past == {SelfTest, ModelLoad, Home}
    requires r.at - issued < deadline && Rules(r.w, token, Verified) && r.w.verify.value.evidence != ""
    ensures Served(e, r, token, deadline).1 == PollOut([], Some(r.w.verify.value), Some(session))
  {
    var c := TurnConsumes(e, VerifyInit, token, issued, r, past, session, deadline);
    ConsumesExactly(e.(job := None), c, token, r.at);
    var (next, out) := Consume(e.(job := None), c, token, r.at);
    assert Outcome(e.(job := None), c, token, r.at, 0, next, out);
  }

  /** One turn as the INIT graph takes it: when the intent is issued, when its effect is started and how it is served. */
  datatype Effect = Effect(kind: EffectKind, issued: real, w: World, at: real, r: Round)

  function Taken(e: Executor, x: Effect, token: Token, deadline: real): (Executor, PollOut) {
    Turn(e, x.kind, token, x.issued, x.w, x.at, x.r, deadline)
  }

  predicate Prompt(x: Effect, deadline: real) {
    x.at - x.issued < deadline && x.r.at - x.issued < deadline
  }

  lemma EffectServed(e: Executor, x: Effect, token: Token, past: set<EffectKind>, session: Session, deadline: real)
    requires Between(e, token, past, session) || Untouched(e, token, past)
    requires x.kind !in past && Prompt(x, deadline) && Serves(x.r.w, x.kind, session)
    ensures Between(Taken(e, x, token, deadline).0, token, past + {x.kind}, session)
  {
    Starts(e, x.kind, token, x.issued, x.w, x.at, past, session, deadline);
    TurnServed(Started(e, x.kind, token, x.issued, x.w, x.at, deadline), x.kind, token, x.issued, x.r, past, session, deadline);
  }

  function AllTaken(e: Executor, xs: seq<Effect>, token: Token, deadline: real): Executor {
    if xs == [] then e else Taken(AllTaken(e, xs[..|xs| - 1], token, deadline), Last(xs), token, deadline).0
  }

  function KindsTaken(xs: seq<Effect>): set<EffectKind> {
    if xs == [] then {} else KindsTaken(xs[..|xs| - 1]) + {Last(xs).kind}
  }

  /** Every effect is of a kind not taken before and is served within its deadline. */
  predicate WellTaken(xs: seq<Effect>, session: Session, deadline: real) {
    xs == [] ||
    var front, x := xs[..|xs| - 1], Last(xs);
    WellTaken(front, session, deadline) && x.kind !in KindsTaken(front) && Prompt(x, deadline) && Serves(x.r.w, x.kind, session)
  }

  lemma {:induction false} EffectsServed(e: Executor, xs: seq<Effect>, token: Token, session: Session, deadline: real)
    requires Untouched(e, token, {}) && xs != [] && WellTaken(xs, session, deadline)
    ensures Between(AllTaken(e, xs, token, deadline), token, KindsTaken(xs), session)
  {
    var front := xs[..|xs| - 1];
    if front == [] {
      assert AllTaken(e, front, token, deadline) == e && KindsTaken(front) == {};
    } else {
      EffectsServed(e, front, token, session, deadline);
    }
    EffectServed(AllTaken(e, front, token, deadline), Last(xs), token, KindsTaken(front), session, deadline);
  }

  lemma VerificationTaken(e: Executor, v: Effect, token: Token, session: Session, deadline: real)
    requires Between(e, token, {SelfTest, ModelLoad, Home}, session) && v.kind == VerifyInit && Prompt(v, deadline)
    requires Rules(v.r.w, token, Verified) && v.r.w.verify.value.evidence != ""
    ensures Taken(e, v, token, deadline).1 == PollOut([], Some(v.r.w.verify.value), Some(session))
  {
    var past := {SelfTest, ModelLoad, Home};
    Starts(e, VerifyInit, token, v.issued, v.w, v.at, past, session, deadline);
    TurnVerified(Started(e, VerifyInit, token, v.issued, v.w, v.at, deadline), token, v.issued, v.r, past, session, deadline);
  }

  /** Progress, one effect at a time, as the INIT graph submits them: from any state short of shutdown, the three
      prerequisites in any order and then the verification, each submitted, started, served and reported within its
      deadline: the last poll returns the loaded session for installation. */
  lemma TakenInTurnIsPromoted(e: Executor, xs: seq<Effect>, v: Effect, token: Token, session: Session, deadline: real)
    requires !e.shutdown && e.token != Some(token)
    requires WellTaken(xs, session, deadline) && KindsTaken(xs) == {SelfTest, ModelLoad, Home}
    requires v.kind == VerifyInit && Prompt(v, deadline)
    requires Rules(v.r.w, token, Verified) && v.r.w.verify.value.evidence != ""
    ensures Taken(AllTaken(e, xs, token, deadline), v, token, deadline).1
         == PollOut([], Some(v.r.w.verify.value), Some(session))
  {
    EffectsServed(e, xs, token, session, deadline);
    VerificationTaken(AllTaken(e, xs, token, deadline), v, token, session, deadline);
  }
}
