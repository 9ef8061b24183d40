/** What the lifecycle executor guarantees over every interleaving of submissions, polls,
    cancellations, shutdown and worker completions. */
module LifecycleProofs {
  import opened Basics
  import opened Lifecycle

  // --- Reading a generation's items -------------------------------------------------------

  function KindOf(item: Item): EffectKind {
    if item.Terminal? then item.result.kind else VerifyInit
  }

  function Kinds(items: seq<Item>): set<EffectKind> {
    if items == [] then {} else Kinds(items[..|items| - 1]) + {KindOf(Last(items))}
  }

  predicate Failure(item: Item) {
    item.Rejection? || (item.Terminal? && item.result.status == Failed)
  }

  predicate HasFailure(items: seq<Item>) {
    items != [] && (HasFailure(items[..|items| - 1]) || Failure(Last(items)))
  }

  predicate HasPromotion(items: seq<Item>) {
    items != [] && (HasPromotion(items[..|items| - 1]) || Last(items).Promotion?)
  }

  /** The kind succeeded, with this evidence. */
  predicate SucceededIn(items: seq<Item>, kind: EffectKind, evidence: string) {
    exists x :: x in items && x.Terminal? && x.result.kind == kind && x.result.status == Succeeded
      && x.result.evidence == evidence
  }

  /** MODEL_LOAD succeeded and loaded this session. */
  predicate LoadedIn(items: seq<Item>, session: Session) {
    exists x :: x in items && x.Terminal? && x.result.kind == ModelLoad && x.result.status == Succeeded
      && x.loaded == Some(session)
  }

  ghost predicate Earned(items: seq<Item>, kind: EffectKind) {
    exists evidence :: evidence != "" && SucceededIn(items, kind, evidence)
  }

  /** What may be returned after `before`: a kind not yet resolved, claimed in the era it is returned
      in, nothing after a promotion, and a promotion only if all prerequisites succeeded, nothing
      failed, and the session is the one loaded. */
  ghost predicate Allowed(before: seq<Item>, item: Item) {
    && KindOf(item) !in Kinds(before)
    && !HasPromotion(before)
    && (item.claimed.Some? ==> item.claimed.value == item.era)
    && (item.Terminal? ==> item.result.status != Pending)
    && (item.Promotion? ==>
          && item.claimed.Some?
          && item.verification.verdict == Verified && item.verification.evidence != ""
          && (forall kind :: kind in PREREQUISITES ==> Earned(before, kind))
          && LoadedIn(before, item.session)
          && !HasFailure(before))
  }

  ghost predicate Sound(items: seq<Item>) {
    items == [] || (Sound(items[..|items| - 1]) && Allowed(items[..|items| - 1], Last(items)))
  }

  lemma OneMore(items: seq<Item>, item: Item)
    ensures (items + [item])[..|items|] == items && Last(items + [item]) == item
    ensures Kinds(items + [item]) == Kinds(items) + {KindOf(item)}
    ensures HasFailure(items + [item]) <==> HasFailure(items) || Failure(item)
    ensures HasPromotion(items + [item]) <==> HasPromotion(items) || item.Promotion?
    ensures Sound(items) && Allowed(items, item) ==> Sound(items + [item])
  {
  }

  lemma SuccessStays(items: seq<Item>, item: Item, kind: EffectKind, evidence: string)
    requires SucceededIn(items, kind, evidence)
    ensures SucceededIn(items + [item], kind, evidence)
  {
  }

  lemma LoadStays(items: seq<Item>, item: Item, session: Session)
    requires LoadedIn(items, session)
    ensures LoadedIn(items + [item], session)
  {
  }

  // --- The invariant ----------------------------------------------------------------------

  /** At most one outstanding intent of a kind, and none of a retired kind. */
  predicate Distinct(outstanding: seq<Outstanding>, retired: set<EffectKind>) {
    && (forall i, j :: 0 <= i < j < |outstanding| ==> outstanding[i].intent.kind != outstanding[j].intent.kind)
    && (forall i :: 0 <= i < |outstanding| ==> outstanding[i].intent.kind !in retired)
  }

  /** A completion as some worker run may produce it. */
  predicate Proper(c: Completion) {
    && (c.result.Some? <==> c.verification.None?)
    && (c.verification.Some? ==> c.intent.kind == VerifyInit)
    && (c.result.Some? && c.intent.kind == VerifyInit ==> c.result.value.status == Failed)
    && (c.result.Some? && c.result.value.status == Succeeded && c.intent.kind == ModelLoad ==> c.session.Some?)
  }

  /** A kind claimed in `claimed` is still outstanding with no failure since, or it is retired. */
  predicate Open(e: Executor, kind: EffectKind, claimed: nat) {
    kind in e.retired || (claimed == e.era && kind in KindsOf(e.outstanding))
  }

  /** A queued completion belongs to this generation. */
  predicate Current(e: Executor, c: Completion) {
    Proper(c) && e.token == Some(c.token) && Open(e, c.intent.kind, c.era)
  }

  /** The worker slot and the mailbox: one or the other, never both, and never more than one. */
  predicate Slots(e: Executor) {
    && |e.mailbox| <= 1
    && (e.job.Some? ==> e.mailbox == [])
    && (e.job.Some? && !e.job.value.cancelled ==>
          e.token == Some(e.job.value.token) && e.job.value.era == e.era && Open(e, e.job.value.intent.kind, e.era))
    && (forall c :: c in e.mailbox ==> Current(e, c))
  }

  /** Some prerequisite can no longer succeed, or verification is over. */
  predicate Blocked(retired: set<EffectKind>, evidence: map<EffectKind, string>) {
    VerifyInit in retired || exists kind :: kind in PREREQUISITES && kind in retired && kind !in evidence
  }

  /** The executor's fields agree with what it has returned in this generation. */
  ghost predicate Ledger(
    items: seq<Item>, retired: set<EffectKind>, evidence: map<EffectKind, string>, candidate: Option<Session>)
  {
    && Sound(items)
    && Kinds(items) <= retired
    && evidence.Keys <= retired && evidence.Keys <= PREREQUISITES
    && (forall kind :: kind in evidence ==> evidence[kind] != "" && SucceededIn(items, kind, evidence[kind]))
    && (candidate.Some? ==> LoadedIn(items, candidate.value))
    && (HasFailure(items) ==> Blocked(retired, evidence))
    && (HasPromotion(items) ==> VerifyInit in retired && PREREQUISITES <= evidence.Keys)
  }

  ghost predicate AllSound(past: seq<seq<Item>>) {
    forall i :: 0 <= i < |past| ==> Sound(past[i])
  }

  ghost predicate Inv(e: Executor) {
    && Distinct(e.outstanding, e.retired)
    && Slots(e)
    && Ledger(e.items, e.retired, e.evidence, e.candidate)
    && AllSound(e.past)
  }

  // --- Steps that return nothing ----------------------------------------------------------

  lemma ClearKeeps(e: Executor)
    requires Inv(e)
    ensures Inv(ClearGeneration(e))
  {
  }

  lemma RegisterKeeps(e: Executor, intent: Intent, token: Token, now: real)
    requires Inv(e)
    ensures Inv(Register(e, intent, token, now))
  {
    forall i | 0 <= i < |e.outstanding| ensures e.outstanding[i].intent.kind in KindsOf(e.outstanding) {
      assert e.outstanding[i] in e.outstanding;
    }
  }

  lemma {:induction false} SubmitKeeps(e: Executor, intents: seq<Intent>, token: Token, now: real)
    requires Inv(e)
    ensures Inv(RegisterAll(e, intents, token, now))
  {
    if intents != [] {
      SubmitKeeps(e, intents[..|intents| - 1], token, now);
      RegisterKeeps(RegisterAll(e, intents[..|intents| - 1], token, now), Last(intents), token, now);
    }
  }

  lemma RunsAreProper(job: Job, w: World)
    ensures var c := RunJob(job, w);
      Proper(c) && c.intent == job.intent && c.token == job.token && c.era == job.era
  {
  }

  /** The mailbox is empty when a completion is mailed, so its bound never costs a completion. */
  lemma CompleteKeeps(e: Executor, w: World)
    requires Inv(e)
    ensures Inv(Complete(e, w))
    ensures e.job.Some? ==> e.mailbox == []
    ensures forall c :: c in Complete(e, w).mailbox && c !in e.mailbox ==>
      e.job.Some? && !e.job.value.cancelled && c.era == e.era && Some(c.token) == e.token
  {
    if e.job.Some? {
      RunsAreProper(e.job.value, w);
    }
  }

  lemma ClaimKeeps(e: Executor, token: Token)
    requires Inv(e) && e.token == Some(token) && e.mailbox == []
    ensures Inv(Claim(e, token))
  {
  }

  // --- Returning an item ------------------------------------------------------------------

  lemma RetireFacts(e: Executor, i: nat)
    requires Distinct(e.outstanding, e.retired) && i < |e.outstanding|
    ensures var r := Retire(e, i);
      Distinct(r.outstanding, r.retired) && e.outstanding[i].intent.kind !in e.retired
  {
  }

  lemma FourKinds(kind: EffectKind)
    ensures kind in PREREQUISITES || kind == VerifyInit
  {
  }

  /** A failure of an outstanding kind: allowed, and the generation can promote nothing afterwards. */
  lemma FailureLedger(
    items: seq<Item>, retired: set<EffectKind>, evidence: map<EffectKind, string>, candidate: Option<Session>,
    item: Item, more: set<EffectKind>)
    requires Ledger(items, retired, evidence, candidate) && Failure(item)
    requires KindOf(item) !in retired && KindOf(item) in more
    requires item.claimed.Some? ==> item.claimed.value == item.era
    ensures Allowed(items, item)
    ensures Ledger(items + [item], retired + more, evidence, None)
  {
    OneMore(items, item);
    FourKinds(KindOf(item));
    assert KindOf(item) in retired + more && KindOf(item) !in evidence;
    forall kind | kind in evidence ensures SucceededIn(items + [item], kind, evidence[kind]) {
      SuccessStays(items, item, kind, evidence[kind]);
    }
  }

  lemma SuccessLedger(
    items: seq<Item>, retired: set<EffectKind>, evidence: map<EffectKind, string>, candidate: Option<Session>,
    item: Item, after: Option<Session>)
    requires Ledger(items, retired, evidence, candidate)
    requires item.Terminal? && item.result.status == Succeeded && item.result.evidence != ""
    requires item.result.kind !in retired && item.result.kind in PREREQUISITES
    requires item.claimed.Some? ==> item.claimed.value == item.era
    requires after == if item.result.kind == ModelLoad && item.loaded.Some? then item.loaded else candidate
    ensures Allowed(items, item)
    ensures Ledger(items + [item], retired + {item.result.kind}, evidence[item.result.kind := item.result.evidence], after)
  {
    var more, kind := items + [item], item.result.kind;
    var grown := evidence[kind := item.result.evidence];
    OneMore(items, item);
    assert item in more;
    assert SucceededIn(more, kind, item.result.evidence);
    forall k | k in grown ensures grown[k] != "" && SucceededIn(more, k, grown[k]) {
      if k != kind {
        SuccessStays(items, item, k, evidence[k]);
      }
    }
    if after.Some? && !(kind == ModelLoad && item.loaded.Some?) {
      LoadStays(items, item, after.value);
    }
    if HasFailure(items) && VerifyInit !in retired {
      var k :| k in PREREQUISITES && k in retired && k !in evidence;
      assert k in retired + {kind} && k !in grown;
    }
  }

  lemma PromotionLedger(
    items: seq<Item>, retired: set<EffectKind>, evidence: map<EffectKind, string>, candidate: Option<Session>, item: Item)
    requires Ledger(items, retired, evidence, candidate) && item.Promotion?
    requires VerifyInit !in retired && PREREQUISITES <= evidence.Keys && candidate == Some(item.session)
    requires item.verification.verdict == Verified && item.verification.evidence != ""
    requires item.claimed == Some(item.era)
    ensures Allowed(items, item)
    ensures Ledger(items + [item], retired + {VerifyInit}, evidence, candidate)
  {
    OneMore(items, item);
    forall kind | kind in PREREQUISITES ensures Earned(items, kind) {
      assert evidence[kind] != "" && SucceededIn(items, kind, evidence[kind]);
    }
    forall kind | kind in evidence ensures SucceededIn(items + [item], kind, evidence[kind]) {
      SuccessStays(items, item, kind, evidence[kind]);
    }
    LoadStays(items, item, item.session);
  }

  // --- Polling ----------------------------------------------------------------------------

  lemma ExpireKeeps(e: Executor, i: nat, token: Token)
    requires Inv(e) && i < |e.outstanding|
    ensures Inv(Expire(e, i, token).0)
  {
    var p := e.outstanding[i];
    var item := Terminal(FailedResult(p.intent, token, ExpiryFault(p.intent.kind)), None, None, e.era);
    RetireFacts(e, i);
    var more := {p.intent.kind} + KindsOf(Without(e.outstanding, i));
    FailureLedger(e.items, e.retired, e.evidence, e.candidate, item, more);
    assert e.retired + more == e.retired + {p.intent.kind} + KindsOf(Without(e.outstanding, i));
    EverythingRetires(e, i);
  }

  /** After a failure every intent that was outstanding is retired. */
  lemma EverythingRetires(e: Executor, i: nat)
    requires i < |e.outstanding|
    ensures KindsOf(e.outstanding) == {e.outstanding[i].intent.kind} + KindsOf(Without(e.outstanding, i))
  {
  }

  /** What a poll hands to its caller for an item. */
  function Report(item: Item): PollOut {
    match item
    case Terminal(result, _, _, _) => PollOut([result], None, None)
    case Rejection(v, _, _) => PollOut([], Some(v), None)
    case Promotion(session, v, _, _) => PollOut([], Some(v), Some(session))
  }

  /** The step returned at most one item, and told its caller exactly that. */
  predicate Reported(e: Executor, after: Executor, out: PollOut) {
    || (after.items == e.items && out == NOTHING)
    || (|after.items| == |e.items| + 1 && after.items == e.items + [Last(after.items)] && out == Report(Last(after.items)))
  }

  /** A completion that answers an outstanding intent was claimed since the last failure. */
  lemma AnswersAreCurrent(e: Executor, c: Completion, token: Token)
    requires Inv(e) && Current(e, c) && Answers(e, c, token, Find(e.outstanding, c.intent.kind))
    ensures c.era == e.era && c.intent.kind !in e.retired
  {
  }

  lemma ConsumeResultKeeps(e: Executor, c: Completion, token: Token, now: real)
    requires Inv(e) && Current(e, c) && Drained(e, token) && c.result.Some?
    ensures var (after, out) := Consume(e, c, token, now); Inv(after) && Reported(e, after, out)
  {
    var i := Find(e.outstanding, c.intent.kind);
    if Answers(e, c, token, i) && TerminalResult(c.result.value, c, token) {
      var r := c.result.value;
      var item := Terminal(r, c.session, Some(c.era), e.era);
      AnswersAreCurrent(e, c, token);
      RetireFacts(e, i);
      if r.status == Failed {
        var rest := KindsOf(Without(e.outstanding, i));
        FailureLedger(e.items, e.retired, e.evidence, e.candidate, item, {c.intent.kind} + rest);
        assert e.retired + ({c.intent.kind} + rest) == e.retired + {c.intent.kind} + rest;
      } else {
        FourKinds(c.intent.kind);
        var after := Consume(e, c, token, now).0;
        SuccessLedger(e.items, e.retired, e.evidence, e.candidate, item, after.candidate);
      }
    }
  }

  predicate Verifies(e: Executor, c: Completion, token: Token, verdict: Verdict) {
    && c.result.None? && c.verification.Some?
    && c.verification.value.key == token.key && c.verification.value.verdict == verdict
    && Answers(e, c, token, Find(e.outstanding, c.intent.kind))
  }

  predicate Drained(e: Executor, token: Token) {
    e.job.None? && e.mailbox == [] && e.token == Some(token)
  }

  lemma RearmKeeps(e: Executor, c: Completion, token: Token, now: real)
    requires Inv(e) && Current(e, c) && Drained(e, token) && Verifies(e, c, token, Undecided)
    ensures var (after, out) := Consume(e, c, token, now); Inv(after) && Reported(e, after, out)
  {
  }

  lemma RefusalKeeps(e: Executor, c: Completion, token: Token, now: real)
    requires Inv(e) && Current(e, c) && Drained(e, token) && Verifies(e, c, token, Refused)
    ensures var (after, out) := Consume(e, c, token, now); Inv(after) && Reported(e, after, out)
  {
    var i, v := Find(e.outstanding, c.intent.kind), c.verification.value;
    AnswersAreCurrent(e, c, token);
    RetireFacts(e, i);
    var rest := KindsOf(Without(e.outstanding, i));
    FailureLedger(e.items, e.retired, e.evidence, e.candidate, Rejection(v, Some(c.era), e.era), {VerifyInit} + rest);
    assert e.retired + ({VerifyInit} + rest) == e.retired + {VerifyInit} + rest;
  }

  lemma PromotionKeeps(e: Executor, c: Completion, token: Token, now: real)
    requires Inv(e) && Current(e, c) && Drained(e, token) && Verifies(e, c, token, Verified)
    ensures var (after, out) := Consume(e, c, token, now); Inv(after) && Reported(e, after, out)
  {
    var v := c.verification.value;
    AnswersAreCurrent(e, c, token);
    RetireFacts(e, Find(e.outstanding, c.intent.kind));
    if Promotable(e, v) {
      PromotionLedger(e.items, e.retired, e.evidence, e.candidate, Promotion(e.candidate.value, v, Some(c.era), e.era));
    }
  }

  lemma ConsumeKeeps(e: Executor, c: Completion, token: Token, now: real)
    requires Inv(e) && Current(e, c) && Drained(e, token)
    ensures var (after, out) := Consume(e, c, token, now); Inv(after) && Reported(e, after, out)
  {
    if c.result.Some? {
      ConsumeResultKeeps(e, c, token, now);
    } else if Verifies(e, c, token, Undecided) {
      RearmKeeps(e, c, token, now);
    } else if Verifies(e, c, token, Refused) {
      RefusalKeeps(e, c, token, now);
    } else if Verifies(e, c, token, Verified) {
      PromotionKeeps(e, c, token, now);
    }
  }

  /** A completion claimed before a cancellation or a failure changes nothing and returns nothing. */
  lemma StaleCompletionIgnored(e: Executor, c: Completion, token: Token, now: real)
    requires Inv(e) && Current(e, c) && c.era != e.era
    ensures Consume(e, c, token, now) == (e, NOTHING)
  {
  }

  lemma ConsumeAllIsOne(e: Executor, cs: seq<Completion>, token: Token, now: real)
    requires |cs| <= 1
    ensures ConsumeAll(e, cs, token, now) == (if cs == [] then (e, NOTHING) else Consume(e, cs[0], token, now))
  {
    if cs != [] {
      assert cs[..0] == [];
      assert ConsumeAll(e, cs[..0], token, now) == (e, NOTHING);
      var out := Consume(e, cs[0], token, now).1;
      assert [] + out.results == out.results;
    }
  }

  lemma DrainKeeps(e: Executor, token: Token, now: real)
    requires Inv(e) && e.token == Some(token)
    ensures var (after, out) := ConsumeAll(e.(mailbox := []), e.mailbox, token, now);
      Inv(after) && Reported(e, after, out) && after.mailbox == [] && (after.token == e.token)
  {
    ConsumeAllIsOne(e.(mailbox := []), e.mailbox, token, now);
    if e.mailbox != [] {
      var c := e.mailbox[0];
      assert c in e.mailbox;
      ConsumeKeeps(e.(mailbox := []), c, token, now);
    }
  }

  /** A poll returns at most one item; an expiry keeps the mailbox for later. A promotion is returned
      only when no outstanding intent, the verification's included, has reached its deadline. */
  lemma PollKeeps(e: Executor, token: Token, now: real, deadline: real)
    requires Inv(e)
    ensures var (after, out) := Poll(e, token, now, deadline);
      && Inv(after) && Reported(e, after, out)
      && (out.install.Some? ==>
            && (forall i :: 0 <= i < |e.outstanding| ==> now - e.outstanding[i].issued < deadline)
            && VerifyInit in KindsOf(e.outstanding))
  {
    if e.token == Some(token) {
      var i := FirstOverdue(e.outstanding, now, deadline);
      if i < |e.outstanding| {
        ExpireKeeps(e, i, token);
      } else {
        DrainKeeps(e, token, now);
        var (after, out) := ConsumeAll(e.(mailbox := []), e.mailbox, token, now);
        ClaimKeeps(after, token);
        if out.install.Some? {
          PromotionWasOutstanding(e, token, now);
        }
      }
    }
  }

  lemma PromotionWasOutstanding(e: Executor, token: Token, now: real)
    requires Inv(e)
    requires ConsumeAll(e.(mailbox := []), e.mailbox, token, now).1.install.Some?
    ensures VerifyInit in KindsOf(e.outstanding)
  {
    ConsumeAllIsOne(e.(mailbox := []), e.mailbox, token, now);
    var c := e.mailbox[0];
    assert c in e.mailbox;
    var i := Find(e.outstanding, c.intent.kind);
    assert e.outstanding[i] in e.outstanding;
  }

  // --- Runs -------------------------------------------------------------------------------

  lemma StepKeeps(e: Executor, step: Step, deadline: real)
    requires Inv(e)
    ensures Inv(Next(e, step, deadline))
  {
    match step
    case Submits(intents, token, at) =>
      ClearKeeps(e);
      SubmitKeeps(if e.token == Some(token) then e else ClearGeneration(e).(token := Some(token)), intents, token, at);
    case Polls(token, at) => PollKeeps(e, token, at, deadline);
    case Cancels => ClearKeeps(e);
    case ShutsDown => ClearKeeps(e.(shutdown := true));
    case Completes(w) => CompleteKeeps(e, w);
  }

  lemma {:induction false} InvOverRuns(steps: seq<Step>, deadline: real)
    ensures Inv(Run(steps, deadline))
  {
    if steps != [] {
      InvOverRuns(steps[..|steps| - 1], deadline);
      StepKeeps(Run(steps[..|steps| - 1], deadline), Last(steps), deadline);
    }
  }

  /** The generations of a run, the last one still going on. */
  function Generations(e: Executor): seq<seq<Item>> {
    e.past + [e.items]
  }

  lemma {:induction false} SoundAt(items: seq<Item>, i: nat)
    requires Sound(items) && i < |items|
    ensures Allowed(items[..i], items[i])
  {
    var front := items[..|items| - 1];
    if i < |front| {
      SoundAt(front, i);
      assert front[..i] == items[..i];
    }
  }

  lemma {:induction false} InKinds(items: seq<Item>, i: nat)
    requires i < |items|
    ensures KindOf(items[i]) in Kinds(items)
    ensures Failure(items[i]) ==> HasFailure(items)
    ensures items[i].Promotion? ==> HasPromotion(items)
  {
    if i < |items| - 1 {
      InKinds(items[..|items| - 1], i);
    }
  }

  /** Over every run, whatever a poll returned for a completion was claimed in the era it was returned
      in: no cancellation, token change, failure or shutdown came in between. */
  lemma ReturnedInItsEra(steps: seq<Step>, deadline: real, g: nat, i: nat)
    requires var gs := Generations(Run(steps, deadline)); g < |gs| && i < |gs[g]|
    ensures var item := Generations(Run(steps, deadline))[g][i];
      item.claimed.Some? ==> item.claimed.value == item.era
  {
    InvOverRuns(steps, deadline);
    SoundAt(Generations(Run(steps, deadline))[g], i);
  }

  /** Over every run, in every generation: each kind is resolved at most once, there is at most one
      promotion and it is the last item, and it shares its generation with no failure. */
  lemma GenerationsAreSound(steps: seq<Step>, deadline: real, g: nat, i: nat, j: nat)
    requires var gs := Generations(Run(steps, deadline)); g < |gs| && i < j < |gs[g]|
    ensures var items := Generations(Run(steps, deadline))[g];
      && KindOf(items[i]) != KindOf(items[j])
      && !items[i].Promotion?
      && (items[j].Promotion? ==> !Failure(items[i]))
  {
    InvOverRuns(steps, deadline);
    var items := Generations(Run(steps, deadline))[g];
    SoundAt(items, j);
    InKinds(items[..j], i);
  }

  /** A promotion over any run: SELFTEST, MODEL_LOAD and HOME succeeded before it in its generation with
      evidence, and the session promoted is the one that MODEL_LOAD loaded. */
  lemma PromotionIsEarned(steps: seq<Step>, deadline: real, g: nat, i: nat)
    requires var gs := Generations(Run(steps, deadline)); g < |gs| && i < |gs[g]| && gs[g][i].Promotion?
    ensures var items := Generations(Run(steps, deadline))[g];
      && Earned(items[..i], SelfTest) && Earned(items[..i], ModelLoad) && Earned(items[..i], Home)
      && LoadedIn(items[..i], items[i].session)
      && items[i].verification.verdict == Verified && items[i].verification.evidence != ""
  {
    InvOverRuns(steps, deadline);
    SoundAt(Generations(Run(steps, deadline))[g], i);
  }

  /** Over every run the mailbox holds at most one completion, and none while the worker has a job. */
  lemma MailboxNeverOverflows(steps: seq<Step>, deadline: real)
    ensures var e := Run(steps, deadline); |e.mailbox| <= 1 && (e.job.Some? ==> e.mailbox == [])
  {
    InvOverRuns(steps, deadline);
  }

  /** From any reachable state, however the run goes on after a cancellation, the job that was running
      is never mailed: the slot is freed with the mailbox as it was. */
  lemma CancelledJobIsDropped(e: Executor, w: World)
    requires e.job.Some?
    ensures Complete(ClearGeneration(e), w).mailbox == [] && Complete(ClearGeneration(e), w).job.None?
    ensures Complete(FailGeneration(e), w).mailbox == e.mailbox && Complete(FailGeneration(e), w).job.None?
  {
  }
}
