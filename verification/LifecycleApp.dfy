/** The lifecycle executor with its fields, refining module Lifecycle; each method is one section the
    original runs under its condition lock. */
module LifecycleShell {
  import opened Basics
  import opened Lifecycle

  class LifecycleExecutor {
    const deadline: real
    var stopped: bool
    var token: Option<Token>
    var outstanding: seq<Outstanding>   // in order of issue
    var retired: set<EffectKind>
    var job: Option<Job>
    var mailbox: seq<Completion>
    var evidence: map<EffectKind, string>
    var candidate: Option<Session>
    // History: nothing below decides what a method does.
    var era: nat
    ghost var items: seq<Item>
    ghost var past: seq<seq<Item>>

    constructor (deadline: real)
      ensures this.deadline == deadline && State() == IDLE
    {
      this.deadline := deadline;
      stopped, token, outstanding, retired, job := false, None, [], {}, None;
      mailbox, evidence, candidate := [], map[], None;
      era, items, past := 0, [], [];
    }

    ghost function State(): Executor
      reads this
    {
      Executor(stopped, token, outstanding, retired, job, mailbox, evidence, candidate, era, items, past)
    }

    method ClearLocked()
      modifies this
      ensures State() == ClearGeneration(old(State()))
    {
      if job.Some? {
        job := Some(job.value.(cancelled := true));
      }
      token := None;
      outstanding, retired, mailbox, evidence, candidate := [], {}, [], map[], None;
      era, past, items := era + 1, past + [items], [];
    }

    method FailLocked()
      modifies this`job, this`retired, this`outstanding, this`candidate, this`era
      ensures State() == FailGeneration(old(State()))
    {
      if job.Some? {
        job := Some(job.value.(cancelled := true));
      }
      retired := retired + KindsOf(outstanding);
      outstanding, candidate := [], None;
      era := era + 1;
    }

    method Cancel()
      modifies this
      ensures State() == ClearGeneration(old(State()))
    {
      ClearLocked();
    }

    method Shutdown()
      modifies this
      ensures State() == Lifecycle.Shutdown(old(State()))
    {
      stopped := true;
      ClearLocked();
    }

    method Submit(intents: seq<Intent>, token: Token, now: real)
      modifies this
      ensures State() == Lifecycle.Submit(old(State()), intents, token, now)
    {
      if this.token != Some(token) {
        ClearLocked();
        this.token := Some(token);
      }
      ghost var start := State();
      for i := 0 to |intents|
        invariant State() == RegisterAll(start, intents[..i], token, now)
      {
        assert intents[..i + 1][..i] == intents[..i];
        var intent := intents[i];
        if intent.key != token.key || intent.effectId != EffectName(intent.kind)
           || intent.kind in KindsOf(outstanding) || intent.kind in retired {
          continue;
        }
        outstanding := outstanding + [Outstanding(intent, now)];
      }
      assert intents[..|intents|] == intents;
    }

    method Poll(token: Token, now: real) returns (out: PollOut)
      modifies this
      ensures (State(), out) == Lifecycle.Poll(old(State()), token, now, deadline)
    {
      out := NOTHING;
      if this.token != Some(token) {
        return;
      }
      var overdue := FindOverdue(now);
      if overdue < |outstanding| {
        out := ExpireLocked(overdue, token);
      } else {
        out := DrainMailbox(token, now);
      }
      ClaimLocked(token);
    }

    /** Walk the outstanding intents in order of issue to the first overdue one. */
    method FindOverdue(now: real) returns (i: nat)
      ensures i == FirstOverdue(outstanding, now, deadline)
    {
      i := 0;
      while i < |outstanding| && now - outstanding[i].issued < deadline
        invariant i <= |outstanding|
        invariant FirstOverdue(outstanding, now, deadline) == i + FirstOverdue(outstanding[i..], now, deadline)
      {
        assert outstanding[i..][1..] == outstanding[i + 1..];
        i := i + 1;
      }
    }

    method ExpireLocked(i: nat, token: Token) returns (out: PollOut)
      requires i < |outstanding|
      modifies this
      ensures (State(), out) == Expire(old(State()), i, token)
    {
      var intent := outstanding[i].intent;
      var result := FailedResult(intent, token, ExpiryFault(intent.kind));
      outstanding, retired := Without(outstanding, i), retired + {intent.kind};
      items := items + [Terminal(result, None, None, era)];
      FailLocked();
      out := PollOut([result], None, None);
    }

    method DrainMailbox(token: Token, now: real) returns (out: PollOut)
      modifies this
      ensures (State(), out) == ConsumeAll(old(State()).(mailbox := []), old(mailbox), token, now)
    {
      ghost var all, start := mailbox, State().(mailbox := []);
      ghost var i := 0;
      out := NOTHING;
      while mailbox != []
        invariant 0 <= i <= |all| && mailbox == all[i..]
        invariant (State().(mailbox := []), out) == ConsumeAll(start, all[..i], token, now)
        decreases |mailbox|
      {
        var c := mailbox[0];
        mailbox := mailbox[1..];
        assert all[..i + 1][..i] == all[..i];
        i := i + 1;
        var more := ConsumeCompletion(c, token, now);
        out := Join(out, more);
      }
      assert all[..i] == all;
    }

    /** Consuming looks at neither the mailbox nor the slot's content. */
    method ConsumeCompletion(c: Completion, token: Token, now: real) returns (out: PollOut)
      modifies this`outstanding, this`retired, this`evidence, this`candidate, this`job, this`era, this`items
      ensures (State().(mailbox := []), out) == Consume(old(State()).(mailbox := []), c, token, now)
    {
      out := NOTHING;
      var i := Find(outstanding, c.intent.kind);
      if c.token != token || c.intent.key != token.key {
        return;
      }
      if i == |outstanding| || outstanding[i].intent.effectId != c.intent.effectId {
        return;
      }
      if c.result.Some? {
        out := TakeResult(c, i, token);
        return;
      }
      if c.verification.None? || c.verification.value.key != token.key {
        return;
      }
      out := TakeVerification(c, i, token, now);
    }

    method TakeResult(c: Completion, i: nat, token: Token) returns (out: PollOut)
      requires c.result.Some? && i == Find(outstanding, c.intent.kind) && Answers(State(), c, token, i)
      modifies this`outstanding, this`retired, this`evidence, this`candidate, this`job, this`era, this`items
      ensures (State().(mailbox := []), out) == Consume(old(State()).(mailbox := []), c, token, 0.0)
    {
      var r := c.result.value;
      if r.status == Pending || r.key != token.key || r.kind != c.intent.kind
         || r.effectId != outstanding[i].intent.effectId || (r.status == Succeeded && r.evidence == "") {
        return NOTHING;
      }
      outstanding, retired := Without(outstanding, i), retired + {c.intent.kind};
      items := items + [Terminal(r, c.session, Some(c.era), era)];
      out := PollOut([r], None, None);
      if r.status == Failed {
        FailLocked();
        return;
      }
      evidence := evidence[c.intent.kind := r.evidence];
      if c.intent.kind == ModelLoad && c.session.Some? {
        candidate := c.session;
      }
    }

    method TakeVerification(c: Completion, i: nat, token: Token, now: real) returns (out: PollOut)
      requires c.result.None? && c.verification.Some? && c.verification.value.key == token.key
      requires i == Find(outstanding, c.intent.kind) && Answers(State(), c, token, i)
      modifies this`outstanding, this`retired, this`candidate, this`job, this`era, this`items
      ensures (State().(mailbox := []), out) == Consume(old(State()).(mailbox := []), c, token, now)
    {
      var v := c.verification.value;
      if v.verdict == Undecided {
        outstanding := outstanding[i := Outstanding(outstanding[i].intent, now)];
        return NOTHING;
      }
      if v.verdict == Refused {
        outstanding, retired := Without(outstanding, i), retired + {c.intent.kind};
        items := items + [Rejection(v, Some(c.era), era)];
        FailLocked();
        return PollOut([], Some(v), None);
      }
      if !(v.evidence != "" && PREREQUISITES <= evidence.Keys && candidate.Some?) {
        return NOTHING;
      }
      outstanding, retired := Without(outstanding, i), retired + {c.intent.kind};
      items := items + [Promotion(candidate.value, v, Some(c.era), era)];
      return PollOut([], Some(v), candidate);
    }

    method ClaimLocked(token: Token)
      modifies this`job
      ensures State() == Claim(old(State()), token)
    {
      if job.None? && outstanding != [] && !stopped {
        var first := outstanding[0];
        var shown := Shown(evidence, SelfTest) + Shown(evidence, ModelLoad) + Shown(evidence, Home);
        var identity := if candidate.None? then "" else candidate.value.identity;
        job := Some(Job(first.intent, token, false, Observation(first.issued, shown, identity), era));
      }
    }

    /** The worker, or a synchronous poll, runs the claimed job and mails its completion if current. */
    method CompleteClaimedJob(w: World)
      requires job.Some?
      modifies this`job, this`mailbox
      ensures State() == Complete(old(State()), w)
    {
      var claimed := job.value;
      if claimed.cancelled {
        job := None;
        return;
      }
      var completion := RunJob(claimed, w);
      job := None;
      if !stopped && token == Some(claimed.token) {
        mailbox := Mail(mailbox, completion);
      }
    }

    /** Synchronous mode: the job claimed by a poll completes before the poll returns. */
    method PollSynchronously(token: Token, now: real, w: World) returns (out: PollOut)
      requires job.None?
      modifies this
      ensures (State(), out) == (var (after, result) := Lifecycle.Poll(old(State()), token, now, deadline);
                                 (Complete(after, w), result))
    {
      out := Poll(token, now);
      if job.Some? {
        CompleteClaimedJob(w);
      }
    }
  }
}
