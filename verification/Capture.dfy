/** The capture loop beside the control loop: a vision sample is stamped with tokens of the state the
    control owner last installed, rechecked when it is queued, checked once more against the control
    owner's own state when it is dequeued, and stepped later in the same control tick. Steps are the
    sections the payload runs under its state lock and the actions of the control tick, in any
    interleaving. */
module Capture {
  import opened Basics

  /** The part of the payload state the tokens are taken from. */
  datatype Tokens = Tokens(key: Option<ActivationKey>, revision: nat)

  /** Shared under the lock. `installs` and `generation` count runtime installs and engagements. */
  datatype Shared = Shared(installed: Tokens, model: string, installs: nat, generation: nat, latched: bool)

  datatype Context = Context(key: ActivationKey, revision: nat, model: string, generation: nat)

  /** `stamped` is history: the moment of the stamp. `planned` says that the stamp came from a capture
      cycle, which refuses to start while contained. */
  datatype Vision = Vision(context: Context, due: real, stamped: nat, planned: bool)

  /** A context in the hands of the capture loop, with the moment it was stamped. */
  datatype Held = Held(context: Context, stamped: nat, planned: bool)

  /** What is true at one moment. */
  datatype Moment = Moment(control: Tokens, model: string, installs: nat, generation: nat, latched: bool)

  /** What can disturb a sample between its dequeue and the graph step of the same control tick. */
  datatype Guard = StowRefused | RuntimePromoted | CommitRefused

  /** Where a control tick is once it has a sample in hand; `fired` is history. */
  datatype Tick =
    | Free
    | Settling(v: Vision, fired: set<Guard>)     // the stow evidence comes next
    | Choosing(v: Vision, fired: set<Guard>)     // then what the live graph calls for
    | Polling(v: Vision, fired: set<Guard>)      // INIT: the lifecycle poll
    | Draining(v: Vision, fired: set<Guard>)     // the routed commands
    | Stepping(v: Vision, fired: set<Guard>)     // the graph step

  /** A sample handed to a graph step at moment `at`. */
  datatype Consumption = Consumption(v: Vision, at: nat, fired: set<Guard>)

  /** `taken` and `consumed` are history: the samples that passed the check at the dequeue, with the moment,
      and those that reached a graph step. */
  datatype Loop = Loop(
    control: Tokens, shared: Shared, held: Option<Held>, queue: seq<Vision>, tick: Tick,
    moments: seq<Moment>, taken: seq<(Vision, nat)>, consumed: seq<Consumption>)

  /** The live graph at a control tick; `Flagged` is OPERATE with a flagged sample. */
  datatype Graph = NoGraph | Flagged | Init | Other

  /** What the drain of routed commands came to: none committed, an accepted edge, or a refused commit. */
  datatype Drain = Nothing | Edge(revises: bool) | Refused(revises: bool)

  const DUE_TOLERANCE: real := 0.000000001

  function Now(l: Loop): Moment {
    Moment(l.control, l.shared.model, l.shared.installs, l.shared.generation, l.shared.latched)
  }

  function Boot(model: string): Loop {
    var shared := Shared(Tokens(None, 0), model, 0, 0, false);
    Loop(Tokens(None, 0), shared, None, [], Free, [Moment(Tokens(None, 0), model, 0, 0, false)], [], [])
  }

  function ContextOf(shared: Shared): Option<Context> {
    if shared.installed.key.None? then None
    else Some(Context(shared.installed.key.value, shared.installed.revision, shared.model, shared.generation))
  }

  predicate Stale(c: Context, tokens: Tokens, shared: Shared) {
    || tokens.key != Some(c.key)
    || c.revision != tokens.revision
    || c.model != shared.model
    || c.generation != shared.generation
    || shared.latched
  }

  datatype Step =
    // the control owner, with no sample in hand
    | Accepts(key: ActivationKey)      // an activation; its reentry bumps the revision
    | Revises                          // a policy change bumps the revision
    | Installs                         // publish the control state for the capture loop
    | Promotes(model: string)          // runtime install, revision bump and publication in one section
    | Engages
    | Releases
    | Flushes
    | Dequeues(t: real)
    // the rest of a control tick that has a sample in hand
    | Settles(refused: bool)           // a stow step or inhibit the driver refuses engages containment
    | Chooses(graph: Graph)
    | Polls(promoted: Option<string>)  // a verified runtime to install
    | Drains(drain: Drain)
    | StepsGraph
    // the capture loop
    | Stamps(planned: bool)
    | Abandons
    | Queues(due: real, depth: nat)

  function Bumped(t: Tokens): Tokens {
    t.(revision := t.revision + 1)
  }

  /** The newest samples that fit. */
  function Appended(queue: seq<Vision>, v: Vision, depth: nat): seq<Vision> {
    var all := queue + [v];
    if |all| <= depth then all else all[|all| - depth..]
  }

  function Engaged(shared: Shared): Shared {
    if shared.latched then shared else shared.(latched := true, generation := shared.generation + 1)
  }

  /** Install a runtime, bump the revision and publish both in one section. */
  function Promoted(l: Loop, model: string): Loop {
    l.(control := Bumped(l.control),
       shared := l.shared.(installed := Bumped(l.control), model := model, installs := l.shared.installs + 1))
  }

  function DequeueDue(l: Loop, t: real): Loop {
    if l.queue == [] || l.queue[0].due > t + DUE_TOLERANCE then l
    else
      var v, rest := l.queue[0], l.(queue := l.queue[1..]);
      if Stale(v.context, l.control, l.shared) then rest
      else rest.(tick := Settling(v, {}), taken := l.taken + [(v, |l.moments|)])
  }

  /** The control owner between ticks, or in a tick without a sample. */
  function ActFree(l: Loop, step: Step): Loop {
    match step
    case Accepts(key) => l.(control := Tokens(Some(key), l.control.revision + 1))
    case Revises => l.(control := Bumped(l.control))
    case Installs => l.(shared := l.shared.(installed := l.control))
    case Promotes(model) => Promoted(l, model)
    case Engages => l.(shared := Engaged(l.shared))
    case Releases => l.(shared := l.shared.(latched := false))
    case Flushes => l.(queue := [])
    case Dequeues(t) => DequeueDue(l, t)
    case _ => l
  }

  /** What the drained commands do to the tokens: nothing while contained, since each is then refused unread. */
  function DrainCommands(l: Loop, drain: Drain): Loop
    requires l.tick.Draining?
  {
    var v, fired := l.tick.v, l.tick.fired;
    if drain.Nothing? || l.shared.latched then l.(tick := Stepping(v, fired))
    else
      var revised := l.(control := if drain.revises then Bumped(l.control) else l.control);
      if drain.Edge? then revised.(tick := Free)
      else revised.(shared := Engaged(l.shared), tick := Stepping(v, fired + {CommitRefused}))
  }

  /** The control owner in a tick with a sample in hand. */
  function ActInHand(l: Loop, step: Step): Loop
    requires !l.tick.Free?
  {
    var v, fired := l.tick.v, l.tick.fired;
    match step
    case Settles(refused) =>
      if !l.tick.Settling? then l
      else if refused then l.(shared := Engaged(l.shared), tick := Choosing(v, fired + {StowRefused}))
      else l.(tick := Choosing(v, fired))
    case Chooses(graph) =>
      if !l.tick.Choosing? then l
      else l.(tick := match graph
                      case NoGraph => Free
                      case Flagged => Stepping(v, fired)
                      case Init => Polling(v, fired)
                      case Other => Draining(v, fired))
    case Polls(promoted) =>
      if !l.tick.Polling? then l
      else if promoted.Some? && !l.shared.latched
      then Promoted(l, promoted.value).(tick := Draining(v, fired + {RuntimePromoted}))
      else l.(tick := Draining(v, fired))
    case Drains(drain) => if l.tick.Draining? then DrainCommands(l, drain) else l
    case StepsGraph =>
      if l.tick.Stepping? then l.(tick := Free, consumed := l.consumed + [Consumption(v, |l.moments|, fired)]) else l
    case _ => l
  }

  function Act(l: Loop, step: Step): Loop {
    match step
    case Stamps(planned) =>
      var c := ContextOf(l.shared);
      if c.None? || (planned && l.shared.latched) then l.(held := None)
      else l.(held := Some(Held(c.value, |l.moments|, planned)))
    case Abandons => l.(held := None)
    case Queues(due, depth) =>
      if l.held.None? then l
      else
        var h := l.held.value;
        var kept := l.(held := None);
        if Stale(h.context, l.shared.installed, l.shared) then kept
        else kept.(queue := Appended(l.queue, Vision(h.context, due, h.stamped, h.planned), depth))
    case _ => if l.tick.Free? then ActFree(l, step) else ActInHand(l, step)
  }

  /** Every step ends a moment. */
  function Next(l: Loop, step: Step): Loop {
    var after := Act(l, step);
    after.(moments := l.moments + [Now(after)])
  }

  function Run(model: string, steps: seq<Step>): Loop {
    if steps == [] then Boot(model) else Next(Run(model, steps[..|steps| - 1]), Last(steps))
  }

  // --- Monotone tokens --------------------------------------------------------------------

  /** What can have happened between two moments. */
  predicate Precedes(a: Moment, b: Moment) {
    && a.control.revision <= b.control.revision
    && a.generation <= b.generation
    && (a.control.revision == b.control.revision ==>
          a.control == b.control && a.installs == b.installs && a.model == b.model)
    && (a.generation == b.generation && !a.latched ==> !b.latched)
  }

  predicate Ordered(moments: seq<Moment>) {
    forall i, j :: 0 <= i <= j < |moments| ==> Precedes(moments[i], moments[j])
  }

  lemma StepPrecedes(l: Loop, step: Step)
    ensures Precedes(Now(l), Now(Act(l, step)))
  {
  }

  lemma OrderExtends(moments: seq<Moment>, m: Moment)
    requires moments != [] && Ordered(moments) && Precedes(Last(moments), m)
    ensures Ordered(moments + [m])
  {
  }

  // --- The invariant ----------------------------------------------------------------------

  /** A stamp took its tokens from a state the control owner had by then: its revision is at most that of
      the moment just before, and its generation is that moment's. */
  predicate StampHolds(c: Context, stamped: nat, planned: bool, moments: seq<Moment>) {
    && 1 <= stamped <= |moments|
    && c.revision <= moments[stamped - 1].control.revision
    && c.generation == moments[stamped - 1].generation
    && (planned ==> !moments[stamped - 1].latched)
  }

  predicate VisionHolds(v: Vision, moments: seq<Moment>) {
    StampHolds(v.context, v.stamped, v.planned, moments)
  }

  /** From just before the stamp to just before the dequeue nothing the context names has changed. */
  predicate Undisturbed(v: Vision, at: nat, moments: seq<Moment>) {
    && v.stamped <= at <= |moments| && 1 <= v.stamped
    && forall k :: v.stamped - 1 <= k < at ==>
      && moments[k].control == Tokens(Some(v.context.key), v.context.revision)
      && moments[k].model == v.context.model
      && moments[k].installs == moments[at - 1].installs
      && moments[k].generation == v.context.generation
      && (v.planned ==> !moments[k].latched)
  }

  /** The sample in hand is as it was checked as long as no guard has fired; after one, a token has moved past
      the sample's. */
  predicate InHandHolds(l: Loop) {
    !l.tick.Free? ==>
      var v := l.tick.v;
      && VisionHolds(v, l.moments)
      && (l.tick.fired == {} ==> !Stale(v.context, l.control, l.shared))
      && (l.tick.fired != {} ==> Outdated(v, Now(l)))
  }

  predicate Outdated(v: Vision, m: Moment) {
    v.context.revision < m.control.revision || v.context.generation < m.generation
  }

  predicate ConsumptionHolds(c: Consumption, moments: seq<Moment>) {
    1 <= c.at <= |moments| && (Undisturbed(c.v, c.at, moments) <==> c.fired == {})
  }

  predicate Inv(l: Loop) {
    && l.moments != [] && Ordered(l.moments) && Last(l.moments) == Now(l)
    && l.shared.installed.revision <= l.control.revision
    && (l.held.Some? ==> StampHolds(l.held.value.context, l.held.value.stamped, l.held.value.planned, l.moments))
    && (forall i :: 0 <= i < |l.queue| ==> VisionHolds(l.queue[i], l.moments))
    && InHandHolds(l)
    && (forall i :: 0 <= i < |l.taken| ==> Undisturbed(l.taken[i].0, l.taken[i].1, l.moments))
    && (forall i :: 0 <= i < |l.consumed| ==> ConsumptionHolds(l.consumed[i], l.moments))
  }

  /** Equal monotone tokens at both ends mean constant tokens in between. */
  lemma EqualEndsAreConstant(v: Vision, l: Loop)
    requires l.moments != [] && Ordered(l.moments) && Last(l.moments) == Now(l)
    requires VisionHolds(v, l.moments) && !Stale(v.context, l.control, l.shared)
    ensures Undisturbed(v, |l.moments|, l.moments)
  {
  }

  /** Past moments stay as they were. */
  lemma DisturbanceStays(v: Vision, at: nat, moments: seq<Moment>, m: Moment)
    requires at <= |moments|
    ensures Undisturbed(v, at, moments + [m]) <==> Undisturbed(v, at, moments)
  {
    var longer := moments + [m];
    assert forall k :: 0 <= k < at ==> longer[k] == moments[k];
    if Undisturbed(v, at, longer) {
      forall k | v.stamped - 1 <= k < at ensures moments[k] == longer[k] {
      }
    }
  }

  lemma MomentsGrow(l: Loop, m: Moment)
    requires forall i :: 0 <= i < |l.queue| ==> VisionHolds(l.queue[i], l.moments)
    requires forall i :: 0 <= i < |l.taken| ==> Undisturbed(l.taken[i].0, l.taken[i].1, l.moments)
    requires forall i :: 0 <= i < |l.consumed| ==> ConsumptionHolds(l.consumed[i], l.moments)
    ensures var longer := l.moments + [m];
      && (forall i :: 0 <= i < |l.queue| ==> VisionHolds(l.queue[i], longer))
      && (forall i :: 0 <= i < |l.taken| ==> Undisturbed(l.taken[i].0, l.taken[i].1, longer))
      && (forall i :: 0 <= i < |l.consumed| ==> ConsumptionHolds(l.consumed[i], longer))
  {
    forall i | 0 <= i < |l.taken| ensures Undisturbed(l.taken[i].0, l.taken[i].1, l.moments + [m]) {
      DisturbanceStays(l.taken[i].0, l.taken[i].1, l.moments, m);
    }
    forall i | 0 <= i < |l.consumed| ensures ConsumptionHolds(l.consumed[i], l.moments + [m]) {
      assert ConsumptionHolds(l.consumed[i], l.moments);
      DisturbanceStays(l.consumed[i].v, l.consumed[i].at, l.moments, m);
    }
  }

  /** A sample that has been outdated was disturbed. */
  lemma OutdatedIsDisturbed(v: Vision, l: Loop)
    requires l.moments != [] && Last(l.moments) == Now(l) && Outdated(v, Now(l))
    ensures !Undisturbed(v, |l.moments|, l.moments)
  {
    var n := |l.moments| - 1;
    assert v.stamped <= |l.moments| ==> v.stamped - 1 <= n;
    assert l.moments[n] == Now(l);
  }

  /** What one step leaves of the invariant before its own moment is added. */
  predicate Midway(l: Loop, after: Loop) {
    && after.moments == l.moments
    && after.shared.installed.revision <= after.control.revision
    && (after.held.Some? ==>
          StampHolds(after.held.value.context, after.held.value.stamped, after.held.value.planned, l.moments))
    && (forall i :: 0 <= i < |after.queue| ==> VisionHolds(after.queue[i], l.moments))
    && InHandHolds(after)
    && (forall i :: 0 <= i < |after.taken| ==> Undisturbed(after.taken[i].0, after.taken[i].1, l.moments))
    && (forall i :: 0 <= i < |after.consumed| ==> ConsumptionHolds(after.consumed[i], l.moments))
  }

  lemma FreeKeeps(l: Loop, step: Step)
    requires Inv(l) && l.tick.Free?
    ensures Midway(l, ActFree(l, step))
  {
    match step
    case Dequeues(t) =>
      if l.queue != [] && l.queue[0].due <= t + DUE_TOLERANCE && !Stale(l.queue[0].context, l.control, l.shared) {
        assert VisionHolds(l.queue[0], l.moments);
        EqualEndsAreConstant(l.queue[0], l);
      }
    case _ =>
  }

  lemma ConsumptionKeeps(l: Loop)
    requires Inv(l) && l.tick.Stepping?
    ensures Midway(l, ActInHand(l, StepsGraph))
  {
    var v := l.tick.v;
    if l.tick.fired == {} {
      EqualEndsAreConstant(v, l);
    } else {
      OutdatedIsDisturbed(v, l);
    }
    assert ConsumptionHolds(Consumption(v, |l.moments|, l.tick.fired), l.moments);
  }

  lemma InHandKeeps(l: Loop, step: Step)
    requires Inv(l) && !l.tick.Free?
    ensures Midway(l, ActInHand(l, step))
  {
    if step.StepsGraph? {
      if l.tick.Stepping? { ConsumptionKeeps(l); }
    } else {
      assert ActInHand(l, step).consumed == l.consumed;
    }
  }

  lemma CaptureKeeps(l: Loop, step: Step)
    requires Inv(l) && (step.Stamps? || step.Abandons? || step.Queues?)
    ensures Midway(l, Act(l, step))
  {
    match step
    case Queues(due, depth) =>
      if l.held.Some? {
        var v := Vision(l.held.value.context, due, l.held.value.stamped, l.held.value.planned);
        assert VisionHolds(v, l.moments);
        forall i | 0 <= i < |l.queue| + 1 ensures VisionHolds((l.queue + [v])[i], l.moments) {
        }
      }
    case _ =>
  }

  lemma ActKeeps(l: Loop, step: Step)
    requires Inv(l)
    ensures Midway(l, Act(l, step))
  {
    if step.Stamps? || step.Abandons? || step.Queues? {
      CaptureKeeps(l, step);
    } else if l.tick.Free? {
      FreeKeeps(l, step);
    } else {
      InHandKeeps(l, step);
    }
  }

  lemma MomentEnds(l: Loop, after: Loop)
    requires Inv(l) && Midway(l, after) && Precedes(Now(l), Now(after))
    ensures Inv(after.(moments := l.moments + [Now(after)]))
  {
    OrderExtends(l.moments, Now(after));
    MomentsGrow(after, Now(after));
  }

  lemma StepKeeps(l: Loop, step: Step)
    requires Inv(l)
    ensures Inv(Next(l, step))
  {
    StepPrecedes(l, step);
    ActKeeps(l, step);
    MomentEnds(l, Act(l, step));
  }

  lemma {:induction false} RunsKeep(model: string, steps: seq<Step>)
    ensures Inv(Run(model, steps))
  {
    if steps != [] {
      RunsKeep(model, steps[..|steps| - 1]);
      StepKeeps(Run(model, steps[..|steps| - 1]), Last(steps));
    }
  }

  /** Over every interleaving, each vision sample the control owner takes was stamped under the activation,
      policy revision, runtime and containment generation it is taken under, and none of them changed at any
      moment in between; if a capture cycle stamped it, containment was clear throughout. */
  lemma TakenUndisturbed(model: string, steps: seq<Step>)
    ensures var l := Run(model, steps);
      forall i :: 0 <= i < |l.taken| ==> Undisturbed(l.taken[i].0, l.taken[i].1, l.moments)
  {
    RunsKeep(model, steps);
  }

  /** Over every interleaving, a sample handed to the graph step is undisturbed from its stamp to that step if
      and only if, in the control tick that took it, no stow step or inhibit was refused, no runtime was
      promoted and no command's commit was refused. */
  lemma SteppedExactly(model: string, steps: seq<Step>)
    ensures var l := Run(model, steps);
      forall i :: 0 <= i < |l.consumed| ==>
        (Undisturbed(l.consumed[i].v, l.consumed[i].at, l.moments) <==> l.consumed[i].fired == {})
  {
    RunsKeep(model, steps);
    var l := Run(model, steps);
    assert forall i :: 0 <= i < |l.consumed| ==> ConsumptionHolds(l.consumed[i], l.moments);
  }

  // --- A sample stepped after its context went stale --------------------------------------

  const KEY := ActivationKey("e", 1)

  const STAMPING := [Accepts(KEY), Installs, Stamps(true)]
  const TAKING := [Queues(0.0, 1), Dequeues(0.0), Settles(false), Chooses(Other)]

  const SAMPLE := Vision(Context(KEY, 1, "m", 0), 0.0, 3, true)

  lemma RunOne(model: string, steps: seq<Step>, step: Step)
    ensures Run(model, steps + [step]) == Next(Run(model, steps), step)
  {
    assert (steps + [step])[..|steps|] == steps && Last(steps + [step]) == step;
  }

  lemma StampingRuns()
    ensures var l := Run("m", STAMPING);
      && l.control == Tokens(Some(KEY), 1) && l.shared == Shared(l.control, "m", 0, 0, false)
      && l.held == Some(Held(SAMPLE.context, 3, true)) && l.tick.Free? && l.queue == [] && l.consumed == []
  {
    RunOne("m", [], Accepts(KEY));
    RunOne("m", [Accepts(KEY)], Installs);
    RunOne("m", [Accepts(KEY), Installs], Stamps(true));
    assert [] + [Accepts(KEY)] == [Accepts(KEY)] && [Accepts(KEY)] + [Installs] == [Accepts(KEY), Installs];
    assert [Accepts(KEY), Installs] + [Stamps(true)] == STAMPING;
  }

  lemma TakingRuns()
    ensures var l := Run("m", STAMPING + TAKING);
      l.tick == Draining(SAMPLE, {}) && l.consumed == [] && !l.shared.latched
  {
    StampingRuns();
    RunOne("m", STAMPING, Queues(0.0, 1));
    RunOne("m", STAMPING + [Queues(0.0, 1)], Dequeues(0.0));
    RunOne("m", STAMPING + [Queues(0.0, 1)] + [Dequeues(0.0)], Settles(false));
    RunOne("m", STAMPING + [Queues(0.0, 1)] + [Dequeues(0.0)] + [Settles(false)], Chooses(Other));
    assert STAMPING + [Queues(0.0, 1)] + [Dequeues(0.0)] + [Settles(false)] + [Chooses(Other)] == STAMPING + TAKING;
  }

  /** A command drained after the dequeue whose commit is refused: containment engages, and the same tick
      still steps the graph with the sample. */
  lemma RefusedCommitStepsStaleSample()
    ensures var l := Run("m", STAMPING + TAKING + [Drains(Refused(true))] + [StepsGraph]);
      && |l.consumed| == 1 && l.consumed[0].v == SAMPLE && l.shared.latched
      && Stale(SAMPLE.context, l.control, l.shared)
      && !Undisturbed(SAMPLE, l.consumed[0].at, l.moments)
  {
    TakingRuns();
    RunOne("m", STAMPING + TAKING, Drains(Refused(true)));
    RunOne("m", STAMPING + TAKING + [Drains(Refused(true))], StepsGraph);
    SteppedExactly("m", STAMPING + TAKING + [Drains(Refused(true))] + [StepsGraph]);
  }

  // --- The queue itself -------------------------------------------------------------------

  /** The vision queue with the tokens it is checked against, updated in place. */
  class VisionShell {
    var control: Tokens
    var shared: Shared
    var queue: seq<Vision>
    ghost var tick: Tick
    ghost var moments: seq<Moment>
    ghost var taken: seq<(Vision, nat)>
    ghost var consumed: seq<Consumption>

    constructor (model: string)
      ensures State(None) == Boot(model)
    {
      control, shared := Tokens(None, 0), Shared(Tokens(None, 0), model, 0, 0, false);
      queue, tick, moments := [], Free, [Moment(Tokens(None, 0), model, 0, 0, false)];
      taken, consumed := [], [];
    }

    ghost function State(held: Option<Held>): Loop
      reads this
    {
      Loop(control, shared, held, queue, tick, moments, taken, consumed)
    }

    /** The control owner takes at most one due sample, the oldest, and drops it if stale. */
    method TakeDue(t: real) returns (vision: Option<Vision>)
      requires tick.Free?
      modifies this`queue, this`tick, this`taken
      ensures State(None) == Act(old(State(None)), Dequeues(t))
      ensures vision.Some? ==> !Stale(vision.value.context, control, shared) && vision.value in old(queue)
      ensures taken == old(taken) + (if vision.Some? then [(vision.value, |moments|)] else [])
    {
      vision := None;
      if queue != [] && queue[0].due <= t + DUE_TOLERANCE {
        vision := Some(queue[0]);
        queue := queue[1..];
      }
      if vision.Some? && Stale(vision.value.context, control, shared) {
        vision := None;
      }
      if vision.Some? {
        tick, taken := Settling(vision.value, {}), taken + [(vision.value, |moments|)];
      }
    }

    /** The capture loop queues its sample after the recheck, all in one locked section. */
    method Enqueue(held: Held, due: real, depth: nat)
      modifies this`queue
      ensures State(None) == Act(old(State(Some(held))), Queues(due, depth))
    {
      if Stale(held.context, shared.installed, shared) {
        return;
      }
      queue := queue + [Vision(held.context, due, held.stamped, held.planned)];
      if |queue| > depth {
        queue := queue[|queue| - depth..];
      }
    }

    method Engage()
      modifies this`shared
      ensures shared == Engaged(old(shared))
    {
      if !shared.latched {
        shared := shared.(generation := shared.generation + 1);
      }
      shared := shared.(latched := true);
    }
  }
}
