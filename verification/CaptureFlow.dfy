/** What becomes of a sample: exactly when it is stamped, queued, taken and stepped, and what each action of the control
    owner does to the tokens. */
module CaptureFlow {
  import opened Basics
  import opened Capture

  /** The context is that of this control state and the shared state, with containment clear. */
  predicate Current(c: Context, tokens: Tokens, shared: Shared) {
    && tokens == Tokens(Some(c.key), c.revision)
    && shared.model == c.model && shared.generation == c.generation && !shared.latched
  }

  // --- The capture loop -------------------------------------------------------------------

  /** A stamp copies the tokens of the installed state, unless none was activated or a capture cycle finds containment
      engaged; nothing else changes. */
  lemma StampsExactly(l: Loop, planned: bool)
    ensures var after, shared := Act(l, Stamps(planned)), l.shared;
      && after == l.(held := after.held)
      && after.held
         == (if shared.installed.key.Some? && !(planned && shared.latched)
             then Some(Held(Context(shared.installed.key.value, shared.installed.revision, shared.model, shared.generation),
                            |l.moments|, planned))
             else None)
  {
  }

  /** A sample is queued, once, exactly if its context is still that of the installed state; it goes behind the others,
      and of a queue too long the oldest go. */
  lemma QueuesExactly(l: Loop, due: real, depth: nat)
    requires l.held.Some?
    ensures var after, h := Act(l, Queues(due, depth)), l.held.value;
      var v := Vision(h.context, due, h.stamped, h.planned);
      && after == l.(held := None, queue := after.queue)
      && (if Current(h.context, l.shared.installed, l.shared)
          then
            && |after.queue| == (if |l.queue| + 1 <= depth then |l.queue| + 1 else depth)
            && after.queue == (l.queue + [v])[|l.queue| + 1 - |after.queue|..]
          else after.queue == l.queue)
  {
  }

  // --- The control owner ------------------------------------------------------------------

  /** Between ticks: activations and policy changes move the revision on by one, an install publishes the control state,
      a promotion does both with the new runtime, an engagement counts once until it is released, and a flush empties
      the queue. */
  lemma OwnerActsExactly(l: Loop, step: Step)
    requires l.tick.Free?
    ensures var after, next := Act(l, step), l.control.revision + 1;
      match step
      case Accepts(key) => after == l.(control := Tokens(Some(key), next))
      case Revises => after == l.(control := Tokens(l.control.key, next))
      case Installs => after == l.(shared := Shared(l.control, l.shared.model, l.shared.installs, l.shared.generation, l.shared.latched))
      case Promotes(model) =>
        && after.control == Tokens(l.control.key, next)
        && after == l.(control := after.control,
                       shared := Shared(after.control, model, l.shared.installs + 1, l.shared.generation, l.shared.latched))
      case Engages =>
        after == l.(shared := Shared(l.shared.installed, l.shared.model, l.shared.installs,
                                     l.shared.generation + (if l.shared.latched then 0 else 1), true))
      case Releases => after == l.(shared := Shared(l.shared.installed, l.shared.model, l.shared.installs, l.shared.generation, false))
      case Flushes => after == l.(queue := [])
      case Settles(_) => after == l
      case Chooses(_) => after == l
      case Polls(_) => after == l
      case Drains(_) => after == l
      case StepsGraph => after == l
      case _ => true
  {
  }

  /** The oldest sample leaves the queue exactly when it is due, give or take the slack, and is taken exactly if its
      context is the control owner's own state then. */
  lemma DequeuesExactly(l: Loop, t: real)
    requires l.tick.Free?
    ensures var after := Act(l, Dequeues(t));
      if l.queue == [] || l.queue[0].due > t + 0.000000001 then after == l
      else if Current(l.queue[0].context, l.control, l.shared)
      then after == l.(queue := l.queue[1..], tick := Settling(l.queue[0], {}), taken := l.taken + [(l.queue[0], |l.moments|)])
      else after == l.(queue := l.queue[1..])
  {
  }

  /** The step is the next one of the tick in progress. */
  predicate InTurn(tick: Tick, step: Step) {
    match step
    case Settles(_) => tick.Settling?
    case Chooses(_) => tick.Choosing?
    case Polls(_) => tick.Polling?
    case Drains(_) => tick.Draining?
    case StepsGraph => tick.Stepping?
    case _ => false
  }

  /** A tick with a sample in hand takes its steps in order: nothing the control owner might do out of turn happens. */
  lemma OutOfTurn(l: Loop, step: Step)
    requires !l.tick.Free? && !InTurn(l.tick, step) && !step.Stamps? && !step.Abandons? && !step.Queues?
    ensures Act(l, step) == l
  {
  }

  /** The steps of one control tick that may have a sample in hand. */
  function TickThrough(
    l: Loop, t: real, refused: bool, graph: Graph, promoted: Option<string>, drain: Drain): Loop
  {
    var taken := Next(l, Dequeues(t));
    var chosen := Next(Next(taken, Settles(refused)), Chooses(graph));
    Next(Next(Next(chosen, Polls(promoted)), Drains(drain)), StepsGraph)
  }

  /** The guards of a tick that takes a sample: a refused stow, which contains and so lets no runtime be promoted and no
      command be committed after it; else a runtime to promote in INIT, and a refused commit unless the sample is
      flagged. */
  function GuardsOf(refused: bool, graph: Graph, promoted: Option<string>, drain: Drain): set<Guard> {
    (if refused then {StowRefused} else {})
    + (if graph == Graph.Init && promoted.Some? && !refused then {RuntimePromoted} else {})
    + (if graph != Flagged && graph != NoGraph && drain.Refused? && !refused then {CommitRefused} else {})
  }

  /** Everything but tokens, tick and history of moments. */
  predicate SameSamples(l: Loop, m: Loop) {
    m.queue == l.queue && m.taken == l.taken && m.consumed == l.consumed
  }

  /** The sample was handed to the graph step with these guards, or to none. */
  predicate HandedOn(before: seq<Consumption>, after: seq<Consumption>, v: Vision, guards: set<Guard>, stepped: bool) {
    if stepped then
      && |after| == |before| + 1 && after[..|before|] == before
      && Last(after).v == v && Last(after).fired == guards
    else after == before
  }

  lemma Settled(m: Loop, v: Vision, refused: bool)
    requires m.tick == Settling(v, {}) && !m.shared.latched
    ensures var n := Next(m, Settles(refused));
      && n.tick == Choosing(v, if refused then {StowRefused} else {}) && SameSamples(m, n)
      && n.shared.latched == refused && n.shared.model == m.shared.model && n.shared.installs == m.shared.installs
  {
  }

  /** With no sample in hand the rest of a tick hands nothing on. */
  lemma NothingInHand(m: Loop, promoted: Option<string>, drain: Drain)
    requires m.tick.Free?
    ensures var n := Next(Next(Next(m, Polls(promoted)), Drains(drain)), StepsGraph);
      n.tick.Free? && SameSamples(m, n) && n.shared == m.shared
  {
  }

  /** A flagged sample is stepped past the lifecycle poll and the commands. */
  lemma FlaggedInHand(m: Loop, v: Vision, fired: set<Guard>, promoted: Option<string>, drain: Drain)
    requires m.tick == Stepping(v, fired)
    ensures var n := Next(Next(Next(m, Polls(promoted)), Drains(drain)), StepsGraph);
      && n.tick.Free? && n.queue == m.queue && n.taken == m.taken && HandedOn(m.consumed, n.consumed, v, fired, true)
      && n.shared == m.shared
  {
    assert Next(m, Polls(promoted)).tick == m.tick;
    assert Next(Next(m, Polls(promoted)), Drains(drain)).tick == m.tick;
  }

  /** Unless containment is engaged, one command may move the policy on by a revision, take an edge or be refused. */
  lemma Drained(m: Loop, v: Vision, fired: set<Guard>, drain: Drain)
    requires m.tick == Draining(v, fired)
    ensures var n, commits := Next(Next(m, Drains(drain)), StepsGraph), !drain.Nothing? && !m.shared.latched;
      && n.tick.Free? && n.queue == m.queue && n.taken == m.taken
      && HandedOn(m.consumed, n.consumed, v, fired + (if commits && drain.Refused? then {CommitRefused} else {}),
                  !(commits && drain.Edge?))
      && n.shared.latched == (m.shared.latched || (commits && drain.Refused?))
      && n.control == (if commits && drain.revises then Tokens(m.control.key, m.control.revision + 1) else m.control)
      && n.shared.model == m.shared.model && n.shared.installs == m.shared.installs
  {
    assert fired + {} == fired;
  }

  lemma Polled(m: Loop, v: Vision, fired: set<Guard>, promoted: Option<string>)
    requires m.tick == Polling(v, fired)
    ensures var n, promotes := Next(m, Polls(promoted)), promoted.Some? && !m.shared.latched;
      && n.tick == Draining(v, fired + (if promotes then {RuntimePromoted} else {})) && SameSamples(m, n)
      && n.shared.latched == m.shared.latched
      && n.shared.model == (if promotes then promoted.value else m.shared.model)
      && n.shared.installs == m.shared.installs + (if promotes then 1 else 0)
  {
    assert fired + {} == fired;
  }

  /** From the choice by the live graph on. */
  lemma Chosen(
    m: Loop, v: Vision, refused: bool, graph: Graph, promoted: Option<string>, drain: Drain)
    requires m.tick == Choosing(v, if refused then {StowRefused} else {}) && m.shared.latched == refused
    ensures var n := Next(Next(Next(Next(m, Chooses(graph)), Polls(promoted)), Drains(drain)), StepsGraph);
      var guards := GuardsOf(refused, graph, promoted, drain);
      && n.tick.Free? && n.queue == m.queue && n.taken == m.taken
      && HandedOn(m.consumed, n.consumed, v, guards, graph != NoGraph && !(graph != Flagged && drain.Edge? && !refused))
      && n.shared.latched == (StowRefused in guards || CommitRefused in guards)
      && (RuntimePromoted in guards ==> n.shared.model == promoted.value && n.shared.installs == m.shared.installs + 1)
  {
    var chosen, fired := Next(m, Chooses(graph)), if refused then {StowRefused} else {};
    match graph
    case NoGraph => NothingInHand(chosen, promoted, drain);
    case Flagged =>
      FlaggedInHand(chosen, v, fired, promoted, drain);
      assert GuardsOf(refused, graph, promoted, drain) == fired;
    case Init =>
      Polled(chosen, v, fired, promoted);
      Drained(Next(chosen, Polls(promoted)), v, Next(chosen, Polls(promoted)).tick.fired, drain);
    case Other =>
      assert chosen.tick == Draining(v, fired) && SameSamples(m, chosen);
      var polled := Next(chosen, Polls(promoted));
      assert polled.tick == chosen.tick && SameSamples(chosen, polled) && polled.shared == m.shared;
      Drained(polled, v, fired, drain);
      assert fired + {} == fired;
  }

  /** A tick that finds a due sample of its own state hands it to the graph step, with exactly the guards that fired on
      the way, unless no graph is live or a command took an edge. */
  lemma SampleIsStepped(
    l: Loop, t: real, refused: bool, graph: Graph, promoted: Option<string>, drain: Drain)
    requires l.tick.Free? && l.queue != []
    requires l.queue[0].due <= t + 0.000000001 && Current(l.queue[0].context, l.control, l.shared)
    ensures var after, guards := TickThrough(l, t, refused, graph, promoted, drain), GuardsOf(refused, graph, promoted, drain);
      && after.tick.Free? && after.queue == l.queue[1..]
      && after.taken == l.taken + [(l.queue[0], |l.moments|)]
      && HandedOn(l.consumed, after.consumed, l.queue[0], guards,
                  graph != NoGraph && !(graph != Flagged && drain.Edge? && !refused))
      && after.shared.latched == (StowRefused in guards || CommitRefused in guards)
      && (RuntimePromoted in guards ==> after.shared.model == promoted.value && after.shared.installs == l.shared.installs + 1)
  {
    var taken := Next(l, Dequeues(t));
    DequeuesExactly(l, t);
    Settled(taken, l.queue[0], refused);
    Chosen(Next(taken, Settles(refused)), l.queue[0], refused, graph, promoted, drain);
  }

  /** The sample was taken from the queue. */
  predicate TookIt(taken: seq<(Vision, nat)>, v: Vision) {
    exists i :: 0 <= i < |taken| && taken[i].0 == v
  }

  predicate AllTook(l: Loop) {
    && (forall i :: 0 <= i < |l.consumed| ==> TookIt(l.taken, l.consumed[i].v))
    && (!l.tick.Free? ==> TookIt(l.taken, l.tick.v))
  }

  lemma TookStays(taken: seq<(Vision, nat)>, v: Vision, x: (Vision, nat))
    ensures TookIt(taken, v) ==> TookIt(taken + [x], v)
    ensures TookIt(taken + [x], x.0)
  {
    if TookIt(taken, v) {
      var i :| 0 <= i < |taken| && taken[i].0 == v;
      assert (taken + [x])[i].0 == v;
    }
    assert (taken + [x])[|taken|] == x;
  }

  lemma StepTook(l: Loop, step: Step)
    requires AllTook(l)
    ensures AllTook(Next(l, step))
  {
    if step.Dequeues? && l.tick.Free? && l.queue != [] {
      var x := (l.queue[0], |l.moments|);
      forall i | 0 <= i < |l.consumed| ensures TookIt(l.taken + [x], l.consumed[i].v) {
        TookStays(l.taken, l.consumed[i].v, x);
      }
      TookStays(l.taken, x.0, x);
    }
  }

  /** Over every run a sample that is stepped, or in hand, was taken from the queue. */
  lemma {:induction false} SteppedWasTaken(model: string, steps: seq<Step>)
    ensures AllTook(Run(model, steps))
  {
    if steps != [] {
      SteppedWasTaken(model, steps[..|steps| - 1]);
      StepTook(Run(model, steps[..|steps| - 1]), Last(steps));
    }
  }
}
