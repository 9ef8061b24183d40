/** The simulator's cycle over the real shells on one bus, refining the protocol's steps. */
module SteppingApps {
  import opened Basics
  import opened MessageBus
  import opened CommandRouting
  import opened SystemModes
  import opened SystemModesShell
  import opened Fault
  import opened PayloadContainment
  import opened PayloadShell
  import opened Protocol
  import opened Stepping
  import Folds
  import PayloadProofs
  import ProtocolSafety
  import Watchdog

  /** What the k-th control tick of a catch-up does, given its clock reading. */
  type Control = (nat, real) -> seq<Step>

  /** Everything one cycle meets that the shells do not decide. */
  datatype Inputs = Inputs(
    clocks: (Clock, Clock, Clock, Clock), polled: World, control: Control, capture: seq<Step>,
    uplinked: seq<Command>, reports: seq<Step>, monitored: seq<string>, ids: Ids)

  /** A control tick polls the activations at its reading; then come the servo and the outer graph. */
  predicate IsControlTick(steps: seq<Step>, at: real) {
    AllAmbient(steps) && steps != [] && steps[0].PayloadPolls? && steps[0].now == at
  }

  ghost predicate Controls(control: Control) {
    forall k, at :: IsControlTick(control(k, at), at)
  }

  ghost predicate Quiet(inputs: Inputs) {
    AllAmbient(inputs.capture) && AllAmbient(inputs.reports) && Controls(inputs.control)
  }

  function Uplinks(cs: seq<Command>): seq<Step> {
    if cs == [] then [] else Uplinks(cs[..|cs| - 1]) + [Uplinked(Last(cs))]
  }

  function Beats(names: seq<string>): seq<Step> {
    if names == [] then [] else Beats(names[..|names| - 1]) + [Beaten(Last(names))]
  }

  function Capped(t: real, now: real): real {
    if t <= now then t else now
  }

  /** The reading of the k-th control tick of a catch-up: multiples of the period, cut off at `now`. */
  function TickTime(start: real, dt: real, now: real, k: nat): real {
    if k == 0 then start else Capped(TickTime(start, dt, now, k - 1) + dt, now)
  }

  /** The control ticks of a catch-up by number. */
  function Pieces(start: real, dt: real, now: real, control: Control): nat -> seq<Step> {
    (k: nat) => control(k, TickTime(start, dt, now, k))
  }

  function CatchUpSteps(start: real, dt: real, now: real, control: Control, n: nat): seq<Step> {
    Folds.Joined(Pieces(start, dt, now, control), n)
  }

  function CycleOf(inputs: Inputs, start: real, dt: real, now: real, ticks: nat): Cycle {
    Cycle(inputs.clocks.0,
          [PayloadPolls(start, inputs.polled)] + CatchUpSteps(start, dt, now, inputs.control, ticks)
            + inputs.capture + Uplinks(inputs.uplinked),
          inputs.clocks.1, inputs.clocks.2,
          inputs.reports + Beats(inputs.monitored),
          now, inputs.ids, inputs.clocks.3)
  }

  function Stepper(cfg: Config): (System, Step) -> System {
    (s: System, step: Step) => Next(s, step, cfg)
  }

  function After(s: System, steps: seq<Step>, cfg: Config): System {
    Folds.Fold(Stepper(cfg), s, steps)
  }

  lemma AfterJoins(s: System, a: seq<Step>, b: seq<Step>, cfg: Config)
    ensures After(s, a + b, cfg) == After(After(s, a, cfg), b, cfg)
  {
    Folds.FoldJoins(Stepper(cfg), s, a, b);
  }

  /** The state of a traced run is the run of the states. */
  lemma {:induction false} AfterIsTraced(t: Traced, steps: seq<Step>, cfg: Config)
    ensures TraceFrom(t, steps, cfg).s == After(t.s, steps, cfg)
  {
    if steps != [] {
      AfterIsTraced(t, steps[..|steps| - 1], cfg);
      StepIsTraced(TraceFrom(t, steps[..|steps| - 1], cfg), Last(steps), cfg);
    }
  }

  lemma StepIsTraced(t: Traced, step: Step, cfg: Config)
    ensures Trace(t, step, cfg).s == Next(t.s, step, cfg)
  {
  }

  /** The state after a catch-up of n + 1 control ticks. */
  function Caught(s: System, start: real, dt: real, now: real, control: Control, n: nat, cfg: Config): System {
    Folds.FoldPieces(Stepper(cfg), s, Pieces(start, dt, now, control), n)
  }

  lemma CaughtIsAfter(s: System, start: real, dt: real, now: real, control: Control, n: nat, cfg: Config)
    ensures Caught(s, start, dt, now, control, n, cfg) == After(s, CatchUpSteps(start, dt, now, control, n), cfg)
  {
    Folds.PiecesJoin(Stepper(cfg), s, Pieces(start, dt, now, control), n);
  }

  // --- Schedules are made of ambient steps ------------------------------------------------

  lemma {:induction false} AmbientJoins(a: seq<Step>, b: seq<Step>)
    requires AllAmbient(a) && AllAmbient(b)
    ensures AllAmbient(a + b)
  {
    if b == [] {
      assert a + b == a;
    } else {
      AmbientJoins(a, b[..|b| - 1]);
      assert (a + b)[..|a + b| - 1] == a + b[..|b| - 1] && Last(a + b) == Last(b);
    }
  }

  lemma {:induction false} AmbientAt(steps: seq<Step>, i: nat)
    requires AllAmbient(steps) && i < |steps|
    ensures Ambient(steps[i])
  {
    if i < |steps| - 1 {
      AmbientAt(steps[..|steps| - 1], i);
    }
  }

  lemma {:induction false} UplinksAmbient(cs: seq<Command>)
    ensures AllAmbient(Uplinks(cs))
  {
    if cs != [] {
      UplinksAmbient(cs[..|cs| - 1]);
      assert Uplinks(cs)[..|Uplinks(cs)| - 1] == Uplinks(cs[..|cs| - 1]);
    }
  }

  lemma {:induction false} BeatsAmbient(names: seq<string>)
    ensures AllAmbient(Beats(names))
  {
    if names != [] {
      BeatsAmbient(names[..|names| - 1]);
      assert Beats(names)[..|Beats(names)| - 1] == Beats(names[..|names| - 1]);
    }
  }

  lemma OneAmbient(step: Step)
    requires Ambient(step)
    ensures AllAmbient([step])
  {
    var one := [step];
    assert AllAmbient(one[..0]) && one[..|one| - 1] == one[..0] && Last(one) == step;
  }

  lemma {:induction false} CatchUpAmbient(start: real, dt: real, now: real, control: Control, n: nat)
    requires Controls(control)
    ensures AllAmbient(CatchUpSteps(start, dt, now, control, n))
  {
    var next := control(n, TickTime(start, dt, now, n));
    assert IsControlTick(next, TickTime(start, dt, now, n));
    if n > 0 {
      CatchUpAmbient(start, dt, now, control, n - 1);
      AmbientJoins(CatchUpSteps(start, dt, now, control, n - 1), next);
    } else {
      assert [] + next == next;
    }
  }

  lemma CycleIsSchedulable(inputs: Inputs, start: real, dt: real, now: real, ticks: nat)
    requires Quiet(inputs)
    ensures Schedulable(CycleOf(inputs, start, dt, now, ticks))
  {
    var polled := PayloadPolls(start, inputs.polled);
    var caught := CatchUpSteps(start, dt, now, inputs.control, ticks);
    OneAmbient(polled);
    CatchUpAmbient(start, dt, now, inputs.control, ticks);
    AmbientJoins([polled], caught);
    AmbientJoins([polled] + caught, inputs.capture);
    UplinksAmbient(inputs.uplinked);
    AmbientJoins([polled] + caught + inputs.capture, Uplinks(inputs.uplinked));
    BeatsAmbient(inputs.monitored);
    AmbientJoins(inputs.reports, Beats(inputs.monitored));
  }

  lemma AfterTwo(s: System, x: Step, y: Step, cfg: Config)
    ensures After(s, [x, y], cfg) == Next(Next(s, x, cfg), y, cfg)
  {
    assert [x, y][..1] == [x] && [x][..0] == [];
    assert After(s, [x], cfg) == Next(After(s, [], cfg), x, cfg);
  }

  /** The pieces of a cycle put together. */
  lemma ScheduleReached(s: System, s1: System, s2: System, s3: System, s4: System, s5: System, c: Cycle, cfg: Config)
    requires s1 == Next(s, AuthorityTicks(c.first), cfg)
    requires s2 == After(s1, c.before, cfg)
    requires s3 == Next(Next(s2, RouterTicks(c.routing), cfg), AuthorityTicks(c.second), cfg)
    requires s4 == After(s3, c.between, cfg)
    requires s5 == Next(Next(s4, FaultTicks(c.now, c.ids), cfg), AuthorityTicks(c.third), cfg)
    ensures s5 == After(s, Schedule(c), cfg)
  {
    var first, middle := [AuthorityTicks(c.first)], [RouterTicks(c.routing), AuthorityTicks(c.second)];
    assert first[..0] == [] && After(s, first[..0], cfg) == s;
    AfterJoins(s, first, c.before, cfg);
    AfterJoins(s, first + c.before, middle, cfg);
    AfterTwo(s2, RouterTicks(c.routing), AuthorityTicks(c.second), cfg);
    AfterJoins(s, first + c.before + middle, c.between, cfg);
    AfterJoins(s, UpToFaults(c), [FaultTicks(c.now, c.ids), AuthorityTicks(c.third)], cfg);
    AfterTwo(s4, FaultTicks(c.now, c.ids), AuthorityTicks(c.third), cfg);
  }

  // --- How many control ticks a catch-up takes --------------------------------------------

  function PeriodsIn(gap: real, dt: real): nat
    requires 0.0 < dt
  {
    if gap <= 0.0 then 0 else (gap / dt).Floor + 1
  }

  lemma Cancel(a: real, b: real, dt: real)
    requires 0.0 < dt && a * dt == b * dt
    ensures a == b
  {
  }

  lemma PeriodsShrink(gap: real, dt: real)
    requires 0.0 < dt && 0.0 < gap
    ensures PeriodsIn(gap - dt, dt) < PeriodsIn(gap, dt)
  {
    var q, r := gap / dt, (gap - dt) / dt;
    assert q * dt == gap && r * dt == gap - dt;
    Cancel(q - 1.0, r, dt);
  }

  /** The control ticks reach `now`. */
  lemma {:induction false} TicksReach(start: real, dt: real, now: real, k: nat) returns (n: nat)
    requires 0.0 < dt
    ensures k <= n && now <= TickTime(start, dt, now, n)
    decreases PeriodsIn(now - TickTime(start, dt, now, k), dt)
  {
    n := k;
    if TickTime(start, dt, now, k) + dt <= now {
      PeriodsShrink(now - TickTime(start, dt, now, k), dt);
      n := TicksReach(start, dt, now, k + 1);
    } else if TickTime(start, dt, now, k) < now {
      n := k + 1;
    }
  }

  class SystemApps {
    const cfg: Config
    const bus: Bus
    const router: CommandRouter
    const authority: SystemModesApp
    const fault: FaultApp
    const payload: PayloadApp
    var lastSeq: map<string, int>
    var entries: seq<Watchdog.Entry>

    constructor (cfg: Config, entries: seq<Watchdog.Entry>)
      ensures this.cfg == cfg && OneBus() && Abstract() == Start(entries)
    {
      var b := new Bus();
      var r := new CommandRouter(cfg.router, b);
      var a := new SystemModesApp(cfg.authority, b);
      var f := new FaultApp(cfg.fault, b);
      var p := new PayloadApp(cfg.payload, b);
      this.cfg, bus, router, authority, fault, payload := cfg, b, r, a, f, p;
      lastSeq, this.entries := map[], entries;
    }

    predicate OneBus() {
      && router.bus == bus && authority.bus == bus && fault.bus == bus && payload.bus == bus
      && router.cfg == cfg.router && authority.cfg == cfg.authority && fault.cfg == cfg.fault && payload.cfg == cfg.payload
    }

    ghost function Queued(): Queues
      reads bus
    {
      Queues(bus.commands, bus.routerSafety,
             bus.authorityRequests, bus.authorityRouted, bus.authoritySafety, bus.authoritySyncs,
             bus.heartbeats, bus.faultEvents, bus.faultActivations,
             bus.payloadSafety, bus.payloadActivations)
    }

    ghost function Abstract(): System
      requires OneBus()
      reads this, bus, router, authority, fault, payload
    {
      System(lastSeq, router.State(), authority.State(), fault.State(), entries, payload.State(), Queued())
    }

    ghost function All(): set<object>
    {
      {this, bus, router, authority, fault, payload}
    }

    method TickRouter(clock: Clock)
      requires OneBus()
      modifies router, bus
      ensures Abstract() == Next(old(Abstract()), RouterTicks(clock), cfg)
    {
      router.Tick(clock);
    }

    method TickAuthority(clock: Clock)
      requires OneBus()
      modifies authority, bus
      ensures Abstract() == Next(old(Abstract()), AuthorityTicks(clock), cfg)
    {
      authority.Tick(clock);
    }

    method TickFault(now: real, ids: Ids)
      requires OneBus()
      modifies this`entries, fault, bus
      ensures Abstract() == Next(old(Abstract()), FaultTicks(now, ids), cfg)
    {
      ghost var out := FaultOutOf(Abstract(), now, ids, cfg);
      entries := fault.Tick(entries, now, ids);
      assert fault.State() == out.latch && entries == out.entries;
      assert payload.State() == old(payload.State());
    }

    method Poll(now: real, w: World)
      requires OneBus()
      modifies payload, bus
      ensures Abstract() == Next(old(Abstract()), PayloadPolls(now, w), cfg)
    {
      payload.PollActivations(now, w);
    }

    method Act(op: PayloadProofs.Op, w: World)
      requires OneBus()
      modifies payload, bus
      ensures Abstract() == Next(old(Abstract()), PayloadActs(op, w), cfg)
    {
      if !op.Poll? && !op.Deliver? {
        payload.Carry(op, w);
      }
    }

    method Uplink(c: Command)
      requires OneBus()
      modifies this`lastSeq, bus
      ensures Abstract() == Next(old(Abstract()), Uplinked(c), cfg)
    {
      var previous := if c.source in lastSeq then lastSeq[c.source] else -1;
      if c.seqNo > previous {
        lastSeq := lastSeq[c.source := c.seqNo];
        bus.commands := bus.commands + [c];
      }
    }

    method Report(e: FaultEvent)
      requires OneBus()
      modifies bus
      ensures Abstract() == Next(old(Abstract()), Faulted(e), cfg)
    {
      bus.PublishFault(e);
    }

    method Ask(r: ModeRequestMsg)
      requires OneBus()
      modifies bus
      ensures Abstract() == Next(old(Abstract()), ModeAsked(r), cfg)
    {
      bus.PublishRequest(r);
    }

    method Sync(sync: SyncRequestMsg)
      requires OneBus()
      modifies bus
      ensures Abstract() == Next(old(Abstract()), SyncAsked(sync), cfg)
    {
      bus.authoritySyncs := bus.authoritySyncs + [sync];
    }

    method Beat(name: string)
      requires OneBus()
      modifies bus
      ensures Abstract() == Next(old(Abstract()), Beaten(name), cfg)
    {
      bus.PublishHeartbeat(name);
    }

    /** One step of payload, ingress or another subsystem. */
    method Perform(step: Step)
      requires OneBus() && Ambient(step)
      modifies All()
      ensures Abstract() == Next(old(Abstract()), step, cfg)
    {
      if step.PayloadPolls? {
        Poll(step.now, step.w);
      } else if step.PayloadActs? {
        Act(step.op, step.w);
      } else if step.Uplinked? {
        Uplink(step.c);
      } else if step.Faulted? {
        Report(step.e);
      } else if step.ModeAsked? {
        Ask(step.r);
      } else if step.SyncAsked? {
        Sync(step.s);
      } else {
        Beat(step.name);
      }
    }

    method PerformAll(steps: seq<Step>)
      requires OneBus() && AllAmbient(steps)
      modifies All()
      ensures Abstract() == After(old(Abstract()), steps, cfg)
    {
      for i := 0 to |steps|
        invariant Abstract() == After(old(Abstract()), steps[..i], cfg)
      {
        assert steps[..i + 1][..i] == steps[..i];
        AmbientAt(steps, i);
        Perform(steps[i]);
      }
      assert steps[..|steps|] == steps;
    }

    /** The control tick after the first n, at reading t. */
    method ControlTick(
        t: real, n: nat, control: Control, ghost s: System, ghost start: real, ghost dt: real, ghost now: real)
      requires OneBus() && Controls(control) && t == TickTime(start, dt, now, n)
      requires Abstract() == (if n == 0 then s else Caught(s, start, dt, now, control, n - 1, cfg))
      modifies All()
      ensures Abstract() == Caught(s, start, dt, now, control, n, cfg)
    {
      assert IsControlTick(control(n, t), t);
      PerformAll(control(n, t));
    }

    /** Run the control loop once at the current reading and then at every period up to `now`. */
    method CatchUp(start: real, dt: real, now: real, control: Control) returns (t: real, ticks: nat)
      requires OneBus() && 0.0 < dt && Controls(control)
      modifies All()
      ensures Abstract() == Caught(old(Abstract()), start, dt, now, control, ticks, cfg)
      ensures t == TickTime(start, dt, now, ticks) && t == (if start < now then now else start)
      ensures ticks > 0 ==> TickTime(start, dt, now, ticks - 1) < now
    {
      ghost var s := Abstract();
      ControlTick(start, 0, control, s, start, dt, now);
      t, ticks := Advance(start, dt, now, control, s);
    }

    /** The loop of the catch-up, after its first control tick. */
    method Advance(start: real, dt: real, now: real, control: Control, ghost s: System) returns (t: real, ticks: nat)
      requires OneBus() && 0.0 < dt && Controls(control) && Abstract() == Caught(s, start, dt, now, control, 0, cfg)
      modifies All()
      ensures Abstract() == Caught(s, start, dt, now, control, ticks, cfg)
      ensures t == TickTime(start, dt, now, ticks) && t == (if start < now then now else start)
      ensures ticks > 0 ==> TickTime(start, dt, now, ticks - 1) < now
    {
      ghost var last := TicksReach(start, dt, now, 0);
      t, ticks := start, 0;
      while t < now
        invariant t == TickTime(start, dt, now, ticks) && (if start < now then t <= now else ticks == 0)
        invariant ticks > 0 ==> TickTime(start, dt, now, ticks - 1) < now
        invariant ticks <= last
        invariant Abstract() == Caught(s, start, dt, now, control, ticks, cfg)
        decreases last - ticks
      {
        t, ticks := Capped(t + dt, now), ticks + 1;
        ControlTick(t, ticks, control, s, start, dt, now);
      }
    }

    method UplinkAll(cs: seq<Command>)
      requires OneBus()
      modifies this`lastSeq, bus
      ensures Abstract() == After(old(Abstract()), Uplinks(cs), cfg)
    {
      for i := 0 to |cs|
        invariant Abstract() == After(old(Abstract()), Uplinks(cs[..i]), cfg)
      {
        assert cs[..i + 1][..i] == cs[..i];
        Uplink(cs[i]);
        assert Uplinks(cs[..i + 1])[..|Uplinks(cs[..i])|] == Uplinks(cs[..i]);
      }
      assert cs[..|cs|] == cs;
    }

    method BeatAll(names: seq<string>)
      requires OneBus()
      modifies bus
      ensures Abstract() == After(old(Abstract()), Beats(names), cfg)
    {
      for i := 0 to |names|
        invariant Abstract() == After(old(Abstract()), Beats(names[..i]), cfg)
      {
        assert names[..i + 1][..i] == names[..i];
        Beat(names[i]);
        assert Beats(names[..i + 1])[..|Beats(names[..i])|] == Beats(names[..i]);
      }
      assert names[..|names|] == names;
    }

    /** The first half of a cycle: authority, payload up to `now`, and the commands that arrived. */
    method Front(inputs: Inputs, start: real, dt: real, now: real) returns (ticks: nat)
      requires OneBus() && 0.0 < dt && Quiet(inputs)
      modifies All()
      ensures var c := CycleOf(inputs, start, dt, now, ticks);
        Abstract() == After(Next(old(Abstract()), AuthorityTicks(c.first), cfg), c.before, cfg)
    {
      TickAuthority(inputs.clocks.0);
      ghost var s := Abstract();
      OneAmbient(PayloadPolls(start, inputs.polled));
      PerformAll([PayloadPolls(start, inputs.polled)]);
      ghost var done := [PayloadPolls(start, inputs.polled)];
      var _, n := CatchUp(start, dt, now, inputs.control);
      ticks := n;
      ghost var caught := CatchUpSteps(start, dt, now, inputs.control, ticks);
      CaughtIsAfter(After(s, done, cfg), start, dt, now, inputs.control, ticks, cfg);
      AfterJoins(s, done, caught, cfg);
      PerformAll(inputs.capture);
      AfterJoins(s, done + caught, inputs.capture, cfg);
      UplinkAll(inputs.uplinked);
      AfterJoins(s, done + caught + inputs.capture, Uplinks(inputs.uplinked), cfg);
    }

    method Route(routing: Clock, second: Clock)
      requires OneBus()
      modifies All()
      ensures Abstract() == Next(Next(old(Abstract()), RouterTicks(routing), cfg), AuthorityTicks(second), cfg)
    {
      TickRouter(routing);
      TickAuthority(second);
    }

    method Close(now: real, ids: Ids, third: Clock)
      requires OneBus()
      modifies All()
      ensures Abstract() == Next(Next(old(Abstract()), FaultTicks(now, ids), cfg), AuthorityTicks(third), cfg)
    {
      TickFault(now, ids);
      TickAuthority(third);
    }

    method Housekeep(reports: seq<Step>, monitored: seq<string>)
      requires OneBus() && AllAmbient(reports)
      modifies All()
      ensures Abstract() == After(old(Abstract()), reports + Beats(monitored), cfg)
    {
      AfterJoins(Abstract(), reports, Beats(monitored), cfg);
      PerformAll(reports);
      BeatAll(monitored);
    }

    method Sequence(inputs: Inputs, start: real, dt: real, now: real) returns (ticks: nat)
      requires OneBus() && 0.0 < dt && Quiet(inputs)
      modifies All()
      ensures Abstract() == After(old(Abstract()), Schedule(CycleOf(inputs, start, dt, now, ticks)), cfg)
    {
      ghost var s := Abstract();
      ticks := Front(inputs, start, dt, now);
      ghost var s2 := Abstract();
      Route(inputs.clocks.1, inputs.clocks.2);
      ghost var s3 := Abstract();
      Housekeep(inputs.reports, inputs.monitored);
      ghost var s4 := Abstract();
      Close(now, inputs.ids, inputs.clocks.3);
      ghost var c := CycleOf(inputs, start, dt, now, ticks);
      ScheduleReached(s, Next(s, AuthorityTicks(c.first), cfg), s2, s3, s4, Abstract(), c, cfg);
    }

    /** One deterministic cycle. `t` is the history that led here and `u` the one it ends with: the
        cycle is the schedule, so a latched fault app finds the authority in SAFE when it returns. */
    method StepOnce(
        inputs: Inputs, start: real, dt: real, now: real, ghost t: Traced)
      returns (ticks: nat, ghost u: Traced)
      requires OneBus() && 0.0 < dt && Quiet(inputs)
      requires Wired(cfg) && t.s == Abstract() && ProtocolSafety.Safety(t, cfg)
      modifies All()
      ensures u == TraceFrom(t, Schedule(CycleOf(inputs, start, dt, now, ticks)), cfg)
      ensures u.s == Abstract() && ProtocolSafety.Safety(u, cfg)
      ensures fault.safeLatched ==> authority.active.Some? && authority.active.value.active == Safe
    {
      ticks := Sequence(inputs, start, dt, now);
      ghost var c := CycleOf(inputs, start, dt, now, ticks);
      u := TraceFrom(t, Schedule(c), cfg);
      AfterIsTraced(t, Schedule(c), cfg);
      CycleIsSchedulable(inputs, start, dt, now, ticks);
      CycleEndsSafe(t, c, cfg);
      assert u.s.latch.latched == fault.safeLatched && u.s.authority.active == authority.active;
    }
  }
}
