/** One cycle of the deterministic simulator: a fixed schedule of the protocol's steps. */
module Stepping {
  import opened Basics
  import opened SystemModes
  import opened AuthorityProofs
  import opened Fault
  import opened PayloadContainment
  import opened Protocol
  import opened ProtocolChain
  import opened ProtocolSafety
  import Watchdog

  /** Steps of payload, ingress and the other subsystems, as opposed to router, authority and fault. */
  predicate Ambient(step: Step) {
    !step.RouterTicks? && !step.AuthorityTicks? && !step.FaultTicks?
  }

  predicate AllAmbient(steps: seq<Step>) {
    steps == [] || (AllAmbient(steps[..|steps| - 1]) && Ambient(Last(steps)))
  }

  /** What one cycle meets. `before` holds the control ticks, the capture and the commands that arrive;
      `between` what the other subsystems report and the heartbeats. */
  datatype Cycle = Cycle(
    first: Clock, before: seq<Step>, routing: Clock, second: Clock, between: seq<Step>, now: real, ids: Ids,
    third: Clock)

  predicate Schedulable(c: Cycle) {
    AllAmbient(c.before) && AllAmbient(c.between)
  }

  /** The schedule up to the fault app's tick. */
  function UpToFaults(c: Cycle): seq<Step> {
    [AuthorityTicks(c.first)] + c.before + [RouterTicks(c.routing), AuthorityTicks(c.second)] + c.between
  }

  function Schedule(c: Cycle): seq<Step> {
    UpToFaults(c) + [FaultTicks(c.now, c.ids), AuthorityTicks(c.third)]
  }

  lemma {:induction false} TraceJoins(t: Traced, a: seq<Step>, b: seq<Step>, cfg: Config)
    ensures TraceFrom(t, a + b, cfg) == TraceFrom(TraceFrom(t, a, cfg), b, cfg)
  {
    if b == [] {
      assert a + b == a;
    } else {
      TraceJoins(t, a, b[..|b| - 1], cfg);
      assert (a + b)[..|a + b| - 1] == a + b[..|b| - 1] && Last(a + b) == Last(b);
    }
  }

  lemma TraceTwo(t: Traced, x: Step, y: Step, cfg: Config)
    ensures TraceFrom(t, [x, y], cfg) == Trace(Trace(t, x, cfg), y, cfg)
  {
    assert [x, y][..1] == [x] && [x][..0] == [];
    assert TraceFrom(t, [x], cfg) == Trace(TraceFrom(t, [], cfg), x, cfg);
  }

  lemma {:induction false} AmbientKeepsRouted(t: Traced, steps: seq<Step>, cfg: Config)
    requires AllAmbient(steps)
    ensures TraceFrom(t, steps, cfg).s.q.routed == t.s.q.routed
  {
    if steps != [] {
      AmbientKeepsRouted(t, steps[..|steps| - 1], cfg);
      AmbientStep(TraceFrom(t, steps[..|steps| - 1], cfg), Last(steps), cfg);
    }
  }

  lemma AmbientStep(t: Traced, step: Step, cfg: Config)
    requires Ambient(step)
    ensures Trace(t, step, cfg).s.q.routed == t.s.q.routed
  {
    assert Trace(t, step, cfg).s == Next(t.s, step, cfg);
  }

  /** Nothing routed is left when the fault app ticks: the authority drained it in the same cycle. */
  lemma NothingRouted(t: Traced, c: Cycle, cfg: Config)
    requires Schedulable(c)
    ensures TraceFrom(t, UpToFaults(c), cfg).s.q.routed == []
  {
    var start := [AuthorityTicks(c.first)] + c.before;
    var middle := [RouterTicks(c.routing), AuthorityTicks(c.second)];
    TraceJoins(t, start + middle, c.between, cfg);
    TraceJoins(t, start, middle, cfg);
    TraceTwo(TraceFrom(t, start, cfg), RouterTicks(c.routing), AuthorityTicks(c.second), cfg);
    AmbientKeepsRouted(TraceFrom(t, start + middle, cfg), c.between, cfg);
  }

  lemma NothingExits(x: Activation)
    ensures !FromExit(x, [])
  {
  }

  /** With no routed command a tick authorises no recovery, so it cannot leave SAFE. */
  lemma StaysSafe(a: Authority, inbox: Inbox, clock: Clock, cfg: AuthorityConfig)
    requires WellFormed(a, cfg.epoch) && inbox.routed == []
    requires ModeOf(a) == Some(Safe) || RequestsSafe(inbox.requests)
    ensures ModeOf(AuthorityTick(cfg, a, inbox, clock).a) == Some(Safe)
  {
    if RequestsSafe(inbox.requests) {
      SafeRequestWins(cfg, a, inbox, clock);
    } else {
      var added := Added(cfg, a, inbox, clock);
      RecoveryComesFromExit(cfg, a, inbox, clock);
      TickExtendsChain(cfg, a, inbox, clock);
      forall x | x in added ensures !x.recovery {
        var i :| 0 <= i < |added| && added[i] == x;
        NothingExits(added[i]);
      }
      if added != [] {
        LeavingSafeIsRecovery(cfg.epoch, ModeOf(a), a.sequence, added);
      }
    }
  }

  lemma {:induction false} TriggersAreSeen(r: Raised, events: seq<FaultEvent>, ids: Ids, e: FaultEvent)
    requires e.code in r.seen || (e in events && e.code in SAFE_TRIGGERING_FAULTS)
    ensures e.code in RaiseAll(r, events, ids).seen
  {
    if events != [] {
      assert events == events[..|events| - 1] + [Last(events)];
      if e.code in r.seen || e in events[..|events| - 1] {
        TriggersAreSeen(r, events[..|events| - 1], ids, e);
      }
    }
  }

  /** A SAFE-triggering fault in the fault app's queue becomes a SAFE request in the same tick. */
  lemma FaultAsksSafe(s: System, now: real, ids: Ids, cfg: Config, e: FaultEvent)
    requires e in s.q.events && e.code in SAFE_TRIGGERING_FAULTS
    ensures RequestsSafe(Next(s, FaultTicks(now, ids), cfg).q.requests)
  {
    var inbox := FaultInbox(s.q.beats, s.q.events, s.q.faultActivations);
    var start := Raised(s.latch, [], {}, 0);
    var expired := Watchdog.Expired(Watchdog.Heard(s.entries, s.q.beats, now), now, cfg.fault.maxMiss);
    TriggersAreSeen(start, s.q.events, ids, e);
    TriggersAreSeen(RaiseAll(start, s.q.events, ids), expired, ids, e);
    RaiseFrames(cfg.fault, s.latch, s.entries, inbox, now, ids);
    MoreRequests(s.q.requests, RaisedInTick(cfg.fault, s.latch, s.entries, inbox, now, ids).requests);
  }

  /** The last two ticks of a cycle. */
  lemma ClosingTicks(t: Traced, now: real, ids: Ids, third: Clock, cfg: Config)
    requires Wired(cfg) && Safety(t, cfg) && t.s.q.routed == []
    ensures var u := Trace(Trace(t, FaultTicks(now, ids), cfg), AuthorityTicks(third), cfg);
      && (u.s.latch.latched ==> ModeOf(u.s.authority) == Some(Safe))
      && ((exists e :: e in t.s.q.events && e.code in SAFE_TRIGGERING_FAULTS) ==> ModeOf(u.s.authority) == Some(Safe))
  {
    var m := Trace(t, FaultTicks(now, ids), cfg);
    SafetyStep(t, FaultTicks(now, ids), cfg);
    if e :| e in t.s.q.events && e.code in SAFE_TRIGGERING_FAULTS {
      FaultAsksSafe(t.s, now, ids, cfg, e);
    }
    if ModeOf(m.s.authority) == Some(Safe) || RequestsSafe(m.s.q.requests) {
      StaysSafe(m.s.authority, InboxOf(m.s), third, cfg.authority);
    }
  }

  /** At the end of a cycle the fault latch is set only in SAFE, and a cycle whose fault tick drained
      a SAFE-triggering fault ends in SAFE. */
  lemma CycleEndsSafe(t: Traced, c: Cycle, cfg: Config)
    requires Wired(cfg) && Safety(t, cfg) && Schedulable(c)
    ensures var m, u := TraceFrom(t, UpToFaults(c), cfg), TraceFrom(t, Schedule(c), cfg);
      && Safety(u, cfg)
      && (u.s.latch.latched ==> ModeOf(u.s.authority) == Some(Safe))
      && ((exists e :: e in m.s.q.events && e.code in SAFE_TRIGGERING_FAULTS) ==> ModeOf(u.s.authority) == Some(Safe))
  {
    var m := TraceFrom(t, UpToFaults(c), cfg);
    SafetyFrom(t, UpToFaults(c), cfg);
    SafetyFrom(t, Schedule(c), cfg);
    NothingRouted(t, c, cfg);
    TraceJoins(t, UpToFaults(c), [FaultTicks(c.now, c.ids), AuthorityTicks(c.third)], cfg);
    TraceTwo(m, FaultTicks(c.now, c.ids), AuthorityTicks(c.third), cfg);
    ClosingTicks(m, c.now, c.ids, c.third, cfg);
  }

  function Cycles(entries: seq<Watchdog.Entry>, cs: seq<Cycle>, cfg: Config): Traced {
    if cs == [] then Begun(entries)
    else TraceFrom(Cycles(entries, cs[..|cs| - 1], cfg), Schedule(Last(cs)), cfg)
  }

  /** From power-up, after any number of cycles: latched implies SAFE. */
  lemma {:induction false} EveryCycleEndsSafe(entries: seq<Watchdog.Entry>, cs: seq<Cycle>, cfg: Config)
    requires Wired(cfg) && forall i :: 0 <= i < |cs| ==> Schedulable(cs[i])
    ensures var u := Cycles(entries, cs, cfg);
      Safety(u, cfg) && (u.s.latch.latched ==> ModeOf(u.s.authority) == Some(Safe))
  {
    if cs == [] {
      SafetyOverRuns(entries, [], cfg);
    } else {
      EveryCycleEndsSafe(entries, cs[..|cs| - 1], cfg);
      CycleEndsSafe(Cycles(entries, cs[..|cs| - 1], cfg), Last(cs), cfg);
    }
  }
}
