/** The pure command-routing core: the hazardous ARM / EXECUTE two-step and the SAFE inhibit. */
module Routing {
  import opened Basics

  const CORE := "core"

  type ArmKey = (string, string)

  datatype Rules = Rules(routable: set<string>, hazardous: set<string>, window: real)

  datatype RouteResult = RouteResult(
    routed: Option<Command>, ack: Option<Ack>, unroutable: bool, armed: map<ArmKey, real>)

  function KeyOf(c: Command): ArmKey {
    (c.source, c.commandId)
  }

  function AckOf(c: Command, accepted: bool, fault: FaultCode): Ack {
    Ack(accepted, c.commandId, c.source, c.seqNo, fault)
  }

  function RouteCommand(
    c: Command, rules: Rules, latched: bool, timely: bool, armed: map<ArmKey, real>, now: real): RouteResult
  {
    if c.target !in rules.routable then
      RouteResult(None, Some(AckOf(c, false, CommandUnroutable)), true, armed)
    else if c.target == CORE then
      RouteResult(None, Some(AckOf(c, true, NoFault)), false, armed)
    else if c.commandId !in rules.hazardous then
      RouteResult(Some(c), None, false, armed)
    else
      var key := KeyOf(c);
      var phase := TextOf(c.params, "phase");
      if phase == "ARM" then
        RouteResult(None, Some(AckOf(c, true, NoFault)), false, armed[key := now])
      else if phase == "EXECUTE" then
        var without := armed - {key};
        if key !in armed || now - armed[key] > rules.window then
          RouteResult(None, Some(AckOf(c, false, CommandInvalid)), false, without)
        else if c.commandId != EXIT_SAFE && (latched || !timely) then
          RouteResult(None, Some(AckOf(c, false, CommandInvalid)), false, without)
        else
          RouteResult(Some(c), None, false, without)
      else
        RouteResult(None, Some(AckOf(c, false, CommandInvalid)), false, armed)
  }

  // --- Streams of commands ----------------------------------------------------------------

  /** One command as the router meets it: with the evidence in force and the clock reading. */
  datatype Offer = Offer(command: Command, latched: bool, timely: bool, now: real)

  predicate Gated(c: Command, rules: Rules) {
    c.target in rules.routable && c.target != CORE && c.commandId in rules.hazardous
  }

  predicate Arms(o: Offer, rules: Rules, key: ArmKey) {
    Gated(o.command, rules) && TextOf(o.command.params, "phase") == "ARM" && KeyOf(o.command) == key
  }

  predicate Executes(o: Offer, rules: Rules, key: ArmKey) {
    Gated(o.command, rules) && TextOf(o.command.params, "phase") == "EXECUTE" && KeyOf(o.command) == key
  }

  function ArmedBefore(offers: seq<Offer>, n: nat, rules: Rules): map<ArmKey, real>
    requires n <= |offers|
    decreases n, 0
  {
    if n == 0 then map[] else ResultAt(offers, n - 1, rules).armed
  }

  /** What the router does with the n-th command of the stream. */
  function ResultAt(offers: seq<Offer>, n: nat, rules: Rules): RouteResult
    requires n < |offers|
    decreases n, 1
  {
    var o := offers[n];
    RouteCommand(o.command, rules, o.latched, o.timely, ArmedBefore(offers, n, rules), o.now)
  }

  /** The m-th command armed the key and nothing has armed or attempted it since. */
  predicate Standing(offers: seq<Offer>, n: nat, rules: Rules, key: ArmKey, m: int)
    requires n <= |offers|
  {
    && 0 <= m < n && Arms(offers[m], rules, key)
    && forall k :: m < k < n ==> !Arms(offers[k], rules, key) && !Executes(offers[k], rules, key)
  }

  /** The armed-state map is exactly the set of arms still standing, with their times. */
  lemma {:induction false} ArmedMapIsStandingArms(offers: seq<Offer>, n: nat, rules: Rules, key: ArmKey)
    requires n <= |offers|
    ensures key in ArmedBefore(offers, n, rules) ==>
      exists m :: Standing(offers, n, rules, key, m) && ArmedBefore(offers, n, rules)[key] == offers[m].now
    ensures forall m :: Standing(offers, n, rules, key, m) ==>
      key in ArmedBefore(offers, n, rules) && ArmedBefore(offers, n, rules)[key] == offers[m].now
  {
    if n > 0 {
      ArmedMapIsStandingArms(offers, n - 1, rules, key);
      var before, after := ArmedBefore(offers, n - 1, rules), ArmedBefore(offers, n, rules);
      var o := offers[n - 1];
      assert after == ResultAt(offers, n - 1, rules).armed;
      assert ResultAt(offers, n - 1, rules) == RouteCommand(o.command, rules, o.latched, o.timely, before, o.now);
      assert after == RouteCommand(o.command, rules, o.latched, o.timely, before, o.now).armed;
      if Arms(o, rules, key) {
        assert Standing(offers, n, rules, key, n - 1);
      } else if !Executes(o, rules, key) {
        assert key in after <==> key in before;
        assert key in after ==> after[key] == before[key];
        forall m | Standing(offers, n, rules, key, m)
          ensures Standing(offers, n - 1, rules, key, m)
        {
        }
        if key in after {
          var m :| Standing(offers, n - 1, rules, key, m) && before[key] == offers[m].now;
          assert Standing(offers, n, rules, key, m);
        }
      }
    }
  }

  /** Over any command stream, a gated command is dispatched if and only if it is an EXECUTE, some
      earlier ARM of the same source and command still stands and is at most the window old, and,
      unless it is EXIT_SAFE, the fault latch is clear on fresh evidence. */
  lemma DispatchedExactly(offers: seq<Offer>, n: nat, rules: Rules)
    requires n < |offers| && Gated(offers[n].command, rules)
    ensures var o, key := offers[n], KeyOf(offers[n].command);
      ResultAt(offers, n, rules).routed.Some? <==>
        && Executes(o, rules, key)
        && (exists m :: Standing(offers, n, rules, key, m) && o.now - offers[m].now <= rules.window)
        && (o.command.commandId == EXIT_SAFE || (!o.latched && o.timely))
  {
    ArmedMapIsStandingArms(offers, n, rules, KeyOf(offers[n].command));
  }

  /** The n-th command of the stream is one to let through: it has a target other than the core, and if it is
      hazardous it executes an earlier ARM that still stands and is at most the window old and, unless it leaves
      SAFE, the fault latch is clear on timely evidence. */
  ghost predicate Passes(offers: seq<Offer>, n: nat, rules: Rules)
    requires n < |offers|
  {
    var o, c := offers[n], offers[n].command;
    && c.target in rules.routable && c.target != "core"
    && (c.commandId in rules.hazardous ==>
          && TextOf(c.params, "phase") == "EXECUTE"
          && (exists m :: Standing(offers, n, rules, (c.source, c.commandId), m) && o.now - offers[m].now <= rules.window)
          && (c.commandId == "EXIT_SAFE" || (!o.latched && o.timely)))
  }

  /** The router's own answer is positive for the core's commands and for arming. */
  predicate Positive(c: Command, rules: Rules) {
    c.target in rules.routable && (c.target == "core" || (c.commandId in rules.hazardous && TextOf(c.params, "phase") == "ARM"))
  }

  function AnswerTo(c: Command, rules: Rules): Ack {
    Ack(Positive(c, rules), c.commandId, c.source, c.seqNo,
        if Positive(c, rules) then NoFault else if c.target !in rules.routable then CommandUnroutable else CommandInvalid)
  }

  /** Over any stream, whatever the command: it is dispatched if and only if it passes, and otherwise answered by
      the router, which reports it as unroutable if it has no target. */
  lemma RoutedExactly(offers: seq<Offer>, n: nat, rules: Rules)
    requires n < |offers|
    ensures var r, c := ResultAt(offers, n, rules), offers[n].command;
      && r.routed == (if Passes(offers, n, rules) then Some(c) else None)
      && r.ack == (if Passes(offers, n, rules) then None else Some(AnswerTo(c, rules)))
      && (r.unroutable <==> c.target !in rules.routable)
  {
    var c := offers[n].command;
    assert KeyOf(c) == (c.source, c.commandId);
    if Gated(c, rules) {
      DispatchedExactly(offers, n, rules);
      ArmedMapIsStandingArms(offers, n, rules, KeyOf(c));
    }
  }

  lemma {:induction false} PastIsFixed(offers: seq<Offer>, more: seq<Offer>, n: nat, rules: Rules)
    requires n <= |offers|
    ensures ArmedBefore(offers + more, n, rules) == ArmedBefore(offers, n, rules)
    ensures n < |offers| ==> ResultAt(offers + more, n, rules) == ResultAt(offers, n, rules)
  {
    if n > 0 {
      PastIsFixed(offers, more, n - 1, rules);
    }
  }

  /** An ARM pays for one EXECUTE at most: no two dispatches rest on the same ARM. */
  lemma ArmsAreSpentOnce(offers: seq<Offer>, i: nat, j: nat, rules: Rules, m: int)
    requires i < j < |offers|
    requires Gated(offers[i].command, rules) && Gated(offers[j].command, rules)
    requires ResultAt(offers, i, rules).routed.Some?
    requires Standing(offers, i, rules, KeyOf(offers[i].command), m)
    ensures !Standing(offers, j, rules, KeyOf(offers[j].command), m)
  {
  }

  /** Every command is answered once: dispatched unchanged, or acknowledged by the router. Only a
      command without a target raises a fault, and then it is also rejected. */
  lemma AnsweredOnce(c: Command, rules: Rules, latched: bool, timely: bool, armed: map<ArmKey, real>, now: real)
    ensures var r := RouteCommand(c, rules, latched, timely, armed, now);
      && (r.routed.Some? <==> r.ack.None?)
      && (r.routed.Some? ==> r.routed.value == c && c.target in rules.routable && c.target != CORE)
      && (r.ack.Some? ==> (r.ack.value.commandId, r.ack.value.source, r.ack.value.seqNo)
                          == (c.commandId, c.source, c.seqNo))
      && (r.ack.Some? ==> (r.ack.value.accepted <==> r.ack.value.fault == NoFault))
      && (r.unroutable <==> c.target !in rules.routable)
      && (r.unroutable <==> r.ack.Some? && r.ack.value.fault == CommandUnroutable)
  {
  }

  /** A command leaves every other source's and every other command's arm as it was. */
  lemma OtherArmsUntouched(
    c: Command, rules: Rules, latched: bool, timely: bool, armed: map<ArmKey, real>, now: real, key: ArmKey)
    requires key != KeyOf(c)
    ensures var after := RouteCommand(c, rules, latched, timely, armed, now).armed;
      (key in after <==> key in armed) && (key in armed ==> after[key] == armed[key])
  {
  }
}
