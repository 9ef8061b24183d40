/** Acceptance of fault-published safety evidence. Router, authority and payload each drain
    their own copy of the evidence stream with their own loop; this module says what the loops
    have in common and proves that consumers which drained the same records agree. */
module Evidence {
  import opened Basics

  predicate Qualifies(m: SafetyMsg, epoch: string, now: real) {
    && m.epoch == epoch
    && 0 <= m.sequence
    && m.observed.Finite?
    && m.observed.at <= now
  }

  // --- The payload keeps the whole record -------------------------------------------------

  function Accept(held: Option<SafetyMsg>, m: SafetyMsg, epoch: string, now: real): Option<SafetyMsg> {
    if Qualifies(m, epoch, now) && (held.Some? ==> held.value.sequence < m.sequence) then Some(m) else held
  }

  function Newest(held: Option<SafetyMsg>, msgs: seq<SafetyMsg>, epoch: string, now: real): Option<SafetyMsg> {
    if msgs == [] then held
    else Accept(Newest(held, msgs[..|msgs| - 1], epoch, now), Last(msgs), epoch, now)
  }

  // --- Router and authority keep these fields of it ---------------------------------------

  datatype Held = Held(sequence: int, observed: Option<real>, latched: bool, faults: set<FaultCode>)

  const NOTHING_HELD := Held(-1, None, false, {})

  function Hold(m: SafetyMsg): Held
    requires m.observed.Finite?
  {
    Held(m.sequence, Some(m.observed.at), m.latched, m.activeFaults)
  }

  function AcceptHeld(h: Held, m: SafetyMsg, epoch: string, now: real): Held {
    if Qualifies(m, epoch, now) && h.sequence < m.sequence then Hold(m) else h
  }

  function DrainHeld(h: Held, msgs: seq<SafetyMsg>, epoch: string, now: real): Held {
    if msgs == [] then h
    else AcceptHeld(DrainHeld(h, msgs[..|msgs| - 1], epoch, now), Last(msgs), epoch, now)
  }

  /** Evidence counts as fresh for one watchdog interval after its observation. */
  predicate Fresh(h: Held, now: real, interval: real) {
    h.observed.Some? && 0.0 <= now - h.observed.value <= interval + TOLERANCE
  }

  // --- What the three loops compute -------------------------------------------------------

  /** One drain: the records found in the queue and the clock reading they were judged by. */
  datatype Batch = Batch(msgs: seq<SafetyMsg>, now: real)

  predicate Seen(batches: seq<Batch>, epoch: string, m: SafetyMsg) {
    exists i :: 0 <= i < |batches| && m in batches[i].msgs && Qualifies(m, epoch, batches[i].now)
  }

  function NewestOver(batches: seq<Batch>, epoch: string): Option<SafetyMsg> {
    if batches == [] then None
    else Newest(NewestOver(batches[..|batches| - 1], epoch), Last(batches).msgs, epoch, Last(batches).now)
  }

  function HeldOver(batches: seq<Batch>, epoch: string): Held {
    if batches == [] then NOTHING_HELD
    else DrainHeld(HeldOver(batches[..|batches| - 1], epoch), Last(batches).msgs, epoch, Last(batches).now)
  }

  /** The result of a drain is the record it started from or a qualifying one from the queue, and
      nothing that qualified is newer. */
  lemma {:induction false} NewestIsMaximal(held: Option<SafetyMsg>, msgs: seq<SafetyMsg>, epoch: string, now: real)
    ensures var r := Newest(held, msgs, epoch, now);
      && (r == held || (r.Some? && r.value in msgs && Qualifies(r.value, epoch, now)))
      && (held.Some? ==> r.Some? && held.value.sequence <= r.value.sequence)
      && (r != held && held.Some? ==> held.value.sequence < r.value.sequence)
      && (forall m :: m in msgs && Qualifies(m, epoch, now) ==> r.Some? && m.sequence <= r.value.sequence)
  {
    if msgs != [] {
      NewestIsMaximal(held, msgs[..|msgs| - 1], epoch, now);
      assert msgs == msgs[..|msgs| - 1] + [Last(msgs)];
    }
  }

  /** Over any run of drains the accepted record is a qualifying one of greatest sequence. */
  lemma {:induction false} NewestOverIsMaximum(batches: seq<Batch>, epoch: string)
    ensures var r := NewestOver(batches, epoch);
      && (r.Some? ==> Seen(batches, epoch, r.value))
      && (forall m :: Seen(batches, epoch, m) ==> r.Some? && m.sequence <= r.value.sequence)
  {
    if batches != [] {
      var front, b := batches[..|batches| - 1], Last(batches);
      NewestOverIsMaximum(front, epoch);
      var held := NewestOver(front, epoch);
      NewestIsMaximal(held, b.msgs, epoch, b.now);
      var r := NewestOver(batches, epoch);
      if r.Some? {
        if r == held {
          var i :| 0 <= i < |front| && r.value in front[i].msgs && Qualifies(r.value, epoch, front[i].now);
          assert batches[i] == front[i];
        } else {
          assert r.value in batches[|batches| - 1].msgs;
        }
      }
      forall m | Seen(batches, epoch, m) ensures r.Some? && m.sequence <= r.value.sequence {
        var i :| 0 <= i < |batches| && m in batches[i].msgs && Qualifies(m, epoch, batches[i].now);
        if i < |front| {
          assert front[i] == batches[i];
          assert Seen(front, epoch, m);
        }
      }
    }
  }

  /** The fields router and authority keep are those of the record the payload keeps. */
  lemma {:induction false} HeldIsViewOfNewest(batches: seq<Batch>, epoch: string)
    ensures var r := NewestOver(batches, epoch);
      && (r.Some? ==> r.value.observed.Finite? && 0 <= r.value.sequence)
      && HeldOver(batches, epoch) == (if r.Some? then Hold(r.value) else NOTHING_HELD)
  {
    if batches != [] {
      var front, b := batches[..|batches| - 1], Last(batches);
      HeldIsViewOfNewest(front, epoch);
      DrainViews(NewestOver(front, epoch), HeldOver(front, epoch), b.msgs, epoch, b.now);
    }
  }

  lemma {:induction false} DrainViews(r: Option<SafetyMsg>, h: Held, msgs: seq<SafetyMsg>, epoch: string, now: real)
    requires r.Some? ==> r.value.observed.Finite? && 0 <= r.value.sequence
    requires h == if r.Some? then Hold(r.value) else NOTHING_HELD
    ensures var r' := Newest(r, msgs, epoch, now);
      && (r'.Some? ==> r'.value.observed.Finite? && 0 <= r'.value.sequence)
      && DrainHeld(h, msgs, epoch, now) == (if r'.Some? then Hold(r'.value) else NOTHING_HELD)
  {
    if msgs != [] {
      DrainViews(r, h, msgs[..|msgs| - 1], epoch, now);
    }
  }

  /** Order, batching and duplication of deliveries do not matter: two consumers whose drains saw the
      same qualifying records hold the same evidence, given that a sequence number names one record. */
  lemma ConsumersAgree(a: seq<Batch>, b: seq<Batch>, epoch: string)
    requires forall m :: Seen(a, epoch, m) <==> Seen(b, epoch, m)
    requires forall m, n :: Seen(a, epoch, m) && Seen(a, epoch, n) && m.sequence == n.sequence ==> m == n
    ensures NewestOver(a, epoch) == NewestOver(b, epoch)
    ensures HeldOver(a, epoch) == HeldOver(b, epoch)
  {
    NewestOverIsMaximum(a, epoch);
    NewestOverIsMaximum(b, epoch);
    HeldIsViewOfNewest(a, epoch);
    HeldIsViewOfNewest(b, epoch);
    var r, s := NewestOver(a, epoch), NewestOver(b, epoch);
    assert r.Some? ==> Seen(b, epoch, r.value);
    assert s.Some? ==> Seen(a, epoch, s.value);
  }
}
