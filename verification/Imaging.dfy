/** Planned capture: deadline schedule, duty floor, inference decimation and the loop's sleep. */
module Imaging {
  import opened Basics
  import opened Capture

  datatype ImagingPolicy = ImagingPolicy(enabled: bool, interval: Time, duty: Time, exposure: Time, gain: Time)

  datatype InferencePolicy = InferencePolicy(enabled: bool, everyN: int)

  datatype Policy = Policy(imaging: ImagingPolicy, inference: InferencePolicy)

  datatype Limits = Limits(exposureMin: Time, exposureMax: Time, gainMin: Time, gainMax: Time, maxRate: Time)

  datatype Schedule = Schedule(context: Option<Context>, next: Option<real>, opportunities: nat, captured: nat)

  datatype Decision = Wait | Drain | Take

  datatype Plan = Plan(schedule: Schedule, decision: Decision)

  // --- The policy -------------------------------------------------------------------------

  predicate FiniteFields(p: ImagingPolicy, l: Limits) {
    && p.interval.Finite? && p.duty.Finite? && p.exposure.Finite? && p.gain.Finite?
    && l.exposureMin.Finite? && l.exposureMax.Finite? && l.gainMin.Finite? && l.gainMax.Finite? && l.maxRate.Finite?
  }

  predicate CadenceFits(p: ImagingPolicy, l: Limits)
    requires FiniteFields(p, l) && l.maxRate.at > 0.0
  {
    && p.interval.at > 0.0
    && (p.enabled ==>
          && p.interval.at + TOLERANCE >= 1.0 / l.maxRate.at
          && p.exposure.at * 0.000001 <= p.interval.at + TOLERANCE)
  }

  /** Every rejection carries the same code, so validity is all that matters. */
  predicate ValidPolicy(p: Policy, l: Limits) {
    var i := p.imaging;
    && FiniteFields(i, l)
    && 0.0 < l.exposureMin.at <= l.exposureMax.at && l.gainMin.at <= l.gainMax.at && l.maxRate.at > 0.0
    && p.inference.everyN > 0
    && 0.0 <= i.duty.at <= 1.0
    && l.exposureMin.at <= i.exposure.at <= l.exposureMax.at && l.gainMin.at <= i.gain.at <= l.gainMax.at
    && (p.inference.enabled ==> i.enabled && i.duty.at > 0.0)
    && CadenceFits(i, l)
  }

  // --- Planning and recording -------------------------------------------------------------

  /** Captures due among the first n opportunities. */
  function Quota(n: nat, duty: real): (q: int)
    ensures q as real <= n as real * duty < q as real + 1.0
  {
    (n as real * duty).Floor
  }

  function Under(s: Schedule, context: Context): Schedule {
    if s.context == Some(context) then s else Schedule(Some(context), None, 0, 0)
  }

  function PlanCapture(s: Schedule, p: Policy, context: Context, now: Time, l: Limits): Result<Plan> {
    if !ValidPolicy(p, l) || now.NonFinite? then Err(CommandInvalid)
    else
      var current := Under(s, context);
      if !p.imaging.enabled then Ok(Plan(current, Wait))
      else if current.next.Some? && now.at < current.next.value then Ok(Plan(current, Wait))
      else
        var index := current.opportunities + 1;
        var duty := p.imaging.duty.at;
        Ok(Plan(current.(opportunities := index, next := Some(now.at + p.imaging.interval.at)),
                if Quota(index, duty) > Quota(index - 1, duty) then Take else Drain))
  }

  function RecordCapture(s: Schedule, context: Context, inference: InferencePolicy): (Schedule, bool)
    requires inference.everyN > 0
  {
    var current := Under(s, context);
    (current.(captured := current.captured + 1), inference.enabled && current.captured % inference.everyN == 0)
  }

  /** The loop's sleep. */
  function CaptureWait(next: Option<Time>, callNow: Time, now: Time, wake: Time): (w: real) {
    if wake.NonFinite? || wake.at <= 0.0 then 0.0
    else if next.None? || next.value.NonFinite? || callNow.NonFinite? || now.NonFinite? || next.value.at <= callNow.at then wake.at
    else if next.value.at - now.at <= 0.0 then 0.0
    else if next.value.at - now.at <= wake.at then next.value.at - now.at
    else wake.at
  }

  /** The ways a policy is wrong. */
  predicate Wrong(p: Policy, l: Limits) {
    var i, n := p.imaging, p.inference;
    || i.interval.NonFinite? || i.duty.NonFinite? || i.exposure.NonFinite? || i.gain.NonFinite?
    || l.exposureMin.NonFinite? || l.exposureMax.NonFinite? || l.gainMin.NonFinite? || l.gainMax.NonFinite?
    || l.maxRate.NonFinite?
    || l.exposureMin.at <= 0.0 || l.exposureMax.at < l.exposureMin.at || l.gainMax.at < l.gainMin.at || l.maxRate.at <= 0.0
    || n.everyN <= 0 || i.duty.at < 0.0 || i.duty.at > 1.0
    || i.exposure.at < l.exposureMin.at || i.exposure.at > l.exposureMax.at
    || i.gain.at < l.gainMin.at || i.gain.at > l.gainMax.at
    || (n.enabled && (!i.enabled || i.duty.at == 0.0))
    || i.interval.at <= 0.0
    || (i.enabled && i.interval.at + 0.000000000001 < 1.0 / l.maxRate.at)
    || (i.enabled && i.exposure.at / 1000000.0 > i.interval.at + 0.000000000001)
  }

  lemma WrongExactly(p: Policy, l: Limits)
    ensures ValidPolicy(p, l) <==> !Wrong(p, l)
  {
  }

  /** A plan is refused exactly under a wrong policy or a time that is no number. */
  lemma RefusesExactly(s: Schedule, p: Policy, context: Context, now: Time, l: Limits)
    ensures PlanCapture(s, p, context, now, l).Err? <==> Wrong(p, l) || now.NonFinite?
    ensures PlanCapture(s, p, context, now, l).Err? ==> PlanCapture(s, p, context, now, l).error == CommandInvalid
  {
    WrongExactly(p, l);
  }

  /** Under a policy with acquisition off a plan always waits, with counts and deadline as they were. With acquisition on it
      waits exactly before the deadline; otherwise it spends one opportunity, sets the deadline one interval on, and
      takes a capture exactly if the duty floor rises. A new context starts all counts again. */
  lemma PlansExactly(s: Schedule, p: Policy, context: Context, now: Time, l: Limits)
    requires PlanCapture(s, p, context, now, l).Ok?
    ensures var planned := PlanCapture(s, p, context, now, l).value;
      var current := if s.context == Some(context) then s else Schedule(Some(context), None, 0, 0);
      var after, decision := planned.schedule, planned.decision;
      && (decision == Wait <==> !p.imaging.enabled || (current.next.Some? && now.at < current.next.value))
      && (decision == Wait ==> after == current)
      && (decision != Wait ==>
            && after.context == Some(context) && after.captured == current.captured
            && after.opportunities == current.opportunities + 1
            && after.next == Some(now.at + p.imaging.interval.at)
            && (decision == Take <==>
                  Quota(after.opportunities, p.imaging.duty.at) > Quota(current.opportunities, p.imaging.duty.at)))
  {
  }

  // --- Runs under one context -------------------------------------------------------------

  datatype Call = Plans(now: Time) | Records

  /** A run with the times of the opportunities spent, the captures planned and the inferences run. */
  datatype Traced = Traced(s: Schedule, spent: seq<real>, taken: nat, inferred: nat)

  function Step(t: Traced, call: Call, p: Policy, context: Context, l: Limits): Traced
    requires p.inference.everyN > 0
  {
    match call
    case Plans(now) =>
      (var planned := PlanCapture(t.s, p, context, now, l);
       if planned.Err? then t
       else if planned.value.decision == Wait then t.(s := planned.value.schedule)
       else Traced(planned.value.schedule, t.spent + [now.at],
                   t.taken + (if planned.value.decision == Take then 1 else 0), t.inferred))
    case Records =>
      var (s, infer) := RecordCapture(t.s, context, p.inference);
      t.(s := s, inferred := t.inferred + (if infer then 1 else 0))
  }

  function Run(s: Schedule, calls: seq<Call>, p: Policy, context: Context, l: Limits): Traced
    requires p.inference.everyN > 0
  {
    if calls == [] then Traced(s, [], 0, 0)
    else Step(Run(s, calls[..|calls| - 1], p, context, l), Last(calls), p, context, l)
  }

  /** k intervals. */
  function Span(k: int, interval: real): real {
    k as real * interval
  }

  lemma QuotaSteps(n: nat, duty: real)
    requires 0.0 <= duty <= 1.0
    ensures Quota(n, duty) <= Quota(n + 1, duty) <= Quota(n, duty) + 1
  {
  }

  lemma QuotaStarts(duty: real)
    ensures Quota(0, duty) == 0
  {
  }

  /** ceil(c / n). */
  function Runs(c: nat, n: int): nat
    requires n > 0
  {
    (c + n - 1) / n
  }

  lemma RunsIsCeiling(c: nat, n: int)
    requires n > 0
    ensures c <= Runs(c, n) * n < c + n
  {
  }

  lemma RunsSteps(c: nat, n: int)
    requires n > 0
    ensures Runs(c + 1, n) == Runs(c, n) + (if c % n == 0 then 1 else 0)
  {
    var q, r := c / n, c % n;
    assert c == q * n + r && 0 <= r < n;
    Quotient(c + n - 1, n, if r == 0 then q else q + 1, if r == 0 then n - 1 else r - 1);
    Quotient(c + n, n, q + 1, r);
  }

  lemma Quotient(a: int, n: int, q: int, r: int)
    requires n > 0 && a == q * n + r && 0 <= r < n
    ensures a / n == q
  {
    var d := a / n - q;
    assert a == (a / n) * n + a % n;
    assert d * n == r - a % n;
    assert -n < d * n < n;
    NonzeroMultiple(d, n);
  }

  lemma NonzeroMultiple(d: int, n: int)
    requires n > 0
    ensures d >= 1 ==> d * n >= n
    ensures d <= -1 ==> d * n <= -n
  {
  }

  /** The times an opportunity was spent lie an interval apart, the deadline one interval after the last. */
  predicate Spaced(spent: seq<real>, interval: real) {
    forall i, j :: 0 <= i <= j < |spent| ==> spent[j] - spent[i] >= Span(j - i, interval)
  }

  predicate Counts(t: Traced, p: Policy, context: Context, l: Limits)
    requires ValidPolicy(p, l)
  {
    var s := Under(t.s, context);
    && |t.spent| == s.opportunities
    && t.taken == Quota(s.opportunities, p.imaging.duty.at)
    && t.inferred == (if p.inference.enabled then Runs(s.captured, p.inference.everyN) else 0)
    && Spaced(t.spent, p.imaging.interval.at)
    && (if t.spent == [] then s.next.None? else s.next == Some(Last(t.spent) + p.imaging.interval.at))
  }

  lemma SpacedGrows(spent: seq<real>, interval: real, now: real)
    requires Spaced(spent, interval) && (spent != [] ==> now >= Last(spent) + interval)
    ensures Spaced(spent + [now], interval)
  {
  }

  lemma PlanCounts(t: Traced, now: Time, p: Policy, context: Context, l: Limits)
    requires ValidPolicy(p, l) && Counts(t, p, context, l)
    ensures Counts(Step(t, Plans(now), p, context, l), p, context, l)
  {
    var planned := PlanCapture(t.s, p, context, now, l);
    if planned.Ok? && planned.value.decision != Wait {
      QuotaSteps(|t.spent|, p.imaging.duty.at);
      SpacedGrows(t.spent, p.imaging.interval.at, now.at);
    }
  }

  lemma RecordCounts(t: Traced, p: Policy, context: Context, l: Limits)
    requires ValidPolicy(p, l) && Counts(t, p, context, l)
    ensures Counts(Step(t, Records, p, context, l), p, context, l)
  {
    RunsSteps(Under(t.s, context).captured, p.inference.everyN);
  }

  /** Over every run of plans and records under one context, whatever schedule it began from: n spent
      opportunities have planned floor(n * duty) captures, c recorded captures have run inference
      ceil(c / N) times if it is enabled, and opportunities lie an interval apart. */
  lemma {:induction false} CadenceExactly(s: Schedule, calls: seq<Call>, p: Policy, context: Context, l: Limits)
    requires ValidPolicy(p, l) && s.context != Some(context)
    ensures Counts(Run(s, calls, p, context, l), p, context, l)
  {
    if calls == [] {
      QuotaStarts(p.imaging.duty.at);
      Quotient(p.inference.everyN - 1, p.inference.everyN, 0, p.inference.everyN - 1);
    } else {
      CadenceExactly(s, calls[..|calls| - 1], p, context, l);
      var t := Run(s, calls[..|calls| - 1], p, context, l);
      match Last(calls)
      case Plans(now) => PlanCounts(t, now, p, context, l);
      case Records => RecordCounts(t, p, context, l);
    }
  }

  /** Any window of length T spends at most floor(T / interval) + 1 opportunities. */
  lemma WindowBound(
      s: Schedule, calls: seq<Call>, p: Policy, context: Context, l: Limits, i: nat, j: nat, from: real,
      width: real)
    requires ValidPolicy(p, l) && s.context != Some(context)
    requires var spent := Run(s, calls, p, context, l).spent;
      i <= j < |spent| && from <= spent[i] && spent[j] <= from + width
    ensures j - i + 1 <= (width / p.imaging.interval.at).Floor + 1
  {
    CadenceExactly(s, calls, p, context, l);
    var spent, interval := Run(s, calls, p, context, l).spent, p.imaging.interval.at;
    assert spent[j] - spent[i] >= Span(j - i, interval);
    AtMost(j - i, width, interval);
  }

  lemma AtMost(k: nat, width: real, interval: real)
    requires interval > 0.0 && Span(k, interval) <= width
    ensures k <= (width / interval).Floor
  {
    var q := width / interval;
    assert q * interval == width;
    Scales(q, k as real, interval);
  }

  lemma Scales(a: real, b: real, interval: real)
    requires interval > 0.0
    ensures a < b ==> a * interval < b * interval
  {
  }

  /** A plan under an enabled policy leaves a deadline later than the call; the sleep after it ends at or
      before that deadline, and within the wake bound. */
  lemma SleepRespectsDeadline(
    s: Schedule, p: Policy, context: Context, callNow: real, l: Limits, now: real, wake: real)
    requires ValidPolicy(p, l) && p.imaging.enabled && wake > 0.0
    ensures var next := PlanCapture(s, p, context, Finite(callNow), l).value.schedule.next;
      && next.Some? && next.value > callNow
      && var w := CaptureWait(Some(Finite(next.value)), Finite(callNow), Finite(now), Finite(wake));
      && 0.0 <= w <= wake
      && (now <= next.value ==> now + w <= next.value)
      && (next.value <= now ==> w == 0.0)
      && (w < wake && now < next.value ==> now + w == next.value)
  {
  }

  /** The loop does not sleep on a wake bound that is no positive number, sleeps for all of it if no later deadline is
      armed, and otherwise to the deadline if it is nearer. */
  lemma SleepsExactly(next: Option<Time>, callNow: Time, now: Time, wake: Time)
    ensures var w := CaptureWait(next, callNow, now, wake);
      var armed := next.Some? && next.value.Finite? && callNow.Finite? && now.Finite? && next.value.at > callNow.at;
      if wake.NonFinite? || wake.at <= 0.0 then w == 0.0
      else if !armed then w == wake.at
      else
        || (w == wake.at && now.at + wake.at <= next.value.at)
        || (w == 0.0 && next.value.at <= now.at)
        || (now.at + w == next.value.at && 0.0 < w < wake.at)
  {
  }
}
