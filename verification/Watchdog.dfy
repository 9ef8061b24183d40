/** The heartbeat watchdog: miss counting per subsystem, and its detection bound over whole runs. */
module Watchdog {
  import opened Basics

  datatype Entry = Entry(subsystem: string, last: real, interval: real, misses: int)

  predicate Watches(entries: seq<Entry>, name: string) {
    exists i :: 0 <= i < |entries| && entries[i].subsystem == name
  }

  /** A dictionary holds a name once, however often it is listed. */
  function BuildEntries(names: seq<string>, interval: real, now: real): seq<Entry> {
    if names == [] then []
    else
      var front := BuildEntries(names[..|names| - 1], interval, now);
      if Watches(front, Last(names)) then front else front + [Entry(Last(names), now, interval, 0)]
  }

  function Beat(e: Entry, name: string, now: real): Entry {
    if e.subsystem == name then e.(last := now, misses := 0) else e
  }

  function BeatAll(entries: seq<Entry>, name: string, now: real): (r: seq<Entry>)
    ensures |r| == |entries|
  {
    seq(|entries|, i requires 0 <= i < |entries| => Beat(entries[i], name, now))
  }

  function Heard(entries: seq<Entry>, beats: seq<string>, now: real): seq<Entry> {
    if beats == [] then entries
    else BeatAll(Heard(entries, beats[..|beats| - 1], now), Last(beats), now)
  }

  predicate Overdue(e: Entry, now: real) {
    now - e.last > e.interval
  }

  function CheckOne(e: Entry, now: real): Entry {
    if Overdue(e, now) then e.(misses := e.misses + 1) else e
  }

  predicate Expires(e: Entry, now: real, maxMiss: int) {
    Overdue(e, now) && e.misses + 1 >= maxMiss
  }

  function Checked(entries: seq<Entry>, now: real): seq<Entry> {
    if entries == [] then [] else Checked(entries[..|entries| - 1], now) + [CheckOne(Last(entries), now)]
  }

  function Expired(entries: seq<Entry>, now: real, maxMiss: int): seq<FaultEvent> {
    if entries == [] then []
    else
      Expired(entries[..|entries| - 1], now, maxMiss)
      + (if Expires(Last(entries), now, maxMiss) then [FaultEvent(WatchdogExpire, Last(entries).subsystem)] else [])
  }

  method CheckHeartbeats(
      entries: seq<Entry>, now: real, maxMiss: int)
    returns (updated: seq<Entry>, faults: seq<FaultEvent>)
    ensures updated == Checked(entries, now)
    ensures faults == Expired(entries, now, maxMiss)
  {
    updated, faults := [], [];
    for i := 0 to |entries|
      invariant updated == Checked(entries[..i], now)
      invariant faults == Expired(entries[..i], now, maxMiss)
    {
      assert entries[..i + 1][..i] == entries[..i];
      var entry := entries[i];
      if now - entry.last > entry.interval {
        var miss := entry.misses + 1;
        updated := updated + [entry.(misses := miss)];
        if miss >= maxMiss {
          faults := faults + [FaultEvent(WatchdogExpire, entry.subsystem)];
        }
      } else {
        updated := updated + [entry];
      }
    }
    assert entries[..|entries|] == entries;
  }

  /** The faults of a check name exactly the subsystems that expire in it. */
  lemma {:induction false} ExpiredNames(entries: seq<Entry>, now: real, maxMiss: int, f: FaultEvent)
    ensures f in Expired(entries, now, maxMiss) <==>
      exists i :: 0 <= i < |entries| && Expires(entries[i], now, maxMiss) && f == FaultEvent(WatchdogExpire, entries[i].subsystem)
  {
    if entries != [] {
      var n := |entries| - 1;
      ExpiredNames(entries[..n], now, maxMiss, f);
      if f in Expired(entries[..n], now, maxMiss) {
        var i :| 0 <= i < n && Expires(entries[..n][i], now, maxMiss) && f == FaultEvent(WatchdogExpire, entries[..n][i].subsystem);
        assert entries[i] == entries[..n][i];
      }
      if i :| 0 <= i < n && Expires(entries[i], now, maxMiss) && f == FaultEvent(WatchdogExpire, entries[i].subsystem) {
        assert entries[..n][i] == entries[i];
      }
    }
  }

  lemma {:induction false} HeardAndCheckedAt(entries: seq<Entry>, beats: seq<string>, now: real, i: nat)
    requires i < |entries|
    ensures |Heard(entries, beats, now)| == |entries|
    ensures Heard(entries, beats, now)[i]
      == if entries[i].subsystem in beats then entries[i].(last := now, misses := 0) else entries[i]
  {
    if beats != [] {
      HeardAndCheckedAt(entries, beats[..|beats| - 1], now, i);
      assert beats == beats[..|beats| - 1] + [Last(beats)];
    }
  }

  lemma {:induction false} CheckedAt(entries: seq<Entry>, now: real, i: nat)
    requires i < |entries|
    ensures |Checked(entries, now)| == |entries| && Checked(entries, now)[i] == CheckOne(entries[i], now)
  {
    var n := |entries| - 1;
    if n > 0 {
      CheckedAt(entries[..n], now, if i < n then i else 0);
    }
  }

  // --- One subsystem over a run of ticks --------------------------------------------------

  /** A fault-app tick seen from one subsystem: whether a heartbeat of it was drained, and when. */
  datatype Tick = Tick(heard: bool, now: real)

  function EntryAt(e: Entry, ticks: seq<Tick>, n: nat): Entry
    requires n < |ticks|
  {
    var before := if n == 0 then e else CheckOne(EntryAt(e, ticks, n - 1), ticks[n - 1].now);
    if ticks[n].heard then before.(last := ticks[n].now, misses := 0) else before
  }

  predicate FiresAt(e: Entry, ticks: seq<Tick>, n: nat, maxMiss: int)
    requires n < |ticks|
  {
    Expires(EntryAt(e, ticks, n), ticks[n].now, maxMiss)
  }

  /** The first tick of the current silence. */
  function SilentFrom(ticks: seq<Tick>, n: nat): (h: nat)
    requires n < |ticks|
    ensures h <= n && (ticks[h].heard || h == 0)
    ensures forall i :: h < i <= n ==> !ticks[i].heard
  {
    if ticks[n].heard || n == 0 then n else SilentFrom(ticks, n - 1)
  }

  function LastHeard(e: Entry, ticks: seq<Tick>, n: nat): real
    requires n < |ticks|
  {
    var h := SilentFrom(ticks, n);
    if ticks[h].heard then ticks[h].now else e.last
  }

  /** How many ticks from `from` up to and including `n` found the subsystem overdue. */
  function OverdueTicks(ticks: seq<Tick>, from: nat, n: nat, since: real, interval: real): nat
    requires from <= n < |ticks|
  {
    (if n == from then 0 else OverdueTicks(ticks, from, n - 1, since, interval))
    + (if ticks[n].now - since > interval then 1 else 0)
  }

  predicate Ordered(ticks: seq<Tick>) {
    forall i, j :: 0 <= i <= j < |ticks| ==> ticks[i].now <= ticks[j].now
  }

  lemma {:induction false} MissesCountOverdueTicks(e: Entry, ticks: seq<Tick>, n: nat)
    requires n < |ticks| && e.misses == 0
    ensures var x := EntryAt(e, ticks, n);
      && x.interval == e.interval && x.last == LastHeard(e, ticks, n)
      && CheckOne(x, ticks[n].now).misses
         == OverdueTicks(ticks, SilentFrom(ticks, n), n, LastHeard(e, ticks, n), e.interval)
  {
    if n > 0 {
      MissesCountOverdueTicks(e, ticks, n - 1);
    }
  }

  /** A subsystem is reported at a tick if and only if at least `maxMiss` ticks since its last
      drained heartbeat, this one included, found it overdue. */
  lemma FiresExactly(e: Entry, ticks: seq<Tick>, n: nat, maxMiss: int)
    requires n < |ticks| && e.misses == 0 && 1 <= maxMiss
    requires Ordered(ticks) && e.interval >= 0.0
    ensures FiresAt(e, ticks, n, maxMiss) <==>
      OverdueTicks(ticks, SilentFrom(ticks, n), n, LastHeard(e, ticks, n), e.interval) >= maxMiss
  {
    MissesCountOverdueTicks(e, ticks, n);
    if !Overdue(EntryAt(e, ticks, n), ticks[n].now) {
      NoneOverdueBefore(ticks, SilentFrom(ticks, n), n, LastHeard(e, ticks, n), e.interval);
    }
  }

  lemma {:induction false} NoneOverdueBefore(ticks: seq<Tick>, from: nat, n: nat, since: real, interval: real)
    requires from <= n < |ticks| && Ordered(ticks) && ticks[n].now - since <= interval
    ensures OverdueTicks(ticks, from, n, since, interval) == 0
  {
    if from < n {
      NoneOverdueBefore(ticks, from, n - 1, since, interval);
    }
  }

  function Periods(k: int, period: real): real {
    k as real * period
  }

  lemma OneMorePeriod(k: int, period: real)
    ensures Periods(0, period) == 0.0 && Periods(k + 1, period) == Periods(k, period) + period
  {
  }

  /** With gaps of at most `period`, k overdue ticks take the clock at most k periods past the interval. */
  lemma {:induction false} OverdueTicksKeepPace(
    ticks: seq<Tick>, from: nat, n: nat, since: real, interval: real, period: real)
    requires from <= n < |ticks| && period >= 0.0
    requires ticks[from].now <= since + interval + period
    requires forall i :: from <= i < n ==> ticks[i + 1].now <= ticks[i].now + period
    ensures ticks[n].now <= since + interval + Periods(OverdueTicks(ticks, from, n, since, interval), period)
  {
    if from < n {
      OverdueTicksKeepPace(ticks, from, n - 1, since, interval, period);
      OneMorePeriod(OverdueTicks(ticks, from, n - 1, since, interval), period);
    } else {
      OneMorePeriod(0, period);
    }
  }

  lemma PeriodsGrow(a: int, b: int, period: real)
    requires a <= b && period >= 0.0
    ensures Periods(a, period) <= Periods(b, period)
  {
  }

  /** Detection bound: a silence is never reported at or before one interval, and is reported by every
      tick later than the interval plus `maxMiss - 1` periods, hence within `maxMiss` periods of it. */
  lemma DetectionBound(e: Entry, ticks: seq<Tick>, n: nat, maxMiss: int, period: real)
    requires n < |ticks| && e.misses == 0 && 1 <= maxMiss
    requires Ordered(ticks) && e.interval >= 0.0 && period >= 0.0
    requires forall i :: 0 <= i < |ticks| - 1 ==> ticks[i + 1].now <= ticks[i].now + period
    requires ticks[0].now <= e.last + period
    ensures FiresAt(e, ticks, n, maxMiss) ==> ticks[n].now > LastHeard(e, ticks, n) + e.interval
    ensures ticks[n].now > LastHeard(e, ticks, n) + e.interval + Periods(maxMiss - 1, period)
      ==> FiresAt(e, ticks, n, maxMiss)
  {
    FiresExactly(e, ticks, n, maxMiss);
    MissesCountOverdueTicks(e, ticks, n);
    var h, since := SilentFrom(ticks, n), LastHeard(e, ticks, n);
    assert ticks[h].now <= since + e.interval + period;
    OverdueTicksKeepPace(ticks, h, n, since, e.interval, period);
    var k := OverdueTicks(ticks, h, n, since, e.interval);
    if k < maxMiss {
      PeriodsGrow(k, maxMiss - 1, period);
    }
  }

  // --- All subsystems over a run of ticks -------------------------------------------------

  /** What one fault-app tick drains, and its time. */
  datatype Round = Round(beats: seq<string>, now: real)

  function Rounds(entries: seq<Entry>, rounds: seq<Round>): seq<Entry> {
    if rounds == [] then entries
    else
      var before := Rounds(entries, rounds[..|rounds| - 1]);
      Checked(Heard(before, Last(rounds).beats, Last(rounds).now), Last(rounds).now)
  }

  /** The rounds as one subsystem sees them. */
  function TicksOf(rounds: seq<Round>, name: string): (ticks: seq<Tick>)
    ensures |ticks| == |rounds|
    ensures forall i :: 0 <= i < |rounds| ==> ticks[i] == Tick(name in rounds[i].beats, rounds[i].now)
  {
    seq(|rounds|, i requires 0 <= i < |rounds| => Tick(name in rounds[i].beats, rounds[i].now))
  }

  lemma {:induction false} PastTicksOnly(e: Entry, a: seq<Tick>, b: seq<Tick>, n: nat)
    requires n < |a| && n < |b| && forall i :: 0 <= i <= n ==> a[i] == b[i]
    ensures EntryAt(e, a, n) == EntryAt(e, b, n)
  {
    if n > 0 {
      PastTicksOnly(e, a, b, n - 1);
    }
  }

  /** One entry after a run, from its own heartbeats only. */
  function EntryAfter(e: Entry, rounds: seq<Round>): Entry {
    if rounds == [] then e
    else CheckOne(EntryAt(e, TicksOf(rounds, e.subsystem), |rounds| - 1), Last(rounds).now)
  }

  lemma EntryBefore(e: Entry, rounds: seq<Round>, n: nat)
    requires n < |rounds|
    ensures var before := EntryAfter(e, rounds[..n]);
      EntryAt(e, TicksOf(rounds, e.subsystem), n)
        == if e.subsystem in rounds[n].beats then before.(last := rounds[n].now, misses := 0) else before
  {
    if n > 0 {
      PastTicksOnly(e, TicksOf(rounds, e.subsystem), TicksOf(rounds[..n], e.subsystem), n - 1);
    }
  }

  lemma {:induction false} NameStays(e: Entry, ticks: seq<Tick>, n: nat)
    requires n < |ticks|
    ensures EntryAt(e, ticks, n).subsystem == e.subsystem
  {
    if n > 0 {
      NameStays(e, ticks, n - 1);
    }
  }

  lemma AfterKeepsName(e: Entry, rounds: seq<Round>)
    ensures EntryAfter(e, rounds).subsystem == e.subsystem
  {
    if rounds != [] {
      NameStays(e, TicksOf(rounds, e.subsystem), |rounds| - 1);
    }
  }

  /** Each entry evolves by its own heartbeats only. */
  lemma {:induction false} RoundsAt(entries: seq<Entry>, rounds: seq<Round>, i: nat)
    requires i < |entries|
    ensures |Rounds(entries, rounds)| == |entries| && Rounds(entries, rounds)[i] == EntryAfter(entries[i], rounds)
  {
    if rounds != [] {
      var front, last := rounds[..|rounds| - 1], Last(rounds);
      RoundsAt(entries, front, i);
      AfterKeepsName(entries[i], front);
      EntryBefore(entries[i], rounds, |rounds| - 1);
      HeardAndCheckedAt(Rounds(entries, front), last.beats, last.now, i);
      CheckedAt(Heard(Rounds(entries, front), last.beats, last.now), last.now, i);
    }
  }

  predicate DistinctNames(entries: seq<Entry>) {
    forall i, j :: 0 <= i < j < |entries| ==> entries[i].subsystem != entries[j].subsystem
  }

  /** Over any run of fault-app ticks with non-decreasing times, a tick reports a subsystem if and only if
      at least `maxMiss` ticks since its last drained heartbeat, this one included, found it overdue. */
  lemma ReportedExactly(entries: seq<Entry>, rounds: seq<Round>, n: nat, i: nat, maxMiss: int)
    requires n < |rounds| && i < |entries| && DistinctNames(entries) && 1 <= maxMiss
    requires entries[i].misses == 0 && entries[i].interval >= 0.0
    requires forall j, k :: 0 <= j <= k < |rounds| ==> rounds[j].now <= rounds[k].now
    ensures var ticks := TicksOf(rounds, entries[i].subsystem);
      var heard := Heard(Rounds(entries, rounds[..n]), rounds[n].beats, rounds[n].now);
      FaultEvent(WatchdogExpire, entries[i].subsystem) in Expired(heard, rounds[n].now, maxMiss) <==>
        OverdueTicks(ticks, SilentFrom(ticks, n), n, LastHeard(entries[i], ticks, n), entries[i].interval) >= maxMiss
  {
    var name := entries[i].subsystem;
    var ticks := TicksOf(rounds, name);
    var before := Rounds(entries, rounds[..n]);
    var heard := Heard(before, rounds[n].beats, rounds[n].now);
    FiresExactly(entries[i], ticks, n, maxMiss);
    HeardEntry(entries, rounds, n, i);
    ExpiredNames(heard, rounds[n].now, maxMiss, FaultEvent(WatchdogExpire, name));
    forall k | 0 <= k < |entries| ensures |heard| == |entries| && heard[k].subsystem == entries[k].subsystem {
      HeardEntry(entries, rounds, n, k);
    }
  }

  // --- Detection in time ------------------------------------------------------------------

  /** The first tick later than a deadline, among those from `from` on. */
  lemma {:induction false} FirstLater(ticks: seq<Tick>, from: nat, n: nat, deadline: real) returns (m: nat)
    requires from <= n < |ticks| && ticks[n].now > deadline
    ensures from <= m <= n && ticks[m].now > deadline && (m == from || ticks[m - 1].now <= deadline)
  {
    if from == n || ticks[n - 1].now <= deadline {
      m := n;
    } else {
      m := FirstLater(ticks, from, n - 1, deadline);
    }
  }

  lemma {:induction false} SameSilence(e: Entry, ticks: seq<Tick>, m: nat, n: nat)
    requires m <= n < |ticks| && SilentFrom(ticks, n) <= m
    ensures SilentFrom(ticks, m) == SilentFrom(ticks, n) && LastHeard(e, ticks, m) == LastHeard(e, ticks, n)
  {
    if m < n {
      SameSilence(e, ticks, m, n - 1);
    }
  }

  /** A silence that lasts until `maxMiss` periods past the interval has fired by then. */
  lemma FiresInTime(e: Entry, ticks: seq<Tick>, n: nat, maxMiss: int, period: real) returns (m: nat)
    requires n < |ticks| && e.misses == 0 && 1 <= maxMiss
    requires Ordered(ticks) && e.interval >= 0.0 && period > 0.0
    requires forall i :: 0 <= i < |ticks| - 1 ==> ticks[i + 1].now <= ticks[i].now + period
    requires ticks[0].now <= e.last + period
    requires ticks[n].now >= LastHeard(e, ticks, n) + e.interval + Periods(maxMiss, period)
    ensures m <= n && LastHeard(e, ticks, m) == LastHeard(e, ticks, n) && FiresAt(e, ticks, m, maxMiss)
    ensures ticks[m].now <= LastHeard(e, ticks, n) + e.interval + Periods(maxMiss, period)
  {
    var h, since := SilentFrom(ticks, n), LastHeard(e, ticks, n);
    OneMorePeriod(maxMiss - 1, period);
    OneMorePeriod(0, period);
    PeriodsGrow(0, maxMiss - 1, period);
    m := FirstLater(ticks, h, n, since + e.interval + Periods(maxMiss - 1, period));
    SameSilence(e, ticks, m, n);
    DetectionBound(e, ticks, m, maxMiss, period);
  }

  /** The rounds of a fault app that ticks at least once a period from its start on. */
  predicate Paced(entries: seq<Entry>, rounds: seq<Round>, period: real) {
    && (forall j, k :: 0 <= j <= k < |rounds| ==> rounds[j].now <= rounds[k].now)
    && (forall k :: 0 <= k < |rounds| - 1 ==> rounds[k + 1].now <= rounds[k].now + period)
    && (rounds != [] ==> forall i :: 0 <= i < |entries| ==> rounds[0].now <= entries[i].last + period)
  }

  /** The faults the n-th round of a run reports. */
  function ReportAt(entries: seq<Entry>, rounds: seq<Round>, n: nat, maxMiss: int): seq<FaultEvent>
    requires n < |rounds|
  {
    Expired(Heard(Rounds(entries, rounds[..n]), rounds[n].beats, rounds[n].now), rounds[n].now, maxMiss)
  }

  /** Detection bound over runs: whenever a run of rounds at most a period apart goes on, without a heartbeat of
      a subsystem, until `maxMiss` periods past its interval, some round by then has reported it. */
  lemma DetectedInTime(entries: seq<Entry>, rounds: seq<Round>, i: nat, maxMiss: int, period: real) returns (m: nat)
    requires rounds != [] && i < |entries| && DistinctNames(entries) && 1 <= maxMiss && period > 0.0
    requires entries[i].misses == 0 && entries[i].interval >= 0.0 && Paced(entries, rounds, period)
    requires var ticks := TicksOf(rounds, entries[i].subsystem);
      Last(rounds).now >= LastHeard(entries[i], ticks, |rounds| - 1) + entries[i].interval + Periods(maxMiss, period)
    ensures m < |rounds|
    ensures var ticks := TicksOf(rounds, entries[i].subsystem);
      rounds[m].now <= LastHeard(entries[i], ticks, |rounds| - 1) + entries[i].interval + Periods(maxMiss, period)
    ensures FaultEvent(WatchdogExpire, entries[i].subsystem) in ReportAt(entries, rounds, m, maxMiss)
  {
    var ticks := TicksOf(rounds, entries[i].subsystem);
    m := FiresInTime(entries[i], ticks, |rounds| - 1, maxMiss, period);
    FiresExactly(entries[i], ticks, m, maxMiss);
    ReportedExactly(entries, rounds, m, i, maxMiss);
  }

  lemma HeardEntry(entries: seq<Entry>, rounds: seq<Round>, n: nat, i: nat)
    requires n < |rounds| && i < |entries|
    ensures var heard := Heard(Rounds(entries, rounds[..n]), rounds[n].beats, rounds[n].now);
      && |heard| == |entries| && heard[i] == EntryAt(entries[i], TicksOf(rounds, entries[i].subsystem), n)
      && heard[i].subsystem == entries[i].subsystem
  {
    RoundsAt(entries, rounds[..n], i);
    AfterKeepsName(entries[i], rounds[..n]);
    EntryBefore(entries[i], rounds, n);
    HeardAndCheckedAt(Rounds(entries, rounds[..n]), rounds[n].beats, rounds[n].now, i);
  }

  lemma {:induction false} BuildEntriesWatches(names: seq<string>, interval: real, now: real)
    ensures var r := BuildEntries(names, interval, now);
      && DistinctNames(r)
      && (forall i :: 0 <= i < |r| ==> r[i].subsystem in names && r[i] == Entry(r[i].subsystem, now, interval, 0))
      && (forall name :: name in names ==> Watches(r, name))
  {
    if names != [] {
      var front, last := BuildEntries(names[..|names| - 1], interval, now), Last(names);
      BuildEntriesWatches(names[..|names| - 1], interval, now);
      assert names == names[..|names| - 1] + [last];
      var r := BuildEntries(names, interval, now);
      assert r[..|front|] == front;
      forall name | name in names ensures Watches(r, name) {
        if name != last {
          assert Watches(front, name);
          var i :| 0 <= i < |front| && front[i].subsystem == name;
          assert r[i].subsystem == name;
        } else if !Watches(front, last) {
          assert r[|front|].subsystem == name;
        }
      }
    }
  }
}
