/** The budgeted priority downlink. */
module Downlink {
  import opened Basics

  type Bytes = seq<int>

  const FAULT_EVENT := 0
  const COMMAND_ACK := 1
  const HK_TELEMETRY := 2

  /** A queued item; `storageRef` is empty for inline content. */
  datatype Item = Item(
    priority: int, order: nat, itemId: string, payload: Bytes, storageRef: string, byteLen: nat, crc: int)

  datatype Inline = Inline(itemId: string, body: Bytes)

  datatype Product = Product(priority: int, itemId: string, entryId: string, byteLen: nat)

  datatype DownlinkConfig = DownlinkConfig(budget: int, crc: Bytes -> int)

  datatype Queue = Queue(pending: seq<Item>, nextOrder: nat, aos: bool)

  const START := Queue([], 0, false)

  // --- Order ------------------------------------------------------------------------------

  predicate Before(a: Item, b: Item) {
    a.priority < b.priority || (a.priority == b.priority && a.order < b.order)
  }

  function Insert(x: Item, sorted: seq<Item>): seq<Item> {
    if sorted == [] || !Before(sorted[0], x) then [x] + sorted else [sorted[0]] + Insert(x, sorted[1..])
  }

  /** The items by priority and, within a priority, by order of arrival. */
  function Sorted(items: seq<Item>): seq<Item> {
    if items == [] then [] else Insert(Last(items), Sorted(items[..|items| - 1]))
  }

  // --- One pass ---------------------------------------------------------------------------

  datatype Pass = Pass(sent: nat, emitted: seq<Item>, remaining: seq<Item>)

  function Offer(p: Pass, x: Item, budget: int): Pass {
    if p.sent == 0 || p.sent + x.byteLen <= budget then Pass(p.sent + x.byteLen, p.emitted + [x], p.remaining)
    else Pass(p.sent, p.emitted, p.remaining + [x])
  }

  function OfferAll(items: seq<Item>, budget: int): Pass {
    if items == [] then Pass(0, [], []) else Offer(OfferAll(items[..|items| - 1], budget), Last(items), budget)
  }

  function Drain(q: Queue, cfg: DownlinkConfig): (Queue, seq<Item>) {
    var pass := OfferAll(Sorted(q.pending), cfg.budget);
    (q.(pending := pass.remaining), pass.emitted)
  }

  // --- One tick ---------------------------------------------------------------------------

  /** What a tick finds in its subscriptions; the link states are true for AOS. */
  datatype Inbox = Inbox(
    link: seq<bool>, faults: seq<Inline>, acks: seq<Inline>, telemetry: seq<Inline>, transitions: seq<Inline>,
    products: seq<Product>)

  function Enqueue(q: Queue, x: Item): Queue {
    q.(pending := q.pending + [x], nextOrder := q.nextOrder + 1)
  }

  function InlineItem(q: Queue, priority: int, x: Inline, cfg: DownlinkConfig): Item {
    Item(priority, q.nextOrder, x.itemId, x.body, "", |x.body|, cfg.crc(x.body))
  }

  function EnqueueInline(q: Queue, priority: int, xs: seq<Inline>, cfg: DownlinkConfig): Queue {
    if xs == [] then q
    else
      var before := EnqueueInline(q, priority, xs[..|xs| - 1], cfg);
      Enqueue(before, InlineItem(before, priority, Last(xs), cfg))
  }

  function ProductItem(q: Queue, x: Product): Item {
    Item(x.priority, q.nextOrder, x.itemId, [], x.entryId, x.byteLen, 0)
  }

  function EnqueueProducts(q: Queue, xs: seq<Product>): Queue {
    if xs == [] then q
    else
      var before := EnqueueProducts(q, xs[..|xs| - 1]);
      Enqueue(before, ProductItem(before, Last(xs)))
  }

  function LinkAfter(aos: bool, link: seq<bool>): bool {
    if link == [] then aos else Last(link)
  }

  function Arrived(q: Queue, inbox: Inbox, cfg: DownlinkConfig): Queue {
    var linked := q.(aos := LinkAfter(q.aos, inbox.link));
    var faults := EnqueueInline(linked, FAULT_EVENT, inbox.faults, cfg);
    var acks := EnqueueInline(faults, COMMAND_ACK, inbox.acks, cfg);
    var telemetry := EnqueueInline(acks, HK_TELEMETRY, inbox.telemetry, cfg);
    var transitions := EnqueueInline(telemetry, HK_TELEMETRY, inbox.transitions, cfg);
    EnqueueProducts(transitions, inbox.products)
  }

  function TickOf(q: Queue, inbox: Inbox, cfg: DownlinkConfig): (Queue, seq<Item>) {
    var arrived := Arrived(q, inbox, cfg);
    if arrived.aos then Drain(arrived, cfg) else (arrived, [])
  }

  // --- Sorting ----------------------------------------------------------------------------

  predicate Ascending(items: seq<Item>) {
    forall i, j :: 0 <= i < j < |items| ==> Before(items[i], items[j])
  }

  predicate DistinctOrders(items: seq<Item>) {
    forall i, j :: 0 <= i < j < |items| ==> items[i].order != items[j].order
  }

  lemma {:induction false} InsertKeeps(x: Item, sorted: seq<Item>)
    requires Ascending(sorted) && forall y :: y in sorted ==> y.order != x.order
    ensures Ascending(Insert(x, sorted)) && multiset(Insert(x, sorted)) == multiset(sorted) + multiset{x}
  {
    if sorted != [] && Before(sorted[0], x) {
      InsertKeeps(x, sorted[1..]);
      assert sorted == [sorted[0]] + sorted[1..];
      var rest := Insert(x, sorted[1..]);
      forall y | y in rest ensures Before(sorted[0], y) {
        assert y in multiset(rest);
        if y != x {
          assert y in multiset(sorted[1..]);
        }
      }
    }
  }

  lemma {:induction false} SortedIsSorted(items: seq<Item>)
    requires DistinctOrders(items)
    ensures Ascending(Sorted(items)) && multiset(Sorted(items)) == multiset(items)
  {
    if items != [] {
      var front, x := items[..|items| - 1], Last(items);
      SortedIsSorted(front);
      assert items == front + [x];
      forall y | y in Sorted(front) ensures y.order != x.order {
        assert y in multiset(Sorted(front)) && y in front;
        var i :| 0 <= i < |front| && front[i] == y;
        assert items[i] == y && items[|front|] == x;
      }
      InsertKeeps(x, Sorted(front));
    }
  }

  // --- What a pass sends ------------------------------------------------------------------

  function Size(items: seq<Item>): nat {
    if items == [] then 0 else Size(items[..|items| - 1]) + Last(items).byteLen
  }

  /** Everything sent fits the budget, or one item alone is larger than it and nothing else sent has any
      bytes. */
  predicate WithinBudget(emitted: seq<Item>, budget: int) {
    || Size(emitted) <= budget
    || (exists i :: 0 <= i < |emitted| && emitted[i].byteLen > budget && Size(emitted) == emitted[i].byteLen)
  }

  lemma SizeGrows(items: seq<Item>, x: Item)
    ensures Size(items + [x]) == Size(items) + x.byteLen
  {
  }

  /** A pass splits the items in two and counts the bytes of the part it sends. */
  lemma {:induction false} PassSplits(items: seq<Item>, budget: int)
    ensures var p := OfferAll(items, budget);
      && p.sent == Size(p.emitted)
      && multiset(p.emitted) + multiset(p.remaining) == multiset(items)
      && (forall x :: x in p.emitted || x in p.remaining ==> x in items)
  {
    if items != [] {
      var front, x := items[..|items| - 1], Last(items);
      PassSplits(front, budget);
      SizeGrows(OfferAll(front, budget).emitted, x);
      assert items == front + [x];
    }
  }

  lemma AscendingGrows(items: seq<Item>, x: Item)
    requires Ascending(items) && forall y :: y in items ==> Before(y, x)
    ensures Ascending(items + [x])
  {
  }

  lemma {:induction false} PassKeepsOrder(items: seq<Item>, budget: int)
    requires Ascending(items)
    ensures var p := OfferAll(items, budget); Ascending(p.emitted) && Ascending(p.remaining)
  {
    if items != [] {
      var front, x := items[..|items| - 1], Last(items);
      forall i, j | 0 <= i < j < |front| ensures Before(front[i], front[j]) {
        assert Before(items[i], items[j]);
      }
      PassKeepsOrder(front, budget);
      PassSplits(front, budget);
      var p := OfferAll(front, budget);
      forall y | y in front ensures Before(y, x) {
        var i :| 0 <= i < |front| && front[i] == y;
        assert Before(items[i], items[|front|]);
      }
      AscendingGrows(p.emitted, x);
      AscendingGrows(p.remaining, x);
    }
  }

  /** The head is always sent. */
  lemma {:induction false} PassSendsHead(items: seq<Item>, budget: int)
    requires items != []
    ensures var p := OfferAll(items, budget); p.emitted != [] && p.emitted[0] == items[0]
  {
    if |items| > 1 {
      PassSendsHead(items[..|items| - 1], budget);
    } else {
      assert items[..0] == [];
      assert OfferAll(items[..0], budget) == Pass(0, [], []);
    }
  }

  /** No item is left that would still fit. */
  lemma {:induction false} PassLeavesNoFit(items: seq<Item>, budget: int)
    ensures var p := OfferAll(items, budget);
      forall x :: x in p.remaining ==> p.sent > 0 && p.sent + x.byteLen > budget
  {
    if items != [] {
      PassLeavesNoFit(items[..|items| - 1], budget);
    }
  }

  lemma {:induction false} PassWithinBudget(items: seq<Item>, budget: int)
    requires budget > 0
    ensures WithinBudget(OfferAll(items, budget).emitted, budget)
  {
    if items != [] {
      var front, x := items[..|items| - 1], Last(items);
      var p := OfferAll(front, budget);
      PassWithinBudget(front, budget);
      PassSplits(front, budget);
      SizeGrows(p.emitted, x);
      if p.sent == 0 {
        assert (p.emitted + [x])[|p.emitted|] == x;
      }
    }
  }

  /** Nothing is lost or duplicated; what is sent goes out in order, starts with the head and stays within
      the budget, one oversized item excepted; what stays does not fit. */
  lemma DrainExactly(q: Queue, cfg: DownlinkConfig)
    requires DistinctOrders(q.pending) && cfg.budget > 0
    ensures var (after, emitted) := Drain(q, cfg);
      && multiset(emitted) + multiset(after.pending) == multiset(q.pending)
      && Ascending(emitted)
      && WithinBudget(emitted, cfg.budget)
      && (forall x :: x in after.pending ==> Size(emitted) > 0 && Size(emitted) + x.byteLen > cfg.budget)
      && (q.pending != [] ==> emitted != [] && forall x :: x in q.pending && x != emitted[0] ==> Before(emitted[0], x))
  {
    var sorted := Sorted(q.pending);
    SortedIsSorted(q.pending);
    PassSplits(sorted, cfg.budget);
    PassKeepsOrder(sorted, cfg.budget);
    PassLeavesNoFit(sorted, cfg.budget);
    PassWithinBudget(sorted, cfg.budget);
    if q.pending != [] {
      assert Last(q.pending) in multiset(sorted);
      PassSendsHead(sorted, cfg.budget);
      forall x | x in q.pending && x != sorted[0] ensures Before(sorted[0], x) {
        assert x in multiset(sorted);
        var i :| 0 <= i < |sorted| && sorted[i] == x;
      }
    }
  }

  // --- Runs -------------------------------------------------------------------------------

  /** Every pending item carries an order already given out, and no two the same. */
  predicate Numbered(q: Queue) {
    DistinctOrders(q.pending) && forall x :: x in q.pending ==> x.order < q.nextOrder
  }

  /** A run with everything enqueued and everything emitted so far. */
  datatype Traced = Traced(q: Queue, enqueued: seq<Item>, emitted: seq<Item>)

  function Step(t: Traced, inbox: Inbox, cfg: DownlinkConfig): Traced {
    var arrived := Arrived(t.q, inbox, cfg);
    var (after, out) := TickOf(t.q, inbox, cfg);
    Traced(after, t.enqueued + New(t.q, arrived), t.emitted + out)
  }

  /** What arrived: the pending items beyond those there were. */
  function New(before: Queue, after: Queue): seq<Item> {
    if |before.pending| <= |after.pending| then after.pending[|before.pending|..] else []
  }

  function Run(inboxes: seq<Inbox>, cfg: DownlinkConfig): Traced {
    if inboxes == [] then Traced(START, [], []) else Step(Run(inboxes[..|inboxes| - 1], cfg), Last(inboxes), cfg)
  }

  /** The later queue is the earlier one with newer items behind it. */
  predicate Extends(a: Queue, b: Queue) {
    && |a.pending| <= |b.pending| && b.pending[..|a.pending|] == a.pending
    && b.nextOrder - a.nextOrder == |b.pending| - |a.pending| && Numbered(b) && a.aos == b.aos
    && forall i :: |a.pending| <= i < |b.pending| ==> b.pending[i].order == a.nextOrder + (i - |a.pending|)
  }

  lemma EnqueueExtends(a: Queue, b: Queue, x: Item)
    requires Extends(a, b) && x.order == b.nextOrder
    ensures Extends(a, Enqueue(b, x))
  {
    forall i | 0 <= i < |b.pending| ensures b.pending[i].order < x.order {
      assert b.pending[i] in b.pending;
    }
  }

  lemma {:induction false} InlineExtends(a: Queue, q: Queue, priority: int, xs: seq<Inline>, cfg: DownlinkConfig)
    requires Extends(a, q)
    ensures Extends(a, EnqueueInline(q, priority, xs, cfg))
  {
    if xs != [] {
      InlineExtends(a, q, priority, xs[..|xs| - 1], cfg);
      var before := EnqueueInline(q, priority, xs[..|xs| - 1], cfg);
      EnqueueExtends(a, before, InlineItem(before, priority, Last(xs), cfg));
    }
  }

  lemma {:induction false} ProductsExtend(a: Queue, q: Queue, xs: seq<Product>)
    requires Extends(a, q)
    ensures Extends(a, EnqueueProducts(q, xs))
  {
    if xs != [] {
      ProductsExtend(a, q, xs[..|xs| - 1]);
      var before := EnqueueProducts(q, xs[..|xs| - 1]);
      EnqueueExtends(a, before, ProductItem(before, Last(xs)));
    }
  }

  lemma ArrivedExtends(q: Queue, inbox: Inbox, cfg: DownlinkConfig)
    requires Numbered(q)
    ensures Extends(q.(aos := LinkAfter(q.aos, inbox.link)), Arrived(q, inbox, cfg))
  {
    var a := q.(aos := LinkAfter(q.aos, inbox.link));
    var faults := EnqueueInline(a, FAULT_EVENT, inbox.faults, cfg);
    var acks := EnqueueInline(faults, COMMAND_ACK, inbox.acks, cfg);
    var telemetry := EnqueueInline(acks, HK_TELEMETRY, inbox.telemetry, cfg);
    InlineExtends(a, a, FAULT_EVENT, inbox.faults, cfg);
    InlineExtends(a, faults, COMMAND_ACK, inbox.acks, cfg);
    InlineExtends(a, acks, HK_TELEMETRY, inbox.telemetry, cfg);
    InlineExtends(a, telemetry, HK_TELEMETRY, inbox.transitions, cfg);
    ProductsExtend(a, EnqueueInline(telemetry, HK_TELEMETRY, inbox.transitions, cfg), inbox.products);
  }

  lemma DrainKeepsNumbers(q: Queue, cfg: DownlinkConfig)
    requires Numbered(q) && cfg.budget > 0
    ensures Numbered(Drain(q, cfg).0)
  {
    SortedIsSorted(q.pending);
    PassSplits(Sorted(q.pending), cfg.budget);
    PassKeepsOrder(Sorted(q.pending), cfg.budget);
    var after := Drain(q, cfg).0;
    forall i, j | 0 <= i < j < |after.pending| ensures after.pending[i].order != after.pending[j].order {
      OrdersDiffer(q.pending, after.pending, i, j, cfg);
    }
    forall x | x in after.pending ensures x in q.pending {
      assert x in multiset(Sorted(q.pending));
    }
  }

  lemma OrdersDiffer(items: seq<Item>, part: seq<Item>, i: nat, j: nat, cfg: DownlinkConfig)
    requires DistinctOrders(items) && Ascending(part) && multiset(part) <= multiset(items) && i < j < |part|
    ensures part[i].order != part[j].order
  {
    var x, y := part[i], part[j];
    assert x in multiset(part) && y in multiset(part);
    assert x in items && y in items;
    var m :| 0 <= m < |items| && items[m] == x;
    var n :| 0 <= n < |items| && items[n] == y;
    assert Before(x, y);
    assert m != n;
  }

  /** The items enqueued carry the order numbers 0, 1, 2, ... */
  predicate Counts(t: Traced) {
    && t.q.nextOrder == |t.enqueued|
    && forall i :: 0 <= i < |t.enqueued| ==> t.enqueued[i].order == i
  }

  ghost predicate Accounted(t: Traced) {
    && Numbered(t.q) && Counts(t)
    && multiset(t.enqueued) == multiset(t.emitted) + multiset(t.q.pending)
  }

  /** Two places among the emitted and pending items hold different items: no order number is sent twice, or
      sent and still pending. */
  lemma NothingTwice(t: Traced, i: nat, j: nat)
    requires Accounted(t) && i < j < |t.emitted + t.q.pending|
    ensures var all := t.emitted + t.q.pending; all[i].order != all[j].order
  {
    var all := t.emitted + t.q.pending;
    assert multiset(all) == multiset(t.enqueued);
    DistinctIsOnce(t.enqueued);
    TwiceIsTwo(all, i, j);
    assert all[i] in multiset(all) && all[j] in multiset(all);
    var m :| 0 <= m < |t.enqueued| && t.enqueued[m] == all[i];
    var n :| 0 <= n < |t.enqueued| && t.enqueued[n] == all[j];
  }

  lemma {:induction false} DistinctIsOnce(items: seq<Item>)
    requires forall i, j :: 0 <= i < j < |items| ==> items[i] != items[j]
    ensures forall x :: x in multiset(items) ==> multiset(items)[x] == 1
  {
    if items != [] {
      var front := items[..|items| - 1];
      DistinctIsOnce(front);
      assert items == front + [Last(items)];
      assert Last(items) !in front;
    }
  }

  lemma TwiceIsTwo(items: seq<Item>, i: nat, j: nat)
    requires i < j < |items|
    ensures items[i] == items[j] ==> multiset(items)[items[i]] >= 2
  {
    assert items == items[..j] + items[j..];
    assert items[i] in items[..j] && items[j] in items[j..];
  }

  /** Over every run nothing is lost or duplicated: the items enqueued, numbered 0, 1, 2, ..., are the items
      emitted together with those pending, and no number occurs twice among these. */
  lemma NothingLost(inboxes: seq<Inbox>, cfg: DownlinkConfig)
    requires cfg.budget > 0
    ensures var t := Run(inboxes, cfg);
      && Accounted(t)
      && (forall i, j :: 0 <= i < j < |t.emitted + t.q.pending| ==>
            (t.emitted + t.q.pending)[i].order != (t.emitted + t.q.pending)[j].order)
  {
    RunAccounts(inboxes, cfg);
    var t := Run(inboxes, cfg);
    forall i, j | 0 <= i < j < |t.emitted + t.q.pending|
      ensures (t.emitted + t.q.pending)[i].order != (t.emitted + t.q.pending)[j].order
    {
      NothingTwice(t, i, j);
    }
  }

  lemma {:induction false} RunAccounts(inboxes: seq<Inbox>, cfg: DownlinkConfig)
    requires cfg.budget > 0
    ensures Accounted(Run(inboxes, cfg))
  {
    if inboxes != [] {
      RunAccounts(inboxes[..|inboxes| - 1], cfg);
      StepLosesNothing(Run(inboxes[..|inboxes| - 1], cfg), Last(inboxes), cfg);
    }
  }

  lemma StepLosesNothing(t: Traced, inbox: Inbox, cfg: DownlinkConfig)
    requires cfg.budget > 0 && Accounted(t)
    ensures Accounted(Step(t, inbox, cfg))
  {
    var arrived := Arrived(t.q, inbox, cfg);
    ArrivedExtends(t.q, inbox, cfg);
    assert arrived.pending == t.q.pending + New(t.q, arrived);
    if arrived.aos {
      DrainExactly(arrived, cfg);
      DrainKeepsNumbers(arrived, cfg);
    }
  }

  // --- How long an item waits -------------------------------------------------------------

  /** How many items are ahead of x. */
  function Rank(x: Item, items: seq<Item>): nat {
    if items == [] then 0 else Rank(x, items[..|items| - 1]) + (if Before(Last(items), x) then 1 else 0)
  }

  lemma {:induction false} RankJoins(x: Item, a: seq<Item>, b: seq<Item>)
    ensures Rank(x, a + b) == Rank(x, a) + Rank(x, b)
  {
    if b == [] {
      assert a + b == a;
    } else {
      RankJoins(x, a, b[..|b| - 1]);
      assert (a + b)[..|a + b| - 1] == a + b[..|b| - 1];
    }
  }

  lemma {:induction false} RankOfInsert(x: Item, y: Item, sorted: seq<Item>)
    ensures Rank(x, Insert(y, sorted)) == Rank(x, sorted) + (if Before(y, x) then 1 else 0)
  {
    assert [y][..0] == [];
    assert Rank(x, [y]) == if Before(y, x) then 1 else 0;
    if sorted == [] || !Before(sorted[0], y) {
      RankJoins(x, [y], sorted);
    } else {
      RankOfInsert(x, y, sorted[1..]);
      RankJoins(x, [sorted[0]], Insert(y, sorted[1..]));
      RankJoins(x, [sorted[0]], sorted[1..]);
      assert sorted == [sorted[0]] + sorted[1..];
    }
  }

  lemma {:induction false} RankOfSorted(x: Item, items: seq<Item>)
    ensures Rank(x, Sorted(items)) == Rank(x, items)
  {
    if items != [] {
      RankOfSorted(x, items[..|items| - 1]);
      RankOfInsert(x, Last(items), Sorted(items[..|items| - 1]));
    }
  }

  lemma {:induction false} RankSplits(x: Item, items: seq<Item>, budget: int)
    ensures var p := OfferAll(items, budget); Rank(x, p.emitted) + Rank(x, p.remaining) == Rank(x, items)
  {
    if items != [] {
      RankSplits(x, items[..|items| - 1], budget);
      var p, y := OfferAll(items[..|items| - 1], budget), Last(items);
      assert (p.emitted + [y])[..|p.emitted|] == p.emitted;
      assert (p.remaining + [y])[..|p.remaining|] == p.remaining;
    }
  }

  /** A pass moves every item it does not send up by at least one. */
  lemma PassAdvances(q: Queue, x: Item, cfg: DownlinkConfig)
    requires Numbered(q) && cfg.budget > 0 && x in Drain(q, cfg).0.pending
    ensures x in q.pending && Rank(x, Drain(q, cfg).0.pending) < Rank(x, q.pending)
  {
    var (after, emitted) := Drain(q, cfg);
    DrainExactly(q, cfg);
    SortedIsSorted(q.pending);
    RankOfSorted(x, q.pending);
    RankSplits(x, Sorted(q.pending), cfg.budget);
    assert x in multiset(after.pending) && x in multiset(q.pending);
    HeadIsAhead(q, x, cfg);
    RankJoins(x, [emitted[0]], emitted[1..]);
    assert [emitted[0]][..0] == [] && emitted == [emitted[0]] + emitted[1..];
  }

  lemma HeadIsAhead(q: Queue, x: Item, cfg: DownlinkConfig)
    requires Numbered(q) && cfg.budget > 0 && x in Drain(q, cfg).0.pending && x in q.pending
    ensures var emitted := Drain(q, cfg).1; emitted != [] && Before(emitted[0], x)
  {
    DrainExactly(q, cfg);
    var (after, emitted) := Drain(q, cfg);
    if emitted[0] == x {
      assert multiset(q.pending)[x] >= 2 by {
        assert x in multiset(emitted) && x in multiset(after.pending);
      }
      TwiceMeansTwo(q.pending, x);
    }
  }

  lemma TwiceMeansTwo(items: seq<Item>, x: Item)
    requires multiset(items)[x] >= 2
    ensures !DistinctOrders(items)
  {
    var i :| 0 <= i < |items| && items[i] == x;
    var rest := items[..i] + items[i + 1..];
    assert items == items[..i] + [x] + items[i + 1..];
    assert multiset(items) == multiset(rest) + multiset{x};
    assert x in multiset(rest);
    var j :| 0 <= j < |rest| && rest[j] == x;
    assert items[if j < i then j else j + 1].order == items[i].order;
  }

  function After(q: Queue, inboxes: seq<Inbox>, cfg: DownlinkConfig): Queue {
    if inboxes == [] then q else TickOf(After(q, inboxes[..|inboxes| - 1], cfg), Last(inboxes), cfg).0
  }

  /** How many of the ticks were AOS passes. */
  function Passes(q: Queue, inboxes: seq<Inbox>, cfg: DownlinkConfig): nat {
    if inboxes == [] then 0
    else
      var n := |inboxes| - 1;
      Passes(q, inboxes[..n], cfg)
      + (if Arrived(After(q, inboxes[..n], cfg), inboxes[n], cfg).aos then 1 else 0)
  }

  function Higher(x: Item, items: seq<Item>): nat {
    if items == [] then 0 else Higher(x, items[..|items| - 1]) + (if Last(items).priority < x.priority then 1 else 0)
  }

  /** How many items of strictly higher priority than x arrived during the ticks. */
  function Overtakers(q: Queue, inboxes: seq<Inbox>, x: Item, cfg: DownlinkConfig): nat {
    if inboxes == [] then 0
    else
      var n := |inboxes| - 1;
      var before := After(q, inboxes[..n], cfg);
      Overtakers(q, inboxes[..n], x, cfg) + Higher(x, New(before, Arrived(before, inboxes[n], cfg)))
  }

  lemma {:induction false} OnlyHigherOvertake(x: Item, items: seq<Item>)
    requires forall i :: 0 <= i < |items| ==> x.order < items[i].order
    ensures Rank(x, items) == Higher(x, items)
  {
    if items != [] {
      OnlyHigherOvertake(x, items[..|items| - 1]);
    }
  }

  lemma OldItemWasPending(q: Queue, arrived: Queue, x: Item)
    requires Extends(q, arrived) && x.order < q.nextOrder && x in arrived.pending
    ensures x in q.pending
    ensures Rank(x, arrived.pending) == Rank(x, q.pending) + Higher(x, New(q, arrived))
  {
    var i :| 0 <= i < |arrived.pending| && arrived.pending[i] == x;
    assert i < |q.pending| && q.pending[i] == x;
    assert arrived.pending == q.pending + New(q, arrived);
    RankJoins(x, q.pending, New(q, arrived));
    OnlyHigherOvertake(x, New(q, arrived));
  }

  lemma TickWaits(q: Queue, inbox: Inbox, x: Item, cfg: DownlinkConfig)
    requires Numbered(q) && cfg.budget > 0 && x.order < q.nextOrder && x in TickOf(q, inbox, cfg).0.pending
    ensures var arrived, after := Arrived(q, inbox, cfg), TickOf(q, inbox, cfg).0;
      && x in q.pending
      && Rank(x, after.pending) + (if arrived.aos then 1 else 0) <= Rank(x, q.pending) + Higher(x, New(q, arrived))
  {
    var arrived := Arrived(q, inbox, cfg);
    ArrivedExtends(q, inbox, cfg);
    if arrived.aos {
      PassAdvances(arrived, x, cfg);
    }
    OldItemWasPending(q.(aos := LinkAfter(q.aos, inbox.link)), arrived, x);
  }

  lemma TickKeepsNumbers(q: Queue, inbox: Inbox, cfg: DownlinkConfig)
    requires Numbered(q) && cfg.budget > 0
    ensures Numbered(TickOf(q, inbox, cfg).0) && q.nextOrder <= TickOf(q, inbox, cfg).0.nextOrder
  {
    ArrivedExtends(q, inbox, cfg);
    if Arrived(q, inbox, cfg).aos {
      DrainKeepsNumbers(Arrived(q, inbox, cfg), cfg);
    }
  }

  lemma {:induction false} AfterNumbered(q: Queue, inboxes: seq<Inbox>, cfg: DownlinkConfig)
    requires Numbered(q) && cfg.budget > 0
    ensures Numbered(After(q, inboxes, cfg)) && q.nextOrder <= After(q, inboxes, cfg).nextOrder
  {
    if inboxes != [] {
      AfterNumbered(q, inboxes[..|inboxes| - 1], cfg);
      TickKeepsNumbers(After(q, inboxes[..|inboxes| - 1], cfg), Last(inboxes), cfg);
    }
  }

  /** While an item waits, every AOS pass is paid for by an item ahead of it or by an overtaker. */
  lemma {:induction false} WaitingIsPaidFor(q: Queue, inboxes: seq<Inbox>, x: Item, cfg: DownlinkConfig)
    requires Numbered(q) && cfg.budget > 0 && x in q.pending && x in After(q, inboxes, cfg).pending
    ensures Passes(q, inboxes, cfg) + Rank(x, After(q, inboxes, cfg).pending)
      <= Rank(x, q.pending) + Overtakers(q, inboxes, x, cfg)
  {
    if inboxes != [] {
      var before := After(q, inboxes[..|inboxes| - 1], cfg);
      AfterNumbered(q, inboxes[..|inboxes| - 1], cfg);
      TickWaits(before, Last(inboxes), x, cfg);
      WaitingIsPaidFor(q, inboxes[..|inboxes| - 1], x, cfg);
    }
  }

  /** An item with k items ahead of it is gone after k + 1 AOS passes, plus one for every item of strictly
      higher priority that arrived meanwhile. */
  lemma SentWithinRank(q: Queue, inboxes: seq<Inbox>, x: Item, cfg: DownlinkConfig)
    requires Numbered(q) && cfg.budget > 0 && x in q.pending
    requires Passes(q, inboxes, cfg) >= Rank(x, q.pending) + 1 + Overtakers(q, inboxes, x, cfg)
    ensures x !in After(q, inboxes, cfg).pending
  {
    if x in After(q, inboxes, cfg).pending {
      WaitingIsPaidFor(q, inboxes, x, cfg);
    }
  }

  // --- The manager ------------------------------------------------------------------------

  class DownlinkManager {
    const cfg: DownlinkConfig
    var pending: seq<Item>
    var nextOrder: nat
    var aos: bool
    var sent: seq<Item>             // DownlinkItemMsg on the bus
    // subscriptions
    var link: seq<bool>
    var faults: seq<Inline>
    var acks: seq<Inline>
    var telemetry: seq<Inline>
    var transitions: seq<Inline>
    var products: seq<Product>

    constructor (cfg: DownlinkConfig)
      ensures this.cfg == cfg && State() == START && sent == []
    {
      this.cfg := cfg;
      pending, nextOrder, aos, sent := [], 0, false, [];
      link, faults, acks, telemetry, transitions, products := [], [], [], [], [], [];
    }

    ghost function State(): Queue
      reads this
    {
      Queue(pending, nextOrder, aos)
    }

    method Tick()
      modifies this
      ensures (State(), sent) == (var (q, out) := TickOf(old(State()),
          Inbox(old(link), old(faults), old(acks), old(telemetry), old(transitions), old(products)), cfg);
        (q, old(sent) + out))
      ensures link == [] && faults == [] && acks == [] && telemetry == [] && transitions == [] && products == []
    {
      Collect();
      if aos {
        DrainWithinBudget();
      } else {
        assert old(sent) + [] == sent;
      }
    }

    method Collect()
      modifies this`pending, this`nextOrder, this`aos, this`link, this`faults, this`acks, this`telemetry,
               this`transitions, this`products
      ensures State() == Arrived(old(State()),
        Inbox(old(link), old(faults), old(acks), old(telemetry), old(transitions), old(products)), cfg)
      ensures link == [] && faults == [] && acks == [] && telemetry == [] && transitions == [] && products == []
    {
      DrainLink();
      EnqueueAll(FAULT_EVENT, faults);
      faults := [];
      EnqueueAll(COMMAND_ACK, acks);
      acks := [];
      EnqueueAll(HK_TELEMETRY, telemetry);
      telemetry := [];
      EnqueueAll(HK_TELEMETRY, transitions);
      transitions := [];
      EnqueueAllProducts();
    }

    method DrainLink()
      modifies this`aos, this`link
      ensures aos == LinkAfter(old(aos), old(link)) && link == []
    {
      while link != []
        invariant LinkAfter(aos, link) == LinkAfter(old(aos), old(link))
        decreases |link|
      {
        aos, link := link[0], link[1..];
      }
    }

    method EnqueueAll(priority: int, xs: seq<Inline>)
      modifies this`pending, this`nextOrder
      ensures State() == EnqueueInline(old(State()), priority, xs, cfg)
    {
      for i := 0 to |xs|
        invariant State() == EnqueueInline(old(State()), priority, xs[..i], cfg)
      {
        assert xs[..i + 1][..i] == xs[..i];
        pending := pending + [Item(priority, nextOrder, xs[i].itemId, xs[i].body, "", |xs[i].body|, cfg.crc(xs[i].body))];
        nextOrder := nextOrder + 1;
      }
      assert xs[..|xs|] == xs;
    }

    method EnqueueAllProducts()
      modifies this`pending, this`nextOrder, this`products
      ensures State() == EnqueueProducts(old(State()), old(products))
      ensures products == []
    {
      ghost var all := products;
      ghost var i := 0;
      while products != []
        invariant 0 <= i <= |all| && products == all[i..]
        invariant State() == EnqueueProducts(old(State()), all[..i])
        decreases |products|
      {
        var x := products[0];
        products := products[1..];
        assert all[..i + 1][..i] == all[..i];
        i := i + 1;
        pending := pending + [Item(x.priority, nextOrder, x.itemId, [], x.entryId, x.byteLen, 0)];
        nextOrder := nextOrder + 1;
      }
      assert all[..i] == all;
    }

    method DrainWithinBudget()
      modifies this`pending, this`sent
      ensures (State(), sent) == (var (q, out) := Drain(old(State()), cfg); (q, old(sent) + out))
    {
      var ordered := Sorted(pending);
      var sentBytes: nat := 0;
      var remaining: seq<Item> := [];
      ghost var emitted: seq<Item> := [];
      for i := 0 to |ordered|
        invariant OfferAll(ordered[..i], cfg.budget) == Pass(sentBytes, emitted, remaining)
        invariant sent == old(sent) + emitted
        invariant pending == old(pending)
      {
        assert ordered[..i + 1][..i] == ordered[..i];
        var item := ordered[i];
        if sentBytes == 0 || sentBytes + item.byteLen <= cfg.budget {
          sent := sent + [item];
          emitted := emitted + [item];
          sentBytes := sentBytes + item.byteLen;
        } else {
          remaining := remaining + [item];
        }
      }
      assert ordered[..|ordered|] == ordered;
      pending := remaining;
    }
  }
}
