/** What the downlink makes of each message: the class it waits in, what its item carries, in which order the classes
    leave, and which link state lets them leave. */
module DownlinkClasses {
  import opened Basics
  import opened Downlink

  /** A message as a tick drains it. */
  datatype Message =
    | Fault(note: Inline) | Ack(note: Inline) | Telemetry(note: Inline) | Transition(note: Inline) | Ref(product: Product)

  function FaultsOf(xs: seq<Inline>): seq<Message> { seq(|xs|, i requires 0 <= i < |xs| => Fault(xs[i])) }
  function AcksOf(xs: seq<Inline>): seq<Message> { seq(|xs|, i requires 0 <= i < |xs| => Message.Ack(xs[i])) }
  function TelemetryOf(xs: seq<Inline>): seq<Message> { seq(|xs|, i requires 0 <= i < |xs| => Telemetry(xs[i])) }
  function TransitionsOf(xs: seq<Inline>): seq<Message> { seq(|xs|, i requires 0 <= i < |xs| => Transition(xs[i])) }
  function RefsOf(xs: seq<Product>): seq<Message> { seq(|xs|, i requires 0 <= i < |xs| => Ref(xs[i])) }

  /** The messages of one tick, in the order it drains them. */
  function Messages(inbox: Inbox): seq<Message> {
    FaultsOf(inbox.faults) + AcksOf(inbox.acks) + TelemetryOf(inbox.telemetry) + TransitionsOf(inbox.transitions)
    + RefsOf(inbox.products)
  }

  /** The most urgent class is 0, for faults; acknowledgements are 1; housekeeping is 2; a product names its own. */
  function Class(m: Message): int {
    match m
    case Fault(_) => 0
    case Ack(_) => 1
    case Telemetry(_) => 2
    case Transition(_) => 2
    case Ref(product) => product.priority
  }

  /** The item of a message: its class and number, and its own content, or the entry of a product. */
  predicate Carries(x: Item, m: Message, number: nat, cfg: DownlinkConfig) {
    && x.priority == Class(m) && x.order == number
    && (if m.Ref? then
          && x.itemId == m.product.itemId && x.storageRef == m.product.entryId && x.byteLen == m.product.byteLen
          && x.payload == [] && x.crc == 0
        else
          && x.itemId == m.note.itemId && x.payload == m.note.body && x.byteLen == |m.note.body|
          && x.crc == cfg.crc(m.note.body) && x.storageRef == "")
  }

  /** The items carry the messages one by one, numbered from `first`. */
  predicate CarryAll(items: seq<Item>, messages: seq<Message>, first: nat, cfg: DownlinkConfig) {
    |items| == |messages| && forall i :: 0 <= i < |items| ==> Carries(items[i], messages[i], first + i, cfg)
  }

  // --- One tick ---------------------------------------------------------------------------

  /** The queue with these items behind it. */
  predicate Gained(a: Queue, b: Queue, items: seq<Item>) {
    b.pending == a.pending + items && b.nextOrder == a.nextOrder + |items| && b.aos == a.aos
  }

  lemma {:induction false} InlineGained(q: Queue, priority: int, xs: seq<Inline>, cfg: DownlinkConfig, messages: seq<Message>)
    returns (items: seq<Item>)
    requires |messages| == |xs|
    requires forall i :: 0 <= i < |xs| ==> !messages[i].Ref? && messages[i].note == xs[i] && Class(messages[i]) == priority
    ensures Gained(q, EnqueueInline(q, priority, xs, cfg), items) && CarryAll(items, messages, q.nextOrder, cfg)
  {
    if xs == [] {
      items := [];
      assert q.pending + items == q.pending;
    } else {
      var n := |xs| - 1;
      var front := InlineGained(q, priority, xs[..n], cfg, messages[..n]);
      var before := EnqueueInline(q, priority, xs[..n], cfg);
      items := front + [InlineItem(before, priority, xs[n], cfg)];
      assert q.pending + items == before.pending + [InlineItem(before, priority, xs[n], cfg)];
    }
  }

  lemma {:induction false} ProductsGained(q: Queue, xs: seq<Product>, cfg: DownlinkConfig) returns (items: seq<Item>)
    ensures Gained(q, EnqueueProducts(q, xs), items) && CarryAll(items, RefsOf(xs), q.nextOrder, cfg)
  {
    if xs == [] {
      items := [];
      assert q.pending + items == q.pending;
    } else {
      var n := |xs| - 1;
      var front := ProductsGained(q, xs[..n], cfg);
      var before := EnqueueProducts(q, xs[..n]);
      items := front + [ProductItem(before, xs[n])];
      assert q.pending + items == before.pending + [ProductItem(before, xs[n])];
    }
  }

  lemma CarryMore(a: seq<Item>, b: seq<Item>, m: seq<Message>, n: seq<Message>, first: nat, cfg: DownlinkConfig)
    requires CarryAll(a, m, first, cfg) && CarryAll(b, n, first + |a|, cfg)
    ensures CarryAll(a + b, m + n, first, cfg)
  {
  }

  lemma GainedMore(q: Queue, r: Queue, s: Queue, a: seq<Item>, b: seq<Item>)
    requires Gained(q, r, a) && Gained(r, s, b)
    ensures Gained(q, s, a + b)
  {
    assert q.pending + (a + b) == q.pending + a + b;
  }

  /** What a tick enqueues is, in order, one item for each message it drained, behind what was pending; and it has the
      link state it saw last. */
  lemma TickEnqueuesMessages(q: Queue, inbox: Inbox, cfg: DownlinkConfig) returns (items: seq<Item>)
    ensures items == New(q, Arrived(q, inbox, cfg)) && CarryAll(items, Messages(inbox), q.nextOrder, cfg)
    ensures Gained(q.(aos := if inbox.link == [] then q.aos else inbox.link[|inbox.link| - 1]), Arrived(q, inbox, cfg), items)
  {
    var q0 := q.(aos := LinkAfter(q.aos, inbox.link));
    var q1 := EnqueueInline(q0, FAULT_EVENT, inbox.faults, cfg);
    var q2 := EnqueueInline(q1, COMMAND_ACK, inbox.acks, cfg);
    var q3 := EnqueueInline(q2, HK_TELEMETRY, inbox.telemetry, cfg);
    var q4 := EnqueueInline(q3, HK_TELEMETRY, inbox.transitions, cfg);
    var q5 := EnqueueProducts(q4, inbox.products);
    var a := InlineGained(q0, FAULT_EVENT, inbox.faults, cfg, FaultsOf(inbox.faults));
    var b := InlineGained(q1, COMMAND_ACK, inbox.acks, cfg, AcksOf(inbox.acks));
    var c := InlineGained(q2, HK_TELEMETRY, inbox.telemetry, cfg, TelemetryOf(inbox.telemetry));
    var d := InlineGained(q3, HK_TELEMETRY, inbox.transitions, cfg, TransitionsOf(inbox.transitions));
    var f := ProductsGained(q4, inbox.products, cfg);
    GainedMore(q0, q1, q2, a, b);
    GainedMore(q0, q2, q3, a + b, c);
    GainedMore(q0, q3, q4, a + b + c, d);
    GainedMore(q0, q4, q5, a + b + c + d, f);
    CarryMore(a, b, FaultsOf(inbox.faults), AcksOf(inbox.acks), q.nextOrder, cfg);
    CarryMore(a + b, c, FaultsOf(inbox.faults) + AcksOf(inbox.acks), TelemetryOf(inbox.telemetry), q.nextOrder, cfg);
    CarryMore(a + b + c, d, FaultsOf(inbox.faults) + AcksOf(inbox.acks) + TelemetryOf(inbox.telemetry),
              TransitionsOf(inbox.transitions), q.nextOrder, cfg);
    CarryMore(a + b + c + d, f,
              FaultsOf(inbox.faults) + AcksOf(inbox.acks) + TelemetryOf(inbox.telemetry) + TransitionsOf(inbox.transitions),
              RefsOf(inbox.products), q.nextOrder, cfg);
    items := a + b + c + d + f;
  }

  // --- Runs -------------------------------------------------------------------------------

  /** Every message of a run, in the order drained. */
  function AllMessages(inboxes: seq<Inbox>): seq<Message> {
    if inboxes == [] then [] else AllMessages(inboxes[..|inboxes| - 1]) + Messages(Last(inboxes))
  }

  /** Every link state of a run, in the order seen. */
  function Links(inboxes: seq<Inbox>): seq<bool> {
    if inboxes == [] then [] else Links(inboxes[..|inboxes| - 1]) + Last(inboxes).link
  }

  /** Contact: the last link state seen so far is AOS. */
  predicate InContact(inboxes: seq<Inbox>) {
    Links(inboxes) != [] && Last(Links(inboxes))
  }

  /** What the last tick of a run emitted. */
  function Emitted(inboxes: seq<Inbox>, cfg: DownlinkConfig): seq<Item>
    requires inboxes != []
  {
    TickOf(Run(inboxes[..|inboxes| - 1], cfg).q, Last(inboxes), cfg).1
  }

  /** Over every run the items enqueued are, in order, one for each message drained, each in the class of its message
      and with its content; and the link state kept is the last one seen. */
  lemma {:induction false} RunEnqueuesMessages(inboxes: seq<Inbox>, cfg: DownlinkConfig)
    requires cfg.budget > 0
    ensures var t := Run(inboxes, cfg); CarryAll(t.enqueued, AllMessages(inboxes), 0, cfg) && t.q.aos == InContact(inboxes)
  {
    if inboxes != [] {
      var front, inbox := inboxes[..|inboxes| - 1], Last(inboxes);
      RunEnqueuesMessages(front, cfg);
      RunAccounts(front, cfg);
      StepEnqueues(Run(front, cfg), inbox, AllMessages(front), Links(front), cfg);
    }
  }

  lemma StepEnqueues(t: Traced, inbox: Inbox, messages: seq<Message>, links: seq<bool>, cfg: DownlinkConfig)
    requires CarryAll(t.enqueued, messages, 0, cfg) && t.q.nextOrder == |t.enqueued|
    requires t.q.aos == (links != [] && Last(links))
    ensures var after, more := Step(t, inbox, cfg), links + inbox.link;
      CarryAll(after.enqueued, messages + Messages(inbox), 0, cfg) && after.q.aos == (more != [] && Last(more))
  {
    var items := TickEnqueuesMessages(t.q, inbox, cfg);
    CarryMore(t.enqueued, items, messages, Messages(inbox), 0, cfg);
    assert inbox.link != [] ==> Last(links + inbox.link) == Last(inbox.link);
    assert inbox.link == [] ==> links + inbox.link == links;
  }

  /** Over every run a tick emits only in contact, and in contact it emits something if anything is pending. */
  lemma EmitsInContact(inboxes: seq<Inbox>, cfg: DownlinkConfig)
    requires cfg.budget > 0 && inboxes != []
    ensures var arrived := Arrived(Run(inboxes[..|inboxes| - 1], cfg).q, Last(inboxes), cfg);
      Emitted(inboxes, cfg) != [] <==> InContact(inboxes) && arrived.pending != []
  {
    var front := inboxes[..|inboxes| - 1];
    RunEnqueuesMessages(inboxes, cfg);
    RunAccounts(front, cfg);
    var before := Run(front, cfg).q;
    ArrivedExtends(before, Last(inboxes), cfg);
    DrainExactly(Arrived(before, Last(inboxes), cfg), cfg);
  }

  /** The message an item was made of: its number tells. */
  lemma MadeOf(inboxes: seq<Inbox>, cfg: DownlinkConfig, x: Item)
    requires cfg.budget > 0 && inboxes != [] && x in Emitted(inboxes, cfg)
    ensures x.order < |AllMessages(inboxes)| && Carries(x, AllMessages(inboxes)[x.order], x.order, cfg)
  {
    RunEnqueuesMessages(inboxes, cfg);
    RunAccounts(inboxes, cfg);
    var t := Run(inboxes, cfg);
    assert x in t.emitted;
    assert x in multiset(t.enqueued);
    var i :| 0 <= i < |t.enqueued| && t.enqueued[i] == x;
  }

  /** In no pass of any run does housekeeping go out before a fault or an acknowledgement, an acknowledgement before a
      fault, or, within a class, a later message before an earlier one. */
  lemma FaultsGoFirst(inboxes: seq<Inbox>, cfg: DownlinkConfig, i: nat, j: nat)
    requires cfg.budget > 0 && inboxes != [] && i < j < |Emitted(inboxes, cfg)|
    ensures var x, y, all := Emitted(inboxes, cfg)[i], Emitted(inboxes, cfg)[j], AllMessages(inboxes);
      && x.order < |all| && y.order < |all|
      && (all[x.order].Telemetry? || all[x.order].Transition? ==> !all[y.order].Fault? && !all[y.order].Ack?)
      && (all[x.order].Ack? ==> !all[y.order].Fault?)
      && (Class(all[x.order]) == Class(all[y.order]) ==> x.order < y.order)
      && Class(all[x.order]) <= Class(all[y.order])
  {
    var x, y := Emitted(inboxes, cfg)[i], Emitted(inboxes, cfg)[j];
    MadeOf(inboxes, cfg, x);
    MadeOf(inboxes, cfg, y);
    var front := inboxes[..|inboxes| - 1];
    RunAccounts(front, cfg);
    ArrivedExtends(Run(front, cfg).q, Last(inboxes), cfg);
    DrainExactly(Arrived(Run(front, cfg).q, Last(inboxes), cfg), cfg);
    assert Before(x, y);
  }
}
