/** Quota storage with priority eviction, over a flat map of product files. */
module Storage {
  import opened Basics
  import opened Naming

  type Bytes = seq<int>

  /** A priority's value; a smaller one is more important. */
  datatype Meta = Meta(id: string, size: nat, priority: int, order: nat)

  datatype StorageConfig = StorageConfig(quota: int, hash: Bytes -> Bytes)

  /** `entries` in order of insertion; `files` is the products directory. */
  datatype Index = Index(entries: seq<Meta>, total: int, nextOrder: nat, dropped: nat, files: map<string, Bytes>)

  const EMPTY := Index([], 0, 0, 0, map[])

  function Sidecar(id: string): string {
    id + ".sha256"
  }

  // --- Eviction ---------------------------------------------------------------------------

  function Sum(entries: seq<Meta>): nat {
    if entries == [] then 0 else Sum(entries[..|entries| - 1]) + Last(entries).size
  }

  /** Bytes held by entries more important than the priority. */
  function Protected(entries: seq<Meta>, incoming: int): nat {
    if entries == [] then 0
    else Protected(entries[..|entries| - 1], incoming) + (if Last(entries).priority < incoming then Last(entries).size else 0)
  }

  predicate Evictable(m: Meta, incoming: int) {
    m.priority >= incoming
  }

  /** The order of eviction: least important first, then oldest. */
  predicate Sooner(a: Meta, b: Meta) {
    a.priority > b.priority || (a.priority == b.priority && a.order < b.order)
  }

  /** Position of the entry to evict, or the number of entries if none may be. */
  function Victim(entries: seq<Meta>, incoming: int): (v: nat)
    ensures v <= |entries|
  {
    if entries == [] then 0
    else
      var n := |entries| - 1;
      var v := Victim(entries[..n], incoming);
      if v == n then (if Evictable(entries[n], incoming) then n else n + 1)
      else if Evictable(entries[n], incoming) && Sooner(entries[n], entries[v]) then n
      else v
  }

  function Remove<T>(s: seq<T>, i: nat): seq<T>
    requires i < |s|
  {
    s[..i] + s[i + 1..]
  }

  function Evict(s: Index, v: nat): Index
    requires v < |s.entries|
  {
    var m := s.entries[v];
    Index(Remove(s.entries, v), s.total - m.size, s.nextOrder, s.dropped + 1, s.files - {m.id, Sidecar(m.id)})
  }

  function EvictToFit(s: Index, needed: nat, incoming: int, quota: int): Index
    decreases |s.entries|
  {
    var v := Victim(s.entries, incoming);
    if s.total + needed <= quota || v == |s.entries| then s
    else EvictToFit(Evict(s, v), needed, incoming, quota)
  }

  /** The entries an eviction takes, in the order it takes them. */
  function Victims(s: Index, needed: nat, incoming: int, quota: int): seq<Meta>
    decreases |s.entries|
  {
    var v := Victim(s.entries, incoming);
    if s.total + needed <= quota || v == |s.entries| then []
    else [s.entries[v]] + Victims(Evict(s, v), needed, incoming, quota)
  }

  // --- Store and read ---------------------------------------------------------------------

  /** Write product and sidecar, and index the entry. */
  function Admit(room: Index, item: string, data: Bytes, priority: int, cfg: StorageConfig): Index {
    var id := EntryId(room.nextOrder, item);
    Index(room.entries + [Meta(id, |data|, priority, room.nextOrder)], room.total + |data|, room.nextOrder + 1,
          room.dropped, room.files[id := data][Sidecar(id) := cfg.hash(data)])
  }

  function Put(s: Index, item: string, data: Bytes, priority: int, cfg: StorageConfig): (Index, Result<string>) {
    if |data| > cfg.quota then (s, Err(StorageFull))
    else
      var room := EvictToFit(s, |data|, priority, cfg.quota);
      if room.total + |data| > cfg.quota then (room, Err(StorageFull))
      else
        (Admit(room, item, data, priority, cfg), Ok(EntryId(room.nextOrder, item)))
  }

  predicate Live(s: Index, id: string) {
    exists i :: 0 <= i < |s.entries| && s.entries[i].id == id
  }

  function Read(s: Index, id: string, cfg: StorageConfig): Result<Bytes> {
    if !Live(s, id) then Err(StorageCorrupt)
    else if id !in s.files || Sidecar(id) !in s.files then Err(StorageCorrupt)
    else if cfg.hash(s.files[id]) != s.files[Sidecar(id)] then Err(StorageCorrupt)
    else Ok(s.files[id])
  }

  // --- The index --------------------------------------------------------------------------

  ghost predicate Named(m: Meta) {
    exists item :: m.id == EntryId(m.order, item)
  }

  /** Entries are in order of age, with ids and orders that no two of them share. */
  ghost predicate Indexed(entries: seq<Meta>, nextOrder: nat) {
    && (forall i :: 0 <= i < |entries| ==> entries[i].order < nextOrder && Named(entries[i]))
    && (forall i, j :: 0 <= i < j < |entries| ==> entries[i].order < entries[j].order)
  }

  ghost predicate Inv(s: Index, cfg: StorageConfig) {
    && Indexed(s.entries, s.nextOrder)
    && s.total == Sum(s.entries) && s.total <= cfg.quota
    && s.nextOrder == |s.entries| + s.dropped
    && Backed(s.entries, s.files, cfg)
  }

  /** Every entry has its product file, of its size, and the matching sidecar. */
  predicate Backed(entries: seq<Meta>, files: map<string, Bytes>, cfg: StorageConfig) {
    forall i :: 0 <= i < |entries| ==>
      && entries[i].id in files && Sidecar(entries[i].id) in files
      && |files[entries[i].id]| == entries[i].size
      && files[Sidecar(entries[i].id)] == cfg.hash(files[entries[i].id])
  }

  /** Every file is some entry's product or sidecar. */
  predicate Owned(files: map<string, Bytes>, entries: seq<Meta>) {
    forall name :: name in files ==> exists i :: 0 <= i < |entries| && (name == entries[i].id || name == Sidecar(entries[i].id))
  }

  /** Files of different entries have different names, whatever the items are called. */
  lemma NamesApart(a: Meta, b: Meta)
    requires Named(a) && Named(b) && a.order != b.order
    ensures a.id != b.id && a.id != Sidecar(b.id) && Sidecar(a.id) != b.id && Sidecar(a.id) != Sidecar(b.id)
  {
    var x :| a.id == EntryId(a.order, x);
    var y :| b.id == EntryId(b.order, y);
    SidecarIsEntryId(a.order, x);
    SidecarIsEntryId(b.order, y);
    NotSame(a.order, x, b.order, y);
    NotSame(a.order, x, b.order, y + ".sha256");
    NotSame(a.order, x + ".sha256", b.order, y);
    NotSame(a.order, x + ".sha256", b.order, y + ".sha256");
  }

  lemma SidecarIsEntryId(order: nat, item: string)
    ensures Sidecar(EntryId(order, item)) == EntryId(order, item + ".sha256")
  {
  }

  lemma NotSame(m: nat, x: string, n: nat, y: string)
    requires m != n
    ensures EntryId(m, x) != EntryId(n, y)
  {
    if EntryId(m, x) == EntryId(n, y) {
      EntryIdFixesOrder(m, x, n, y);
    }
  }

  // --- One eviction -----------------------------------------------------------------------

  /** The victim is the first in eviction order among the evictable entries. */
  lemma {:induction false} VictimIsSoonest(entries: seq<Meta>, incoming: int)
    requires forall i, j :: 0 <= i < j < |entries| ==> entries[i].order < entries[j].order
    ensures var v := Victim(entries, incoming);
      && (v < |entries| ==> Evictable(entries[v], incoming))
      && (forall j :: 0 <= j < |entries| && j != v && Evictable(entries[j], incoming) ==> v < |entries| && Sooner(entries[v], entries[j]))
  {
    if entries != [] {
      VictimIsSoonest(entries[..|entries| - 1], incoming);
    }
  }

  lemma {:induction false} RemoveSums(entries: seq<Meta>, v: nat, incoming: int)
    requires v < |entries|
    ensures Sum(Remove(entries, v)) == Sum(entries) - entries[v].size
    ensures Protected(Remove(entries, v), incoming)
      == Protected(entries, incoming) - (if entries[v].priority < incoming then entries[v].size else 0)
  {
    var front := entries[..|entries| - 1];
    if v == |entries| - 1 {
      assert Remove(entries, v) == front;
    } else {
      RemoveSums(front, v, incoming);
      assert Remove(entries, v)[..|entries| - 2] == Remove(front, v);
    }
  }

  lemma RemoveAt<T>(s: seq<T>, v: nat, i: nat)
    requires v < |s| && i < |s| - 1
    ensures Remove(s, v)[i] == s[if i < v then i else i + 1]
  {
  }

  lemma EvictKeeps(s: Index, v: nat, cfg: StorageConfig)
    requires Inv(s, cfg) && v < |s.entries|
    ensures Inv(Evict(s, v), cfg)
  {
    var e := Evict(s, v);
    RemoveSums(s.entries, v, 0);
    IndexKept(s.entries, v, s.nextOrder);
    BackedKept(s, v, cfg);
  }

  lemma IndexKept(entries: seq<Meta>, v: nat, nextOrder: nat)
    requires Indexed(entries, nextOrder) && v < |entries|
    ensures Indexed(Remove(entries, v), nextOrder)
  {
  }

  lemma BackedKept(s: Index, v: nat, cfg: StorageConfig)
    requires Indexed(s.entries, s.nextOrder) && Backed(s.entries, s.files, cfg) && v < |s.entries|
    ensures var e := Evict(s, v); Backed(e.entries, e.files, cfg)
  {
    var e := Evict(s, v);
    forall i | 0 <= i < |e.entries|
      ensures e.entries[i].id in e.files && Sidecar(e.entries[i].id) in e.files
      ensures e.files[e.entries[i].id] == s.files[e.entries[i].id]
      ensures e.files[Sidecar(e.entries[i].id)] == s.files[Sidecar(e.entries[i].id)]
      ensures |e.files[e.entries[i].id]| == e.entries[i].size
      ensures e.files[Sidecar(e.entries[i].id)] == cfg.hash(e.files[e.entries[i].id])
    {
      var k := if i < v then i else i + 1;
      RemoveAt(s.entries, v, i);
      assert s.entries[k].order != s.entries[v].order;
      NamesApart(s.entries[k], s.entries[v]);
    }
  }

  lemma OwnedKept(s: Index, v: nat)
    requires Owned(s.files, s.entries) && v < |s.entries|
    ensures var e := Evict(s, v); Owned(e.files, e.entries)
  {
    var e := Evict(s, v);
    forall name | name in e.files
      ensures exists i :: 0 <= i < |e.entries| && (name == e.entries[i].id || name == Sidecar(e.entries[i].id))
    {
      var k :| 0 <= k < |s.entries| && (name == s.entries[k].id || name == Sidecar(s.entries[k].id));
      var i := if k < v then k else k - 1;
      RemoveAt(s.entries, v, i);
      assert e.entries[i] == s.entries[k];
    }
  }

  // --- Evicting to fit --------------------------------------------------------------------

  /** What evicting keeps: the invariant, and every entry more important than the incoming one. */
  lemma {:induction false} FitKeeps(s: Index, needed: nat, incoming: int, cfg: StorageConfig)
    requires Inv(s, cfg)
    ensures var r := EvictToFit(s, needed, incoming, cfg.quota);
      && Inv(r, cfg) && r.nextOrder == s.nextOrder
      && Protected(r.entries, incoming) == Protected(s.entries, incoming)
      && (r.total + needed <= cfg.quota || Victim(r.entries, incoming) == |r.entries|)
    decreases |s.entries|
  {
    var v := Victim(s.entries, incoming);
    VictimIsSoonest(s.entries, incoming);
    if !(s.total + needed <= cfg.quota || v == |s.entries|) {
      EvictKeeps(s, v, cfg);
      RemoveSums(s.entries, v, incoming);
      FitKeeps(Evict(s, v), needed, incoming, cfg);
    }
  }

  lemma {:induction false} NothingEvictable(entries: seq<Meta>, incoming: int)
    requires Victim(entries, incoming) == |entries|
    ensures Sum(entries) == Protected(entries, incoming)
    ensures forall i :: 0 <= i < |entries| ==> !Evictable(entries[i], incoming)
  {
    if entries != [] {
      NothingEvictable(entries[..|entries| - 1], incoming);
    }
  }

  lemma {:induction false} ProtectedBelowSum(entries: seq<Meta>, incoming: int)
    ensures Protected(entries, incoming) <= Sum(entries)
  {
    if entries != [] {
      ProtectedBelowSum(entries[..|entries| - 1], incoming);
    }
  }

  /** An item is refused if and only if it does not fit beside the entries more important than it. */
  lemma FullExactly(s: Index, item: string, data: Bytes, priority: int, cfg: StorageConfig)
    requires Inv(s, cfg)
    ensures Put(s, item, data, priority, cfg).1.Err? <==> Protected(s.entries, priority) + |data| > cfg.quota
  {
    FitKeeps(s, |data|, priority, cfg);
    var r := EvictToFit(s, |data|, priority, cfg.quota);
    ProtectedBelowSum(r.entries, priority);
    if r.total + |data| > cfg.quota {
      NothingEvictable(r.entries, priority);
    }
  }

  predicate SoonestFirst(ms: seq<Meta>) {
    forall i, j :: 0 <= i < j < |ms| ==> Sooner(ms[i], ms[j])
  }

  /** The victims and the entries that stay are the entries there were, with all their bytes. */
  lemma {:induction false} VictimsPartition(s: Index, needed: nat, incoming: int, cfg: StorageConfig)
    requires Inv(s, cfg)
    ensures var r, vs := EvictToFit(s, needed, incoming, cfg.quota), Victims(s, needed, incoming, cfg.quota);
      && (forall m :: m in s.entries <==> m in vs || m in r.entries)
      && r.total == s.total - Sum(vs) && |s.entries| == |vs| + |r.entries| && r.dropped == s.dropped + |vs|
    decreases |s.entries|
  {
    var v := Victim(s.entries, incoming);
    if !(s.total + needed <= cfg.quota || v == |s.entries|) {
      EvictKeeps(s, v, cfg);
      VictimsPartition(Evict(s, v), needed, incoming, cfg);
      RemoveMembers(s.entries, v);
      SumCons(s.entries[v], Victims(Evict(s, v), needed, incoming, cfg.quota));
    }
  }

  lemma FirstGoesSooner(s: Index, incoming: int, k: Meta)
    requires Indexed(s.entries, s.nextOrder) && Victim(s.entries, incoming) < |s.entries|
    requires k in Evict(s, Victim(s.entries, incoming)).entries && Evictable(k, incoming)
    ensures Sooner(s.entries[Victim(s.entries, incoming)], k)
  {
    var v := Victim(s.entries, incoming);
    VictimIsSoonest(s.entries, incoming);
    var j :| 0 <= j < |s.entries| - 1 && Remove(s.entries, v)[j] == k;
    RemoveAt(s.entries, v, j);
  }

  lemma {:induction false} VictimsAreEvictable(s: Index, needed: nat, incoming: int, cfg: StorageConfig)
    requires Inv(s, cfg)
    ensures forall m :: m in Victims(s, needed, incoming, cfg.quota) ==> Evictable(m, incoming)
    decreases |s.entries|
  {
    var v := Victim(s.entries, incoming);
    if !(s.total + needed <= cfg.quota || v == |s.entries|) {
      VictimIsSoonest(s.entries, incoming);
      EvictKeeps(s, v, cfg);
      VictimsAreEvictable(Evict(s, v), needed, incoming, cfg);
    }
  }

  /** A victim goes sooner than every evictable entry that stays. */
  lemma {:induction false} VictimGoesSooner(s: Index, needed: nat, incoming: int, cfg: StorageConfig, m: Meta, k: Meta)
    requires Inv(s, cfg) && Evictable(k, incoming)
    requires m in Victims(s, needed, incoming, cfg.quota) && k in EvictToFit(s, needed, incoming, cfg.quota).entries
    ensures Sooner(m, k)
    decreases |s.entries|
  {
    var v := Victim(s.entries, incoming);
    var e := Evict(s, v);
    EvictKeeps(s, v, cfg);
    if m == s.entries[v] {
      VictimsPartition(e, needed, incoming, cfg);
      FirstGoesSooner(s, incoming, k);
    } else {
      VictimGoesSooner(e, needed, incoming, cfg, m, k);
    }
  }

  lemma FirstBeforeRest(s: Index, needed: nat, incoming: int, cfg: StorageConfig, m: Meta)
    requires Inv(s, cfg) && Victim(s.entries, incoming) < |s.entries|
    requires m in Victims(Evict(s, Victim(s.entries, incoming)), needed, incoming, cfg.quota)
    ensures Sooner(s.entries[Victim(s.entries, incoming)], m)
  {
    var e := Evict(s, Victim(s.entries, incoming));
    EvictKeeps(s, Victim(s.entries, incoming), cfg);
    VictimsPartition(e, needed, incoming, cfg);
    VictimsAreEvictable(e, needed, incoming, cfg);
    FirstGoesSooner(s, incoming, m);
  }

  lemma SortedCons(m: Meta, rest: seq<Meta>)
    requires SoonestFirst(rest) && forall k :: k in rest ==> Sooner(m, k)
    ensures SoonestFirst([m] + rest)
  {
  }

  lemma {:induction false} VictimsSorted(s: Index, needed: nat, incoming: int, cfg: StorageConfig)
    requires Inv(s, cfg)
    ensures SoonestFirst(Victims(s, needed, incoming, cfg.quota))
    decreases |s.entries|
  {
    var v := Victim(s.entries, incoming);
    if !(s.total + needed <= cfg.quota || v == |s.entries|) {
      var rest := Victims(Evict(s, v), needed, incoming, cfg.quota);
      EvictKeeps(s, v, cfg);
      VictimsSorted(Evict(s, v), needed, incoming, cfg);
      forall m | m in rest ensures Sooner(s.entries[v], m) {
        FirstBeforeRest(s, needed, incoming, cfg, m);
      }
      SortedCons(s.entries[v], rest);
    }
  }

  /** They are evictable, in eviction order, and sooner than every evictable entry that stays. */
  lemma VictimsInOrder(s: Index, needed: nat, incoming: int, cfg: StorageConfig)
    requires Inv(s, cfg)
    ensures var r, vs := EvictToFit(s, needed, incoming, cfg.quota), Victims(s, needed, incoming, cfg.quota);
      && (forall m :: m in vs ==> Evictable(m, incoming))
      && SoonestFirst(vs)
      && (forall m, k :: m in vs && k in r.entries && Evictable(k, incoming) ==> Sooner(m, k))
  {
    var r, vs := EvictToFit(s, needed, incoming, cfg.quota), Victims(s, needed, incoming, cfg.quota);
    VictimsAreEvictable(s, needed, incoming, cfg);
    VictimsSorted(s, needed, incoming, cfg);
    forall m, k | m in vs && k in r.entries && Evictable(k, incoming) ensures Sooner(m, k) {
      VictimGoesSooner(s, needed, incoming, cfg, m, k);
    }
  }

  /** Each of them was needed: without it and those after it the item would not have fitted. */
  lemma {:induction false} VictimsNeeded(s: Index, needed: nat, incoming: int, cfg: StorageConfig, k: nat)
    requires Inv(s, cfg) && k < |Victims(s, needed, incoming, cfg.quota)|
    ensures s.total - Sum(Victims(s, needed, incoming, cfg.quota)[..k]) + needed > cfg.quota
    decreases |s.entries|
  {
    var v := Victim(s.entries, incoming);
    if k > 0 {
      var rest := Victims(Evict(s, v), needed, incoming, cfg.quota);
      EvictKeeps(s, v, cfg);
      VictimsNeeded(Evict(s, v), needed, incoming, cfg, k - 1);
      SumOfPrefix(s.entries[v], rest, k);
    }
  }

  lemma SumOfPrefix(m: Meta, rest: seq<Meta>, k: nat)
    requires 1 <= k <= |rest| + 1
    ensures Sum(([m] + rest)[..k]) == m.size + Sum(rest[..k - 1])
  {
    assert ([m] + rest)[..k] == [m] + rest[..k - 1];
    SumCons(m, rest[..k - 1]);
  }

  /** An eviction takes exactly the shortest prefix of the eviction order that makes room, or, if none
      does, every evictable entry. */
  lemma VictimsAreShortestPrefix(s: Index, needed: nat, incoming: int, cfg: StorageConfig)
    requires Inv(s, cfg)
    ensures var r, vs := EvictToFit(s, needed, incoming, cfg.quota), Victims(s, needed, incoming, cfg.quota);
      && (forall m :: m in s.entries <==> m in vs || m in r.entries) && |s.entries| == |vs| + |r.entries|
      && (forall m :: m in vs ==> Evictable(m, incoming)) && SoonestFirst(vs)
      && (forall m, k :: m in vs && k in r.entries && Evictable(k, incoming) ==> Sooner(m, k))
      && (forall k :: 0 <= k < |vs| ==> s.total - Sum(vs[..k]) + needed > cfg.quota)
      && (s.total - Sum(vs) + needed <= cfg.quota || forall m :: m in r.entries ==> !Evictable(m, incoming))
  {
    VictimsPartition(s, needed, incoming, cfg);
    VictimsInOrder(s, needed, incoming, cfg);
    FitKeeps(s, needed, incoming, cfg);
    var r, vs := EvictToFit(s, needed, incoming, cfg.quota), Victims(s, needed, incoming, cfg.quota);
    forall k | 0 <= k < |vs| ensures s.total - Sum(vs[..k]) + needed > cfg.quota {
      VictimsNeeded(s, needed, incoming, cfg, k);
    }
    if Victim(r.entries, incoming) == |r.entries| {
      NothingEvictable(r.entries, incoming);
    }
  }

  lemma {:induction false} SumCons(m: Meta, rest: seq<Meta>)
    ensures Sum([m] + rest) == m.size + Sum(rest)
  {
    if rest == [] {
      assert [m] + rest == [m] && [m][..0] == [];
    } else {
      assert ([m] + rest)[..|rest|] == [m] + rest[..|rest| - 1];
      SumCons(m, rest[..|rest| - 1]);
    }
  }

  lemma RemoveMembers<T>(s: seq<T>, v: nat)
    requires v < |s|
    ensures forall x :: x in s <==> x == s[v] || x in Remove(s, v)
  {
  }

  /** A refused item that is no larger than the quota has still cost every evictable entry. */
  lemma RefusalStillEvicts(s: Index, item: string, data: Bytes, priority: int, cfg: StorageConfig)
    requires Inv(s, cfg) && Put(s, item, data, priority, cfg).1.Err?
    ensures var r := Put(s, item, data, priority, cfg).0;
      if |data| > cfg.quota then r == s
      else forall m :: m in r.entries <==> m in s.entries && !Evictable(m, priority)
  {
    if |data| <= cfg.quota {
      FitKeeps(s, |data|, priority, cfg);
      VictimsAreShortestPrefix(s, |data|, priority, cfg);
      NothingEvictable(EvictToFit(s, |data|, priority, cfg.quota).entries, priority);
    }
  }

  // --- Storing ----------------------------------------------------------------------------

  lemma AdmitIndexed(room: Index, item: string, data: Bytes, priority: int, cfg: StorageConfig)
    requires Indexed(room.entries, room.nextOrder)
    ensures var after := Admit(room, item, data, priority, cfg);
      Indexed(after.entries, after.nextOrder) && Sum(after.entries) == Sum(room.entries) + |data|
  {
  }

  /** The new files touch no live entry's. */
  lemma AdmitApart(room: Index, item: string, data: Bytes, priority: int, cfg: StorageConfig, i: nat)
    requires Indexed(room.entries, room.nextOrder) && i < |room.entries|
    ensures var id, old_ := EntryId(room.nextOrder, item), room.entries[i].id;
      && old_ != id && old_ != Sidecar(id) && Sidecar(old_) != id && Sidecar(old_) != Sidecar(id) && id != Sidecar(id)
  {
    var m := Meta(EntryId(room.nextOrder, item), |data|, priority, room.nextOrder);
    assert Named(m);
    NamesApart(room.entries[i], m);
    assert |Sidecar(m.id)| == |m.id| + 7;
  }

  lemma AdmitBacked(room: Index, item: string, data: Bytes, priority: int, cfg: StorageConfig)
    requires Indexed(room.entries, room.nextOrder) && Backed(room.entries, room.files, cfg)
    ensures var after := Admit(room, item, data, priority, cfg); Backed(after.entries, after.files, cfg)
  {
    var after, id := Admit(room, item, data, priority, cfg), EntryId(room.nextOrder, item);
    assert |Sidecar(id)| == |id| + 7;
    forall i | 0 <= i < |after.entries|
      ensures after.entries[i].id in after.files && Sidecar(after.entries[i].id) in after.files
      ensures |after.files[after.entries[i].id]| == after.entries[i].size
      ensures after.files[Sidecar(after.entries[i].id)] == cfg.hash(after.files[after.entries[i].id])
    {
      if i < |room.entries| {
        AdmitApart(room, item, data, priority, cfg, i);
      }
    }
  }

  lemma AdmitOwned(room: Index, item: string, data: Bytes, priority: int, cfg: StorageConfig)
    requires Owned(room.files, room.entries)
    ensures var after := Admit(room, item, data, priority, cfg); Owned(after.files, after.entries)
  {
    var after, id := Admit(room, item, data, priority, cfg), EntryId(room.nextOrder, item);
    forall name | name in after.files
      ensures exists i :: 0 <= i < |after.entries| && (name == after.entries[i].id || name == Sidecar(after.entries[i].id))
    {
      if name == id || name == Sidecar(id) {
        assert after.entries[|room.entries|].id == id;
      } else {
        var i :| 0 <= i < |room.entries| && (name == room.entries[i].id || name == Sidecar(room.entries[i].id));
        assert after.entries[i] == room.entries[i];
      }
    }
  }

  lemma AdmitKeeps(room: Index, item: string, data: Bytes, priority: int, cfg: StorageConfig)
    requires Inv(room, cfg) && room.total + |data| <= cfg.quota
    ensures Inv(Admit(room, item, data, priority, cfg), cfg)
  {
    AdmitIndexed(room, item, data, priority, cfg);
    AdmitBacked(room, item, data, priority, cfg);
  }

  lemma AdmitFaithful(
      room: Index, item: string, data: Bytes, priority: int, cfg: StorageConfig, written: map<string, Bytes>)
    requires Indexed(room.entries, room.nextOrder) && Faithful(room.entries, room.files, written)
    ensures var after := Admit(room, item, data, priority, cfg);
      Faithful(after.entries, after.files, written[EntryId(room.nextOrder, item) := data])
  {
    var id := EntryId(room.nextOrder, item);
    assert |Sidecar(id)| == |id| + 7;
    forall i | 0 <= i < |room.entries| ensures room.entries[i].id != id && room.entries[i].id != Sidecar(id) {
      AdmitApart(room, item, data, priority, cfg, i);
    }
  }

  // --- Runs -------------------------------------------------------------------------------

  datatype Request = Request(item: string, data: Bytes, priority: int)

  /** A store with what each admitted request wrote, by entry id. */
  datatype Traced = Traced(s: Index, written: map<string, Bytes>)

  function Step(t: Traced, q: Request, cfg: StorageConfig): Traced {
    var (after, result) := Put(t.s, q.item, q.data, q.priority, cfg);
    Traced(after, if result.Ok? then t.written[result.value := q.data] else t.written)
  }

  function Run(requests: seq<Request>, cfg: StorageConfig): Traced {
    if requests == [] then Traced(EMPTY, map[])
    else Step(Run(requests[..|requests| - 1], cfg), Last(requests), cfg)
  }

  /** Live files still hold what was written under their names. */
  predicate Faithful(entries: seq<Meta>, files: map<string, Bytes>, written: map<string, Bytes>) {
    forall i :: 0 <= i < |entries| ==>
      entries[i].id in files && entries[i].id in written && files[entries[i].id] == written[entries[i].id]
  }

  lemma {:induction false} FitFaithful(
      s: Index, needed: nat, incoming: int, cfg: StorageConfig, written: map<string, Bytes>)
    requires Inv(s, cfg) && Faithful(s.entries, s.files, written)
    ensures var r := EvictToFit(s, needed, incoming, cfg.quota); Faithful(r.entries, r.files, written)
    decreases |s.entries|
  {
    var v := Victim(s.entries, incoming);
    if !(s.total + needed <= cfg.quota || v == |s.entries|) {
      var e := Evict(s, v);
      EvictKeeps(s, v, cfg);
      forall i | 0 <= i < |e.entries|
        ensures e.entries[i].id in e.files && e.entries[i].id in written && e.files[e.entries[i].id] == written[e.entries[i].id]
      {
        RemoveAt(s.entries, v, i);
        assert e.entries[i].id in e.files;
      }
      FitFaithful(e, needed, incoming, cfg, written);
    }
  }

  lemma StepKeeps(t: Traced, q: Request, cfg: StorageConfig)
    requires Inv(t.s, cfg) && Faithful(t.s.entries, t.s.files, t.written)
    ensures var u := Step(t, q, cfg); Inv(u.s, cfg) && Faithful(u.s.entries, u.s.files, u.written)
  {
    if |q.data| <= cfg.quota {
      FitKeeps(t.s, |q.data|, q.priority, cfg);
      FitFaithful(t.s, |q.data|, q.priority, cfg, t.written);
      var room := EvictToFit(t.s, |q.data|, q.priority, cfg.quota);
      if room.total + |q.data| <= cfg.quota {
        AdmitKeeps(room, q.item, q.data, q.priority, cfg);
        AdmitFaithful(room, q.item, q.data, q.priority, cfg, t.written);
      }
    }
  }

  /** Over every run of requests: the total is the sum of the live sizes and within the quota, every order
      number is a live entry or a dropped one, ids are unique, and every live entry reads back what was
      written under its id. */
  lemma {:induction false} StorageOverRuns(requests: seq<Request>, cfg: StorageConfig)
    requires cfg.quota > 0
    ensures var t := Run(requests, cfg);
      && Inv(t.s, cfg) && Faithful(t.s.entries, t.s.files, t.written)
      && (forall i, j :: 0 <= i < j < |t.s.entries| ==> t.s.entries[i].id != t.s.entries[j].id)
      && (forall i :: 0 <= i < |t.s.entries| ==> Read(t.s, t.s.entries[i].id, cfg) == Ok(t.written[t.s.entries[i].id]))
  {
    var t := Run(requests, cfg);
    if requests != [] {
      StorageOverRuns(requests[..|requests| - 1], cfg);
      StepKeeps(Run(requests[..|requests| - 1], cfg), Last(requests), cfg);
    }
    forall i, j | 0 <= i < j < |t.s.entries| ensures t.s.entries[i].id != t.s.entries[j].id {
      NamesApart(t.s.entries[i], t.s.entries[j]);
    }
  }

  lemma {:induction false} FitOwned(s: Index, needed: nat, incoming: int, quota: int)
    requires Owned(s.files, s.entries)
    ensures var r := EvictToFit(s, needed, incoming, quota); Owned(r.files, r.entries)
    decreases |s.entries|
  {
    var v := Victim(s.entries, incoming);
    if !(s.total + needed <= quota || v == |s.entries|) {
      OwnedKept(s, v);
      FitOwned(Evict(s, v), needed, incoming, quota);
    }
  }

  /** Over every run the products directory holds no file but those of live entries. */
  lemma {:induction false} NoOrphanFiles(requests: seq<Request>, cfg: StorageConfig)
    ensures var s := Run(requests, cfg).s; Owned(s.files, s.entries)
  {
    if requests != [] {
      var s, q := Run(requests[..|requests| - 1], cfg).s, Last(requests);
      NoOrphanFiles(requests[..|requests| - 1], cfg);
      FitOwned(s, |q.data|, q.priority, cfg.quota);
      AdmitOwned(EvictToFit(s, |q.data|, q.priority, cfg.quota), q.item, q.data, q.priority, cfg);
    }
  }

  // --- Damage from outside ----------------------------------------------------------------

  /** A request, or something outside the store replacing or removing a file. */
  datatype Deed = Puts(q: Request) | Damages(name: string, left: Option<Bytes>)

  /** `touched` names the files damaged since the store last wrote them. */
  datatype Damaged = Damaged(t: Traced, touched: set<string>)

  function Replaced(files: map<string, Bytes>, name: string, left: Option<Bytes>): map<string, Bytes> {
    if left.Some? then files[name := left.value] else files - {name}
  }

  function Do(d: Damaged, deed: Deed, cfg: StorageConfig): Damaged {
    match deed
    case Puts(q) =>
      var id := Put(d.t.s, q.item, q.data, q.priority, cfg).1;
      Damaged(Step(d.t, q, cfg), if id.Ok? then d.touched - {id.value, Sidecar(id.value)} else d.touched)
    case Damages(name, left) =>
      Damaged(d.t.(s := d.t.s.(files := Replaced(d.t.s.files, name, left))), d.touched + {name})
  }

  function DamagedRun(deeds: seq<Deed>, cfg: StorageConfig): Damaged {
    if deeds == [] then Damaged(Traced(EMPTY, map[]), {})
    else Do(DamagedRun(deeds[..|deeds| - 1], cfg), Last(deeds), cfg)
  }

  /** The files of an entry that nothing has touched are as the store wrote them. */
  predicate Untouched(
    id: string, files: map<string, Bytes>, written: map<string, Bytes>, touched: set<string>, cfg: StorageConfig)
  {
    && id in written
    && (id !in touched ==> id in files && files[id] == written[id])
    && (Sidecar(id) !in touched ==> Sidecar(id) in files && files[Sidecar(id)] == cfg.hash(written[id]))
  }

  predicate AllUntouched(s: Index, written: map<string, Bytes>, touched: set<string>, cfg: StorageConfig) {
    forall i :: 0 <= i < |s.entries| ==> Untouched(s.entries[i].id, s.files, written, touched, cfg)
  }

  lemma {:induction false} FitUntouched(
      s: Index, needed: nat, incoming: int, cfg: StorageConfig, written: map<string, Bytes>, touched: set<string>)
    requires Indexed(s.entries, s.nextOrder) && AllUntouched(s, written, touched, cfg)
    ensures var r := EvictToFit(s, needed, incoming, cfg.quota);
      Indexed(r.entries, r.nextOrder) && AllUntouched(r, written, touched, cfg)
    decreases |s.entries|
  {
    var v := Victim(s.entries, incoming);
    if !(s.total + needed <= cfg.quota || v == |s.entries|) {
      var e := Evict(s, v);
      IndexKept(s.entries, v, s.nextOrder);
      forall i | 0 <= i < |e.entries| ensures Untouched(e.entries[i].id, e.files, written, touched, cfg) {
        var k := if i < v then i else i + 1;
        RemoveAt(s.entries, v, i);
        assert s.entries[k].order != s.entries[v].order;
        NamesApart(s.entries[k], s.entries[v]);
        assert Untouched(s.entries[k].id, s.files, written, touched, cfg);
      }
      FitUntouched(e, needed, incoming, cfg, written, touched);
    }
  }

  lemma AdmitUntouched(
      room: Index, q: Request, cfg: StorageConfig, written: map<string, Bytes>, touched: set<string>)
    requires Indexed(room.entries, room.nextOrder) && AllUntouched(room, written, touched, cfg)
    ensures var after, id := Admit(room, q.item, q.data, q.priority, cfg), EntryId(room.nextOrder, q.item);
      && Indexed(after.entries, after.nextOrder)
      && AllUntouched(after, written[id := q.data], touched - {id, Sidecar(id)}, cfg)
  {
    var after, id := Admit(room, q.item, q.data, q.priority, cfg), EntryId(room.nextOrder, q.item);
    AdmitIndexed(room, q.item, q.data, q.priority, cfg);
    assert |Sidecar(id)| == |id| + 7;
    forall i | 0 <= i < |after.entries|
      ensures Untouched(after.entries[i].id, after.files, written[id := q.data], touched - {id, Sidecar(id)}, cfg)
    {
      if i < |room.entries| {
        AdmitApart(room, q.item, q.data, q.priority, cfg, i);
        assert Untouched(room.entries[i].id, room.files, written, touched, cfg);
      }
    }
  }

  lemma DoUntouched(d: Damaged, deed: Deed, cfg: StorageConfig)
    requires Indexed(d.t.s.entries, d.t.s.nextOrder) && AllUntouched(d.t.s, d.t.written, d.touched, cfg)
    ensures var e := Do(d, deed, cfg);
      Indexed(e.t.s.entries, e.t.s.nextOrder) && AllUntouched(e.t.s, e.t.written, e.touched, cfg)
  {
    match deed
    case Puts(q) =>
      FitUntouched(d.t.s, |q.data|, q.priority, cfg, d.t.written, d.touched);
      var room := EvictToFit(d.t.s, |q.data|, q.priority, cfg.quota);
      AdmitUntouched(room, q, cfg, d.t.written, d.touched);
    case Damages(name, left) =>
      forall i | 0 <= i < |d.t.s.entries|
        ensures Untouched(d.t.s.entries[i].id, Replaced(d.t.s.files, name, left), d.t.written, d.touched + {name}, cfg)
      {
        assert Untouched(d.t.s.entries[i].id, d.t.s.files, d.t.written, d.touched, cfg);
      }
  }

  lemma {:induction false} DamagedRunUntouched(deeds: seq<Deed>, cfg: StorageConfig)
    ensures var d := DamagedRun(deeds, cfg);
      Indexed(d.t.s.entries, d.t.s.nextOrder) && AllUntouched(d.t.s, d.t.written, d.touched, cfg)
  {
    if deeds != [] {
      DamagedRunUntouched(deeds[..|deeds| - 1], cfg);
      DoUntouched(DamagedRun(deeds[..|deeds| - 1], cfg), Last(deeds), cfg);
    }
  }

  /** Over every run of requests and damage: an id that is not live is refused; a live entry whose own two files
      nobody has touched reads back what was written under it, whatever became of the others; and with its
      sidecar untouched, damage to the product is answered with bytes of the same digest or not at all. */
  lemma DamageIsContained(deeds: seq<Deed>, id: string, cfg: StorageConfig)
    ensures var d := DamagedRun(deeds, cfg);
      var r := Read(d.t.s, id, cfg);
      && (!Live(d.t.s, id) ==> r == Err(StorageCorrupt))
      && (Live(d.t.s, id) ==> id in d.t.written)
      && (Live(d.t.s, id) && id !in d.touched && Sidecar(id) !in d.touched ==> r == Ok(d.t.written[id]))
      && (Live(d.t.s, id) && Sidecar(id) !in d.touched && r.Ok? ==> cfg.hash(r.value) == cfg.hash(d.t.written[id]))
  {
    DamagedRunUntouched(deeds, cfg);
    var d := DamagedRun(deeds, cfg);
    if Live(d.t.s, id) {
      var i :| 0 <= i < |d.t.s.entries| && d.t.s.entries[i].id == id;
      assert Untouched(d.t.s.entries[i].id, d.t.s.files, d.t.written, d.touched, cfg);
    }
  }

  // --- The service ------------------------------------------------------------------------

  class StorageService {
    const cfg: StorageConfig
    var entries: seq<Meta>          // the index, in order of insertion
    var totalBytes: int
    var nextOrder: nat
    var droppedCount: nat
    var files: map<string, Bytes>   // the products directory
    var faults: seq<FaultEvent>

    constructor (cfg: StorageConfig)
      ensures this.cfg == cfg && State() == EMPTY
    {
      this.cfg := cfg;
      entries, totalBytes, nextOrder, droppedCount, files, faults := [], 0, 0, 0, map[], [];
    }

    ghost function State(): Index
      reads this
    {
      Index(entries, totalBytes, nextOrder, droppedCount, files)
    }

    method PublishFull()
      modifies this`faults
      ensures faults == old(faults) + [FaultEvent(StorageFull, "storage")]
    {
      faults := faults + [FaultEvent(StorageFull, "storage")];
    }

    method Store(item: string, data: Bytes, priority: int) returns (result: Result<string>)
      modifies this
      ensures (State(), result) == Put(old(State()), item, data, priority, cfg)
      ensures faults == old(faults) + (if result.Err? then [FaultEvent(StorageFull, "storage")] else [])
    {
      var size := |data|;
      if size > cfg.quota {
        PublishFull();
        return Err(StorageFull);
      }
      MakeRoom(size, priority);
      if totalBytes + size > cfg.quota {
        PublishFull();
        return Err(StorageFull);
      }
      var order := nextOrder;
      nextOrder := nextOrder + 1;
      var id := EntryId(order, item);
      files := files[id := data][Sidecar(id) := cfg.hash(data)];
      entries := entries + [Meta(id, size, priority, order)];
      totalBytes := totalBytes + size;
      return Ok(id);
    }

    method MakeRoom(needed: nat, incoming: int)
      modifies this`entries, this`totalBytes, this`droppedCount, this`files
      ensures State() == EvictToFit(old(State()), needed, incoming, cfg.quota)
    {
      while totalBytes + needed > cfg.quota
        invariant EvictToFit(State(), needed, incoming, cfg.quota) == EvictToFit(old(State()), needed, incoming, cfg.quota)
        invariant nextOrder == old(nextOrder)
        decreases |entries|
      {
        var v := FindVictim(incoming);
        if v == |entries| {
          return;
        }
        var victim := entries[v];
        files := files - {victim.id, Sidecar(victim.id)};
        entries := Remove(entries, v);
        totalBytes := totalBytes - victim.size;
        droppedCount := droppedCount + 1;
      }
    }

    /** Scan the index for the evictable entry of greatest priority value, the oldest among equals. */
    method FindVictim(incoming: int) returns (v: nat)
      ensures v == Victim(entries, incoming)
    {
      var found := false;
      v := 0;
      for i := 0 to |entries|
        invariant Victim(entries[..i], incoming) == (if found then v else i)
        invariant found ==> v < i
      {
        assert entries[..i + 1][..i] == entries[..i];
        if Evictable(entries[i], incoming) && (!found || Sooner(entries[i], entries[v])) {
          found, v := true, i;
        }
      }
      assert entries[..|entries|] == entries;
      if !found {
        v := |entries|;
      }
    }

    method Load(id: string) returns (result: Result<Bytes>)
      ensures result == Read(State(), id, cfg)
    {
      if !(exists i :: 0 <= i < |entries| && entries[i].id == id) {
        return Err(StorageCorrupt);
      }
      if id !in files || Sidecar(id) !in files {
        return Err(StorageCorrupt);
      }
      if cfg.hash(files[id]) != files[Sidecar(id)] {
        return Err(StorageCorrupt);
      }
      return Ok(files[id]);
    }
  }
}
