/** What the quota store evicts, admits and answers, with order, bounds and codes written out. */
module StorageOutcomes {
  import opened Basics
  import opened Naming
  import opened Storage

  /** What goes first: whatever is evicted is no more important than the incoming item, goes out by falling priority
      value and, within one, oldest first; and every entry that stays is more important than the incoming item or than
      each victim, or as important as a victim and newer. */
  lemma LeastAndOldestGoFirst(s: Index, needed: nat, incoming: int, cfg: StorageConfig)
    requires Inv(s, cfg)
    ensures var r, vs := EvictToFit(s, needed, incoming, cfg.quota), Victims(s, needed, incoming, cfg.quota);
      && (forall m :: m in vs ==> incoming <= m.priority)
      && (forall i, j :: 0 <= i < j < |vs| ==>
            vs[j].priority < vs[i].priority || (vs[j].priority == vs[i].priority && vs[i].order < vs[j].order))
      && (forall m, k :: m in vs && k in r.entries ==>
            || k.priority < incoming || k.priority < m.priority
            || (k.priority == m.priority && m.order < k.order))
  {
    VictimsInOrder(s, needed, incoming, cfg);
    OrderReads(EvictToFit(s, needed, incoming, cfg.quota).entries, Victims(s, needed, incoming, cfg.quota), incoming);
  }

  lemma OrderReads(kept: seq<Meta>, vs: seq<Meta>, incoming: int)
    requires SoonestFirst(vs) && forall m :: m in vs ==> Evictable(m, incoming)
    requires forall m, k :: m in vs && k in kept && Evictable(k, incoming) ==> Sooner(m, k)
    ensures forall m :: m in vs ==> incoming <= m.priority
    ensures forall i, j :: 0 <= i < j < |vs| ==>
      vs[j].priority < vs[i].priority || (vs[j].priority == vs[i].priority && vs[i].order < vs[j].order)
    ensures forall m, k :: m in vs && k in kept ==>
      k.priority < incoming || k.priority < m.priority || (k.priority == m.priority && m.order < k.order)
  {
  }

  /** A refusal always says that storage is full; an admitted item gets an id made of its order number and its name, is
      the newest entry, and every entry that stayed is untouched. */
  lemma PutsExactly(s: Index, item: string, data: Bytes, priority: int, cfg: StorageConfig)
    ensures var (after, r), room := Put(s, item, data, priority, cfg), EvictToFit(s, |data|, priority, cfg.quota);
      && (r.Err? ==> r.error == StorageFull && after == (if |data| > cfg.quota then s else room))
      && (r.Ok? ==>
            && r.value == EntryId(room.nextOrder, item)
            && after.entries == room.entries + [Meta(r.value, |data|, priority, room.nextOrder)]
            && after.total == room.total + |data| && after.nextOrder == room.nextOrder + 1
            && after.files == room.files[r.value := data][r.value + ".sha256" := cfg.hash(data)])
  {
  }

  /** A read answers with the product file exactly if the entry is live and both of its files are there and match;
      otherwise it says that storage is corrupt. */
  lemma ReadsExactly(s: Index, id: string, cfg: StorageConfig)
    ensures Read(s, id, cfg)
      == (if (exists m :: m in s.entries && m.id == id) && id in s.files && id + ".sha256" in s.files
               && cfg.hash(s.files[id]) == s.files[id + ".sha256"]
          then Ok(s.files[id]) else Err(StorageCorrupt))
  {
    if Live(s, id) {
      var i :| 0 <= i < |s.entries| && s.entries[i].id == id;
      assert s.entries[i] in s.entries;
    }
  }
}
