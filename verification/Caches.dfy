/** The byte-bounded LRU cache and the two tiers it fronts: `sigmaloop/data/cache.py`. */
module Caches {
  import opened Types

  /** A digest of everything a series depends on. */
  type Key = int

  datatype Series = Series(content: int, bytes: nat, rows: nat)

  datatype Entry = Entry(key: Key, series: Series)

  function Bytes(entries: seq<Entry>): nat {
    if entries == [] then 0 else entries[0].series.bytes + Bytes(entries[1..])
  }

  predicate DistinctKeys(entries: seq<Entry>) {
    forall i, j | 0 <= i < j < |entries| :: entries[i].key != entries[j].key
  }

  predicate Holds(entries: seq<Entry>, key: Key) {
    exists e | e in entries :: e.key == key
  }

  /** The entries without one key, in order. */
  function Dropped(entries: seq<Entry>, key: Key): seq<Entry> {
    if entries == [] then []
    else if entries[0].key == key then Dropped(entries[1..], key)
    else [entries[0]] + Dropped(entries[1..], key)
  }

  function Lookup(entries: seq<Entry>, key: Key): Option<Series> {
    if entries == [] then None
    else if entries[0].key == key then Some(entries[0].series)
    else Lookup(entries[1..], key)
  }

  /** What is left after evicting the oldest entries until the rest fit. */
  function Fitted(entries: seq<Entry>, budget: nat): seq<Entry> {
    if Bytes(entries) <= budget then entries else Fitted(entries[1..], budget)
  }

  // ---- what the pieces mean --------------------------------------------------------------------------------------

  lemma {:induction false} LookupHolds(entries: seq<Entry>, key: Key)
    ensures Lookup(entries, key).Some? <==> Holds(entries, key)
    ensures Lookup(entries, key).Some? ==> Entry(key, Lookup(entries, key).value) in entries
  {
    if entries != [] {
      LookupHolds(entries[1..], key);
      assert entries == [entries[0]] + entries[1..];
      if entries[0].key == key {
        assert entries[0] in entries;
      }
    }
  }

  lemma {:induction false} DroppedMembers(entries: seq<Entry>, key: Key)
    ensures forall e :: e in Dropped(entries, key) <==> e in entries && e.key != key
    ensures DistinctKeys(entries) ==> DistinctKeys(Dropped(entries, key))
  {
    if entries != [] {
      DroppedMembers(entries[1..], key);
      assert entries == [entries[0]] + entries[1..];
      if DistinctKeys(entries) && entries[0].key != key {
        forall e | e in Dropped(entries[1..], key)
          ensures e.key != entries[0].key
        {
          var k :| 0 <= k < |entries[1..]| && entries[1..][k] == e;
        }
      }
    }
  }

  /** Dropping a key takes its one entry, if there is one, out from between the others, which keep their order. */
  lemma {:induction false} DroppedKeepsOrder(entries: seq<Entry>, key: Key)
    returns (before: seq<Entry>, found: seq<Entry>, after: seq<Entry>)
    requires DistinctKeys(entries)
    ensures entries == before + found + after && Dropped(entries, key) == before + after
    ensures if Holds(entries, key) then |found| == 1 && found[0].key == key else found == []
  {
    if entries == [] {
      before, found, after := [], [], [];
    } else if entries[0].key == key {
      before, found, after := [], [entries[0]], entries[1..];
      assert entries[0] in entries;
      DroppedNone(entries[1..], key);
    } else {
      before, found, after := DroppedKeepsOrder(entries[1..], key);
      assert entries == [entries[0]] + entries[1..];
      assert Holds(entries, key) <==> Holds(entries[1..], key);
      before := [entries[0]] + before;
    }
  }

  lemma {:induction false} DroppedNone(entries: seq<Entry>, key: Key)
    requires forall e | e in entries :: e.key != key
    ensures Dropped(entries, key) == entries
  {
    if entries != [] {
      DroppedNone(entries[1..], key);
    }
  }

  lemma {:induction false} DroppedBytes(entries: seq<Entry>, key: Key)
    requires DistinctKeys(entries)
    ensures Bytes(entries)
              == Bytes(Dropped(entries, key)) + (match Lookup(entries, key) case Some(s) => s.bytes case None => 0)
  {
    if entries != [] {
      DroppedBytes(entries[1..], key);
      if entries[0].key == key {
        LookupHolds(entries[1..], key);
        assert forall k | 0 <= k < |entries[1..]| :: entries[1..][k] == entries[k + 1];
        assert Lookup(entries[1..], key).None?;
      } else {
        assert ([entries[0]] + Dropped(entries[1..], key))[1..] == Dropped(entries[1..], key);
      }
    }
  }

  lemma {:induction false} BytesNext(entries: seq<Entry>, e: Entry)
    ensures Bytes(entries + [e]) == Bytes(entries) + e.series.bytes
  {
    if entries == [] {
      assert [] + [e] == [e] && [e][1..] == [];
    } else {
      assert (entries + [e])[1..] == entries[1..] + [e];
      BytesNext(entries[1..], e);
    }
  }

  /** Eviction takes exactly the shortest prefix of least recently used entries: what stays fits, and would not with
      one entry more. */
  lemma {:induction false} FittedIsShortest(entries: seq<Entry>, budget: nat) returns (n: nat)
    ensures n <= |entries| && Fitted(entries, budget) == entries[n..]
    ensures Bytes(entries[n..]) <= budget
    ensures forall k | 0 <= k < n :: Bytes(entries[k..]) > budget
  {
    if Bytes(entries) <= budget {
      n := 0;
    } else {
      var m := FittedIsShortest(entries[1..], budget);
      n := m + 1;
      assert entries[1..][m..] == entries[n..];
      forall k | 0 <= k < n
        ensures Bytes(entries[k..]) > budget
      {
        if k > 0 {
          assert entries[1..][k - 1..] == entries[k..];
        } else {
          assert entries[0..] == entries;
        }
      }
    }
  }

  /** An entry that fits by itself is never evicted by its own arrival. */
  lemma NewcomerStays(entries: seq<Entry>, e: Entry, budget: nat)
    requires e.series.bytes <= budget
    ensures var kept := Fitted(entries + [e], budget); kept != [] && kept[|kept| - 1] == e
  {
    var n := FittedIsShortest(entries + [e], budget);
    assert (entries + [e])[|entries|..] == [e];
    assert Bytes([e]) == e.series.bytes by { assert [e][1..] == []; }
  }

  /** In-memory LRU: the least recently used entry comes first. */
  class MemoryDataCache {
    const maxBytes: nat
    var entries: seq<Entry>
    var bytesResident: int
    var hits: nat
    var misses: nat
    var evictions: nat

    predicate Valid()
      reads this
    {
      DistinctKeys(entries) && bytesResident == Bytes(entries) && Bytes(entries) <= maxBytes
    }

    constructor (maxBytes: int)
      ensures Valid() && entries == [] && this.maxBytes == if maxBytes < 0 then 0 else maxBytes
    {
      this.maxBytes := if maxBytes < 0 then 0 else maxBytes;
      entries, bytesResident, hits, misses, evictions := [], 0, 0, 0, 0;
    }

    /** A hit moves to the young end. */
    method Get(key: Key) returns (found: Option<Series>)
      requires Valid()
      modifies this
      ensures Valid() && found == Lookup(old(entries), key)
      ensures entries == if found.Some? then Dropped(old(entries), key) + [Entry(key, found.value)] else old(entries)
      ensures hits + misses == old(hits + misses) + 1 && (found.Some? <==> hits == old(hits) + 1)
      ensures evictions == old(evictions)
    {
      found := Lookup(entries, key);
      if found.None? {
        misses := misses + 1;
        return;
      }
      MovedStaysValid(entries, Entry(key, found.value));
      entries := Dropped(entries, key) + [Entry(key, found.value)];
      hits := hits + 1;
    }

    /** Insert or replace; a series larger than the whole budget is dropped rather than admitted. */
    method Put(key: Key, series: Series)
      requires Valid()
      modifies this
      ensures Valid()
      ensures entries == if series.bytes > maxBytes then Dropped(old(entries), key)
                         else Fitted(Dropped(old(entries), key) + [Entry(key, series)], maxBytes)
      ensures series.bytes <= maxBytes ==> entries != [] && entries[|entries| - 1] == Entry(key, series)
      ensures |entries| + evictions
                == |Dropped(old(entries), key)| + old(evictions) + if series.bytes <= maxBytes then 1 else 0
    {
      DroppedMembers(entries, key);
      Invalidate(key);
      hide Dropped;
      if series.bytes > maxBytes {
        return;
      }
      ghost var all := entries + [Entry(key, series)];
      BytesNext(entries, Entry(key, series));
      NewcomerStays(entries, Entry(key, series), maxBytes);
      entries := entries + [Entry(key, series)];
      bytesResident := bytesResident + series.bytes;
      while bytesResident > maxBytes && entries != []
        invariant DistinctKeys(entries) && bytesResident == Bytes(entries)
        invariant Fitted(entries, maxBytes) == Fitted(all, maxBytes)
        invariant |entries| + evictions == |all| + old(evictions)
      {
        bytesResident := bytesResident - entries[0].series.bytes;
        entries := entries[1..];
        evictions := evictions + 1;
      }
    }

    method Invalidate(key: Key)
      requires Valid()
      modifies this
      ensures Valid() && entries == Dropped(old(entries), key) && evictions == old(evictions)
    {
      var existing := Lookup(entries, key);
      DroppedBytes(entries, key);
      DroppedMembers(entries, key);
      entries := Dropped(entries, key);
      if existing.Some? {
        bytesResident := bytesResident - existing.value.bytes;
      }
    }

    method Clear()
      requires Valid()
      modifies this
      ensures Valid() && entries == [] && bytesResident == 0
    {
      entries, bytesResident := [], 0;
    }
  }

  /** Moving an entry to the young end changes neither the keys nor the bytes. */
  lemma MovedStaysValid(entries: seq<Entry>, e: Entry)
    requires DistinctKeys(entries) && Lookup(entries, e.key) == Some(e.series)
    ensures DistinctKeys(Dropped(entries, e.key) + [e]) && Bytes(Dropped(entries, e.key) + [e]) == Bytes(entries)
  {
    DroppedBytes(entries, e.key);
    DroppedMembers(entries, e.key);
    BytesNext(Dropped(entries, e.key), e);
    forall k | 0 <= k < |Dropped(entries, e.key)|
      ensures Dropped(entries, e.key)[k].key != e.key
    {
      assert Dropped(entries, e.key)[k] in Dropped(entries, e.key);
    }
  }

  /** Memory in front of disk. The disk tier is a map from key to the stored series; whether a file reads back is the
      outside world's to say. */
  class TieredDataCache {
    const fast: MemoryDataCache
    const minSlowRows: nat
    /** Keys are content-addressed: a key names one series. */
    ghost const names: Key -> Series
    var slow: map<Key, Series>
    var slowHits: nat
    var slowMisses: nat

    /** Both tiers hold, under each key, the series it names. */
    ghost predicate Valid()
      reads this, fast
    {
      && fast.Valid()
      && (forall e | e in fast.entries :: e.series == names(e.key))
      && (forall k | k in slow :: slow[k] == names(k))
    }

    constructor (fast: MemoryDataCache, minSlowRows: int, ghost names: Key -> Series)
      requires fast.Valid() && fast.entries == []
      ensures Valid() && slow == map[] && this.fast == fast && this.names == names
      ensures this.minSlowRows == if minSlowRows < 0 then 0 else minSlowRows
    {
      this.fast, this.minSlowRows, this.names := fast, if minSlowRows < 0 then 0 else minSlowRows, names;
      slow, slowHits, slowMisses := map[], 0, 0;
    }

    /** A hit is the series the key names; a miss means neither tier could serve it. A disk hit is promoted, and a
        corrupt file is dropped. */
    method Get(key: Key, corrupt: bool) returns (found: Option<Series>)
      requires Valid()
      modifies this, fast
      ensures Valid()
      ensures found.Some? ==> found.value == names(key)
      ensures found.Some? <==> Holds(old(fast.entries), key) || (key in old(slow) && !corrupt)
      ensures slow == if !Holds(old(fast.entries), key) && corrupt then old(slow) - {key} else old(slow)
      ensures found.Some? && found.value.bytes <= fast.maxBytes ==> Holds(fast.entries, key)
      ensures slowMisses == old(slowMisses) + if found.None? then 1 else 0
    {
      LookupHolds(fast.entries, key);
      ghost var before := fast.entries;
      found := fast.Get(key);
      if found.Some? {
        OnlyNamed(before, key, names(key), fast.maxBytes);
        assert fast.entries[|fast.entries| - 1].key == key;
        return;
      }
      if key !in slow {
        slowMisses := slowMisses + 1;
        return;
      }
      if corrupt {
        slow, slowMisses := slow - {key}, slowMisses + 1;
        return;
      }
      slowHits := slowHits + 1;
      found := Some(slow[key]);
      OnlyNamed(fast.entries, key, slow[key], fast.maxBytes);
      fast.Put(key, slow[key]);
    }

    /** Write to both tiers, keeping short series out of the disk. */
    method Put(key: Key, series: Series)
      requires Valid() && series == names(key)
      modifies this, fast
      ensures Valid()
      ensures slow == if series.rows >= minSlowRows then old(slow)[key := series] else old(slow)
      ensures series.bytes <= fast.maxBytes ==> Holds(fast.entries, key)
    {
      OnlyNamed(fast.entries, key, series, fast.maxBytes);
      fast.Put(key, series);
      if series.rows >= minSlowRows {
        slow := slow[key := series];
      }
    }

    method Invalidate(key: Key)
      requires Valid()
      modifies this, fast
      ensures Valid() && slow == old(slow) - {key} && !Holds(fast.entries, key)
    {
      DroppedMembers(fast.entries, key);
      fast.Invalidate(key);
      slow := slow - {key};
    }

    method Clear()
      requires Valid()
      modifies this, fast
      ensures Valid() && slow == map[] && fast.entries == []
    {
      fast.Clear();
      slow := map[];
    }
  }

  /** Neither moving, adding nor evicting brings in anything but the entry put. */
  lemma OnlyNamed(entries: seq<Entry>, key: Key, series: Series, budget: nat)
    ensures forall e | e in Dropped(entries, key) :: e in entries && e.key != key
    ensures forall e | e in Fitted(Dropped(entries, key) + [Entry(key, series)], budget) ::
        e in entries || e == Entry(key, series)
  {
    DroppedMembers(entries, key);
    var all := Dropped(entries, key) + [Entry(key, series)];
    var n := FittedIsShortest(all, budget);
    assert forall e | e in all[n..] :: e in all;
  }
}
