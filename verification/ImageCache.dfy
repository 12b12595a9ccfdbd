/** The crash-safe variant cache as the class it is, over a disk and an index store that belong to its environment. */
module ImageCache {
  import opened Outcome
  import opened CacheIndex

  const MAX_LEGACY: nat := 512
  const FLUSH_EVERY: nat := 8

  class FrcImageCache {
    const maxBytes: nat
    const maxEntries: nat
    const hasIndex: bool
    var entries: Entries
    var legacyHashes: map<string, nat>
    var leases: map<Key, nat>
    var pins: map<Uri, nat>
    var inFlightParts: set<Uri>
    var totalBytes: int
    var tick: nat
    var initialized: bool
    var reconciled: bool
    var indexDirty: bool
    var pendingIndexWrites: nat
    var flushScheduled: bool
    /**
     * The environment: files, files that cannot be deleted, whether the directory lists its images and its partial files,
     * the stored index, and whether it can be written.
     */
    var disk: Disk
    var stubborn: set<File>
    var listable: bool
    var sweepable: bool
    var store: Persisted
    var storeFails: bool
    /** Bytes still counted for entries that a restored index held twice. */
    ghost var drift: nat

    ghost predicate Valid()
      reads this`entries, this`tick, this`totalBytes, this`drift
    {
      Indexed(entries, tick) && totalBytes == Bytes(entries) + drift
    }

    constructor (maxBytes: nat, maxEntries: nat, hasIndex: bool, store: Persisted, disk: Disk)
      ensures Valid() && entries == map[] && totalBytes == 0 && drift == 0 && !initialized && !reconciled
      ensures this.maxBytes == maxBytes && this.maxEntries == maxEntries && this.hasIndex == hasIndex
      ensures this.store == store && this.disk == disk && leases == map[] && pins == map[] && inFlightParts == {}
      ensures legacyHashes == map[] && stubborn == {} && listable && sweepable
    {
      this.maxBytes, this.maxEntries, this.hasIndex := maxBytes, maxEntries, hasIndex;
      this.store, this.disk := store, disk;
      entries, legacyHashes, leases, pins, inFlightParts := map[], map[], map[], map[], {};
      totalBytes, tick, initialized, reconciled := 0, 0, false, false;
      indexDirty, pendingIndexWrites, flushScheduled := false, 0, false;
      stubborn, listable, sweepable, storeFails, drift := {}, true, true, false, 0;
    }

    // ---- Leases and pins ----

    method Acquire(key: Key)
      modifies this`leases
      ensures leases == old(leases)[key := (if key in old(leases) then old(leases)[key] else 0) + 1]
    {
      leases := leases[key := (if key in leases then leases[key] else 0) + 1];
    }

    method Release(key: Key)
      modifies this`leases
      ensures Leased(leases, key) <==> key in old(leases) && old(leases)[key] > 1
      ensures forall k :: k != key ==> (Leased(leases, k) <==> Leased(old(leases), k))
    {
      var held: int := if key in leases then leases[key] else 0;
      var next := held - 1;
      leases := if next <= 0 then leases - {key} else leases[key := next];
    }

    method PinFile(uri: Uri)
      modifies this`pins
      ensures Pinned(pins, uri.file)
      ensures forall file :: Pinned(old(pins), file) ==> Pinned(pins, file)
    {
      var before := pins;
      pins := pins[uri := (if uri in pins then pins[uri] else 0) + 1];
      forall file | Pinned(before, file)
        ensures Pinned(pins, file)
      {
        var other :| other in before && before[other] > 0 && other.file == file;
        assert other in pins && pins[other] > 0;
      }
      assert uri in pins && pins[uri] > 0;
    }

    method UnpinFile(uri: Uri)
      modifies this`pins
      ensures forall file :: Pinned(pins, file) ==> Pinned(old(pins), file)
      ensures forall file :: file != uri.file && Pinned(old(pins), file) ==> Pinned(pins, file)
    {
      var before := pins;
      var held: int := if uri in pins then pins[uri] else 0;
      var next := held - 1;
      pins := if next <= 0 then pins - {uri} else pins[uri := next];
      forall file | Pinned(pins, file)
        ensures Pinned(before, file)
      {
        var other :| other in pins && pins[other] > 0 && other.file == file;
        assert other in before && before[other] > 0;
      }
      forall file | file != uri.file && Pinned(before, file)
        ensures Pinned(pins, file)
      {
        var other :| other in before && before[other] > 0 && other.file == file;
        assert other in pins && pins[other] > 0;
      }
    }

    // ---- The persisted index ----

    /** The entries in order of use, by repeatedly taking the oldest of the rest. */
    method OldestFirst() returns (rows: seq<Row>)
      requires Valid()
      ensures Lists(rows, entries)
    {
      hide Indexed, Lists, Listed;
      rows := [];
      var rest := entries;
      NoneListed(entries);
      while rest != map[]
        invariant Listed(rows, rest, entries)
        decreases |rest|
      {
        RestIsPart(rows, rest, entries);
        ghost var written := rows;
        var oldest := FirstUsed(rest);
        rows := rows + [Row(oldest, rest[oldest].format, rest[oldest].size)];
        assert rows[..|rows| - 1] == written;
        ListedMore(rows, rest, entries, oldest);
        rest := rest - {oldest};
      }
      AllListed(rows, entries);
    }

    method FirstUsed(rest: Entries) returns (oldest: Key)
      requires Valid() && rest != map[] && rest.Keys <= entries.Keys && forall key :: key in rest ==> rest[key] == entries[key]
      ensures oldest in rest && forall key :: key in rest && key != oldest ==> rest[oldest].lastUsed < rest[key].lastUsed
    {
      var keys := rest.Keys;
      assert keys != {};
      oldest :| oldest in keys;
      keys := keys - {oldest};
      while keys != {}
        invariant keys <= rest.Keys && oldest in rest
        invariant forall key :: key in rest && key !in keys && key != oldest ==> rest[oldest].lastUsed < rest[key].lastUsed
        decreases |keys|
      {
        var key :| key in keys;
        keys := keys - {key};
        if rest[key].lastUsed < rest[oldest].lastUsed {
          oldest := key;
        }
      }
    }

    method FlushIndex()
      requires Valid()
      modifies this`store, this`indexDirty, this`pendingIndexWrites
      ensures old(hasIndex && indexDirty && !storeFails) ==> !indexDirty && store.Rows? && Lists(store.rows, entries)
      ensures !old(hasIndex && indexDirty && !storeFails) ==> store == old(store) && indexDirty == old(indexDirty)
    {
      if !hasIndex || !indexDirty {
        return;
      }
      var rows := OldestFirst();
      if storeFails {
        return;
      }
      store := Rows(rows);
      indexDirty, pendingIndexWrites := false, 0;
    }

    /** A burst of changes is written at every eighth of them, and once more when it is over. */
    method MarkIndexDirty()
      requires Valid()
      modifies this`store, this`indexDirty, this`pendingIndexWrites, this`flushScheduled
      ensures !indexDirty ==> store.Rows? && Lists(store.rows, entries)
    {
      indexDirty := true;
      pendingIndexWrites := pendingIndexWrites + 1;
      if pendingIndexWrites >= FLUSH_EVERY {
        FlushIndex();
        return;
      }
      flushScheduled := true;
    }

    /** The write that was put off to the end of the burst. */
    method FlushScheduled()
      requires Valid() && flushScheduled
      modifies this`store, this`indexDirty, this`pendingIndexWrites, this`flushScheduled
      ensures !flushScheduled
      ensures old(hasIndex && indexDirty && !storeFails) ==> !indexDirty && store.Rows? && Lists(store.rows, entries)
    {
      flushScheduled := false;
      FlushIndex();
    }

    // ---- Entries ----

    method Invalidate(key: Key)
      requires Valid()
      modifies this`entries, this`totalBytes, this`store, this`indexDirty, this`pendingIndexWrites, this`flushScheduled
      ensures Valid() && entries == old(entries) - {key}
      ensures key !in old(entries) ==> totalBytes == old(totalBytes)
      ensures key in old(entries) ==> totalBytes == old(totalBytes) - old(entries)[key].size
    {
      if key !in entries {
        assert entries - {key} == entries;
        return;
      }
      BytesWithout(entries, key);
      IndexedLess(entries, tick, key);
      totalBytes := totalBytes - entries[key].size;
      entries := entries - {key};
      MarkIndexDirty();
    }

    /** `entry` was used now: its tick is the one the caller has just drawn. */
    method Put(key: Key, entry: CacheEntry, ghost before: nat)
      requires Indexed(entries, before) && totalBytes == Bytes(entries) + drift && tick == before + 1
      requires entry.uri.file == Final(key, entry.format) && entry.lastUsed == tick
      modifies this`entries, this`totalBytes, this`store, this`indexDirty, this`pendingIndexWrites, this`flushScheduled
      ensures Valid() && entries == old(entries)[key := entry]
    {
      hide Indexed, Bytes;
      LaterTick(entries, before);
      Invalidate(key);
      BytesWith(entries, key, entry);
      assert entries - {key} == entries;
      IndexedMore(old(entries), before, key, entry);
      entries := entries[key := entry];
      assert entries == old(entries)[key := entry];
      totalBytes := totalBytes + entry.size;
      MarkIndexDirty();
    }

    /** A key whose file is there was used now; one whose file is gone is dropped. */
    method Hit(key: Key) returns (uri: Option<Uri>)
      requires Valid()
      modifies this`entries, this`totalBytes, this`tick, this`store, this`indexDirty, this`pendingIndexWrites, this`flushScheduled
      ensures Valid()
      ensures uri == if key in old(entries) && old(entries)[key].uri.file in disk then Some(old(entries)[key].uri) else None
      ensures uri.Some? ==> tick == old(tick) + 1 && entries == old(entries)[key := old(entries)[key].(lastUsed := tick)]
      ensures uri.None? ==> tick == old(tick) && entries == old(entries) - {key}
    {
      hide Indexed, Bytes;
      if key !in entries {
        assert entries - {key} == entries;
        return None;
      }
      UsedEntry(entries, tick, key);
      var entry := entries[key];
      if entry.uri.file in disk {
        tick := tick + 1;
        entries := entries[key := entry.(lastUsed := tick)];
        return Some(entry.uri);
      }
      Invalidate(key);
      return None;
    }

    // ---- Budget ----

    /** The unprotected entry that was used longest ago. */
    method Victim() returns (victim: Option<Key>)
      requires Valid()
      ensures victim.None? ==> AllProtected(entries, leases, pins)
      ensures victim.Some? ==> IsOldest(victim.value, entries, leases, pins)
    {
      hide Protected, Indexed;
      victim := None;
      var rest := entries.Keys;
      while rest != {}
        invariant rest <= entries.Keys
        invariant victim.None? ==> forall key :: key in entries && key !in rest ==> Protected(key, entries[key], leases, pins)
        invariant victim.Some? ==> victim.value in entries && !Protected(victim.value, entries[victim.value], leases, pins)
        invariant victim.Some? ==>
                    forall key :: key in entries && key !in rest && !Protected(key, entries[key], leases, pins) ==>
                      entries[victim.value].lastUsed <= entries[key].lastUsed
        decreases |rest|
      {
        var key :| key in rest;
        rest := rest - {key};
        if !Protected(key, entries[key], leases, pins)
           && (victim.None? || entries[key].lastUsed < entries[victim.value].lastUsed) {
          victim := Some(key);
        }
      }
    }

    method DeleteFile(uri: Uri)
      modifies this`disk
      ensures disk == Without(old(disk), uri.file, stubborn)
    {
      if uri.file !in stubborn {
        disk := disk - {uri.file};
      }
    }

    /** The entry goes, and its file with it, as the `gone` of the entries `whole` went before it. */
    method Evict(victim: Key, ghost whole: Entries, ghost first: Disk, ghost gone: seq<Key>)
      requires Valid() && Indexed(whole, tick) && Over(totalBytes, |entries|, maxBytes, maxEntries)
      requires Evicted(whole, entries, gone, leases, pins, first, disk, stubborn) && IsOldest(victim, entries, leases, pins)
      requires victim in entries
      modifies this`entries, this`totalBytes, this`disk, this`store, this`indexDirty, this`pendingIndexWrites, this`flushScheduled
      ensures Valid() && |entries| == |old(entries)| - 1
      ensures Evicted(whole, entries, gone + [victim], leases, pins, first, disk, stubborn)
      ensures Needed(whole, gone + [victim], totalBytes, |entries|, maxBytes, maxEntries)
    {
      hide *;
      EvictedMore(whole, entries, gone, leases, pins, first, disk, stubborn, victim, tick);
      NeededMore(whole, entries, gone, victim, totalBytes, maxBytes, maxEntries);
      var entry := entries[victim];
      Invalidate(victim);
      DeleteFile(entry.uri);
    }

    lemma {:induction false} IsIndexed()
      requires Valid()
      ensures Indexed(entries, tick)
    {
    }

    /** While a limit is exceeded the oldest unprotected entry goes, and its file with it. */
    method EnforceBudget() returns (ghost evicted: seq<Key>)
      requires Valid()
      modifies this`entries, this`totalBytes, this`disk, this`store, this`indexDirty, this`pendingIndexWrites, this`flushScheduled
      ensures Valid() && Evicted(old(entries), entries, evicted, leases, pins, old(disk), disk, stubborn)
      ensures Needed(old(entries), evicted, totalBytes, |entries|, maxBytes, maxEntries)
      ensures Over(totalBytes, |entries|, maxBytes, maxEntries) ==> AllProtected(entries, leases, pins)
    {
      hide *;
      evicted := [];
      ghost var (whole, before) := (entries, disk);
      IsIndexed();
      NothingEvicted(entries, leases, pins, disk, stubborn);
      NoneNeeded(entries, totalBytes, |entries|, maxBytes, maxEntries);
      while Over(totalBytes, |entries|, maxBytes, maxEntries)
        invariant Valid() && Indexed(whole, tick) && Evicted(whole, entries, evicted, leases, pins, before, disk, stubborn)
        invariant Needed(whole, evicted, totalBytes, |entries|, maxBytes, maxEntries)
        decreases |entries|
      {
        var victim := Victim();
        if victim.None? {
          break;
        }
        OldestIsThere(victim.value, entries, leases, pins);
        Evict(victim.value, whole, before, evicted);
        evicted := evicted + [victim.value];
      }
    }

    // ---- Starting up ----

    /** The stored rows become entries, oldest first; a size counted for a key that is written over stays in the total. */
    method RestoreIndex() returns (ghost evicted: seq<Key>)
      requires Valid()
      modifies this`entries, this`totalBytes, this`tick, this`drift, this`disk, this`store, this`indexDirty,
               this`pendingIndexWrites, this`flushScheduled
      ensures Valid()
      ensures old(hasIndex && store.Rows?) ==>
                var r := Restore(old(entries), old(tick), old(store).rows);
                && tick == r.tick && drift == old(drift) + r.lost
                && Evicted(r.entries, entries, evicted, leases, pins, old(disk), disk, stubborn)
                && (Over(totalBytes, |entries|, maxBytes, maxEntries) ==> AllProtected(entries, leases, pins))
                && (!Over(Bytes(r.entries) + drift, |r.entries|, maxBytes, maxEntries) ==> evicted == [] && entries == r.entries)
      ensures !old(hasIndex && store.Rows?) ==>
                entries == old(entries) && tick == old(tick) && totalBytes == old(totalBytes) && drift == old(drift)
                && disk == old(disk) && store == if hasIndex && old(store).Garbage? then Absent else old(store)
      ensures Shrunk(old(disk), disk) && PartsKept(old(disk), disk)
    {
      hide AllProtected, Bytes, Cleared, Evicted, FilesOf, Indexed, Listed, Lists, Needed, Oldest, Over, PartsKept,
           Protected, Restore, Shrunk;
      evicted := [];
      PartsStay(disk);
      SameShrinks(disk);
      if !hasIndex || store.Absent? {
        return;
      }
      if store.Garbage? {
        store := Absent;
        return;
      }
      var rows := store.rows;
      ghost var (start, began, lost) := (entries, tick, drift);
      assert Indexed(start, began);
      RestoreNone(start, began, rows);
      for i := 0 to |rows|
        invariant Valid() && entries == Restore(start, began, rows[..i]).entries && tick == Restore(start, began, rows[..i]).tick
        invariant drift == lost + Restore(start, began, rows[..i]).lost && store == old(store) && disk == old(disk)
      {
        RestoreStep(start, began, rows, i);
        match rows[i]
        case Bad =>
        case Row(key, format, size) =>
          var entry := CacheEntry(Uri(Final(key, format), 0), size, format, tick + 1);
          RestoredEntry(entries, tick, key, entry);
          ghost var bytes := Bytes(entries) + drift;
          assert totalBytes == bytes;
          drift := drift + if key in entries then entries[key].size else 0;
          entries := entries[key := entry];
          tick := tick + 1;
          totalBytes := totalBytes + size;
      }
      assert rows[..|rows|] == rows;
      assert totalBytes == Bytes(entries) + drift && Indexed(entries, tick);
      evicted := EnforceBudget();
      EvictionKeepsParts(Restore(start, began, rows).entries, entries, tick, evicted, leases, pins, old(disk), disk, stubborn);
      if !Over(Bytes(Restore(start, began, rows).entries) + drift, |Restore(start, began, rows).entries|, maxBytes, maxEntries) {
        NoEviction(Restore(start, began, rows).entries, entries, evicted, leases, pins, old(disk), disk, stubborn, totalBytes, drift,
                   maxBytes, maxEntries);
      }
    }

    /** A failed directory is reported and tried again next time; a restore happens once. */
    method EnsureInitialized(ready: bool) returns (ok: bool, ghost evicted: seq<Key>)
      requires Valid()
      modifies this`entries, this`totalBytes, this`tick, this`drift, this`disk, this`store, this`indexDirty,
               this`pendingIndexWrites, this`flushScheduled, this`initialized
      ensures Valid() && ok == initialized && initialized == (old(initialized) || ready)
      ensures old(initialized) || !ready || !old(hasIndex && store.Rows?) ==>
                entries == old(entries) && tick == old(tick) && drift == old(drift) && disk == old(disk)
      ensures !old(initialized) && ready && old(hasIndex && store.Rows?) ==>
                var r := Restore(old(entries), old(tick), old(store).rows);
                && tick == r.tick && drift == old(drift) + r.lost
                && Evicted(r.entries, entries, evicted, leases, pins, old(disk), disk, stubborn)
      ensures Shrunk(old(disk), disk) && PartsKept(old(disk), disk)
    {
      hide *;
      PartsStay(disk);
      SameShrinks(disk);
      evicted := [];
      if initialized {
        return true, [];
      }
      if !ready {
        return false, [];
      }
      initialized := true;
      evicted := RestoreIndex();
      return true, evicted;
    }

    // ---- Maintenance ----

    /** The directory, in any order and under any spelling, or nothing if it cannot be read. */
    method ListFinalEntries() returns (records: Option<seq<Record>>)
      ensures records.Some? <==> listable
      ensures records.Some? ==> Describes(records.value, disk)
    {
      if !listable {
        return None;
      }
      var list: seq<Record> := [];
      var rest := disk.Keys;
      while rest != {}
        invariant rest <= disk.Keys
        invariant forall i :: 0 <= i < |list| ==>
                    && list[i].uri.file.Final? && list[i].uri.file.key == list[i].key
                    && list[i].uri.file in disk && disk[list[i].uri.file] == list[i].size
        invariant forall file :: file in disk && file !in rest && file.Final? ==>
                    exists i :: 0 <= i < |list| && list[i].uri.file == file
        decreases |rest|
      {
        var file :| file in rest;
        rest := rest - {file};
        if file.Final? {
          var spelling: nat := *;
          ghost var before := list;
          list := list + [Record(file.key, Uri(file, spelling), disk[file])];
          assert list[|before|].uri.file == file;
          assert forall i :: 0 <= i < |before| ==> list[i] == before[i];
        }
      }
      return Some(list);
    }

    method ListPartUris() returns (uris: Option<seq<Uri>>)
      ensures uris.Some? <==> sweepable
      ensures uris.Some? ==> forall i :: 0 <= i < |uris.value| ==> uris.value[i].file.Part?
      ensures uris.Some? ==> forall file :: file in disk && file.Part? ==> exists i :: 0 <= i < |uris.value| && uris.value[i].file == file
    {
      if !sweepable {
        return None;
      }
      var list: seq<Uri> := [];
      var rest := disk.Keys;
      while rest != {}
        invariant rest <= disk.Keys && forall i :: 0 <= i < |list| ==> list[i].file.Part?
        invariant forall file :: file in disk && file !in rest && file.Part? ==> exists i :: 0 <= i < |list| && list[i].file == file
        decreases |rest|
      {
        var file :| file in rest;
        rest := rest - {file};
        if file.Part? {
          var spelling: nat := *;
          ghost var before := list;
          list := list + [Uri(file, spelling)];
          assert list[|before|].file == file;
          assert forall i :: 0 <= i < |before| ==> list[i] == before[i];
        }
      }
      return Some(list);
    }

    /** Partial files of downloads and decodes that are not running any more. */
    method SweepStaleParts()
      modifies this`disk
      ensures if sweepable then Swept(old(disk), disk, inFlightParts, stubborn) else disk == old(disk)
    {
      var uris := ListPartUris();
      if uris.None? {
        return;
      }
      ghost var before := disk;
      for i := 0 to |uris.value|
        invariant forall file :: file in disk ==> file in before && disk[file] == before[file]
        invariant forall file :: file in before && (file.Final? || InFlight(inFlightParts, file) || file in stubborn) ==> file in disk
        invariant forall k :: 0 <= k < i ==>
                    uris.value[k].file !in disk || InFlight(inFlightParts, uris.value[k].file) || uris.value[k].file in stubborn
      {
        if !InFlight(inFlightParts, uris.value[i].file) {
          DeleteFile(uris.value[i]);
        }
      }
      assert Swept(before, disk, inFlightParts, stubborn) by {
        forall file | file in disk && file.Part?
          ensures InFlight(inFlightParts, file) || file in stubborn
        {
          var k :| 0 <= k < |uris.value| && uris.value[k].file == file;
        }
      }
    }

    /** Entries without a file go; the others take over what the directory says of theirs. */
    method AdoptDirectory(files: map<Key, Record>)
      requires Valid()
      requires forall key :: key in files ==> files[key].key == key && files[key].uri.file.Final? && files[key].uri.file.key == key
      modifies this`entries, this`totalBytes, this`store, this`indexDirty, this`pendingIndexWrites, this`flushScheduled
      ensures Valid() && entries == Claims(old(entries), files)
    {
      hide Indexed, Bytes, ClaimOf, Claims, Adopting;
      ghost var before := entries;
      var rest := entries.Keys;
      NoneAdopted(before, files);
      while rest != {}
        invariant Valid() && rest <= entries.Keys && Adopting(before, entries, files, rest)
        decreases |rest|
      {
        var key :| key in rest;
        ghost var now := entries;
        if key !in files {
          Invalidate(key);
        } else {
          AdoptRecord(key, files[key]);
        }
        OneAdopted(before, now, entries, files, rest, key);
        rest := rest - {key};
      }
      AllAdopted(before, entries, files);
    }

    method AdoptRecord(key: Key, record: Record)
      requires Valid() && key in entries && record.key == key && record.uri.file.Final? && record.uri.file.key == key
      modifies this`entries, this`totalBytes, this`store, this`indexDirty, this`pendingIndexWrites, this`flushScheduled
      ensures Valid() && entries == old(entries)[key := ClaimOf(old(entries)[key], record)]
    {
      hide Indexed, Bytes;
      FileOfEntry(entries, tick, key);
      if record.uri != entries[key].uri {
        AdoptedUri(entries, tick, key, record);
        entries := entries[key := entries[key].(uri := record.uri, format := record.uri.file.format)];
        MarkIndexDirty();
      }
      if record.size != entries[key].size {
        AdoptedSize(entries, tick, key, record.size);
        totalBytes := totalBytes + (record.size - entries[key].size);
        entries := entries[key := entries[key].(size := record.size)];
        MarkIndexDirty();
      }
    }

    /** Listed files that no entry claims go, unless someone holds them. */
    method DeleteUnclaimed(files: map<Key, Record>)
      requires forall key :: key in files ==> files[key].key == key && files[key].uri.file.Final? && files[key].uri.file.key == key
      modifies this`disk
      ensures disk == Tidied(old(disk), files, entries, leases, pins, stubborn)
    {
      hide Leased, Pinned;
      ghost var before := disk;
      var rest := files.Keys;
      while rest != {}
        invariant rest <= files.Keys
        invariant forall file ::
                    && (file in disk <==> file in before && (file in stubborn || !Unclaimed(file, files, entries, leases, pins)
                                                             || file.key in rest))
                    && (file in disk ==> disk[file] == before[file])
        decreases |rest|
      {
        var key :| key in rest;
        rest := rest - {key};
        if key !in entries && !Leased(leases, key) && !Pinned(pins, files[key].uri.file) {
          DeleteFile(files[key].uri);
        }
      }
    }

    /**
     * From `start` and `first` the entries listed stayed, as listed, and the files nobody claims went; then the oldest
     * entries went, as far as the budget asks.
     */
    ghost predicate Settled(start: Entries, first: Disk, files: map<Key, Record>, evicted: seq<Key>)
      reads this`entries, this`disk, this`leases, this`pins, this`stubborn, this`totalBytes
    {
      && (forall key :: key in files ==> files[key].uri.file.Final?)
      && (var claimed := Claims(start, files);
          && Evicted(claimed, entries, evicted, leases, pins, Tidied(first, files, claimed, leases, pins, stubborn), disk, stubborn)
          && Needed(claimed, evicted, totalBytes, |entries|, maxBytes, maxEntries))
      && (Over(totalBytes, |entries|, maxBytes, maxEntries) ==> AllProtected(entries, leases, pins))
    }

    /**
     * Index and directory are brought into agreement. `files` is the listing by key: entries become what it says of
     * theirs, or go; files nobody claims go; then the budget is enforced.
     */
    method ReconcileIndexWithDirectory() returns (ghost files: Option<map<Key, Record>>, ghost evicted: seq<Key>)
      requires Valid()
      modifies this`entries, this`totalBytes, this`disk, this`store, this`indexDirty, this`pendingIndexWrites, this`flushScheduled
      ensures Valid() && entries.Keys <= old(entries).Keys && (files.Some? <==> listable)
      ensures files.None? ==> entries == old(entries) && disk == old(disk)
      ensures files.Some? ==>
                && ListingOf(files.value, old(disk)) && Settled(old(entries), old(disk), files.value, evicted)
                && Reconciled(entries, old(disk), disk, files.value, leases, pins, stubborn)
    {
      hide AllProtected, Bytes, Claimed, Claims, Describes, Evicted, Indexed, Leased, Listed, ListingOf, Lists, Needed, OnDisk,
           Over, Pinned, Protected, Reconciled, Shadowed, Tidied, Unclaimed;
      var records := ListFinalEntries();
      files, evicted := None, [];
      if records.None? {
        return;
      }
      var onDisk := OnDisk(records.value);
      files := Some(onDisk);
      ghost var (start, first) := (entries, disk);
      IsIndexed();
      ListingKeys(records.value, first);
      ListedFinals(onDisk, first);
      AdoptDirectory(onDisk);
      DeleteUnclaimed(onDisk);
      evicted := EnforceBudget();
      NowReconciled(onDisk, start, entries, tick, first, disk, evicted, leases, pins, stubborn);
    }

    /** The maintenance of an opened cache. */
    method Maintain() returns (ghost swept: Disk, ghost files: Option<map<Key, Record>>, ghost evicted: seq<Key>)
      requires Valid()
      modifies this`entries, this`totalBytes, this`disk, this`store, this`indexDirty, this`pendingIndexWrites, this`flushScheduled
      ensures Valid() && (files.Some? <==> listable)
      ensures if sweepable then Swept(old(disk), swept, inFlightParts, stubborn) else swept == old(disk)
      ensures files.None? ==> entries == old(entries) && disk == swept
      ensures files.Some? ==>
                && ListingOf(files.value, swept) && Settled(old(entries), swept, files.value, evicted)
                && Reconciled(entries, swept, disk, files.value, leases, pins, stubborn)
                && (OnePerKey(old(disk)) ==> Agreement(entries, disk, leases, pins, stubborn))
      ensures forall file :: file in old(disk) && file.Part? && InFlight(inFlightParts, file) ==> file in disk
    {
      hide *;
      ghost var found := disk;
      SweepStaleParts();
      swept := disk;
      SweepShrinks(found, swept, inFlightParts, stubborn);
      SweepSpares(found, swept, inFlightParts, stubborn);
      files, evicted := ReconcileIndexWithDirectory();
      if files.Some? {
        ReconciledParts(entries, swept, disk, files.value, leases, pins, stubborn);
        if OnePerKey(found) {
          OnePerKeyStays(found, swept);
          ReconciledAgrees(entries, swept, disk, files.value, leases, pins, stubborn);
        }
      }
      FlushIndex();
    }

    /**
     * Once per session. An index not opened yet is restored; partial files not in flight go; then index and directory
     * are brought into agreement, and no image being there in two formats, they agree.
     */
    method Reconcile(ready: bool) returns (ghost round: Round)
      requires Valid()
      modifies this`entries, this`totalBytes, this`tick, this`drift, this`disk, this`store, this`indexDirty,
               this`pendingIndexWrites, this`flushScheduled, this`initialized, this`reconciled
      ensures Valid() && reconciled == (old(reconciled) || old(initialized) || ready)
      ensures old(reconciled) || !reconciled ==> entries == old(entries) && disk == old(disk) && drift == old(drift)
      ensures !old(reconciled) && reconciled ==>
                if !old(initialized) && old(hasIndex && store.Rows?) then
                  var r := Restore(old(entries), old(tick), old(store).rows);
                  && drift == old(drift) + r.lost
                  && Evicted(r.entries, round.entries, round.restored, leases, pins, old(disk), round.found, stubborn)
                else round.entries == old(entries) && round.found == old(disk) && drift == old(drift)
      ensures !old(reconciled) && reconciled ==>
                && (if sweepable then Swept(round.found, round.swept, inFlightParts, stubborn) else round.swept == round.found)
                && (round.files.Some? <==> listable)
                && (round.files.None? ==> entries == round.entries && disk == round.swept)
      ensures !old(reconciled) && reconciled && round.files.Some? ==>
                && ListingOf(round.files.value, round.swept)
                && Settled(round.entries, round.swept, round.files.value, round.evicted)
                && Reconciled(entries, round.swept, disk, round.files.value, leases, pins, stubborn)
                && (OnePerKey(old(disk)) ==> Agreement(entries, disk, leases, pins, stubborn))
      ensures forall file :: file in old(disk) && file.Part? && InFlight(inFlightParts, file) ==> file in disk
    {
      hide *;
      round := Round(entries, [], disk, disk, None, []);
      if reconciled {
        return;
      }
      var ok, restored := EnsureInitialized(ready);
      if !ok {
        return;
      }
      reconciled := true;
      ghost var (start, found) := (entries, disk);
      InFlightStay(old(disk), found, inFlightParts);
      ghost var swept, files, evicted := Maintain();
      round := Round(start, restored, found, swept, files, evicted);
      if OnePerKey(old(disk)) {
        OnePerKeyStays(old(disk), found);
      }
    }

    // ---- Looking up ----

    /** The wanted variant; a legacy image, served directly; or the largest smaller variant in the meantime. */
    method Peek(hash: string, bucket: nat) returns (found: Found)
      requires Valid()
      modifies this`entries, this`totalBytes, this`tick, this`legacyHashes, this`store, this`indexDirty, this`pendingIndexWrites,
               this`flushScheduled
      ensures Valid() && entries.Keys <= old(entries).Keys
      ensures Best(found, hash, bucket, old(entries), old(legacyHashes).Keys, disk)
    {
      hide Indexed, Bytes;
      ghost var (before, legacies) := (entries, legacyHashes.Keys);
      var exact := Hit(Key(hash, bucket));
      if exact.Some? {
        return Exact(exact.value);
      }
      if hash in legacyHashes {
        LaterTick(entries, tick);
        tick := tick + 1;
        legacyHashes := legacyHashes[hash := tick];
        return Legacy;
      }
      ghost var dropped := entries;
      var smaller := PeekSmaller(hash, bucket);
      NarrowerIsBest(smaller, hash, bucket, dropped, before, legacies, disk);
      return smaller;
    }

    /** The ladder, from the widest rung down. */
    method PeekSmaller(hash: string, bucket: nat) returns (found: Found)
      requires Valid()
      modifies this`entries, this`totalBytes, this`tick, this`store, this`indexDirty, this`pendingIndexWrites, this`flushScheduled
      ensures Valid() && entries.Keys <= old(entries).Keys
      ensures Narrower(found, hash, bucket, old(entries), disk)
    {
      hide Indexed, Bytes;
      ghost var before := entries;
      var i: nat := |RUNGS|;
      while 0 < i
        invariant Valid() && 0 <= i <= |RUNGS| && entries.Keys <= before.Keys
        invariant forall k :: 0 <= k < i ==> SameAt(entries, before, Key(hash, RUNGS[k]))
        invariant forall k :: i <= k < |RUNGS| && RUNGS[k] < bucket ==> !Live(before, disk, Key(hash, RUNGS[k]))
      {
        i := i - 1;
        if RUNGS[i] < bucket {
          RungsDistinct(i);
          var smaller := Hit(Key(hash, RUNGS[i]));
          if smaller.Some? {
            return Smaller(RUNGS[i], smaller.value);
          }
        }
      }
      return Missing;
    }

    /** A decoded file the index does not know yet; the budget is not looked at. */
    method AdoptExact(key: Key, sizeReads: bool) returns (uri: Option<Uri>)
      requires Valid()
      modifies this`entries, this`totalBytes, this`tick, this`store, this`indexDirty, this`pendingIndexWrites, this`flushScheduled
      ensures Valid() && (uri.Some? <==> Final(key, Png) in disk || Final(key, Jpeg) in disk)
      ensures uri.Some? ==>
                var format := if Final(key, Png) in disk then Png else Jpeg;
                && uri.value == Uri(Final(key, format), 0) && key in entries && entries[key].uri == uri.value
                && entries[key].lastUsed == tick == old(tick) + 1 && entries[key].size == (if sizeReads then disk[uri.value.file] else 0)
                && entries == old(entries)[key := entries[key]]
      ensures uri.None? ==> entries == old(entries) && tick == old(tick)
    {
      hide Indexed, Bytes;
      if Final(key, Png) !in disk && Final(key, Jpeg) !in disk {
        return None;
      }
      var format := if Final(key, Png) in disk then Png else Jpeg;
      var file := Final(key, format);
      var size := if sizeReads then disk[file] else 0;
      ghost var before := tick;
      tick := tick + 1;
      Put(key, CacheEntry(Uri(file, 0), size, format, tick), before);
      FlushIndex();
      return Some(Uri(file, 0));
    }

    // ---- Downloads and decodes ----

    /** A hit or a legacy image resolves at once; otherwise a download into `part`, a file name made up for it, begins. */
    method BeginFetch(key: Key, part: Uri) returns (found: Found)
      requires Valid() && part.file.Part? && part.file !in disk && !InFlight(inFlightParts, part.file)
      modifies this`entries, this`totalBytes, this`tick, this`legacyHashes, this`inFlightParts, this`store, this`indexDirty,
               this`pendingIndexWrites, this`flushScheduled
      ensures Valid() && (found.Exact? <==> Live(old(entries), disk, key))
      ensures found.Exact? ==> found.uri == old(entries)[key].uri && entries == old(entries)[key := old(entries)[key].(lastUsed := tick)]
      ensures !found.Exact? ==> entries == old(entries) - {key}
      ensures found.Legacy? <==> !found.Exact? && key.hash in old(legacyHashes)
      ensures inFlightParts == old(inFlightParts) + if found.Missing? then {part} else {}
      ensures found.Exact? || found.Legacy? || found.Missing?
    {
      hide Indexed, Bytes;
      var existing := Hit(key);
      if existing.Some? {
        return Exact(existing.value);
      }
      if key.hash in legacyHashes {
        LaterTick(entries, tick);
        tick := tick + 1;
        legacyHashes := legacyHashes[key.hash := tick];
        return Legacy;
      }
      inFlightParts := inFlightParts + {part};
      return Missing;
    }

    /**
     * The download ends, having written `written` bytes if any; only an FRC-I image is kept for its decode. It is marked
     * as kept before its size is read: where that fails nobody is told of it, and it stays in flight.
     */
    method EndFetch(key: Key, part: Uri, written: Option<nat>, sniffed: Sniffed, sizeReads: bool) returns (pending: bool)
      requires Valid() && part in inFlightParts && part.file.Part? && (sniffed.FrcI? ==> written.Some?)
      modifies this`tick, this`legacyHashes, this`inFlightParts, this`disk
      ensures Valid() && (pending <==> sniffed.FrcI? && sizeReads)
      ensures sniffed.FrcI? ==> inFlightParts == old(inFlightParts) && part.file in disk && disk[part.file] == written.value
      ensures !sniffed.FrcI? ==>
                && inFlightParts == old(inFlightParts) - {part}
                && (part.file in disk <==> part.file in stubborn && (written.Some? || part.file in old(disk)))
      ensures !pending && part in inFlightParts <==> sniffed.FrcI? && !sizeReads
      ensures forall file :: file != part.file ==> (file in disk <==> file in old(disk)) && (file in disk ==> disk[file] == old(disk)[file])
      ensures !sniffed.LegacyImage? ==> legacyHashes == old(legacyHashes)
      ensures sniffed.LegacyImage? ==> |legacyHashes| <= Most(|old(legacyHashes)|, MAX_LEGACY)
    {
      hide Indexed, Bytes;
      if written.Some? {
        disk := disk[part.file := written.value];
      }
      if sniffed.FrcI? {
        return sizeReads;
      }
      if sniffed.LegacyImage? {
        RememberLegacy(key.hash);
      }
      inFlightParts := inFlightParts - {part};
      if part.file in disk {
        DeleteFile(part);
      }
      return false;
    }

    method OldestLegacy() returns (victim: string)
      requires legacyHashes != map[]
      ensures victim in legacyHashes && forall other :: other in legacyHashes ==> legacyHashes[victim] <= legacyHashes[other]
    {
      var rest := legacyHashes.Keys;
      assert rest != {};
      victim :| victim in rest;
      rest := rest - {victim};
      while rest != {}
        invariant rest <= legacyHashes.Keys && victim in legacyHashes
        invariant forall other :: other in legacyHashes && other !in rest ==> legacyHashes[victim] <= legacyHashes[other]
        decreases |rest|
      {
        var candidate :| candidate in rest;
        rest := rest - {candidate};
        if legacyHashes[candidate] < legacyHashes[victim] {
          victim := candidate;
        }
      }
    }

    /** The least recently used legacy image makes room. */
    method RememberLegacy(hash: string)
      requires Valid()
      modifies this`tick, this`legacyHashes
      ensures Valid() && |legacyHashes| <= Most(|old(legacyHashes)|, MAX_LEGACY)
      ensures legacyHashes.Keys <= old(legacyHashes).Keys + {hash}
      ensures forall kept, gone :: kept in legacyHashes && gone in old(legacyHashes).Keys + {hash} - legacyHashes.Keys ==>
                (old(legacyHashes)[hash := tick])[gone] <= (old(legacyHashes)[hash := tick])[kept]
    {
      LaterTick(entries, tick);
      hide Indexed, Bytes;
      tick := tick + 1;
      ghost var before := legacyHashes;
      legacyHashes := legacyHashes[hash := tick];
      ghost var all := legacyHashes;
      OneMoreHash(before, hash, tick);
      if |legacyHashes| <= MAX_LEGACY {
        return;
      }
      var victim := OldestLegacy();
      OneHashFewer(legacyHashes, victim);
      legacyHashes := legacyHashes - {victim};
    }

    /** A pending download leaves the cache's care, whether decoded or not. */
    method DiscardFetched(part: Uri)
      requires Valid()
      modifies this`inFlightParts, this`disk
      ensures Valid() && inFlightParts == old(inFlightParts) - {part}
      ensures disk == Without(old(disk), part.file, stubborn)
    {
      inFlightParts := inFlightParts - {part};
      if part.file in disk {
        DeleteFile(part);
      } else {
        assert disk - {part.file} == disk;
      }
    }

    /** A decode that found its image there already ends before it began; otherwise it writes into `out`. */
    method BeginDecode(key: Key, part: Uri, out: Uri) returns (existing: Option<Uri>)
      requires Valid() && part in inFlightParts && part.file.Part? && out.file.Part? && out.file !in disk
      requires !InFlight(inFlightParts, out.file)
      modifies this`entries, this`totalBytes, this`tick, this`inFlightParts, this`disk, this`store, this`indexDirty,
               this`pendingIndexWrites, this`flushScheduled
      ensures Valid()
      ensures existing == if Live(old(entries), old(disk), key) then Some(old(entries)[key].uri) else None
      ensures existing.Some? ==> inFlightParts == old(inFlightParts) - {part} && disk == Without(old(disk), part.file, stubborn)
      ensures existing.None? ==> inFlightParts == old(inFlightParts) + {out} && disk == old(disk) && entries == old(entries) - {key}
    {
      hide Indexed, Bytes;
      existing := Hit(key);
      if existing.Some? {
        DiscardFetched(part);
        return;
      }
      inFlightParts := inFlightParts + {out};
    }

    /**
     * A decode ends, having written `written` bytes if any. An image replaces the file of its name, is indexed, and the
     * budget is enforced. Where the move fails the file it was to replace is gone already; where the size of the moved
     * file cannot be read it is not indexed. Neither partial file is in the cache's care any more.
     */
    method EndDecode(key: Key, part: Uri, out: Uri, decoded: Option<Format>, written: Option<nat>, moves: bool, sizeReads: bool)
      returns (outcome: Publication, ghost evicted: seq<Key>)
      requires Valid() && part.file.Part? && out.file.Part? && part.file != out.file && out.file !in disk
      requires decoded.Some? ==> written.Some?
      modifies this`entries, this`totalBytes, this`tick, this`legacyHashes, this`inFlightParts, this`disk, this`store, this`indexDirty,
               this`pendingIndexWrites, this`flushScheduled
      ensures Valid() && inFlightParts == old(inFlightParts) - {out} - {part}
      ensures outcome == if decoded.None? || !moves || Refuses(Final(key, decoded.value), old(disk), stubborn) then Unpublished
                         else if sizeReads then Published else Unindexed
      ensures out.file in disk <==> written.Some? && outcome.Unpublished? && out.file in stubborn
      ensures part.file in disk <==> part.file in old(disk) && part.file in stubborn
      ensures !outcome.Published? ==>
                && entries == old(entries) && totalBytes == old(totalBytes) && tick == old(tick) && legacyHashes == old(legacyHashes)
                && FinalsSave(old(disk), disk, if decoded.Some? then Some(Final(key, decoded.value)) else None)
      ensures outcome.Unindexed? ==> Final(key, decoded.value) in disk && disk[Final(key, decoded.value)] == written.value
      ensures outcome.Unpublished? && decoded.Some? ==>
                var file := Final(key, decoded.value);
                (file in disk <==> file in old(disk) && file in stubborn) && (file in disk ==> disk[file] == old(disk)[file])
      ensures outcome.Published? ==>
                var file := Final(key, decoded.value);
                var put := old(entries)[key := CacheEntry(Uri(file, 0), written.value, decoded.value, tick)];
                && tick == old(tick) + 1 && legacyHashes == old(legacyHashes) - {key.hash}
                && Oldest(put, evicted, leases, pins) && entries == put - Keys(evicted)
                && Needed(put, evicted, totalBytes, |entries|, maxBytes, maxEntries)
                && (Over(totalBytes, |entries|, maxBytes, maxEntries) ==> AllProtected(entries, leases, pins))
                && FinalsCleared(old(disk)[file := written.value], disk, FilesOf(put, evicted), stubborn)
    {
      hide *;
      outcome, evicted := Unpublished, [];
      ghost var (before, start) := (disk, entries);
      if written.Some? {
        disk := disk[out.file := written.value];
      }
      ghost var full := disk;
      if decoded.Some? {
        outcome, evicted := PublishImage(key, out, decoded.value, moves, sizeReads);
        RefusedAlike(before, out.file, written.value, Final(key, decoded.value), stubborn);
      }
      ghost var ended := disk;
      RemoveParts(part, out);
      if !outcome.Published? {
        ghost var file := if decoded.Some? then Some(Final(key, decoded.value)) else None;
        NothingPublished(before, full, ended, disk, out.file, part.file, written, file, outcome, stubborn);
      } else {
        ghost var file := Final(key, decoded.value);
        ghost var put := start[key := CacheEntry(Uri(file, 0), written.value, decoded.value, tick)];
        EvictionClears(put, entries, evicted, leases, pins, Moved(full, out.file, file), ended, stubborn);
        ImagePublished(before, full, ended, disk, out.file, part.file, written.value, file, FilesOf(put, evicted), stubborn);
      }
    }

    /** The partial files of a decode leave the cache's care. */
    method RemoveParts(part: Uri, out: Uri)
      requires Valid() && part.file.Part? && out.file.Part? && part.file != out.file
      modifies this`inFlightParts, this`disk
      ensures Valid() && inFlightParts == old(inFlightParts) - {out} - {part}
      ensures disk == Without(Without(old(disk), out.file, stubborn), part.file, stubborn)
    {
      hide Indexed, Bytes;
      inFlightParts := inFlightParts - {out};
      if out.file in disk {
        DeleteFile(out);
      } else {
        assert disk - {out.file} == disk;
      }
      DiscardFetched(part);
    }

    /** The image in `out` is moved under its final name and indexed. */
    method PublishImage(key: Key, out: Uri, format: Format, moves: bool, sizeReads: bool)
      returns (outcome: Publication, ghost evicted: seq<Key>)
      requires Valid() && out.file.Part? && out.file in disk
      modifies this`entries, this`totalBytes, this`tick, this`legacyHashes, this`disk, this`store, this`indexDirty,
               this`pendingIndexWrites, this`flushScheduled
      ensures Valid()
      ensures outcome == if !moves || Refuses(Final(key, format), old(disk), stubborn) then Unpublished
                         else if sizeReads then Published else Unindexed
      ensures !outcome.Published? ==>
                && entries == old(entries) && totalBytes == old(totalBytes) && tick == old(tick) && legacyHashes == old(legacyHashes)
                && disk == if outcome.Unindexed? then Moved(old(disk), out.file, Final(key, format))
                           else Without(old(disk), Final(key, format), stubborn)
      ensures outcome.Published? ==>
                var put := old(entries)[key := CacheEntry(Uri(Final(key, format), 0), old(disk)[out.file], format, tick)];
                && tick == old(tick) + 1 && legacyHashes == old(legacyHashes) - {key.hash}
                && Evicted(put, entries, evicted, leases, pins, Moved(old(disk), out.file, Final(key, format)), disk, stubborn)
                && Needed(put, evicted, totalBytes, |entries|, maxBytes, maxEntries)
                && (Over(totalBytes, |entries|, maxBytes, maxEntries) ==> AllProtected(entries, leases, pins))
                && PartsKept(Moved(old(disk), out.file, Final(key, format)), disk)
    {
      hide *;
      evicted := [];
      var file := Final(key, format);
      var size := disk[out.file];
      var moved := Replace(out.file, file, moves);
      if !moved {
        return Unpublished, [];
      }
      if !sizeReads {
        return Unindexed, [];
      }
      evicted := IndexImage(key, file, format, size);
      outcome := Published;
    }

    /** The move under the final name, after whatever has that name is deleted. */
    method Replace(from: File, file: File, moves: bool) returns (moved: bool)
      requires from.Part? && file.Final? && from in disk
      modifies this`disk
      ensures moved <==> moves && !Refuses(file, old(disk), stubborn)
      ensures moved ==> disk == Moved(old(disk), from, file)
      ensures !moved ==> disk == Without(old(disk), file, stubborn)
    {
      if Refuses(file, disk, stubborn) {
        return false;
      }
      ghost var before := disk;
      disk := disk - {file};
      if !moves {
        assert file in stubborn ==> disk == before;
        return false;
      }
      disk := (disk - {from})[file := disk[from]];
      assert disk == (before - {from})[file := before[from]];
      return true;
    }

    /** The image now under its final name is used now, and the budget is enforced. */
    method IndexImage(key: Key, file: File, format: Format, size: nat) returns (ghost evicted: seq<Key>)
      requires Valid() && file == Final(key, format)
      modifies this`entries, this`totalBytes, this`tick, this`legacyHashes, this`disk, this`store, this`indexDirty,
               this`pendingIndexWrites, this`flushScheduled
      ensures Valid() && tick == old(tick) + 1 && legacyHashes == old(legacyHashes) - {key.hash}
      ensures var put := old(entries)[key := CacheEntry(Uri(file, 0), size, format, tick)];
              && Evicted(put, entries, evicted, leases, pins, old(disk), disk, stubborn)
              && Needed(put, evicted, totalBytes, |entries|, maxBytes, maxEntries)
      ensures Over(totalBytes, |entries|, maxBytes, maxEntries) ==> AllProtected(entries, leases, pins)
      ensures PartsKept(old(disk), disk)
    {
      hide AllProtected, Bytes, Claimed, Evicted, Indexed, Listed, Lists, Needed, Over, PartsKept, Protected;
      ghost var before := tick;
      tick := tick + 1;
      Put(key, CacheEntry(Uri(file, 0), size, format, tick), before);
      legacyHashes := legacyHashes - {key.hash};
      ghost var (put, moved) := (entries, disk);
      IsIndexed();
      evicted := EnforceBudget();
      EvictionKeepsParts(put, entries, tick, evicted, leases, pins, moved, disk, stubborn);
    }
  }

  lemma {:induction false} NothingYet(entries: Entries, parts: set<Uri>, key: Key, disk: Disk)
    requires entries == map[] && parts == {}
    ensures !Live(entries, disk, key) && entries - {key} == map[] && forall file :: !InFlight(parts, file)
  {
  }

  lemma {:induction false} OneInFlight(parts: set<Uri>, part: Uri, file: File)
    requires parts == {part} && file != part.file
    ensures !InFlight(parts, file)
  {
  }

  lemma {:induction false} Flying(parts: set<Uri>, part: Uri)
    requires part in parts
    ensures InFlight(parts, part.file)
  {
  }

  /** A download whose size cannot be read belongs to nobody, and maintenance spares it because it is in flight. */
  method LeakedDownload(key: Key, part: Uri, bytes: nat) returns (cache: FrcImageCache, pending: bool)
    requires part.file.Part?
    ensures cache.Valid() && cache.reconciled && !pending
    ensures part in cache.inFlightParts && part.file in cache.disk && part.file !in cache.stubborn
  {
    hide *;
    cache := new FrcImageCache(1000, 10, false, Absent, map[]);
    NothingYet(cache.entries, cache.inFlightParts, key, cache.disk);
    var found := cache.BeginFetch(key, part);
    pending := cache.EndFetch(key, part, Some(bytes), FrcI, false);
    Flying(cache.inFlightParts, part);
    ghost var round := cache.Reconcile(true);
  }

  /** A decode whose move fails has deleted the image it was to replace. */
  method LostImage(key: Key, part: Uri, out: Uri, bytes: nat, image: nat) returns (cache: FrcImageCache, outcome: Publication)
    requires part.file.Part? && out.file.Part? && part.file != out.file
    ensures cache.Valid() && outcome == Unpublished && Final(key, Png) !in cache.disk && cache.entries == map[]
  {
    hide *;
    cache := new FrcImageCache(1000, 10, false, Absent, map[Final(key, Png) := image]);
    NothingYet(cache.entries, cache.inFlightParts, key, cache.disk);
    var found := cache.BeginFetch(key, part);
    var pending := cache.EndFetch(key, part, Some(bytes), FrcI, true);
    OneInFlight(cache.inFlightParts, part, out.file);
    NothingYet(cache.entries, {}, key, cache.disk);
    var existing := cache.BeginDecode(key, part, out);
    ghost var evicted;
    outcome, evicted := cache.EndDecode(key, part, out, Some(Png), Some(image), false, true);
  }

  lemma {:induction false} OldestIsThere(victim: Key, entries: Entries, leases: map<Key, nat>, pins: map<Uri, nat>)
    requires IsOldest(victim, entries, leases, pins)
    ensures victim in entries
  {
  }

  lemma {:induction false} FileOfEntry(entries: Entries, tick: nat, key: Key)
    requires Indexed(entries, tick) && key in entries
    ensures entries[key].uri.file == Final(key, entries[key].format)
  {
  }

  lemma {:induction false} LaterTick(entries: Entries, tick: nat)
    requires Indexed(entries, tick)
    ensures Indexed(entries, tick + 1)
  {
  }

  /** Using an entry moves no bytes. */
  lemma {:induction false} UsedEntry(entries: Entries, tick: nat, key: Key)
    requires Indexed(entries, tick) && key in entries
    ensures var used := entries[key := entries[key].(lastUsed := tick + 1)];
            Indexed(used, tick + 1) && Bytes(used) == Bytes(entries)
  {
    var entry := entries[key].(lastUsed := tick + 1);
    IndexedMore(entries, tick, key, entry);
    BytesWith(entries, key, entry);
    BytesWithout(entries, key);
  }

  /** The rows written so far, and the entries still to write: all of them used later than those. */
  ghost predicate Listed(rows: seq<Row>, rest: Entries, entries: Entries) {
    && rest.Keys <= entries.Keys && (forall key :: key in rest ==> rest[key] == entries[key])
    && |rows| + |rest| == |entries|
    && (forall i :: 0 <= i < |rows| ==>
          rows[i].Row? && rows[i].key in entries
          && rows[i].format == entries[rows[i].key].format && rows[i].size == entries[rows[i].key].size)
    && (forall i, j :: 0 <= i < j < |rows| ==> entries[rows[i].key].lastUsed < entries[rows[j].key].lastUsed)
    && (forall i, key :: 0 <= i < |rows| && key in rest ==> entries[rows[i].key].lastUsed < entries[key].lastUsed)
  }

  lemma {:induction false} NoneListed(entries: Entries)
    ensures Listed([], entries, entries)
  {
  }

  lemma {:induction false} RestIsPart(rows: seq<Row>, rest: Entries, entries: Entries)
    requires Listed(rows, rest, entries)
    ensures rest.Keys <= entries.Keys && forall key :: key in rest ==> rest[key] == entries[key]
  {
  }

  lemma {:induction false} ListedMore(rows: seq<Row>, rest: Entries, entries: Entries, oldest: Key)
    requires rows != [] && Listed(rows[..|rows| - 1], rest, entries) && oldest in rest
    requires rows[|rows| - 1] == Row(oldest, rest[oldest].format, rest[oldest].size)
    requires forall key :: key in rest && key != oldest ==> rest[oldest].lastUsed < rest[key].lastUsed
    ensures Listed(rows, rest - {oldest}, entries) && |rest - {oldest}| < |rest|
  {
    var (before, fewer) := (rows[..|rows| - 1], rest - {oldest});
    assert fewer.Keys == rest.Keys - {oldest} && |fewer.Keys| == |fewer| && |rest.Keys| == |rest|;
    RowsGrow(rows, before, rest, entries, oldest);
  }

  lemma {:induction false} RowsGrow(rows: seq<Row>, before: seq<Row>, rest: Entries, entries: Entries, oldest: Key)
    requires rows != [] && before == rows[..|rows| - 1] && oldest in rest && Listed(before, rest, entries)
    requires rows[|rows| - 1] == Row(oldest, rest[oldest].format, rest[oldest].size)
    requires forall key :: key in rest && key != oldest ==> rest[oldest].lastUsed < rest[key].lastUsed
    ensures forall i :: 0 <= i < |rows| ==>
              rows[i].Row? && rows[i].key in entries
              && rows[i].format == entries[rows[i].key].format && rows[i].size == entries[rows[i].key].size
    ensures forall i, j :: 0 <= i < j < |rows| ==> entries[rows[i].key].lastUsed < entries[rows[j].key].lastUsed
    ensures forall i, key :: 0 <= i < |rows| && key in rest && key != oldest ==> entries[rows[i].key].lastUsed < entries[key].lastUsed
  {
    var n := |before|;
    assert rows == before + [rows[n]];
  }

  lemma {:induction false} AllListed(rows: seq<Row>, entries: Entries)
    requires Listed(rows, map[], entries)
    ensures Lists(rows, entries)
  {
  }

  lemma {:induction false} RestoreNone(entries: Entries, tick: nat, rows: seq<Row>)
    ensures Restore(entries, tick, rows[..0]) == Restored(entries, tick, 0)
  {
  }

  /** Within the limits nothing is evicted: whatever was evicted last was not needed. */
  lemma {:induction false} NoEviction(before: Entries, after: Entries, evicted: seq<Key>, leases: map<Key, nat>, pins: map<Uri, nat>,
                                      disk: Disk, left: Disk, stubborn: set<File>, total: int, drift: nat,
                                      maxBytes: nat, maxEntries: nat)
    requires Evicted(before, after, evicted, leases, pins, disk, left, stubborn) && total == Bytes(after) + drift
    requires Needed(before, evicted, total, |after|, maxBytes, maxEntries)
    requires !Over(Bytes(before) + drift, |before|, maxBytes, maxEntries)
    ensures evicted == [] && after == before
  {
    hide Bytes, Cleared, Evicted, FilesOf, Oldest;
    if evicted == [] {
      NoneGone(before, after, leases, pins, disk, left, stubborn);
    } else {
      LastGone(before, after, evicted, leases, pins, disk, left, stubborn);
      KeptFits(before, after, evicted[|evicted| - 1]);
    }
  }

  lemma {:induction false} KeptFits(before: Entries, after: Entries, last: Key)
    requires after.Keys <= before.Keys && forall key :: key in after ==> after[key] == before[key]
    requires last in before && last !in after
    ensures Bytes(after) + before[last].size <= Bytes(before) && |after| + 1 <= |before|
  {
    hide Bytes;
    var kept := after[last := before[last]];
    SubBytes(kept, before);
    BytesWith(after, last, before[last]);
    assert after - {last} == after;
    assert kept.Keys == after.Keys + {last};
    MoreEntries(kept, before);
    assert |kept| == |kept.Keys| && |after| == |after.Keys|;
  }

  lemma {:induction false} NoneGone(before: Entries, after: Entries, leases: map<Key, nat>, pins: map<Uri, nat>, disk: Disk, left: Disk,
                                    stubborn: set<File>)
    requires Evicted(before, after, [], leases, pins, disk, left, stubborn)
    ensures after == before
  {
    hide Oldest, Cleared;
    assert Keys([]) == {};
  }

  lemma {:induction false} LastGone(before: Entries, after: Entries, evicted: seq<Key>, leases: map<Key, nat>, pins: map<Uri, nat>,
                                    disk: Disk, left: Disk, stubborn: set<File>)
    requires Evicted(before, after, evicted, leases, pins, disk, left, stubborn) && evicted != []
    ensures evicted[|evicted| - 1] in before && evicted[|evicted| - 1] !in after
    ensures after.Keys <= before.Keys && forall key :: key in after ==> after[key] == before[key]
  {
    hide Cleared, Protected;
    assert evicted[|evicted| - 1] in Keys(evicted);
  }

  lemma {:induction false} MoreEntries(a: Entries, b: Entries)
    requires a.Keys <= b.Keys
    ensures |a| <= |b|
  {
    var rest := b.Keys - a.Keys;
    assert b.Keys == a.Keys + rest;
    assert |a.Keys| == |a| && |b.Keys| == |b|;
  }

  lemma {:induction false} SubBytes(a: Entries, b: Entries)
    requires a.Keys <= b.Keys && forall key :: key in a ==> a[key] == b[key]
    ensures Bytes(a) <= Bytes(b)
    decreases |b|
  {
    var extra := b.Keys - a.Keys;
    if extra == {} {
      assert a.Keys == b.Keys;
      assert a == b;
    } else {
      var key :| key in extra;
      BytesWithout(b, key);
      OneFewer(b, key);
      SubBytes(a, b - {key});
    }
  }

  /** Adopting another spelling of its file, or another format, moves no bytes. */
  lemma {:induction false} AdoptedUri(entries: Entries, tick: nat, key: Key, record: Record)
    requires Indexed(entries, tick) && key in entries && record.uri.file.Final? && record.uri.file.key == key
    ensures var adopted := entries[key := entries[key].(uri := record.uri, format := record.uri.file.format)];
            Indexed(adopted, tick) && Bytes(adopted) == Bytes(entries)
  {
    BytesWith(entries, key, entries[key].(uri := record.uri, format := record.uri.file.format));
    BytesWithout(entries, key);
    hide Bytes;
  }

  lemma {:induction false} AdoptedSize(entries: Entries, tick: nat, key: Key, size: nat)
    requires Indexed(entries, tick) && key in entries
    ensures var adopted := entries[key := entries[key].(size := size)];
            Indexed(adopted, tick) && Bytes(adopted) == Bytes(entries) + size - entries[key].size
  {
    BytesWith(entries, key, entries[key].(size := size));
    BytesWithout(entries, key);
    hide Bytes;
  }

  const RUNGS: seq<nat> := [128, 256, 384, 512, 768, 1024, 2048]

  lemma {:induction false} RungsDistinct(i: nat)
    requires i < |RUNGS|
    ensures forall k :: 0 <= k < i ==> RUNGS[k] < RUNGS[i]
    ensures RUNGS[i] !in RUNGS[..i]
  {
  }

  datatype Found = Exact(uri: Uri) | Legacy | Smaller(rung: nat, uri: Uri) | Missing

  /** The index knows the key, and its file is there. */
  predicate Live(entries: Entries, disk: Disk, key: Key) {
    key in entries && entries[key].uri.file in disk
  }

  predicate SameAt(a: Entries, b: Entries, key: Key) {
    (key in a <==> key in b) && (key in a ==> a[key] == b[key])
  }

  /** The widest live variant below the bucket, if there is one. */
  ghost predicate Narrower(found: Found, hash: string, bucket: nat, entries: Entries, disk: Disk) {
    match found
    case Smaller(rung, uri) =>
      && rung in RUNGS && rung < bucket && Live(entries, disk, Key(hash, rung)) && entries[Key(hash, rung)].uri == uri
      && (forall k :: 0 <= k < |RUNGS| && rung < RUNGS[k] < bucket ==> !Live(entries, disk, Key(hash, RUNGS[k])))
    case Missing => forall k :: 0 <= k < |RUNGS| && RUNGS[k] < bucket ==> !Live(entries, disk, Key(hash, RUNGS[k]))
    case _ => false
  }

  /** What a lookup owes its caller. */
  ghost predicate Best(found: Found, hash: string, bucket: nat, entries: Entries, legacies: set<string>, disk: Disk) {
    var wanted := Key(hash, bucket);
    match found
    case Exact(uri) => Live(entries, disk, wanted) && entries[wanted].uri == uri
    case Legacy => !Live(entries, disk, wanted) && hash in legacies
    case _ => !Live(entries, disk, wanted) && hash !in legacies && Narrower(found, hash, bucket, entries, disk)
  }

  /** Dropping the wanted key, whose file is gone, does not matter to the narrower ones. */
  lemma {:induction false} NarrowerIsBest(found: Found, hash: string, bucket: nat, dropped: Entries, entries: Entries, legacies: set<string>,
                                          disk: Disk)
    requires Narrower(found, hash, bucket, dropped, disk) && dropped == entries - {Key(hash, bucket)}
    requires !Live(entries, disk, Key(hash, bucket)) && hash !in legacies
    ensures Best(found, hash, bucket, entries, legacies, disk)
  {
    forall k | 0 <= k < |RUNGS| && RUNGS[k] < bucket
      ensures Live(entries, disk, Key(hash, RUNGS[k])) <==> Live(dropped, disk, Key(hash, RUNGS[k]))
    {
      assert Key(hash, RUNGS[k]) != Key(hash, bucket);
    }
  }

  /** Half way through the entries: those of `rest` are as they were, the others are as listed, or gone. */
  ghost predicate Adopting(before: Entries, now: Entries, files: map<Key, Record>, rest: set<Key>)
    requires forall key :: key in files ==> files[key].uri.file.Final?
  {
    && rest <= now.Keys <= before.Keys && (forall key :: key in rest ==> now[key] == before[key])
    && (forall key :: key in now && key !in rest ==> key in files && now[key] == ClaimOf(before[key], files[key]))
    && (forall key :: key in before && key in files ==> key in now)
  }

  lemma {:induction false} NoneAdopted(before: Entries, files: map<Key, Record>)
    requires forall key :: key in files ==> files[key].uri.file.Final?
    ensures Adopting(before, before, files, before.Keys)
  {
  }

  lemma {:induction false} OneAdopted(before: Entries, now: Entries, next: Entries, files: map<Key, Record>, rest: set<Key>, key: Key)
    requires forall k :: k in files ==> files[k].uri.file.Final?
    requires Adopting(before, now, files, rest) && key in rest && key in now
    requires next == if key in files then now[key := ClaimOf(now[key], files[key])] else now - {key}
    ensures Adopting(before, next, files, rest - {key})
    ensures rest - {key} <= next.Keys
  {
    hide ClaimOf;
  }

  lemma {:induction false} AllAdopted(before: Entries, now: Entries, files: map<Key, Record>)
    requires forall key :: key in files ==> files[key].uri.file.Final?
    requires Adopting(before, now, files, {})
    ensures now == Claims(before, files)
  {
    hide ClaimOf;
  }

  /** What a reconciliation went by: the index and the disk it found, the disk swept, and the listing. */
  datatype Round = Round(entries: Entries, restored: seq<Key>, found: Disk, swept: Disk, files: Option<map<Key, Record>>,
                         evicted: seq<Key>)

  lemma {:induction false} ListedFinals(files: map<Key, Record>, disk: Disk)
    requires ListingOf(files, disk)
    ensures forall key :: key in files ==> files[key].key == key && files[key].uri.file.Final? && files[key].uri.file.key == key
  {
  }

  lemma {:induction false} SweepShrinks(before: Disk, after: Disk, parts: set<Uri>, stubborn: set<File>)
    requires after == before || Swept(before, after, parts, stubborn)
    ensures Shrunk(before, after)
  {
    if after != before {
      SweptShrinks(before, after, parts, stubborn);
    }
  }

  ghost predicate PartsKept(before: Disk, after: Disk) {
    forall file: File :: file.Part? ==> (file in before <==> file in after)
  }

  lemma {:induction false} SameShrinks(disk: Disk)
    ensures Shrunk(disk, disk)
  {
  }

  lemma {:induction false} PartsStay(disk: Disk)
    ensures PartsKept(disk, disk)
  {
  }

  lemma {:induction false} EvictionKeepsParts(before: Entries, after: Entries, tick: nat, evicted: seq<Key>, leases: map<Key, nat>,
                                              pins: map<Uri, nat>, disk: Disk, left: Disk, stubborn: set<File>)
    requires Indexed(before, tick) && Evicted(before, after, evicted, leases, pins, disk, left, stubborn)
    ensures PartsKept(disk, left) && Shrunk(disk, left)
  {
    EvictedFiles(before, after, tick, evicted, leases, pins, disk, left, stubborn);
    hide Evicted, Indexed;
  }

  lemma {:induction false} InFlightStay(before: Disk, after: Disk, parts: set<Uri>)
    requires PartsKept(before, after)
    ensures forall file :: file in before && file.Part? && InFlight(parts, file) ==> file in after
  {
  }

  lemma {:induction false} SweepSpares(before: Disk, after: Disk, parts: set<Uri>, stubborn: set<File>)
    requires after == before || Swept(before, after, parts, stubborn)
    ensures forall file :: file in before && InFlight(parts, file) ==> file in after
  {
    hide InFlight;
  }

  lemma {:induction false} ReconciledParts(entries: Entries, before: Disk, after: Disk, files: map<Key, Record>, leases: map<Key, nat>,
                                           pins: map<Uri, nat>, stubborn: set<File>)
    requires Reconciled(entries, before, after, files, leases, pins, stubborn)
    ensures forall file :: file in before && file.Part? ==> file in after
  {
    hide Leased, Pinned, Shadowed;
  }

  datatype Publication = Published | Unindexed | Unpublished

  /** A file of that name is in the way and cannot be deleted. */
  predicate Refuses(file: File, disk: Disk, stubborn: set<File>) {
    file in disk && file in stubborn
  }

  /** The images are what they were, but for that of one name. */
  ghost predicate FinalsSave(before: Disk, after: Disk, changed: Option<File>) {
    forall file: File :: file.Final? && changed != Some(file) ==> SameFile(before, after, file)
  }

  predicate SameFile(before: Disk, after: Disk, file: File) {
    (file in before <==> file in after) && (file in before ==> before[file] == after[file])
  }

  ghost function Moved(disk: Disk, from: File, file: File): (after: Disk)
    requires from in disk
  {
    (disk - {from})[file := disk[from]]
  }

  lemma {:induction false} EvictionClears(before: Entries, after: Entries, evicted: seq<Key>, leases: map<Key, nat>, pins: map<Uri, nat>,
                                          disk: Disk, left: Disk, stubborn: set<File>)
    requires Evicted(before, after, evicted, leases, pins, disk, left, stubborn)
    ensures Oldest(before, evicted, leases, pins) && after == before - Keys(evicted)
    ensures forall i :: 0 <= i < |evicted| ==> evicted[i] in before
    ensures FinalsCleared(disk, left, FilesOf(before, evicted), stubborn)
  {
    hide Keys, FilesOf, Protected;
  }

  lemma {:induction false} RefusedAlike(before: Disk, out: File, size: nat, file: File, stubborn: set<File>)
    requires out.Part? && file.Final?
    ensures Refuses(file, before, stubborn) <==> Refuses(file, before[out := size], stubborn)
  {
  }

  lemma {:induction false} NothingPublished(before: Disk, full: Disk, ended: Disk, left: Disk, out: File, part: File, written: Option<nat>,
                                            file: Option<File>, outcome: Publication, stubborn: set<File>)
    requires out.Part? && part.Part? && part != out && out !in before && (file.Some? ==> written.Some? && file.value.Final?)
    requires full == if written.Some? then before[out := written.value] else before
    requires outcome.Published? || ended == if file.None? then full else if outcome.Unindexed? then Moved(full, out, file.value)
                                            else Without(full, file.value, stubborn)
    requires !outcome.Published? && (outcome.Unindexed? ==> file.Some?) && left == Without(Without(ended, out, stubborn), part, stubborn)
    ensures out in left <==> written.Some? && outcome.Unpublished? && out in stubborn
    ensures part in left <==> part in before && part in stubborn
    ensures FinalsSave(before, left, file)
    ensures outcome.Unindexed? ==> file.value in left && left[file.value] == written.value
    ensures outcome.Unpublished? && file.Some? ==>
              (file.value in left <==> file.value in before && file.value in stubborn)
              && (file.value in left ==> left[file.value] == before[file.value])
  {
    WithoutIs(ended, out, stubborn);
    WithoutIs(Without(ended, out, stubborn), part, stubborn);
  }

  lemma {:induction false} ImagePublished(before: Disk, full: Disk, ended: Disk, left: Disk, out: File, part: File, size: nat, file: File,
                                          files: set<File>, stubborn: set<File>)
    requires out.Part? && part.Part? && part != out && out !in before && file.Final? && full == before[out := size]
    requires FinalsCleared(Moved(full, out, file), ended, files, stubborn) && PartsKept(Moved(full, out, file), ended)
    requires left == Without(Without(ended, out, stubborn), part, stubborn)
    ensures out !in left && (part in left <==> part in before && part in stubborn)
    ensures FinalsCleared(before[file := size], left, files, stubborn)
  {
    WithoutIs(ended, out, stubborn);
    WithoutIs(Without(ended, out, stubborn), part, stubborn);
  }

  /** Of the images those named are gone, but for what cannot be deleted. */
  ghost predicate FinalsCleared(before: Disk, after: Disk, files: set<File>, stubborn: set<File>) {
    forall file: File :: file.Final? ==>
      (file in after <==> file in before && (file in stubborn || file !in files)) && (file in after ==> after[file] == before[file])
  }

  /** What the first bytes of a download say it is. */
  datatype Sniffed = FrcI | LegacyImage | Unknown

  function Most(m: nat, n: nat): nat {
    if m < n then n else m
  }

  lemma {:induction false} OneMoreHash(hashes: map<string, nat>, hash: string, tick: nat)
    ensures |hashes[hash := tick]| <= |hashes| + 1
    ensures hash in hashes ==> |hashes[hash := tick]| == |hashes|
  {
    assert hashes[hash := tick].Keys == hashes.Keys + {hash};
    assert |hashes| == |hashes.Keys| && |hashes[hash := tick]| == |hashes[hash := tick].Keys|;
    assert hash in hashes ==> hashes.Keys + {hash} == hashes.Keys;
  }

  lemma {:induction false} OneHashFewer(hashes: map<string, nat>, hash: string)
    requires hash in hashes
    ensures |hashes - {hash}| == |hashes| - 1
  {
    assert (hashes - {hash}).Keys == hashes.Keys - {hash};
    assert |hashes| == |hashes.Keys| && |hashes - {hash}| == |(hashes - {hash}).Keys|;
  }

  lemma {:induction false} WithoutIs(disk: Disk, file: File, stubborn: set<File>)
    ensures forall other :: other in Without(disk, file, stubborn) <==> other in disk && (other != file || file in stubborn)
    ensures forall other :: other in Without(disk, file, stubborn) ==> Without(disk, file, stubborn)[other] == disk[other]
  {
  }
}
