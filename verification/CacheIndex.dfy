/** The cache's index and its disk, on values: byte accounting, eviction order, and the persisted rows. */
module CacheIndex {

  datatype Format = Jpeg | Png

  /** A (URL hash, bucket) pair. */
  datatype Key = Key(hash: string, bucket: nat)

  /** A file of the cache directory: a published image, or a partial download or decode. */
  datatype File = Final(key: Key, format: Format) | Part(id: nat)

  /** One file may be spelled in several ways; its identity is the file. */
  datatype Uri = Uri(file: File, spelling: nat)

  datatype CacheEntry = CacheEntry(uri: Uri, size: nat, format: Format, lastUsed: nat)

  type Entries = map<Key, CacheEntry>

  type Disk = map<File, nat>

  // ---- Bytes ----

  ghost function Bytes(entries: Entries): (n: nat) {
    if entries == map[] then 0
    else
      var key :| key in entries;
      entries[key].size + Bytes(entries - {key})
  }

  lemma {:induction false} BytesWithout(entries: Entries, key: Key)
    requires key in entries
    ensures Bytes(entries) == entries[key].size + Bytes(entries - {key})
    decreases |entries|
  {
    var first :| first in entries && Bytes(entries) == entries[first].size + Bytes(entries - {first});
    if first != key {
      BytesWithout(entries - {first}, key);
      BytesWithout(entries - {key}, first);
      assert entries - {first} - {key} == entries - {key} - {first};
    }
  }

  lemma {:induction false} BytesWith(entries: Entries, key: Key, entry: CacheEntry)
    ensures Bytes(entries[key := entry]) == Bytes(entries - {key}) + entry.size
  {
    BytesWithout(entries[key := entry], key);
    assert entries[key := entry] - {key} == entries - {key};
  }

  // ---- Protection ----

  predicate Leased(leases: map<Key, nat>, key: Key) {
    key in leases && leases[key] > 0
  }

  /** Some spelling of the file is pinned. */
  predicate Pinned(pins: map<Uri, nat>, file: File) {
    exists uri :: uri in pins && pins[uri] > 0 && uri.file == file
  }

  predicate Protected(key: Key, entry: CacheEntry, leases: map<Key, nat>, pins: map<Uri, nat>) {
    Leased(leases, key) || Pinned(pins, entry.uri.file)
  }

  // ---- What every index satisfies ----

  /** An entry's file is a file of its own key, and no two entries were used at the same tick. */
  ghost predicate Indexed(entries: Entries, tick: nat) {
    && (forall key :: key in entries ==>
          entries[key].uri.file == Final(key, entries[key].format) && entries[key].lastUsed <= tick)
    && (forall j, k :: j in entries && k in entries && j != k ==> entries[j].lastUsed != entries[k].lastUsed)
  }

  lemma {:induction false} IndexedLess(entries: Entries, tick: nat, key: Key)
    requires Indexed(entries, tick)
    ensures Indexed(entries - {key}, tick)
  {
  }

  lemma {:induction false} IndexedMore(entries: Entries, tick: nat, key: Key, entry: CacheEntry)
    requires Indexed(entries, tick) && entry.uri.file == Final(key, entry.format) && entry.lastUsed == tick + 1
    ensures Indexed(entries[key := entry], tick + 1)
  {
  }

  // ---- Eviction ----

  predicate Over(total: int, count: nat, maxBytes: nat, maxEntries: nat) {
    total > maxBytes || count > maxEntries
  }

  function Keys(evicted: seq<Key>): (keys: set<Key>) {
    set i | 0 <= i < |evicted| :: evicted[i]
  }

  /** Unprotected entries, the least recently used first; whatever unprotected entry stays was used later than all of them. */
  ghost predicate Oldest(entries: Entries, evicted: seq<Key>, leases: map<Key, nat>, pins: map<Uri, nat>) {
    && (forall i :: 0 <= i < |evicted| ==> evicted[i] in entries && !Protected(evicted[i], entries[evicted[i]], leases, pins))
    && (forall i, j :: 0 <= i < j < |evicted| ==> entries[evicted[i]].lastUsed < entries[evicted[j]].lastUsed)
    && (forall i, key :: 0 <= i < |evicted| && key in entries - Keys(evicted)
                         && !Protected(key, entries[key], leases, pins) ==>
          entries[evicted[i]].lastUsed < entries[key].lastUsed)
  }

  lemma {:induction false} OldestMore(entries: Entries, evicted: seq<Key>, leases: map<Key, nat>, pins: map<Uri, nat>, victim: Key, tick: nat)
    requires Indexed(entries, tick) && Oldest(entries, evicted, leases, pins)
    requires victim in entries - Keys(evicted) && !Protected(victim, entries[victim], leases, pins)
    requires forall key :: key in entries - Keys(evicted) && !Protected(key, entries[key], leases, pins) ==>
               entries[victim].lastUsed <= entries[key].lastUsed
    ensures Oldest(entries, evicted + [victim], leases, pins)
    ensures entries - Keys(evicted + [victim]) == entries - Keys(evicted) - {victim}
  {
    hide Protected;
    var more := evicted + [victim];
    assert Keys(more) == Keys(evicted) + {victim} by {
      assert forall i :: 0 <= i < |evicted| ==> more[i] == evicted[i];
      assert more[|evicted|] == victim;
    }
  }

  // ---- Deleting files ----

  /** Deletion is best-effort: a file that cannot be deleted stays. */
  function Without(disk: Disk, file: File, stubborn: set<File>): (after: Disk) {
    if file in stubborn then disk else disk - {file}
  }

  // ---- The persisted index ----

  /** A row of the stored array; anything that does not pass the checks of the restore is `Bad`. */
  datatype Row = Row(key: Key, format: Format, size: nat) | Bad

  datatype Persisted = Absent | Garbage | Rows(rows: seq<Row>)

  /** One row for each entry, least recently used first. */
  ghost predicate Lists(rows: seq<Row>, entries: Entries) {
    && |rows| == |entries|
    && (forall i :: 0 <= i < |rows| ==>
          rows[i].Row? && rows[i].key in entries
          && rows[i].format == entries[rows[i].key].format && rows[i].size == entries[rows[i].key].size)
    && (forall i, j :: 0 <= i < j < |rows| ==> entries[rows[i].key].lastUsed < entries[rows[j].key].lastUsed)
  }

  datatype Restored = Restored(entries: Entries, tick: nat, lost: nat)

  /** `lost` counts the bytes of entries that a later row, or the restore itself, wrote over. */
  function Restore(entries: Entries, tick: nat, rows: seq<Row>): (r: Restored)
    decreases |rows|
  {
    if rows == [] then Restored(entries, tick, 0)
    else
      var r := Restore(entries, tick, rows[..|rows| - 1]);
      match rows[|rows| - 1]
      case Bad => r
      case Row(key, format, size) =>
        Restored(r.entries[key := CacheEntry(Uri(Final(key, format), 0), size, format, r.tick + 1)], r.tick + 1,
                 r.lost + if key in r.entries then r.entries[key].size else 0)
  }

  lemma {:induction false} RestoreStep(entries: Entries, tick: nat, rows: seq<Row>, n: nat)
    requires n < |rows|
    ensures var r := Restore(entries, tick, rows[..n]);
            Restore(entries, tick, rows[..n + 1])
              == match rows[n]
                 case Bad => r
                 case Row(key, format, size) =>
                   Restored(r.entries[key := CacheEntry(Uri(Final(key, format), 0), size, format, r.tick + 1)], r.tick + 1,
                            r.lost + if key in r.entries then r.entries[key].size else 0)
  {
    assert rows[..n + 1][..n] == rows[..n];
  }

  lemma {:induction false} RestoredEntry(entries: Entries, tick: nat, key: Key, entry: CacheEntry)
    requires Indexed(entries, tick) && entry.uri.file == Final(key, entry.format) && entry.lastUsed == tick + 1
    ensures Indexed(entries[key := entry], tick + 1)
    ensures Bytes(entries[key := entry]) == Bytes(entries) + entry.size - if key in entries then entries[key].size else 0
  {
    IndexedMore(entries, tick, key, entry);
    BytesWith(entries, key, entry);
    if key in entries {
      BytesWithout(entries, key);
    } else {
      assert entries - {key} == entries;
    }
  }

  /** The bytes a restore adds to the total are those of the entries it ends with, and those it lost on the way. */
  lemma {:induction false} RestoreBytes(entries: Entries, tick: nat, rows: seq<Row>)
    requires Indexed(entries, tick)
    ensures var r := Restore(entries, tick, rows);
            Indexed(r.entries, r.tick) && Bytes(r.entries) + r.lost == Bytes(entries) + RowBytes(rows)
    decreases |rows|
  {
    hide Indexed, Bytes;
    if rows != [] {
      var front := rows[..|rows| - 1];
      RestoreBytes(entries, tick, front);
      var r := Restore(entries, tick, front);
      match rows[|rows| - 1]
      case Bad =>
      case Row(key, format, size) =>
        RestoredEntry(r.entries, r.tick, key, CacheEntry(Uri(Final(key, format), 0), size, format, r.tick + 1));
    }
  }

  function RowBytes(rows: seq<Row>): (n: nat) {
    if rows == [] then 0
    else RowBytes(rows[..|rows| - 1]) + if rows[|rows| - 1].Row? then rows[|rows| - 1].size else 0
  }

  /** Nothing with bytes is written over: neither an earlier row of the key, nor an entry that was there before. */
  ghost predicate LosesNothing(entries: Entries, rows: seq<Row>) {
    && (forall i, j :: 0 <= i < j < |rows| && rows[i].Row? && rows[j].Row? && rows[i].key == rows[j].key ==> rows[i].size == 0)
    && (forall i :: 0 <= i < |rows| && rows[i].Row? && rows[i].key in entries ==> entries[rows[i].key].size == 0)
  }

  /** After a restore a key has its last row, or what it had before. */
  lemma {:induction false} LastRow(entries: Entries, tick: nat, rows: seq<Row>, key: Key) returns (last: int)
    ensures -1 <= last < |rows| && forall i :: last < i < |rows| ==> !(rows[i].Row? && rows[i].key == key)
    ensures last >= 0 ==> rows[last].Row? && rows[last].key == key
    ensures var r := Restore(entries, tick, rows).entries;
            if last >= 0 then key in r && r[key].size == rows[last].size
            else (key in r <==> key in entries) && (key in r ==> r[key] == entries[key])
    decreases |rows|
  {
    if rows == [] {
      last := -1;
    } else if rows[|rows| - 1].Row? && rows[|rows| - 1].key == key {
      last := |rows| - 1;
    } else {
      last := LastRow(entries, tick, rows[..|rows| - 1], key);
      assert forall i :: 0 <= i < |rows| - 1 ==> rows[..|rows| - 1][i] == rows[i];
    }
  }

  /** The byte count is exact after a restore if and only if nothing with bytes was written over. */
  lemma {:induction false} ExactIffLosesNothing(entries: Entries, tick: nat, rows: seq<Row>)
    ensures Restore(entries, tick, rows).lost == 0 <==> LosesNothing(entries, rows)
    decreases |rows|
  {
    if rows != [] {
      var n := |rows| - 1;
      ExactIffLosesNothing(entries, tick, rows[..n]);
      if rows[n].Row? {
        LastRowLoses(entries, tick, rows);
      } else {
        SameLoss(entries, rows);
      }
      hide LosesNothing;
    }
  }

  lemma {:induction false} SameLoss(entries: Entries, rows: seq<Row>)
    requires rows != [] && !rows[|rows| - 1].Row?
    ensures LosesNothing(entries, rows) <==> LosesNothing(entries, rows[..|rows| - 1])
  {
    var front := rows[..|rows| - 1];
    assert forall i :: 0 <= i < |front| ==> front[i] == rows[i];
  }

  lemma {:induction false} LastRowLoses(entries: Entries, tick: nat, rows: seq<Row>)
    requires rows != [] && rows[|rows| - 1].Row?
    ensures var (front, key) := (rows[..|rows| - 1], rows[|rows| - 1].key);
            var r := Restore(entries, tick, front).entries;
            LosesNothing(entries, rows) <==> LosesNothing(entries, front) && (key in r ==> r[key].size == 0)
  {
    var (n, front, key) := (|rows| - 1, rows[..|rows| - 1], rows[|rows| - 1].key);
    assert forall i :: 0 <= i < n ==> front[i] == rows[i];
    var last := LastRow(entries, tick, front, key);
    hide Restore;
    if LosesNothing(entries, rows) {
      assert last >= 0 ==> rows[last].size == 0;
      assert key in entries ==> entries[key].size == 0;
    }
    var r := Restore(entries, tick, front).entries;
    if LosesNothing(entries, front) && (key in r ==> r[key].size == 0) {
      forall i | 0 <= i < n && rows[i].Row? && rows[i].key == key
        ensures rows[i].size == 0
      {
        assert i != last ==> front[i].key == front[last].key;
      }
    }
  }

  /** Two rows of one key: the first one's bytes are counted for ever. */
  lemma {:induction false} DuplicateRowsCountTwice(key: Key)
    ensures var r := Restore(map[], 0, [Row(key, Jpeg, 5), Row(key, Jpeg, 7)]);
            r.lost == 5 && Bytes(r.entries) == 7
  {
    var rows := [Row(key, Jpeg, 5), Row(key, Jpeg, 7)];
    assert rows[..1] == [Row(key, Jpeg, 5)] && rows[..1][..0] == [];
    assert Restore(map[], 0, []) == Restored(map[], 0, 0);
    var first := map[key := CacheEntry(Uri(Final(key, Jpeg), 0), 5, Jpeg, 1)];
    assert Restore(map[], 0, rows[..1]).entries == first;
    var r := Restore(map[], 0, rows);
    BytesWithout(r.entries, key);
    assert r.entries - {key} == map[];
  }

  predicate HasRow(rows: seq<Row>, key: Key) {
    exists i :: 0 <= i < |rows| && rows[i].Row? && rows[i].key == key
  }

  function RowEntry(row: Row, at: nat): (entry: CacheEntry)
    requires row.Row?
  {
    CacheEntry(Uri(Final(row.key, row.format), 0), row.size, row.format, at)
  }

  ghost predicate RowsRestored(rows: seq<Row>, entries: Entries, tick: nat) {
    && (forall key :: key in entries <==> HasRow(rows, key))
    && (forall i :: 0 <= i < |rows| ==>
          rows[i].Row? && rows[i].key in entries && entries[rows[i].key] == RowEntry(rows[i], tick + i + 1))
  }

  ghost predicate DistinctRows(rows: seq<Row>) {
    && (forall i :: 0 <= i < |rows| ==> rows[i].Row?)
    && (forall i, j :: 0 <= i < j < |rows| ==> rows[i].key != rows[j].key)
  }

  /** A list of distinct keys restores to exactly those keys, in the order of the list, and loses nothing. */
  lemma {:induction false} RestoreDistinct(tick: nat, rows: seq<Row>)
    requires DistinctRows(rows)
    ensures var r := Restore(map[], tick, rows);
            r.tick == tick + |rows| && r.lost == 0 && RowsRestored(rows, r.entries, tick)
    decreases |rows|
  {
    hide RowsRestored, DistinctRows, HasRow;
    if rows == [] {
      NoRows(tick);
    } else {
      var n := |rows| - 1;
      FewerDistinct(rows);
      RestoreDistinct(tick, rows[..n]);
      OneMoreRow(rows, Restore(map[], tick, rows[..n]).entries, tick);
    }
  }

  lemma {:induction false} NoRows(tick: nat)
    ensures RowsRestored([], map[], tick)
  {
  }

  lemma {:induction false} FewerDistinct(rows: seq<Row>)
    requires rows != [] && DistinctRows(rows)
    ensures DistinctRows(rows[..|rows| - 1]) && rows[|rows| - 1].Row?
  {
  }

  lemma {:induction false} OneMoreRow(rows: seq<Row>, entries: Entries, tick: nat)
    requires rows != [] && DistinctRows(rows) && RowsRestored(rows[..|rows| - 1], entries, tick)
    ensures var n := |rows| - 1;
            && rows[n].Row? && rows[n].key !in entries
            && RowsRestored(rows, entries[rows[n].key := RowEntry(rows[n], tick + n + 1)], tick)
  {
    var (front, n) := (rows[..|rows| - 1], |rows| - 1);
    assert forall i :: 0 <= i < n ==> front[i] == rows[i];
    assert !HasRow(front, rows[n].key);
    forall key
      ensures HasRow(rows, key) <==> HasRow(front, key) || key == rows[n].key
    {
      if HasRow(rows, key) {
        var i :| 0 <= i < |rows| && rows[i].Row? && rows[i].key == key;
        assert i < n ==> front[i].key == key;
      }
      if HasRow(front, key) {
        var i :| 0 <= i < n && front[i].Row? && front[i].key == key;
        assert rows[i].key == key;
      }
    }
    hide HasRow;
  }

  /**
   * Restoring a flushed index gives back the same keys with the same sizes and formats, in the same order of use, and
   * an exact byte count.
   */
  lemma {:induction false} RestoreWhatWasFlushed(entries: Entries, rows: seq<Row>, tick: nat)
    requires Lists(rows, entries)
    ensures var r := Restore(map[], tick, rows);
            && r.entries.Keys == entries.Keys && r.lost == 0 && Bytes(r.entries) == RowBytes(rows)
            && (forall key :: key in entries ==>
                  r.entries[key].size == entries[key].size && r.entries[key].format == entries[key].format)
            && (forall j, k :: j in entries && k in entries ==>
                  (entries[j].lastUsed < entries[k].lastUsed <==> r.entries[j].lastUsed < r.entries[k].lastUsed))
  {
    hide *;
    var r := Restore(map[], tick, rows);
    EmptyIndexed(tick);
    RestoreBytes(map[], tick, rows);
    ListsDistinct(rows, entries);
    RestoreDistinct(tick, rows);
    RestoredKeys(entries, rows, r.entries, tick);
    forall key | key in entries
      ensures key in r.entries && r.entries[key].size == entries[key].size && r.entries[key].format == entries[key].format
    {
      var i := RestoredAt(entries, rows, tick, key);
    }
    forall j, k | j in entries && k in entries
      ensures entries[j].lastUsed < entries[k].lastUsed <==> r.entries[j].lastUsed < r.entries[k].lastUsed
    {
      var a := RestoredAt(entries, rows, tick, j);
      var b := RestoredAt(entries, rows, tick, k);
      SameOrder(entries, rows, a, b);
    }
  }

  lemma {:induction false} EmptyIndexed(tick: nat)
    ensures Indexed(map[], tick) && Bytes(map[]) == 0
  {
  }

  lemma {:induction false} RestoredKeys(entries: Entries, rows: seq<Row>, restored: Entries, tick: nat)
    requires Lists(rows, entries) && RowsRestored(rows, restored, tick)
    ensures restored.Keys == entries.Keys
  {
    ListsAll(rows, entries);
    forall key
      ensures key in restored <==> key in entries
    {
      assert key in restored ==> HasRow(rows, key);
    }
  }

  lemma {:induction false} SameOrder(entries: Entries, rows: seq<Row>, a: nat, b: nat)
    requires Lists(rows, entries) && a < |rows| && b < |rows|
    ensures rows[a].Row? && rows[b].Row? && rows[a].key in entries && rows[b].key in entries
    ensures entries[rows[a].key].lastUsed < entries[rows[b].key].lastUsed <==> a < b
  {
    assert b < a ==> entries[rows[b].key].lastUsed < entries[rows[a].key].lastUsed;
  }

  lemma {:induction false} RestoredAt(entries: Entries, rows: seq<Row>, tick: nat, key: Key) returns (i: nat)
    requires Lists(rows, entries) && key in entries
    ensures i < |rows| && rows[i] == Row(key, entries[key].format, entries[key].size)
    ensures var r := Restore(map[], tick, rows);
            && key in r.entries && r.entries[key].lastUsed == tick + i + 1
            && r.entries[key].size == entries[key].size && r.entries[key].format == entries[key].format
  {
    hide Restore;
    ListsDistinct(rows, entries);
    RestoreDistinct(tick, rows);
    ListsAll(rows, entries);
    i :| 0 <= i < |rows| && rows[i].key == key;
  }

  lemma {:induction false} ListsDistinct(rows: seq<Row>, entries: Entries)
    requires Lists(rows, entries)
    ensures DistinctRows(rows)
  {
    forall i, j | 0 <= i < j < |rows|
      ensures rows[i].key != rows[j].key
    {
      assert entries[rows[i].key].lastUsed < entries[rows[j].key].lastUsed;
    }
  }

  /** Rows of distinct entries, as many as there are, are rows of all of them. */
  lemma {:induction false} ListsAll(rows: seq<Row>, entries: Entries)
    requires Lists(rows, entries)
    ensures forall key :: key in entries ==> exists i :: 0 <= i < |rows| && rows[i].key == key
  {
    var keys := set i | 0 <= i < |rows| :: rows[i].key;
    Counted(rows, |rows|, entries);
    assert keys == set i | 0 <= i < |rows| && i < |rows| :: rows[i].key;
    assert keys <= entries.Keys;
    forall key | key in entries
      ensures exists i :: 0 <= i < |rows| && rows[i].key == key
    {
      if key !in keys {
        Smaller(keys, entries.Keys, key);
      }
    }
  }

  lemma {:induction false} Smaller(a: set<Key>, b: set<Key>, missing: Key)
    requires a <= b && missing in b - a
    ensures |a| < |b|
  {
    var rest := b - a - {missing};
    assert b == a + rest + {missing};
  }

  lemma {:induction false} Counted(rows: seq<Row>, n: nat, entries: Entries)
    requires Lists(rows, entries) && n <= |rows|
    ensures |set i | 0 <= i < |rows| && i < n :: rows[i].key| == n
    decreases n
  {
    var keys := set i | 0 <= i < |rows| && i < n :: rows[i].key;
    if n == 0 {
      assert keys == {};
    } else {
      Counted(rows, n - 1, entries);
      var fewer := set i | 0 <= i < |rows| && i < n - 1 :: rows[i].key;
      assert keys == fewer + {rows[n - 1].key};
      assert rows[n - 1].key !in fewer;
    }
  }

  // ---- Directories ----

  /** What a directory listing says of one final file. */
  datatype Record = Record(key: Key, uri: Uri, size: nat)

  /** Every final file of the disk is listed, under some spelling and with its size; and nothing else. */
  ghost predicate Describes(records: seq<Record>, disk: Disk) {
    && (forall i :: 0 <= i < |records| ==>
          && records[i].uri.file.Final? && records[i].uri.file.key == records[i].key
          && records[i].uri.file in disk && disk[records[i].uri.file] == records[i].size)
    && (forall file :: file in disk && file.Final? ==> exists i :: 0 <= i < |records| && records[i].uri.file == file)
  }

  /** The listing as a map by key: of two files of one key, the later one. */
  function OnDisk(records: seq<Record>): (files: map<Key, Record>)
    ensures forall key :: key in files ==> files[key] in records && files[key].key == key
    ensures forall i :: 0 <= i < |records| ==> records[i].key in files
    decreases |records|
  {
    if records == [] then map[]
    else OnDisk(records[..|records| - 1])[records[|records| - 1].key := records[|records| - 1]]
  }

  /** A file whose key is claimed by another file: the map of the listing does not know it. */
  ghost predicate Shadowed(files: map<Key, Record>, file: File) {
    file.Final? && file.key in files && files[file.key].uri.file != file
  }

  /** With one file per key nothing is shadowed. */
  lemma {:induction false} NothingShadowed(records: seq<Record>, disk: Disk, file: File)
    requires Describes(records, disk) && file in disk && file.Final?
    requires forall other :: other in disk && other.Final? && other.key == file.key ==> other == file
    ensures !Shadowed(OnDisk(records), file)
  {
    var i :| 0 <= i < |records| && records[i].uri.file == file;
    var record := OnDisk(records)[file.key];
    assert record in records;
  }

  /** Of the entries those whose key is listed, each as the directory has it. */
  ghost function Claims(entries: Entries, files: map<Key, Record>): (claimed: Entries)
    requires forall key :: key in files ==> files[key].uri.file.Final?
  {
    map key | key in entries && key in files :: ClaimOf(entries[key], files[key])
  }

  ghost function ClaimOf(entry: CacheEntry, record: Record): (claim: CacheEntry)
    requires record.uri.file.Final?
  {
    CacheEntry(record.uri, record.size, record.uri.file.format, entry.lastUsed)
  }

  /** The disk without the listed files nobody claims, but for those that cannot be deleted. */
  ghost function Tidied(disk: Disk, files: map<Key, Record>, entries: Entries, leases: map<Key, nat>, pins: map<Uri, nat>,
                        stubborn: set<File>): (left: Disk) {
    map file | file in disk && (file in stubborn || !Unclaimed(file, files, entries, leases, pins)) :: disk[file]
  }

  predicate AsListed(entry: CacheEntry, record: Record) {
    entry.uri == record.uri && entry.size == record.size
  }

  /** A partial file of a download or decode that is running. */
  predicate InFlight(parts: set<Uri>, file: File) {
    exists uri :: uri in parts && uri.file == file
  }

  /** Of the partial files only those in flight, and those that cannot be deleted, stay. */
  ghost predicate Swept(before: Disk, after: Disk, parts: set<Uri>, stubborn: set<File>) {
    forall file :: (file in after <==> file in before && (file.Final? || InFlight(parts, file) || file in stubborn))
                   && (file in after ==> after[file] == before[file])
  }

  /** A listed file that neither an entry nor a lease nor a pin holds. */
  predicate Unclaimed(file: File, files: map<Key, Record>, entries: Entries, leases: map<Key, nat>, pins: map<Uri, nat>) {
    && file.Final? && file.key in files && files[file.key].uri.file == file
    && file.key !in entries && !Leased(leases, file.key) && !Pinned(pins, file)
  }

  /** The entry of its key stands for the file. */
  predicate Claimed(entries: Entries, file: File) {
    file.Final? && file.key in entries && entries[file.key].uri.file == file
  }

  /**
   * Every entry has its file, with the size on record; every final file that stays is an entry's, or is leased or pinned,
   * or cannot be deleted, or is shadowed by another file of its key; and neither partial files nor leased or pinned ones
   * are touched.
   */
  ghost predicate Reconciled(entries: Entries, before: Disk, after: Disk, files: map<Key, Record>, leases: map<Key, nat>,
                             pins: map<Uri, nat>, stubborn: set<File>) {
    && (forall key :: key in entries ==>
          entries[key].uri.file in after && after[entries[key].uri.file] == entries[key].size && Claimed(entries, entries[key].uri.file))
    && (forall file :: file in after && file.Final? ==>
          Claimed(entries, file) || Leased(leases, file.key) || Pinned(pins, file) || file in stubborn || Shadowed(files, file))
    && (forall file :: file in before && (file.Part? || Shadowed(files, file) || Leased(leases, file.key) || Pinned(pins, file)) ==>
          file in after)
    && (forall file :: file in after ==> file in before && after[file] == before[file])
  }

  /** A listing by key: every file it names is there with its size, and it has the key of every final file. */
  ghost predicate ListingOf(files: map<Key, Record>, disk: Disk) {
    && (forall key :: key in files ==>
          && files[key].key == key && files[key].uri.file.Final? && files[key].uri.file.key == key
          && files[key].uri.file in disk && disk[files[key].uri.file] == files[key].size)
    && (forall file :: file in disk && file.Final? ==> file.key in files)
  }

  lemma {:induction false} ListingKeys(records: seq<Record>, disk: Disk)
    requires Describes(records, disk)
    ensures ListingOf(OnDisk(records), disk)
  {
    hide OnDisk;
  }

  /** No image is there in two formats. */
  ghost predicate OnePerKey(disk: Disk) {
    forall file, other :: file in disk && other in disk && file.Final? && other.Final? && file.key == other.key ==> file == other
  }

  /**
   * Index and disk agree: every entry has its file, with the size on record, and every final file is an entry's, or is
   * leased or pinned, or cannot be deleted.
   */
  ghost predicate Agreement(entries: Entries, disk: Disk, leases: map<Key, nat>, pins: map<Uri, nat>, stubborn: set<File>) {
    && (forall key :: key in entries ==>
          entries[key].uri.file in disk && disk[entries[key].uri.file] == entries[key].size && Claimed(entries, entries[key].uri.file))
    && (forall file :: file in disk && file.Final? ==>
          Claimed(entries, file) || Leased(leases, file.key) || Pinned(pins, file) || file in stubborn)
  }

  /** With one file for each key a reconciled index agrees with the disk: the listing hides no file. */
  lemma {:induction false} ReconciledAgrees(entries: Entries, before: Disk, after: Disk, files: map<Key, Record>,
                                            leases: map<Key, nat>, pins: map<Uri, nat>, stubborn: set<File>)
    requires ListingOf(files, before) && OnePerKey(before)
    requires Reconciled(entries, before, after, files, leases, pins, stubborn)
    ensures Agreement(entries, after, leases, pins, stubborn)
  {
    hide Leased, Pinned, Claimed;
    forall file | file in after && file.Final?
      ensures !Shadowed(files, file)
    {
      assert file in before && file.key in files;
      assert files[file.key].uri.file in before;
    }
  }

  /** A disk some files of which may be gone. */
  ghost predicate Shrunk(before: Disk, after: Disk) {
    forall file :: file in after ==> file in before && after[file] == before[file]
  }

  lemma {:induction false} SweptShrinks(before: Disk, after: Disk, parts: set<Uri>, stubborn: set<File>)
    requires Swept(before, after, parts, stubborn)
    ensures Shrunk(before, after)
  {
    hide InFlight;
  }

  lemma {:induction false} OnePerKeyStays(before: Disk, after: Disk)
    requires OnePerKey(before) && Shrunk(before, after)
    ensures OnePerKey(after)
  {
  }

  lemma {:induction false} ClaimsIndexed(entries: Entries, tick: nat, files: map<Key, Record>)
    requires Indexed(entries, tick)
    requires forall key :: key in files ==> files[key].uri.file.Final? && files[key].uri.file.key == key
    ensures Indexed(Claims(entries, files), tick)
  {
  }

  /**
   * Adoption of what the directory says, deletion of what nobody claims, and eviction of the oldest leave index and
   * directory reconciled.
   */
  lemma {:induction false} NowReconciled(files: map<Key, Record>, start: Entries, entries: Entries, tick: nat, first: Disk, left: Disk,
                                         evicted: seq<Key>, leases: map<Key, nat>, pins: map<Uri, nat>, stubborn: set<File>)
    requires ListingOf(files, first) && Indexed(start, tick)
    requires var claimed := Claims(start, files);
             Evicted(claimed, entries, evicted, leases, pins, Tidied(first, files, claimed, leases, pins, stubborn), left, stubborn)
    ensures Reconciled(entries, first, left, files, leases, pins, stubborn) && entries.Keys <= start.Keys
  {
    hide Claimed, Cleared, Describes, Evicted, FilesOf, Indexed, Leased, Oldest, OnDisk, Pinned, Shadowed, Unclaimed;
    var claimed := Claims(start, files);
    var kept := Tidied(first, files, claimed, leases, pins, stubborn);
    ClaimsIndexed(start, tick, files);
    EvictedFiles(claimed, entries, tick, evicted, leases, pins, kept, left, stubborn);
    EntriesHaveFiles(files, claimed, entries, first, kept, left, leases, pins, stubborn);
    FilesAreHeld(files, claimed, entries, first, kept, left, leases, pins, stubborn);
  }

  lemma {:induction false} EntriesHaveFiles(files: map<Key, Record>, claimed: Entries, entries: Entries, first: Disk, kept: Disk,
                                            left: Disk, leases: map<Key, nat>, pins: map<Uri, nat>, stubborn: set<File>)
    requires entries.Keys <= claimed.Keys <= files.Keys && forall key :: key in claimed ==> AsListed(claimed[key], files[key])
    requires forall key :: key in entries ==>
               entries[key] == claimed[key] && claimed[key].uri.file.Final? && claimed[key].uri.file.key == key
    requires forall key :: key in files ==> files[key].uri.file in first && first[files[key].uri.file] == files[key].size
    requires forall file ::
               (file in kept <==> file in first && (file in stubborn || !Unclaimed(file, files, claimed, leases, pins)))
               && (file in kept ==> kept[file] == first[file])
    requires forall file :: file in left ==> file in kept && left[file] == kept[file]
    requires forall file :: file in kept && file !in left ==> Claimed(claimed, file) && file.key !in entries
    ensures forall key :: key in entries ==>
              entries[key].uri.file in left && left[entries[key].uri.file] == entries[key].size && Claimed(entries, entries[key].uri.file)
  {
    hide Leased, Pinned;
    forall key | key in entries
      ensures entries[key].uri.file in left && left[entries[key].uri.file] == entries[key].size
    {
      var file := entries[key].uri.file;
      assert file == files[key].uri.file && file in kept;
    }
  }

  lemma {:induction false} FilesAreHeld(files: map<Key, Record>, claimed: Entries, entries: Entries, first: Disk, kept: Disk,
                                        left: Disk, leases: map<Key, nat>, pins: map<Uri, nat>, stubborn: set<File>)
    requires entries.Keys <= claimed.Keys <= files.Keys && forall key :: key in claimed ==> AsListed(claimed[key], files[key])
    requires forall key :: key in entries ==> entries[key] == claimed[key]
    requires forall file :: file in first && file.Final? ==> file.key in files
    requires forall file ::
               (file in kept <==> file in first && (file in stubborn || !Unclaimed(file, files, claimed, leases, pins)))
               && (file in kept ==> kept[file] == first[file])
    requires forall file :: file in left ==> file in kept && left[file] == kept[file]
    requires forall file :: file in kept && file !in left ==>
               Claimed(claimed, file) && file.key !in entries && !Leased(leases, file.key) && !Pinned(pins, file)
    requires forall file :: file in left && Claimed(claimed, file) && file.key !in entries ==> file in stubborn
    ensures forall file :: file in left && file.Final? ==>
              Claimed(entries, file) || Leased(leases, file.key) || Pinned(pins, file) || file in stubborn || Shadowed(files, file)
    ensures forall file :: file in first && (file.Part? || Shadowed(files, file) || Leased(leases, file.key) || Pinned(pins, file)) ==>
              file in left
    ensures forall file :: file in left ==> file in first && left[file] == first[file]
  {
    hide Leased, Pinned;
    forall file | file in first && (file.Part? || Shadowed(files, file) || Leased(leases, file.key) || Pinned(pins, file))
      ensures file in left
    {
      assert !Unclaimed(file, files, claimed, leases, pins) && file in kept;
      if file.Final? && file.key in claimed {
        assert AsListed(claimed[file.key], files[file.key]);
      }
    }
    forall file | file in left && file.Final?
      ensures Claimed(entries, file) || Leased(leases, file.key) || Pinned(pins, file) || file in stubborn || Shadowed(files, file)
    {
      assert file in kept && file.key in files;
      if files[file.key].uri.file == file && file.key in claimed {
        assert claimed[file.key].uri == files[file.key].uri;
      }
    }
  }

  /** Eviction deletes files of evicted keys, and keeps the files of the others. */
  lemma {:induction false} EvictedFiles(before: Entries, after: Entries, tick: nat, evicted: seq<Key>, leases: map<Key, nat>,
                                        pins: map<Uri, nat>, disk: Disk, left: Disk, stubborn: set<File>)
    requires Indexed(before, tick) && Evicted(before, after, evicted, leases, pins, disk, left, stubborn)
    ensures after.Keys <= before.Keys && forall key :: key in after ==> after[key] == before[key] && before[key].uri.file.Final?
                                                                        && before[key].uri.file.key == key
    ensures forall file :: file in left ==> file in disk && left[file] == disk[file]
    ensures forall file :: file in disk && file !in left ==>
              Claimed(before, file) && file.key !in after && !Leased(leases, file.key) && !Pinned(pins, file)
    ensures forall file :: file in left && Claimed(before, file) && file.key !in after ==> file in stubborn
  {
    hide Leased, Pinned;
    forall file | file in FilesOf(before, evicted)
      ensures Claimed(before, file) && file.key !in after && !Leased(leases, file.key) && !Pinned(pins, file)
    {
      var i :| 0 <= i < |evicted| && before[evicted[i]].uri.file == file;
      assert evicted[i] in Keys(evicted);
    }
    forall file | file in left && Claimed(before, file) && file.key !in after
      ensures file in stubborn
    {
      assert file.key in Keys(evicted);
      var i :| 0 <= i < |evicted| && evicted[i] == file.key;
      assert file in FilesOf(before, evicted);
    }
  }

  /** The files of evicted entries are gone, but for those that cannot be deleted. */
  ghost predicate Cleared(before: Disk, after: Disk, files: set<File>, stubborn: set<File>) {
    forall file :: (file in after <==> file in before && (file in stubborn || file !in files))
                   && (file in after ==> after[file] == before[file])
  }

  function FilesOf(entries: Entries, evicted: seq<Key>): (files: set<File>)
    requires forall i :: 0 <= i < |evicted| ==> evicted[i] in entries
  {
    set i | 0 <= i < |evicted| :: entries[evicted[i]].uri.file
  }

  lemma {:induction false} ClearedMore(entries: Entries, evicted: seq<Key>, victim: Key, before: Disk, after: Disk, stubborn: set<File>)
    requires victim in entries && forall i :: 0 <= i < |evicted| ==> evicted[i] in entries
    requires Cleared(before, after, FilesOf(entries, evicted), stubborn)
    ensures Cleared(before, Without(after, entries[victim].uri.file, stubborn), FilesOf(entries, evicted + [victim]), stubborn)
  {
    var more := evicted + [victim];
    assert FilesOf(entries, more) == FilesOf(entries, evicted) + {entries[victim].uri.file} by {
      assert forall i :: 0 <= i < |evicted| ==> more[i] == evicted[i];
      assert more[|evicted|] == victim;
    }
  }

  /** The oldest unprotected entries went, with their files. */
  ghost predicate Evicted(before: Entries, after: Entries, evicted: seq<Key>, leases: map<Key, nat>, pins: map<Uri, nat>,
                          disk: Disk, left: Disk, stubborn: set<File>) {
    && Oldest(before, evicted, leases, pins) && after == before - Keys(evicted)
    && Cleared(disk, left, FilesOf(before, evicted), stubborn)
  }

  /** A limit was still exceeded when the last of them went. */
  ghost predicate Needed(before: Entries, evicted: seq<Key>, total: int, count: nat, maxBytes: nat, maxEntries: nat) {
    evicted != [] && evicted[|evicted| - 1] in before ==>
      Over(total + before[evicted[|evicted| - 1]].size, count + 1, maxBytes, maxEntries)
  }

  ghost predicate AllProtected(entries: Entries, leases: map<Key, nat>, pins: map<Uri, nat>) {
    forall key :: key in entries ==> Protected(key, entries[key], leases, pins)
  }

  /** Of the unprotected entries the one used longest ago. */
  ghost predicate IsOldest(victim: Key, entries: Entries, leases: map<Key, nat>, pins: map<Uri, nat>) {
    && victim in entries && !Protected(victim, entries[victim], leases, pins)
    && forall key :: key in entries && !Protected(key, entries[key], leases, pins) ==>
         entries[victim].lastUsed <= entries[key].lastUsed
  }

  lemma {:induction false} NeededMore(before: Entries, after: Entries, evicted: seq<Key>, victim: Key, total: int, maxBytes: nat,
                                      maxEntries: nat)
    requires victim in before && victim in after && after[victim] == before[victim]
    requires Over(total, |after|, maxBytes, maxEntries)
    ensures Needed(before, evicted + [victim], total - after[victim].size, |after| - 1, maxBytes, maxEntries)
  {
  }

  lemma {:induction false} EvictedMore(before: Entries, after: Entries, evicted: seq<Key>, leases: map<Key, nat>, pins: map<Uri, nat>,
                                       disk: Disk, left: Disk, stubborn: set<File>, victim: Key, tick: nat)
    requires Indexed(before, tick) && Evicted(before, after, evicted, leases, pins, disk, left, stubborn)
    requires IsOldest(victim, after, leases, pins)
    ensures Evicted(before, after - {victim}, evicted + [victim], leases, pins, disk,
                    Without(left, after[victim].uri.file, stubborn), stubborn)
    ensures victim in after && victim in before && after[victim] == before[victim] && |after - {victim}| == |after| - 1
  {
    hide Protected, Indexed;
    OldestMore(before, evicted, leases, pins, victim, tick);
    ClearedMore(before, evicted, victim, disk, left, stubborn);
    OneFewer(after, victim);
  }

  lemma {:induction false} NothingEvicted(entries: Entries, leases: map<Key, nat>, pins: map<Uri, nat>, disk: Disk, stubborn: set<File>)
    ensures Evicted(entries, entries, [], leases, pins, disk, disk, stubborn)
  {
  }

  lemma {:induction false} NoneNeeded(entries: Entries, total: int, count: nat, maxBytes: nat, maxEntries: nat)
    ensures Needed(entries, [], total, count, maxBytes, maxEntries)
  {
  }

  lemma {:induction false} OneFewer(entries: Entries, key: Key)
    requires key in entries
    ensures |entries - {key}| == |entries| - 1
  {
    assert (entries - {key}).Keys == entries.Keys - {key};
    assert |entries| == |entries.Keys| && |entries - {key}| == |(entries - {key}).Keys|;
  }
}
