/** The hashes of a package's files from earlier walks, keyed by each file's
    stamp, and the rows the state store keeps them as. */
module StatCache {
  import opened Bytes
  import opened Wrappers
  import opened Times

  /** A logical key; only a UTF-8 one can be stored. */
  datatype Path = Utf8(text: string) | NotUtf8(raw: seq<int>)

  type U64 = n: int | 0 <= n <= 0xFFFF_FFFF_FFFF_FFFF
  type U128 = n: int | 0 <= n <= 0xFFFF_FFFF_FFFF_FFFF_FFFF_FFFF_FFFF_FFFF

  datatype FileId = FileId(volume: U64, file: U128)

  datatype FileStamp = FileStamp(size: U64, modified: Time, changed: Option<Time>, id: Option<FileId>)

  datatype ObjectHash = ObjectHash(algorithm: U64, digest: seq<int>)

  datatype CachedHash = CachedHash(stamp: FileStamp, hash: ObjectHash, savedAt: Time)

  type Key = (Path, U64)

  /** How long a package goes between walks that hash every file anyway. */
  const FULL_HASH_EVERY: int := 24 * 60 * 60 * SECOND

  /** Edited in the second the entry was saved, or later. */
  predicate Racy(entry: CachedHash) {
    WholeSecs(entry.stamp.modified) >= WholeSecs(entry.savedAt)
  }

  predicate Trusted(stamp: FileStamp) {
    stamp.changed.Some? && stamp.id.Some?
  }

  /** What a walk's cache answers for a file. */
  function LookupIn(saved: map<Key, CachedHash>, full: bool, key: Path, stamp: FileStamp, algorithm: U64)
    : Option<ObjectHash>
  {
    if full || !Trusted(stamp) || (key, algorithm) !in saved then None
    else
      var entry := saved[(key, algorithm)];
      if entry.stamp == stamp && !Racy(entry) then Some(entry.hash) else None
  }

  /** Whether recording `entry` changes anything worth writing. */
  predicate WorthWriting(saved: map<Key, CachedHash>, key: Path, entry: CachedHash) {
    && Trusted(entry.stamp) && key.Utf8?
    && ((key, entry.hash.algorithm) in saved ==>
          var kept := saved[(key, entry.hash.algorithm)];
          !(kept.stamp == entry.stamp && kept.hash == entry.hash && !Racy(kept)))
  }

  function Recorded(saved: map<Key, CachedHash>, updates: seq<(Path, CachedHash)>, key: Path, entry: CachedHash)
    : seq<(Path, CachedHash)>
  {
    if WorthWriting(saved, key, entry) then updates + [(key, entry)] else updates
  }

  /** The saved entry says what `entry` does, and settles it. */
  predicate SavedSays(saved: map<Key, CachedHash>, key: Path, entry: CachedHash) {
    && (key, entry.hash.algorithm) in saved
    && saved[(key, entry.hash.algorithm)].stamp == entry.stamp && saved[(key, entry.hash.algorithm)].hash == entry.hash
    && !Racy(saved[(key, entry.hash.algorithm)])
  }

  /** A trusted entry at a UTF-8 path becomes the last update, unless the saved one
      says it already; any other changes nothing. */
  predicate RecordKeeps(saved: map<Key, CachedHash>, before: seq<(Path, CachedHash)>, key: Path, entry: CachedHash,
                        after: seq<(Path, CachedHash)>)
  {
    if entry.stamp.changed.Some? && entry.stamp.id.Some? && key.Utf8? && !SavedSays(saved, key, entry) then
      after == before + [(key, entry)]
    else after == before
  }

  lemma RecordedKeeps(saved: map<Key, CachedHash>, updates: seq<(Path, CachedHash)>, key: Path, entry: CachedHash)
    ensures RecordKeeps(saved, updates, key, entry, Recorded(saved, updates, key, entry))
  {
  }

  function GoneAmong(keys: set<Key>, seen: set<Path>): set<Path> {
    set key <- keys | key.0 !in seen :: key.0
  }

  function GoneFrom(saved: map<Key, CachedHash>, seen: set<Path>): set<Path> {
    GoneAmong(saved.Keys, seen)
  }

  /** One package's cache for one walk. */
  class StatCache {
    const saved: map<Key, CachedHash>
    const full: bool
    var seen: set<Path>
    var updates: seq<(Path, CachedHash)>

    constructor (saved: map<Key, CachedHash>, full: bool)
      ensures this.saved == saved && this.full == full && seen == {} && updates == []
    {
      this.saved := saved;
      this.full := full;
      seen, updates := {}, [];
    }

    method Lookup(key: Path, stamp: FileStamp, algorithm: U64) returns (r: Option<ObjectHash>)
      ensures r == LookupIn(saved, full, key, stamp, algorithm)
    {
      if full || stamp.changed.None? || stamp.id.None? {
        return None;
      }
      if (key, algorithm) in saved {
        var entry := saved[(key, algorithm)];
        if entry.stamp == stamp && !Racy(entry) {
          return Some(entry.hash);
        }
      }
      return None;
    }

    method See(key: Path)
      modifies this`seen
      ensures seen == old(seen) + {key}
    {
      seen := seen + {key};
    }

    method Record(key: Path, entry: CachedHash)
      modifies this`updates
      ensures updates == Recorded(saved, old(updates), key, entry)
      ensures RecordKeeps(saved, old(updates), key, entry, updates)
    {
      if !Trusted(entry.stamp) || !key.Utf8? {
        return;
      }
      var same := false;
      if (key, entry.hash.algorithm) in saved {
        var kept := saved[(key, entry.hash.algorithm)];
        same := kept.stamp == entry.stamp && kept.hash == entry.hash && !Racy(kept);
      }
      if !same {
        updates := updates + [(key, entry)];
      }
    }

    /** The saved paths this walk did not find. Their order is left out. */
    method Gone() returns (gone: set<Path>)
      ensures forall path :: path in gone <==> path !in seen && exists algorithm :: (path, algorithm) in saved
      ensures gone == GoneFrom(saved, seen)
    {
      gone := {};
      var rest := saved.Keys;
      while rest != {}
        invariant rest <= saved.Keys
        invariant gone == GoneAmong(saved.Keys - rest, seen)
        decreases |rest|
      {
        var key :| key in rest;
        var (path, algorithm) := key;
        if path !in seen {
          gone := gone + {path};
        }
        rest := rest - {key};
        assert saved.Keys - rest == saved.Keys - (rest + {key}) + {key};
      }
      assert saved.Keys - rest == saved.Keys;
    }
  }

  // ---- Rows ----

  /** A row as the database holds it; `hash` is `None` for bytes this build
      cannot read. Times are 64-bit nanoseconds. */
  datatype StatRow = StatRow(
    path: string, algorithm: int, size: int, mtime: int, ctime: int,
    volume: int, inode: seq<Byte>, hash: Option<ObjectHash>, savedAt: int)

  /** A 64-bit pattern read as signed, and back. */
  function ToSigned(n: U64): int {
    if n <= I64_MAX then n else n - 0x1_0000_0000_0000_0000
  }

  function ToUnsigned(n: int): (r: int) {
    if n >= 0 then n else n + 0x1_0000_0000_0000_0000
  }

  function FromEntry(path: Path, entry: CachedHash): Option<StatRow> {
    if entry.stamp.id.None? || !path.Utf8? || entry.hash.algorithm > I64_MAX
       || entry.stamp.size > I64_MAX || entry.stamp.changed.None? then None
    else
      var id := entry.stamp.id.value;
      Some(StatRow(path.text, entry.hash.algorithm, entry.stamp.size,
                   ToNanos(entry.stamp.modified), ToNanos(entry.stamp.changed.value),
                   ToSigned(id.volume), LeBytes(id.file, 16), Some(entry.hash), ToNanos(entry.savedAt)))
  }

  /** `None` for a row this build cannot read, which then counts as not cached. */
  function IntoEntry(row: StatRow): Option<(Key, CachedHash)> {
    if row.hash.None? || row.size < 0 || row.size > I64_MAX || |row.inode| != 16
       || row.algorithm < 0 || row.algorithm > I64_MAX then None
    else
      var volume, file := ToUnsigned(row.volume), FromLeBytes(row.inode);
      if !(0 <= volume <= 0xFFFF_FFFF_FFFF_FFFF) || !(0 <= file <= 0xFFFF_FFFF_FFFF_FFFF_FFFF_FFFF_FFFF_FFFF)
         || row.hash.value.algorithm != row.algorithm then None
      else
        Some(((Utf8(row.path), row.algorithm),
              CachedHash(FileStamp(row.size, FromNanos(row.mtime), Some(FromNanos(row.ctime)),
                                   Some(FileId(volume, file))),
                         row.hash.value, FromNanos(row.savedAt))))
  }

  /** The stamp with its times as a row keeps them. */
  function AsKept(stamp: FileStamp): FileStamp {
    stamp.(modified := FromNanos(ToNanos(stamp.modified)),
           changed := if stamp.changed.None? then None else Some(FromNanos(ToNanos(stamp.changed.value))))
  }

  function Stored(entry: CachedHash): CachedHash {
    entry.(stamp := AsKept(entry.stamp), savedAt := FromNanos(ToNanos(entry.savedAt)))
  }

  /** Which column holds what: a time that fits is the row's nanoseconds. */
  lemma RowHolds(path: Path, entry: CachedHash)
    requires FromEntry(path, entry).Some?
    ensures var row := FromEntry(path, entry).value;
            && path == Utf8(row.path) && row.algorithm == entry.hash.algorithm && row.size == entry.stamp.size
            && row.hash == Some(entry.hash)
            && (Kept(entry.stamp.modified) ==> row.mtime == entry.stamp.modified)
            && (Kept(entry.stamp.changed.value) ==> row.ctime == entry.stamp.changed.value)
            && (Kept(entry.savedAt) ==> row.savedAt == entry.savedAt)
            && (row.volume - entry.stamp.id.value.volume) % 0x1_0000_0000_0000_0000 == 0
            && FromLeBytes(row.inode) == entry.stamp.id.value.file
  {
    Powers();
    LeBytesRoundTrip(entry.stamp.id.value.file, 16);
    NanosRoundTrip(entry.stamp.modified);
    NanosRoundTrip(entry.stamp.changed.value);
    NanosRoundTrip(entry.savedAt);
  }

  /** **Rows round-trip.** A row is made for exactly the trusted entries at a
      UTF-8 path whose numbers fit 63 bits; it reads back under its own key,
      and as the same entry exactly when all three times fit 64 bits. */
  lemma RowsRoundTrip(path: Path, entry: CachedHash)
    ensures FromEntry(path, entry).Some? <==>
              && Trusted(entry.stamp) && path.Utf8?
              && entry.hash.algorithm <= I64_MAX && entry.stamp.size <= I64_MAX
    ensures FromEntry(path, entry).Some? ==>
              && IntoEntry(FromEntry(path, entry).value) == Some(((path, entry.hash.algorithm), Stored(entry)))
              && (Stored(entry) == entry <==>
                  Kept(entry.stamp.modified) && Kept(entry.stamp.changed.value) && Kept(entry.savedAt))
  {
    if FromEntry(path, entry).Some? {
      Powers();
      LeBytesRoundTrip(entry.stamp.id.value.file, 16);
      NanosRoundTrip(entry.stamp.modified);
      NanosRoundTrip(entry.stamp.changed.value);
      NanosRoundTrip(entry.savedAt);
    }
  }

  // ---- The table, saved and loaded ----

  type Rows = map<Key, StatRow>

  function Load(rows: Rows): map<Key, CachedHash> {
    map key | key in rows && IntoEntry(rows[key]).Some? :: IntoEntry(rows[key]).value.1
  }

  /** The rows of the files a walk did not find, deleted. */
  function WithoutPaths(rows: Rows, gone: set<Path>): Rows {
    map key | key in rows && key.0 !in gone :: rows[key]
  }

  /** `updates` put in one after the other; a later row replaces an earlier. */
  function Upserted(rows: Rows, updates: seq<(Path, CachedHash)>): Rows
    decreases |updates|
  {
    if updates == [] then rows
    else
      var last := updates[|updates| - 1];
      var before := Upserted(rows, updates[..|updates| - 1]);
      var row := FromEntry(last.0, last.1);
      if row.None? then before else before[(last.0, last.1.hash.algorithm) := row.value]
  }

  /** What a save leaves in the table. */
  function SavedRows(rows: Rows, gone: set<Path>, updates: seq<(Path, CachedHash)>): Rows {
    Upserted(WithoutPaths(rows, gone), updates)
  }

  /** The last entry `updates` holds for `key` that a row can keep. */
  function LastUpdate(updates: seq<(Path, CachedHash)>, key: Key): Option<CachedHash>
    decreases |updates|
  {
    if updates == [] then None
    else
      var last := updates[|updates| - 1];
      if (last.0, last.1.hash.algorithm) == key && FromEntry(last.0, last.1).Some? then Some(last.1)
      else LastUpdate(updates[..|updates| - 1], key)
  }

  lemma {:induction false} UpsertedReads(rows: Rows, updates: seq<(Path, CachedHash)>, key: Key)
    ensures var last := LastUpdate(updates, key);
            if last.Some? then
              && last.value.stamp.changed.Some?
              && key in Upserted(rows, updates)
              && IntoEntry(Upserted(rows, updates)[key]) == Some((key, Stored(last.value)))
            else (key in Upserted(rows, updates) <==> key in rows)
                 && (key in rows ==> Upserted(rows, updates)[key] == rows[key])
    decreases |updates|
  {
    if updates != [] {
      var last := updates[|updates| - 1];
      UpsertedReads(rows, updates[..|updates| - 1], key);
      RowsRoundTrip(last.0, last.1);
    }
  }

  /** **Reload after save.** The saved entries, minus those of files the walk did
      not find, overridden by the walk's updates as a row keeps them. */
  lemma ReloadAfterSave(rows: Rows, gone: set<Path>, updates: seq<(Path, CachedHash)>, key: Key)
    ensures var reloaded := Load(SavedRows(rows, gone, updates));
            var last := LastUpdate(updates, key);
            if last.Some? then
              last.value.stamp.changed.Some? && key in reloaded && reloaded[key] == Stored(last.value)
            else (key in reloaded <==> key in Load(rows) && key.0 !in gone)
                 && (key in reloaded ==> reloaded[key] == Load(rows)[key])
  {
    UpsertedReads(WithoutPaths(rows, gone), updates, key);
  }
}
