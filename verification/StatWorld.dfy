/** Files that change while walks hash them through the stat cache, and the
    table the walks load and save. A run is any interleaving of edits, clock
    ticks and the steps of any number of walks. */
module StatWorld {
  import opened Wrappers
  import opened Times
  import opened StatCache

  type Content = string

  /** `hashOf` is the file hash, by algorithm; `tick` is the file system's
      clock step. */
  datatype Params = Params(hashOf: (U64, Content) -> seq<int>, tick: int)

  datatype FileNow = FileNow(content: Content, stamp: FileStamp)

  /** A walk: whether the store answered it and what it loaded, when it started,
      the stamps it read with the content each file then had, and what it found,
      hashed and will save. */
  datatype Walk = Walk(
    loaded: bool,
    saved: map<Key, CachedHash>,
    full: bool,
    walkedAt: Time,
    read: map<Path, FileNow>,
    seen: set<Path>,
    hashed: map<Key, Time>,
    updates: seq<(Path, CachedHash)>)

  /** The clock, the files, and the stamps each path has shown, with their times
      as a row keeps them. */
  datatype World = World(now: Time, files: map<Path, FileNow>, shown: set<(Path, FileStamp)>)

  /** `checked` is when a walk that hashed a row's file with the row's algorithm
      was last saved, `taken` when such a walk last hashed it. */
  datatype State = State(
    world: World,
    rows: Rows,
    fullAt: Option<int>,
    walks: map<nat, Walk>,
    checked: map<Key, Time>,
    taken: map<Key, Time>)

  datatype Step =
    | Tick(to: Time)
    | Edit(path: Path, file: FileNow)
    | Remove(path: Path)
    | Begin(walk: nat, loaded: bool)
    | ReadStamp(walk: nat, path: Path)
    | Hash(walk: nat, path: Path, algorithm: U64)
    | Save(walk: nat)
    | Abandon(walk: nat)

  /** Whether a change of a file shows: its edit time comes from the file
      system's clock, or its stamp is one the path never showed. A stamp with no
      change time is never trusted, so needs neither. */
  predicate Shows(p: Params, world: World, path: Path, stamp: FileStamp) {
    || stamp.changed.None?
    || (p.tick > 0 && SECOND % p.tick == 0 && stamp.modified == world.now / p.tick * p.tick)
    || (path, AsKept(stamp)) !in world.shown
  }

  predicate Enabled(p: Params, s: State, step: Step) {
    match step
    case Tick(to) => s.world.now <= to <= I64_MAX
    case Edit(path, file) => Shows(p, s.world, path, file.stamp)
    case Remove(path) => path in s.world.files
    case Begin(w, _) => w !in s.walks
    case ReadStamp(w, path) => w in s.walks && path in s.world.files && path !in s.walks[w].read
    case Hash(w, path, algorithm) =>
      && w in s.walks && path in s.walks[w].read
      && (Answer(s, w, path, algorithm).None? ==> path in s.world.files)
    case Save(w) => w in s.walks
    case Abandon(w) => w in s.walks
  }

  /** What the cache answers the walk for a file whose stamp it has read. */
  function Answer(s: State, w: nat, path: Path, algorithm: U64): Option<ObjectHash>
    requires w in s.walks && path in s.walks[w].read
  {
    var walk := s.walks[w];
    LookupIn(walk.saved, walk.full, path, walk.read[path].stamp, algorithm)
  }

  /** A package is walked in full when no full walk is on record or the last
      was a day ago; a clock behind the record's does not ask for one. */
  predicate DueInFull(s: State) {
    s.fullAt.None? || s.world.now - FromNanos(s.fullAt.value) >= FULL_HASH_EVERY
  }

  /** A walk the store cannot answer has nothing to go by, and is full. */
  function Begun(s: State, loaded: bool): Walk {
    if loaded then Walk(true, Load(s.rows), DueInFull(s), s.world.now, map[], {}, map[], [])
    else Walk(false, map[], true, s.world.now, map[], {}, map[], [])
  }

  function HashNow(p: Params, algorithm: U64, content: Content): ObjectHash {
    ObjectHash(algorithm, p.hashOf(algorithm, content))
  }

  /** On a miss the walk hashes what the file holds then, which may no longer
      be what it held when its stamp was read. */
  function Hashed(p: Params, s: State, w: nat, path: Path, algorithm: U64): Walk
    requires Enabled(p, s, Hash(w, path, algorithm))
  {
    var walk := s.walks[w].(seen := s.walks[w].seen + {path});
    if Answer(s, w, path, algorithm).Some? then walk
    else
      var hash := HashNow(p, algorithm, s.world.files[path].content);
      var entry := CachedHash(walk.read[path].stamp, hash, walk.walkedAt);
      walk.(hashed := walk.hashed[(path, algorithm) := s.world.now],
            updates := Recorded(walk.saved, walk.updates, path, entry))
  }

  /** The later of two times for each key. */
  function Later(a: map<Key, Time>, b: map<Key, Time>): map<Key, Time> {
    map key | key in a.Keys + b.Keys ::
      if key !in a then b[key] else if key !in b || a[key] >= b[key] then a[key] else b[key]
  }

  /** A save with nothing to change writes nothing; any other is one
      transaction, the time of a full walk included. */
  function AfterSave(s: State, w: nat): State
    requires w in s.walks
  {
    var walk := s.walks[w];
    var gone := GoneFrom(walk.saved, walk.seen);
    var rest := s.(walks := s.walks - {w});
    if walk.updates == [] && gone == {} && !walk.full then rest
    else
      rest.(rows := SavedRows(s.rows, gone, walk.updates),
            fullAt := if walk.full then Some(ToNanos(s.world.now)) else s.fullAt,
            checked := map key | key in s.checked.Keys + walk.hashed.Keys ::
              if key in walk.hashed then s.world.now else s.checked[key],
            taken := Later(s.taken, walk.hashed))
  }

  function Apply(p: Params, s: State, step: Step): State
    requires Enabled(p, s, step)
  {
    match step
    case Tick(to) => s.(world := s.world.(now := to))
    case Edit(path, file) =>
      s.(world := s.world.(files := s.world.files[path := file],
                           shown := s.world.shown + {(path, AsKept(file.stamp))}))
    case Remove(path) => s.(world := s.world.(files := s.world.files - {path}))
    case Begin(w, loaded) => s.(walks := s.walks[w := Begun(s, loaded)])
    case ReadStamp(w, path) =>
      s.(walks := s.walks[w := s.walks[w].(read := s.walks[w].read[path := s.world.files[path]])])
    case Hash(w, path, algorithm) => s.(walks := s.walks[w := Hashed(p, s, w, path, algorithm)])
    case Save(w) => AfterSave(s, w)
    case Abandon(w) => s.(walks := s.walks - {w})
  }

  predicate Legal(p: Params, s: State, steps: seq<Step>)
    decreases |steps|, 0
  {
    steps == [] ||
    (Legal(p, s, steps[..|steps| - 1]) && Enabled(p, After(p, s, steps[..|steps| - 1]), steps[|steps| - 1]))
  }

  function After(p: Params, s: State, steps: seq<Step>): State
    requires Legal(p, s, steps)
    decreases |steps|, 1
  {
    if steps == [] then s else Apply(p, After(p, s, steps[..|steps| - 1]), steps[|steps| - 1])
  }

  /** Nothing cached, files of any age. */
  predicate Init(s: State) {
    GoodFiles(s.world) && s.rows == map[] && s.fullAt.None? && s.walks == map[]
    && s.checked == map[] && s.taken == map[]
  }

  // ---- The invariant of an entry ----

  /** The entry's stamp was the file's once; while it still is, the entry holds
      the file's hash, or is racy. */
  predicate Tracks(p: Params, world: World, path: Path, entry: CachedHash) {
    && entry.stamp.changed.Some? && (path, AsKept(entry.stamp)) in world.shown
    && Kept(entry.savedAt) && entry.savedAt <= world.now
    && (path in world.files && AsKept(world.files[path].stamp) == AsKept(entry.stamp) ==>
          || entry.hash == HashNow(p, entry.hash.algorithm, world.files[path].content)
          || WholeSecs(world.files[path].stamp.modified) >= WholeSecs(entry.savedAt))
  }

  /** A stamp and the content it was read with answer for one entry. */
  predicate Answers(p: Params, entry: CachedHash, file: FileNow) {
    entry.stamp == file.stamp && !Racy(entry) ==> entry.hash == HashNow(p, entry.hash.algorithm, file.content)
  }

  predicate GoodWalk(p: Params, world: World, walk: Walk) {
    && Kept(walk.walkedAt) && walk.walkedAt <= world.now
    && (forall key <- walk.saved :: walk.saved[key].hash.algorithm == key.1 && Tracks(p, world, key.0, walk.saved[key]))
    && (forall i | 0 <= i < |walk.updates| :: Tracks(p, world, walk.updates[i].0, walk.updates[i].1))
    && (forall path <- walk.read :: (path, AsKept(walk.read[path].stamp)) in world.shown)
    && (forall key <- walk.saved :: key.0 in walk.read ==> Answers(p, walk.saved[key], walk.read[key.0]))
  }

  predicate GoodRow(p: Params, world: World, key: Key, row: StatRow) {
    var entry := IntoEntry(row);
    entry.Some? ==> entry.value.0 == key && Tracks(p, world, key.0, entry.value.1)
  }

  predicate GoodRows(p: Params, world: World, rows: Rows) {
    forall key <- rows :: GoodRow(p, world, key, rows[key])
  }

  predicate GoodFiles(world: World) {
    && Kept(world.now)
    && (forall path <- world.files :: (path, AsKept(world.files[path].stamp)) in world.shown)
  }

  predicate Good(p: Params, s: State) {
    && GoodFiles(s.world)
    && GoodRows(p, s.world, s.rows)
    && (forall w <- s.walks :: GoodWalk(p, s.world, s.walks[w]))
  }

  // ---- It is kept ----

  /** A time from a clock whose step divides one second falls in the second of
      the clock's own time, or a later one than any time before it. */
  lemma FreshEditTimeShows(now: Time, tick: int, savedAt: Time)
    requires tick > 0 && SECOND % tick == 0
    requires Kept(now) && Kept(savedAt) && savedAt <= now
    ensures WholeSecs(now / tick * tick) >= WholeSecs(savedAt)
  {
    var k := SECOND / tick;
    var coarse := now / tick * tick;
    var second := now / SECOND;
    assert SECOND == k * tick;
    assert second * SECOND == second * k * tick;
    assert second * k * tick <= now < coarse + tick;
    FloorReached(second * k, now / tick, now % tick, tick);
    assert second * SECOND <= coarse <= now;
    assert coarse / SECOND == second;
    WholeSecsIsFloor(coarse);
    WholeSecsIsFloor(savedAt);
    assert savedAt / SECOND <= second;
  }

  lemma FloorReached(a: int, q: int, r: int, tick: int)
    requires tick > 0 && 0 <= r < tick && a * tick <= q * tick + r
    ensures a * tick <= q * tick
  {
    var d := a - q;
    assert a * tick == q * tick + d * tick;
    assert d >= 1 ==> (d - 1) * tick >= 0;
  }

  /** Editing a file keeps every entry of every path. */
  lemma TracksEdit(p: Params, s: State, path: Path, file: FileNow, of: Path, entry: CachedHash)
    requires Kept(s.world.now) && Enabled(p, s, Edit(path, file)) && Tracks(p, s.world, of, entry)
    ensures Tracks(p, Apply(p, s, Edit(path, file)).world, of, entry)
  {
    if of == path && file.stamp.changed.Some? && p.tick > 0 && SECOND % p.tick == 0 {
      FreshEditTimeShows(s.world.now, p.tick, entry.savedAt);
    }
  }

  lemma StoredTracks(p: Params, s: State, path: Path, entry: CachedHash)
    requires Tracks(p, s.world, path, entry)
    ensures Tracks(p, s.world, path, Stored(entry))
  {
    KeptOnce(entry.stamp);
    NanosRoundTrip(entry.savedAt);
  }

  lemma KeptOnce(stamp: FileStamp)
    ensures AsKept(AsKept(stamp)) == AsKept(stamp)
  {
  }

  lemma {:induction false} LastUpdateIsOne(updates: seq<(Path, CachedHash)>, key: Key)
    ensures LastUpdate(updates, key).Some? ==>
              exists i :: 0 <= i < |updates| && updates[i].0 == key.0 && updates[i].1 == LastUpdate(updates, key).value
    decreases |updates|
  {
    if updates != [] {
      var last := updates[|updates| - 1];
      if (last.0, last.1.hash.algorithm) == key && FromEntry(last.0, last.1).Some? {
        assert updates[|updates| - 1].0 == key.0;
      } else {
        LastUpdateIsOne(updates[..|updates| - 1], key);
      }
    }
  }

  lemma SavedRowsGood(p: Params, s: State, w: nat, key: Key)
    requires Good(p, s) && w in s.walks
    requires key in SavedRows(s.rows, GoneFrom(s.walks[w].saved, s.walks[w].seen), s.walks[w].updates)
    ensures var rows := SavedRows(s.rows, GoneFrom(s.walks[w].saved, s.walks[w].seen), s.walks[w].updates);
            GoodRow(p, s.world, key, rows[key])
  {
    var walk := s.walks[w];
    var gone := GoneFrom(walk.saved, walk.seen);
    UpsertedReads(WithoutPaths(s.rows, gone), walk.updates, key);
    var last := LastUpdate(walk.updates, key);
    if last.Some? {
      LastUpdateIsOne(walk.updates, key);
      StoredTracks(p, s, key.0, last.value);
    } else {
      assert GoodRow(p, s.world, key, s.rows[key]);
    }
  }

  /** A world where every entry that tracked still does. */
  ghost predicate Tracking(p: Params, before: World, after: World) {
    && before.now <= after.now
    && before.shown <= after.shown
    && (forall path, entry :: Tracks(p, before, path, entry) ==> Tracks(p, after, path, entry))
  }

  lemma WorldStepTracks(p: Params, s: State, step: Step)
    requires GoodFiles(s.world) && Enabled(p, s, step)
    requires step.Tick? || step.Edit? || step.Remove?
    ensures Tracking(p, s.world, Apply(p, s, step).world) && GoodFiles(Apply(p, s, step).world)
  {
    var after := Apply(p, s, step).world;
    forall path, entry | Tracks(p, s.world, path, entry) ensures Tracks(p, after, path, entry) {
      if step.Edit? {
        TracksEdit(p, s, step.path, step.file, path, entry);
      }
    }
  }

  lemma WalkStillGood(p: Params, before: World, after: World, walk: Walk)
    requires GoodWalk(p, before, walk) && Tracking(p, before, after)
    ensures GoodWalk(p, after, walk)
  {
  }

  lemma RowsStillGood(p: Params, before: World, after: World, rows: Rows)
    requires GoodRows(p, before, rows) && Tracking(p, before, after)
    ensures GoodRows(p, after, rows)
  {
    forall key | key in rows ensures GoodRow(p, after, key, rows[key]) {
      assert GoodRow(p, before, key, rows[key]);
    }
  }

  lemma BeginKept(p: Params, s: State, loaded: bool)
    requires Good(p, s)
    ensures GoodWalk(p, s.world, Begun(s, loaded))
  {
    var walk := Begun(s, loaded);
    forall key | key in walk.saved
      ensures walk.saved[key].hash.algorithm == key.1 && Tracks(p, s.world, key.0, walk.saved[key])
    {
      assert GoodRow(p, s.world, key, s.rows[key]);
    }
  }

  lemma SaveKept(p: Params, s: State, w: nat)
    requires Good(p, s) && w in s.walks
    ensures GoodRows(p, s.world, AfterSave(s, w).rows)
  {
    var rows := AfterSave(s, w).rows;
    if rows != s.rows {
      forall key | key in rows ensures GoodRow(p, s.world, key, rows[key]) {
        SavedRowsGood(p, s, w, key);
      }
    }
  }

  lemma ReadStampKept(p: Params, world: World, walk: Walk, path: Path)
    requires GoodFiles(world) && GoodWalk(p, world, walk) && path in world.files
    ensures GoodWalk(p, world, walk.(read := walk.read[path := world.files[path]]))
  {
    var read := walk.read[path := world.files[path]];
    forall key | key in walk.saved && key.0 in read ensures Answers(p, walk.saved[key], read[key.0]) {
      if key.0 == path {
        assert Tracks(p, world, path, walk.saved[key]);
      }
    }
  }

  lemma HashKept(p: Params, s: State, w: nat, path: Path, algorithm: U64)
    requires Good(p, s) && Enabled(p, s, Hash(w, path, algorithm))
    ensures GoodWalk(p, s.world, Hashed(p, s, w, path, algorithm))
  {
    var walk, next := s.walks[w], Hashed(p, s, w, path, algorithm);
    assert GoodWalk(p, s.world, walk);
    forall i | 0 <= i < |next.updates| ensures Tracks(p, s.world, next.updates[i].0, next.updates[i].1) {
      if i < |walk.updates| {
        assert next.updates[i] == walk.updates[i];
      }
    }
  }

  lemma GoodKept(p: Params, s: State, step: Step)
    requires Good(p, s) && Enabled(p, s, step)
    ensures Good(p, Apply(p, s, step))
  {
    var s' := Apply(p, s, step);
    match step {
      case Tick(_) | Edit(_, _) | Remove(_) =>
        WorldStepTracks(p, s, step);
        RowsStillGood(p, s.world, s'.world, s.rows);
        forall w | w in s'.walks ensures GoodWalk(p, s'.world, s'.walks[w]) {
          WalkStillGood(p, s.world, s'.world, s.walks[w]);
        }
      case Begin(_, loaded) => BeginKept(p, s, loaded);
      case ReadStamp(w, path) => ReadStampKept(p, s.world, s.walks[w], path);
      case Hash(w, path, algorithm) => HashKept(p, s, w, path, algorithm);
      case Save(w) => SaveKept(p, s, w);
      case Abandon(w) =>
    }
  }

  lemma {:induction false} GoodRun(p: Params, s: State, steps: seq<Step>)
    requires Init(s) && Legal(p, s, steps)
    ensures Good(p, After(p, s, steps))
    decreases |steps|
  {
    if steps != [] {
      GoodRun(p, s, steps[..|steps| - 1]);
      GoodKept(p, After(p, s, steps[..|steps| - 1]), steps[|steps| - 1]);
    }
  }

  /** **A hit is what hashing would answer.** In every run a cache hit is the
      hash, with the algorithm asked for, of the content the file had when the
      walk read its stamp: the file's content now, if it was not edited since.
      So it is even when the entry hit was recorded by a walk that hashed the
      file after an edit its stamp did not show. */
  lemma AHitIsTheHash(p: Params, s: State, steps: seq<Step>, w: nat, path: Path, algorithm: U64)
    requires Init(s) && Legal(p, s, steps)
    requires var t := After(p, s, steps); w in t.walks && path in t.walks[w].read
    ensures var t := After(p, s, steps);
            var hit := Answer(t, w, path, algorithm);
            hit.Some? ==>
              && hit.value == HashNow(p, algorithm, t.walks[w].read[path].content)
              && (path in t.world.files && t.world.files[path].content == t.walks[w].read[path].content ==>
                    hit.value == HashNow(p, algorithm, t.world.files[path].content))
  {
    GoodRun(p, s, steps);
    assert GoodWalk(p, After(p, s, steps).world, After(p, s, steps).walks[w]);
  }

  /** The premise is what it takes: an edit that shows in no value of the stamp
      is missed, whatever it wrote, by every entry a settled walk took. */
  lemma AnUnshownEditIsMissed(p: Params, path: Path, algorithm: U64, before: FileNow, content: Content, savedAt: Time)
    requires Trusted(before.stamp) && WholeSecs(before.stamp.modified) < WholeSecs(savedAt)
    requires p.hashOf(algorithm, content) != p.hashOf(algorithm, before.content)
    ensures var entry := CachedHash(before.stamp, HashNow(p, algorithm, before.content), savedAt);
            var after := before.(content := content);
            var hit := LookupIn(map[(path, algorithm) := entry], false, path, after.stamp, algorithm);
            hit.Some? && hit.value != HashNow(p, algorithm, after.content)
  {
  }

  // ---- Once a day ----

  /** Every row was hashed by a walk saved at most `d` before the last full one. */
  predicate Confirmed(s: State, d: nat) {
    s.fullAt.Some? ==> forall key <- s.rows :: key in s.checked && s.checked[key] >= FromNanos(s.fullAt.value) - d
  }

  /** Before a full walk is saved: each row that it will not delete is a hash it
      took, with that row's algorithm, or was checked in the last `d`. */
  predicate Covers(s: State, w: nat, d: nat)
    requires w in s.walks
  {
    var walk := s.walks[w];
    forall key <- s.rows | key.0 !in GoneFrom(walk.saved, walk.seen) ::
      key in walk.hashed || (key in s.checked && s.checked[key] >= s.world.now - d)
  }

  predicate UpdatesHashed(walk: Walk) {
    forall i | 0 <= i < |walk.updates| :: (walk.updates[i].0, walk.updates[i].1.hash.algorithm) in walk.hashed
  }

  /** What the walk may trust was checked less than a day, and `d`, before it began. */
  predicate WithinADay(s: State, walk: Walk, d: nat) {
    !walk.full ==> forall key <- walk.saved ::
      key in s.checked && walk.walkedAt - s.checked[key] < FULL_HASH_EVERY + d
  }

  predicate Dated(s: State) {
    && Kept(s.world.now)
    && (s.fullAt.Some? ==> Kept(s.fullAt.value) && s.fullAt.value <= s.world.now)
    && (forall key <- s.rows :: key in s.checked)
    && (forall key <- s.checked :: s.checked[key] <= s.world.now)
    && (forall w <- s.walks :: UpdatesHashed(s.walks[w]) && s.walks[w].walkedAt <= s.world.now)
  }

  predicate Daily(s: State, d: nat) {
    Dated(s) && Confirmed(s, d) && forall w <- s.walks :: WithinADay(s, s.walks[w], d)
  }

  /** Whether a walk that begins at `at`, with nothing saved in between, is full. */
  predicate DueAt(s: State, at: Time) {
    s.fullAt.None? || at - FromNanos(s.fullAt.value) >= FULL_HASH_EVERY
  }

  /** **What confirming is for.** The table is confirmed within `d` exactly when
      at every later time a walk may trust it, for as long as none is saved, each
      row was checked less than 24 hours and `d` before. */
  lemma ConfirmedIsTrusted(s: State, d: nat)
    requires Dated(s) && !DueInFull(s)
    ensures Confirmed(s, d) <==>
              forall at, key | at >= s.world.now && !DueAt(s, at) && key in s.rows ::
                at - s.checked[key] < FULL_HASH_EVERY + d
  {
    NanosRoundTrip(s.fullAt.value);
    var last := s.fullAt.value + FULL_HASH_EVERY - 1;
    assert last >= s.world.now && !DueAt(s, last);
  }

  /** A row a save leaves was there and not deleted, or is an update of the walk. */
  lemma SavedRowWasHashed(s: State, w: nat, key: Key)
    requires w in s.walks && UpdatesHashed(s.walks[w])
    ensures var gone := GoneFrom(s.walks[w].saved, s.walks[w].seen);
            && (key in s.rows && key.0 !in gone ==> key in AfterSave(s, w).rows)
            && (key in AfterSave(s, w).rows ==> key in s.walks[w].hashed || (key in s.rows && key.0 !in gone))
  {
    var walk := s.walks[w];
    UpsertedReads(WithoutPaths(s.rows, GoneFrom(walk.saved, walk.seen)), walk.updates, key);
    LastUpdateKey(walk.updates, key);
  }

  lemma {:induction false} LastUpdateKey(updates: seq<(Path, CachedHash)>, key: Key)
    ensures LastUpdate(updates, key).Some? ==>
              exists i :: 0 <= i < |updates| && (updates[i].0, updates[i].1.hash.algorithm) == key
    decreases |updates|
  {
    if updates != [] {
      var last := updates[|updates| - 1];
      if (last.0, last.1.hash.algorithm) == key && FromEntry(last.0, last.1).Some? {
        assert (updates[|updates| - 1].0, updates[|updates| - 1].1.hash.algorithm) == key;
      } else {
        LastUpdateKey(updates[..|updates| - 1], key);
      }
    }
  }

  /** **What a full walk confirms.** Saving one confirms the table within `d`
      exactly when the walk covers it: its time is committed even for rows of an
      algorithm it did not use, and for rows other walks saved meanwhile. */
  lemma AFullSaveConfirms(s: State, w: nat, d: nat)
    requires Dated(s) && w in s.walks && s.walks[w].full
    ensures Confirmed(AfterSave(s, w), d) <==> Covers(s, w, d)
  {
    NanosRoundTrip(s.world.now);
    forall key ensures key in s.rows && key.0 !in GoneFrom(s.walks[w].saved, s.walks[w].seen) ==>
                         key in AfterSave(s, w).rows
               ensures key in AfterSave(s, w).rows ==>
                         key in s.walks[w].hashed
                         || (key in s.rows && key.0 !in GoneFrom(s.walks[w].saved, s.walks[w].seen)) {
      SavedRowWasHashed(s, w, key);
    }
  }

  lemma DatedSave(s: State, w: nat)
    requires Dated(s) && w in s.walks
    ensures Dated(AfterSave(s, w))
  {
    NanosRoundTrip(s.world.now);
    var s' := AfterSave(s, w);
    forall key | key in s'.rows ensures key in s'.checked {
      SavedRowWasHashed(s, w, key);
    }
  }

  lemma ConfirmedSave(s: State, w: nat, d: nat)
    requires Dated(s) && Confirmed(s, d) && w in s.walks && !s.walks[w].full
    ensures Confirmed(AfterSave(s, w), d)
  {
    var s' := AfterSave(s, w);
    if s.fullAt.Some? {
      NanosRoundTrip(s.fullAt.value);
    }
    forall key | key in s'.rows && s'.fullAt.Some?
      ensures key in s'.checked && s'.checked[key] >= FromNanos(s'.fullAt.value) - d
    {
      SavedRowWasHashed(s, w, key);
    }
  }

  lemma DailySave(s: State, w: nat, d: nat)
    requires Daily(s, d) && w in s.walks && (s.walks[w].full ==> Covers(s, w, d))
    ensures Daily(AfterSave(s, w), d)
  {
    DatedSave(s, w);
    if s.walks[w].full {
      AFullSaveConfirms(s, w, d);
    } else {
      ConfirmedSave(s, w, d);
    }
    var s' := AfterSave(s, w);
    forall v | v in s'.walks ensures WithinADay(s', s'.walks[v], d) {
      assert WithinADay(s, s.walks[v], d);
    }
  }

  lemma BegunWithinADay(s: State, loaded: bool, d: nat)
    requires Dated(s) && Confirmed(s, d)
    ensures WithinADay(s, Begun(s, loaded), d)
  {
    if s.fullAt.Some? {
      NanosRoundTrip(s.fullAt.value);
    }
  }

  lemma HashedWithinADay(p: Params, s: State, w: nat, path: Path, algorithm: U64, d: nat)
    requires Daily(s, d) && Enabled(p, s, Hash(w, path, algorithm))
    ensures var walk := Hashed(p, s, w, path, algorithm);
            UpdatesHashed(walk) && walk.walkedAt <= s.world.now && WithinADay(s, walk, d)
  {
    assert WithinADay(s, s.walks[w], d);
  }

  lemma DailyWalk(s: State, w: nat, walk: Walk, d: nat)
    requires Daily(s, d) && UpdatesHashed(walk) && walk.walkedAt <= s.world.now && WithinADay(s, walk, d)
    ensures Daily(s.(walks := s.walks[w := walk]), d)
  {
    var s' := s.(walks := s.walks[w := walk]);
    forall v | v in s'.walks ensures WithinADay(s', s'.walks[v], d) {
      assert v != w ==> WithinADay(s, s.walks[v], d);
    }
  }

  lemma DailyWorld(s: State, world: World, d: nat)
    requires Daily(s, d) && Kept(world.now) && s.world.now <= world.now
    ensures Daily(s.(world := world), d)
  {
    var s' := s.(world := world);
    forall v | v in s'.walks ensures WithinADay(s', s'.walks[v], d) {
      assert WithinADay(s, s.walks[v], d);
    }
  }

  lemma DailyKept(p: Params, s: State, step: Step, d: nat)
    requires Daily(s, d) && Enabled(p, s, step)
    requires step.Save? && s.walks[step.walk].full ==> Covers(s, step.walk, d)
    ensures Daily(Apply(p, s, step), d)
  {
    match step {
      case Save(w) => DailySave(s, w, d);
      case Begin(w, loaded) =>
        BegunWithinADay(s, loaded, d);
        DailyWalk(s, w, Begun(s, loaded), d);
      case Hash(w, path, algorithm) =>
        HashedWithinADay(p, s, w, path, algorithm, d);
        DailyWalk(s, w, Hashed(p, s, w, path, algorithm), d);
      case ReadStamp(w, path) => DailyWalk(s, w, s.walks[w].(read := s.walks[w].read[path := s.world.files[path]]), d);
      case Abandon(_) =>
      case _ => DailyWorld(s, Apply(p, s, step).world, d);
    }
  }

  /** Every full walk the run saves covers the table within `d`. */
  predicate Covered(p: Params, s: State, steps: seq<Step>, d: nat)
    requires Legal(p, s, steps)
    decreases |steps|
  {
    steps == [] ||
    (var most, last := steps[..|steps| - 1], steps[|steps| - 1];
     && Covered(p, s, most, d)
     && var before := After(p, s, most);
        (last.Save? && before.walks[last.walk].full ==> Covers(before, last.walk, d)))
  }

  /** Whatever a walk that is not full may trust was checked, by the record
      `times`, less than `bound` before the walk began. */
  predicate TrustedWithin(t: State, times: map<Key, Time>, bound: int) {
    forall w <- t.walks, key <- t.walks[w].saved | !t.walks[w].full ::
      key in times && t.walks[w].walkedAt - times[key] < bound
  }

  /** **Once a day.** In every run whose full walks cover the table within `d`,
      any entry a walk that is not full may trust was hashed by a walk saved less
      than 24 hours and `d` before this walk began. */
  lemma {:induction false} TrustedLessThanADay(p: Params, s: State, steps: seq<Step>, d: nat)
    requires Init(s) && Legal(p, s, steps) && Covered(p, s, steps, d)
    ensures Daily(After(p, s, steps), d)
    ensures var t := After(p, s, steps); TrustedWithin(t, t.checked, FULL_HASH_EVERY + d)
    decreases |steps|
  {
    if steps != [] {
      TrustedLessThanADay(p, s, steps[..|steps| - 1], d);
      DailyKept(p, After(p, s, steps[..|steps| - 1]), steps[|steps| - 1], d);
    }
  }

  // ---- When full walks cover the table ----

  /** The algorithm each path is hashed with. */
  type Algorithms = Path -> U64

  predicate OneAlgorithm(of: Algorithms, steps: seq<Step>) {
    forall i | 0 <= i < |steps| && steps[i].Hash? :: steps[i].algorithm == of(steps[i].path)
  }

  /** No file has a row of another algorithm; a full walk hashed all it found; and
      a row a walk did not load is one that was saved since it began. */
  predicate UniformWalk(of: Algorithms, s: State, walk: Walk) {
    && UpdatesHashed(walk)
    && (forall key <- walk.hashed :: key.1 == of(key.0))
    && (walk.full ==> forall path <- walk.seen :: (path, of(path)) in walk.hashed)
    && (walk.loaded ==> forall key <- s.rows ::
          key in walk.saved || (key in s.checked && s.checked[key] >= walk.walkedAt))
  }

  predicate UniformRows(of: Algorithms, rows: Rows) {
    forall key <- rows :: key.1 == of(key.0) && IntoEntry(rows[key]).Some?
  }

  predicate Uniform(of: Algorithms, s: State) {
    && Dated(s)
    && UniformRows(of, s.rows)
    && forall w <- s.walks :: UniformWalk(of, s, s.walks[w])
  }

  lemma UniformRowsSave(of: Algorithms, s: State, w: nat)
    requires Uniform(of, s) && w in s.walks
    ensures UniformRows(of, AfterSave(s, w).rows)
  {
    var walk := s.walks[w];
    assert UniformWalk(of, s, walk);
    var rows := SavedRows(s.rows, GoneFrom(walk.saved, walk.seen), walk.updates);
    forall key | key in rows ensures key.1 == of(key.0) && IntoEntry(rows[key]).Some? {
      UpsertedReads(WithoutPaths(s.rows, GoneFrom(walk.saved, walk.seen)), walk.updates, key);
      LastUpdateKey(walk.updates, key);
    }
  }

  lemma UniformWalkSave(of: Algorithms, s: State, w: nat, v: nat)
    requires Uniform(of, s) && w in s.walks && v in s.walks && v != w
    requires Dated(AfterSave(s, w))
    ensures UniformWalk(of, AfterSave(s, w), s.walks[v])
  {
    var s' := AfterSave(s, w);
    assert UniformWalk(of, s, s.walks[v]);
    forall key | key in s'.rows && s.walks[v].loaded
      ensures key in s.walks[v].saved || (key in s'.checked && s'.checked[key] >= s.walks[v].walkedAt)
    {
      SavedRowWasHashed(s, w, key);
    }
  }

  lemma UniformSave(of: Algorithms, s: State, w: nat)
    requires Uniform(of, s) && w in s.walks
    ensures Uniform(of, AfterSave(s, w))
  {
    DatedSave(s, w);
    UniformRowsSave(of, s, w);
    forall v | v in AfterSave(s, w).walks ensures UniformWalk(of, AfterSave(s, w), s.walks[v]) {
      UniformWalkSave(of, s, w, v);
    }
  }

  lemma UniformHash(of: Algorithms, p: Params, s: State, w: nat, path: Path)
    requires Uniform(of, s) && Enabled(p, s, Hash(w, path, of(path)))
    ensures UniformWalk(of, s, Hashed(p, s, w, path, of(path)))
    ensures Hashed(p, s, w, path, of(path)).walkedAt == s.walks[w].walkedAt
  {
    assert UniformWalk(of, s, s.walks[w]);
  }

  lemma UniformOneWalk(of: Algorithms, s: State, w: nat, walk: Walk)
    requires Uniform(of, s) && UniformWalk(of, s, walk) && walk.walkedAt <= s.world.now
    ensures Uniform(of, s.(walks := s.walks[w := walk]))
  {
    var s' := s.(walks := s.walks[w := walk]);
    forall v | v in s'.walks ensures UniformWalk(of, s', s'.walks[v]) {
      assert v != w ==> UniformWalk(of, s, s.walks[v]);
    }
  }

  lemma UniformWorld(of: Algorithms, s: State, world: World)
    requires Uniform(of, s) && Kept(world.now) && s.world.now <= world.now
    ensures Uniform(of, s.(world := world))
  {
    var s' := s.(world := world);
    forall v | v in s'.walks ensures UniformWalk(of, s', s'.walks[v]) {
      assert UniformWalk(of, s, s.walks[v]);
    }
  }

  lemma UniformKept(of: Algorithms, p: Params, s: State, step: Step)
    requires Uniform(of, s) && Enabled(p, s, step)
    requires step.Hash? ==> step.algorithm == of(step.path)
    ensures Uniform(of, Apply(p, s, step))
  {
    match step {
      case Save(w) => UniformSave(of, s, w);
      case Begin(w, loaded) => UniformOneWalk(of, s, w, Begun(s, loaded));
      case Hash(w, path, _) =>
        UniformHash(of, p, s, w, path);
        UniformOneWalk(of, s, w, Hashed(p, s, w, path, of(path)));
      case ReadStamp(w, path) =>
        assert UniformWalk(of, s, s.walks[w]);
        UniformOneWalk(of, s, w, s.walks[w].(read := s.walks[w].read[path := s.world.files[path]]));
      case Abandon(_) =>
      case _ => UniformWorld(of, s, Apply(p, s, step).world);
    }
  }

  /** The store answered the full walk, which took at most `d`, or no row is
      there that it did not load. */
  predicate Timely(s: State, w: nat, d: nat)
    requires w in s.walks
  {
    && s.walks[w].loaded
    && (s.world.now - s.walks[w].walkedAt <= d || s.rows.Keys <= s.walks[w].saved.Keys)
  }

  lemma TimelyCovers(of: Algorithms, s: State, w: nat, d: nat)
    requires Uniform(of, s) && w in s.walks && s.walks[w].full && Timely(s, w, d)
    ensures Covers(s, w, d)
  {
    assert UniformWalk(of, s, s.walks[w]);
  }

  /** Every full walk the run saves is timely. */
  predicate AllTimely(p: Params, s: State, steps: seq<Step>, d: nat)
    requires Legal(p, s, steps)
    decreases |steps|
  {
    steps == [] ||
    (var most, last := steps[..|steps| - 1], steps[|steps| - 1];
     && AllTimely(p, s, most, d)
     && var before := After(p, s, most);
        (last.Save? && before.walks[last.walk].full ==> Timely(before, last.walk, d)))
  }

  /** **Walks that overlap.** When each file has one algorithm, and each full walk
      loads the table and then takes at most `d` or has the table to itself, full
      walks cover the table within `d`, however many other walks run and save
      meanwhile. */
  lemma {:induction false} TimelyWalksCover(of: Algorithms, p: Params, s: State, steps: seq<Step>, d: nat)
    requires Init(s) && Legal(p, s, steps) && OneAlgorithm(of, steps) && AllTimely(p, s, steps, d)
    ensures Uniform(of, After(p, s, steps)) && Covered(p, s, steps, d)
    decreases |steps|
  {
    if steps != [] {
      var most, last := steps[..|steps| - 1], steps[|steps| - 1];
      assert OneAlgorithm(of, most);
      TimelyWalksCover(of, p, s, most, d);
      var before := After(p, s, most);
      UniformKept(of, p, before, last);
      if last.Save? && before.walks[last.walk].full {
        TimelyCovers(of, before, last.walk, d);
      }
    }
  }

  /** **Once a day, and a walk's time.** So in those runs any entry a walk that is
      not full may trust was checked less than 24 hours and `d` before it began. */
  lemma OneAlgorithmADay(of: Algorithms, p: Params, s: State, steps: seq<Step>, d: nat)
    requires Init(s) && Legal(p, s, steps) && OneAlgorithm(of, steps) && AllTimely(p, s, steps, d)
    ensures var t := After(p, s, steps); TrustedWithin(t, t.checked, 86_400_000_000_000 + d)
  {
    TimelyWalksCover(of, p, s, steps, d);
    TrustedLessThanADay(p, s, steps, d);
  }

  /** Each hash of a file a row stands for was taken at most `d` before it was
      saved. */
  predicate Brief(s: State, d: nat) {
    && (forall key <- s.checked :: key in s.taken && s.checked[key] - s.taken[key] <= d)
    && forall w <- s.walks, key <- s.walks[w].hashed :: s.walks[w].hashed[key] >= s.walks[w].walkedAt
  }

  /** Every walk the run saves takes at most `d`. */
  predicate AllBrief(p: Params, s: State, steps: seq<Step>, d: nat)
    requires Legal(p, s, steps)
    decreases |steps|
  {
    steps == [] ||
    (var most, last := steps[..|steps| - 1], steps[|steps| - 1];
     && AllBrief(p, s, most, d)
     && var before := After(p, s, most);
        (last.Save? ==> before.world.now - before.walks[last.walk].walkedAt <= d))
  }

  lemma BriefSave(s: State, w: nat, d: nat)
    requires Brief(s, d) && w in s.walks && s.world.now - s.walks[w].walkedAt <= d
    ensures Brief(AfterSave(s, w), d)
  {
    var s' := AfterSave(s, w);
    forall key | key in s'.checked ensures key in s'.taken && s'.checked[key] - s'.taken[key] <= d {
      assert key in s.walks[w].hashed ==> s.walks[w].hashed[key] >= s.walks[w].walkedAt;
    }
  }

  lemma BriefKept(p: Params, s: State, step: Step, d: nat)
    requires Dated(s) && Brief(s, d) && Enabled(p, s, step)
    requires step.Save? ==> s.world.now - s.walks[step.walk].walkedAt <= d
    ensures Brief(Apply(p, s, step), d)
  {
    if step.Save? {
      BriefSave(s, step.walk, d);
    }
  }

  lemma {:induction false} BriefRun(of: Algorithms, p: Params, s: State, steps: seq<Step>, d: nat)
    requires Init(s) && Legal(p, s, steps) && OneAlgorithm(of, steps) && AllBrief(p, s, steps, d)
    ensures Brief(After(p, s, steps), d)
    decreases |steps|
  {
    if steps != [] {
      var most := steps[..|steps| - 1];
      assert OneAlgorithm(of, most);
      BriefRun(of, p, s, most, d);
      UniformRun(of, p, s, most);
      BriefKept(p, After(p, s, most), steps[|steps| - 1], d);
    }
  }

  /** **From the hash itself.** When moreover every walk that is saved takes at
      most `d`, what a walk may trust was hashed less than 24 hours and twice `d`
      before it began. */
  lemma HashedADay(of: Algorithms, p: Params, s: State, steps: seq<Step>, d: nat)
    requires Init(s) && Legal(p, s, steps) && OneAlgorithm(of, steps)
    requires AllTimely(p, s, steps, d) && AllBrief(p, s, steps, d)
    ensures var t := After(p, s, steps); TrustedWithin(t, t.taken, 86_400_000_000_000 + 2 * d)
  {
    OneAlgorithmADay(of, p, s, steps, d);
    BriefRun(of, p, s, steps, d);
    TakenWithin(After(p, s, steps), d);
  }

  lemma TakenWithin(t: State, d: nat)
    requires Brief(t, d) && TrustedWithin(t, t.checked, FULL_HASH_EVERY + d)
    ensures TrustedWithin(t, t.taken, FULL_HASH_EVERY + 2 * d)
  {
  }

  /** A walk has the table to itself while no other is saved after it loaded it. */
  lemma {:induction false} NoSaveSince(of: Algorithms, p: Params, s: State, steps: seq<Step>, k: nat, w: nat)
    requires Init(s) && Legal(p, s, steps) && OneAlgorithm(of, steps)
    requires k < |steps| && steps[k] == Begin(w, true)
    requires forall j | k < j < |steps| :: !steps[j].Save? && steps[j] != Abandon(w)
    ensures var t := After(p, s, steps);
            w in t.walks && t.rows.Keys == t.walks[w].saved.Keys && Timely(t, w, 0)
    decreases |steps|
  {
    var most := steps[..|steps| - 1];
    assert OneAlgorithm(of, most);
    if k == |most| {
      UniformRun(of, p, s, most);
    } else {
      NoSaveSince(of, p, s, most, k, w);
    }
  }

  lemma {:induction false} UniformRun(of: Algorithms, p: Params, s: State, steps: seq<Step>)
    requires Init(s) && Legal(p, s, steps) && OneAlgorithm(of, steps)
    ensures Uniform(of, After(p, s, steps))
    decreases |steps|
  {
    if steps != [] {
      assert OneAlgorithm(of, steps[..|steps| - 1]);
      UniformRun(of, p, s, steps[..|steps| - 1]);
      UniformKept(of, p, After(p, s, steps[..|steps| - 1]), steps[|steps| - 1]);
    }
  }

  // ---- What a walk hashes is a hit later ----

  /** A file's stamp that a row can keep exactly, of a file not edited in the
      second the walk began. */
  predicate Settled(path: Path, algorithm: U64, stamp: FileStamp, walkedAt: Time) {
    && Storable(path, algorithm, stamp)
    && Kept(stamp.modified) && Kept(stamp.changed.value) && WholeSecs(stamp.modified) < WholeSecs(walkedAt)
  }

  predicate Storable(path: Path, algorithm: U64, stamp: FileStamp) {
    Trusted(stamp) && path.Utf8? && algorithm <= I64_MAX && stamp.size <= I64_MAX
  }

  /** The walk will leave the stamp it read of a file it hashed: by its last update
      for the key, or because the saved entry says it. */
  predicate Leaves(walk: Walk, key: Key)
    requires key.0 in walk.read
  {
    var stamp, last := walk.read[key.0].stamp, LastUpdate(walk.updates, key);
    if last.Some? then last.value.stamp == stamp && last.value.savedAt == walk.walkedAt
    else key in walk.saved && walk.saved[key].stamp == stamp && !Racy(walk.saved[key])
  }

  predicate KeepsHashed(walk: Walk) {
    && UpdatesHashed(walk)
    && forall key <- walk.hashed ::
         && key.0 in walk.read && key.0 in walk.seen
         && (Storable(key.0, key.1, walk.read[key.0].stamp) ==> Leaves(walk, key))
  }

  predicate AllKeepHashed(s: State) {
    forall w <- s.walks :: KeepsHashed(s.walks[w])
  }

  lemma LastUpdateOn(updates: seq<(Path, CachedHash)>, path: Path, entry: CachedHash, key: Key)
    ensures LastUpdate(updates + [(path, entry)], key) ==
              if (path, entry.hash.algorithm) == key && FromEntry(path, entry).Some? then Some(entry)
              else LastUpdate(updates, key)
  {
    assert (updates + [(path, entry)])[..|updates|] == updates;
  }

  lemma UnknownHasNone(walk: Walk, key: Key)
    requires UpdatesHashed(walk) && key !in walk.hashed
    ensures LastUpdate(walk.updates, key).None?
  {
    LastUpdateKey(walk.updates, key);
  }

  lemma HashLeaves(p: Params, s: State, w: nat, path: Path, algorithm: U64)
    requires Enabled(p, s, Hash(w, path, algorithm)) && KeepsHashed(s.walks[w])
    ensures KeepsHashed(Hashed(p, s, w, path, algorithm))
  {
    var walk, next := s.walks[w], Hashed(p, s, w, path, algorithm);
    if Answer(s, w, path, algorithm).None? {
      var hash := HashNow(p, algorithm, s.world.files[path].content);
      var entry := CachedHash(walk.read[path].stamp, hash, walk.walkedAt);
      RecordedKeeps(walk.saved, walk.updates, path, entry);
      RowsRoundTrip(path, entry);
      UpdatesStillHashed(p, s, w, path, algorithm);
      forall key | key in next.hashed && Storable(key.0, key.1, next.read[key.0].stamp) ensures Leaves(next, key) {
        LastUpdateOn(walk.updates, path, entry, key);
        if key !in walk.hashed {
          UnknownHasNone(walk, key);
        }
      }
    }
  }

  lemma UpdatesStillHashed(p: Params, s: State, w: nat, path: Path, algorithm: U64)
    requires Enabled(p, s, Hash(w, path, algorithm)) && UpdatesHashed(s.walks[w])
    ensures UpdatesHashed(Hashed(p, s, w, path, algorithm))
  {
  }

  lemma LeavesKept(p: Params, s: State, step: Step)
    requires Enabled(p, s, step) && AllKeepHashed(s)
    ensures AllKeepHashed(Apply(p, s, step))
  {
    match step
    case Hash(w, path, algorithm) => HashLeaves(p, s, w, path, algorithm);
    case ReadStamp(w, path) =>
      var walk := s.walks[w];
      var next := walk.(read := walk.read[path := s.world.files[path]]);
      forall key | key in next.hashed && Storable(key.0, key.1, next.read[key.0].stamp) ensures Leaves(next, key) {
        assert key.0 in walk.read && Leaves(walk, key);
      }
    case _ =>
  }

  lemma {:induction false} LeavesRun(p: Params, s: State, steps: seq<Step>)
    requires Init(s) && Legal(p, s, steps)
    ensures AllKeepHashed(After(p, s, steps))
    decreases |steps|
  {
    if steps != [] {
      LeavesRun(p, s, steps[..|steps| - 1]);
      LeavesKept(p, After(p, s, steps[..|steps| - 1]), steps[|steps| - 1]);
    }
  }

  /** The table has for the key an entry with this stamp that answers. */
  predicate HoldsStamp(rows: Rows, key: Key, stamp: FileStamp) {
    key in Load(rows) && Load(rows)[key].stamp == stamp && !Racy(Load(rows)[key])
  }

  predicate HashedSettled(walk: Walk, path: Path, algorithm: U64) {
    && (path, algorithm) in walk.hashed && path in walk.read
    && Settled(path, algorithm, walk.read[path].stamp, walk.walkedAt)
  }

  /** Saving leaves what the walk hashed, in a table whose row for it is still the
      one the walk loaded. */
  lemma SavedHolds(s: State, w: nat, path: Path, algorithm: U64)
    requires w in s.walks && KeepsHashed(s.walks[w]) && Kept(s.walks[w].walkedAt)
    requires HashedSettled(s.walks[w], path, algorithm)
    requires var walk, key := s.walks[w], (path, algorithm);
             key in walk.saved ==> key in Load(s.rows) && Load(s.rows)[key] == walk.saved[key]
    ensures HoldsStamp(AfterSave(s, w).rows, (path, algorithm), s.walks[w].read[path].stamp)
  {
    var walk, key := s.walks[w], (path, algorithm);
    var gone := GoneFrom(walk.saved, walk.seen);
    assert Leaves(walk, key);
    ReloadAfterSave(s.rows, gone, walk.updates, key);
    if LastUpdate(walk.updates, key).Some? {
      var last := LastUpdate(walk.updates, key).value;
      NanosRoundTrip(last.stamp.modified);
      NanosRoundTrip(last.stamp.changed.value);
      NanosRoundTrip(last.savedAt);
      assert Stored(last) == last;
    }
  }

  // ---- Two walks of a run ----

  lemma {:induction false} LegalPrefix(p: Params, s: State, steps: seq<Step>, i: nat)
    requires Legal(p, s, steps) && i <= |steps|
    ensures Legal(p, s, steps[..i])
    decreases |steps|
  {
    if i == |steps| {
      assert steps[..i] == steps;
    } else {
      LegalPrefix(p, s, steps[..|steps| - 1], i);
      assert steps[..|steps| - 1][..i] == steps[..i];
    }
  }

  /** The state before step `i`. */
  function StateAt(p: Params, s: State, steps: seq<Step>, i: nat): State
    requires Legal(p, s, steps) && i <= |steps|
  {
    LegalPrefix(p, s, steps, i);
    After(p, s, steps[..i])
  }

  lemma NextState(p: Params, s: State, steps: seq<Step>, i: nat)
    requires Legal(p, s, steps) && i < |steps|
    ensures Enabled(p, StateAt(p, s, steps, i), steps[i])
    ensures StateAt(p, s, steps, i + 1) == Apply(p, StateAt(p, s, steps, i), steps[i])
  {
    LegalPrefix(p, s, steps, i + 1);
    var most := steps[..i + 1];
    assert most[..|most| - 1] == steps[..i];
  }

  lemma {:induction false} RowsStay(p: Params, s: State, steps: seq<Step>, i: nat, j: nat)
    requires Legal(p, s, steps) && i <= j <= |steps|
    requires forall k | i <= k < j :: !steps[k].Save?
    ensures StateAt(p, s, steps, j).rows == StateAt(p, s, steps, i).rows
    decreases j
  {
    if i < j {
      RowsStay(p, s, steps, i, j - 1);
      NextState(p, s, steps, j - 1);
    }
  }

  /** A walk goes on with the table it loaded until it is saved or abandoned. */
  lemma {:induction false} WalkStays(p: Params, s: State, steps: seq<Step>, i: nat, j: nat)
    requires Legal(p, s, steps) && i < j <= |steps| && steps[i].Begin?
    requires forall k | i < k < j :: steps[k] != Save(steps[i].walk) && steps[k] != Abandon(steps[i].walk)
    ensures var t, begun := StateAt(p, s, steps, j), Begun(StateAt(p, s, steps, i), steps[i].loaded);
            && steps[i].walk in t.walks
            && t.walks[steps[i].walk].saved == begun.saved && t.walks[steps[i].walk].full == begun.full
    decreases j
  {
    NextState(p, s, steps, j - 1);
    if i + 1 < j {
      WalkStays(p, s, steps, i, j - 1);
      StepSparesWalk(p, StateAt(p, s, steps, j - 1), steps[j - 1], steps[i].walk);
    }
  }

  lemma StepSparesWalk(p: Params, s: State, step: Step, w: nat)
    requires Enabled(p, s, step) && w in s.walks && step != Save(w) && step != Abandon(w)
    ensures w in Apply(p, s, step).walks
    ensures Apply(p, s, step).walks[w].saved == s.walks[w].saved && Apply(p, s, step).walks[w].full == s.walks[w].full
  {
  }

  /** A walk, and the next one to load the table after it is saved. */
  predicate OneAfterTheOther(steps: seq<Step>, b: nat, j: nat, m: nat, w: nat, v: nat) {
    && b < j < m < |steps| && steps[b].Begin? && steps[b].walk == w && steps[j] == Save(w) && steps[m] == Begin(v, true)
    && (forall k | b < k < m && k != j :: !steps[k].Save?)
    && (forall k | b < k < j :: steps[k] != Abandon(w))
    && (forall k | m < k < |steps| :: steps[k] != Save(v) && steps[k] != Abandon(v))
  }

  lemma WalkKnown(p: Params, s: State, steps: seq<Step>, j: nat, w: nat)
    requires Init(s) && Legal(p, s, steps) && j <= |steps| && w in StateAt(p, s, steps, j).walks
    ensures KeepsHashed(StateAt(p, s, steps, j).walks[w]) && Kept(StateAt(p, s, steps, j).walks[w].walkedAt)
  {
    LegalPrefix(p, s, steps, j);
    LeavesRun(p, s, steps[..j]);
    GoodRun(p, s, steps[..j]);
    var before := StateAt(p, s, steps, j);
    assert GoodWalk(p, before.world, before.walks[w]);
  }

  /** With no save since a walk began, the table is the one it loaded. */
  lemma TableAsLoaded(p: Params, s: State, steps: seq<Step>, b: nat, j: nat, w: nat, key: Key)
    requires Legal(p, s, steps) && b < j <= |steps| && steps[b].Begin? && steps[b].walk == w
    requires forall k | b < k < j :: !steps[k].Save? && steps[k] != Abandon(w)
    ensures w in StateAt(p, s, steps, j).walks
    ensures var before := StateAt(p, s, steps, j);
            key in before.walks[w].saved ==>
              key in Load(before.rows) && Load(before.rows)[key] == before.walks[w].saved[key]
  {
    WalkStays(p, s, steps, b, j);
    NextState(p, s, steps, b);
    RowsStay(p, s, steps, b + 1, j);
  }

  /** Between a save and the next begin the table is what the save left. */
  lemma TableAsSaved(p: Params, s: State, steps: seq<Step>, j: nat, m: nat, w: nat)
    requires Legal(p, s, steps) && j < m <= |steps| && steps[j] == Save(w)
    requires forall k | j < k < m :: !steps[k].Save?
    ensures w in StateAt(p, s, steps, j).walks
    ensures StateAt(p, s, steps, m).rows == AfterSave(StateAt(p, s, steps, j), w).rows
  {
    NextState(p, s, steps, j);
    RowsStay(p, s, steps, j + 1, m);
  }

  /** The table the next walk loads has what the first one hashed. */
  lemma NextWalkLoads(p: Params, s: State, steps: seq<Step>, b: nat, j: nat, m: nat, w: nat, v: nat, path: Path,
                      algorithm: U64)
    requires Init(s) && Legal(p, s, steps) && OneAfterTheOther(steps, b, j, m, w, v)
    requires w in StateAt(p, s, steps, j).walks
    requires HashedSettled(StateAt(p, s, steps, j).walks[w], path, algorithm)
    ensures HoldsStamp(StateAt(p, s, steps, m).rows, (path, algorithm),
                       StateAt(p, s, steps, j).walks[w].read[path].stamp)
  {
    WalkKnown(p, s, steps, j, w);
    TableAsLoaded(p, s, steps, b, j, w, (path, algorithm));
    TableAsSaved(p, s, steps, j, m, w);
    SavedHolds(StateAt(p, s, steps, j), w, path, algorithm);
  }

  /** **What a walk hashes is a hit for the next one.** When a walk that hashed a
      file is saved, and the next walk to load the table is not full and reads the
      same stamp of it, that walk is given the file's hash, and hashes nothing: unless
      the file was edited in the second the first walk began, or its stamp is one no
      row can keep. */
  lemma HashedIsHit(p: Params, s: State, steps: seq<Step>, b: nat, j: nat, m: nat, w: nat, v: nat, path: Path,
                    algorithm: U64)
    requires Init(s) && Legal(p, s, steps) && OneAfterTheOther(steps, b, j, m, w, v)
    requires w in StateAt(p, s, steps, j).walks && v in After(p, s, steps).walks
    requires HashedSettled(StateAt(p, s, steps, j).walks[w], path, algorithm)
    requires var walk, next := StateAt(p, s, steps, j).walks[w], After(p, s, steps).walks[v];
             && path in next.read && next.read[path].stamp == walk.read[path].stamp && !next.full
    ensures var t := After(p, s, steps);
            Answer(t, v, path, algorithm) == Some(HashNow(p, algorithm, t.walks[v].read[path].content))
  {
    NextWalkLoads(p, s, steps, b, j, m, w, v, path, algorithm);
    WalkStays(p, s, steps, m, |steps|);
    assert steps[..|steps|] == steps;
    AHitIsTheHash(p, s, steps, v, path, algorithm);
  }

  // ---- A row a full walk leaves behind ----

  const OLD_FILE := FileNow("data", FileStamp(4, -10 * SECOND, Some(-10 * SECOND), Some(FileId(1, 7))))

  const ONE_PATH := Utf8("a")

  const NO_FILE := State(World(0, map[], {}), map[], None, map[], map[], map[])

  const ONE_OLD_FILE := NO_FILE.(world := World(0, map[ONE_PATH := OLD_FILE], {(ONE_PATH, AsKept(OLD_FILE.stamp))}))

  /** What a walk of the one file records when it hashes it with `algorithm`. */
  function EntryAt(p: Params, algorithm: U64, at: Time): CachedHash {
    CachedHash(OLD_FILE.stamp, HashNow(p, algorithm, OLD_FILE.content), at)
  }

  /** Walk `w` begins, reads the one file's stamp, hashes it with `algorithm`. */
  function OneWalk(w: nat, algorithm: U64): seq<Step> {
    [Begin(w, true), ReadStamp(w, ONE_PATH), Hash(w, ONE_PATH, algorithm), Save(w)]
  }

  lemma {:induction false} RunsJoin(p: Params, s: State, first: seq<Step>, rest: seq<Step>)
    requires Legal(p, s, first) && Legal(p, After(p, s, first), rest)
    ensures Legal(p, s, first + rest) && After(p, s, first + rest) == After(p, After(p, s, first), rest)
    decreases |rest|
  {
    if rest == [] {
      assert first + rest == first;
    } else {
      var shorter := rest[..|rest| - 1];
      assert (first + rest)[..|first + rest| - 1] == first + shorter;
      RunsJoin(p, s, first, shorter);
    }
  }

  lemma OneStep(p: Params, s: State, step: Step)
    requires Enabled(p, s, step)
    ensures Legal(p, s, [step]) && After(p, s, [step]) == Apply(p, s, step)
  {
    assert [step][..0] == [];
  }

  /** The run goes on by one step. */
  lemma StepOn(p: Params, s: State, steps: seq<Step>, step: Step)
    requires Legal(p, s, steps) && Enabled(p, After(p, s, steps), step)
    ensures Legal(p, s, steps + [step]) && After(p, s, steps + [step]) == Apply(p, After(p, s, steps), step)
  {
    OneStep(p, After(p, s, steps), step);
    RunsJoin(p, s, steps, [step]);
  }

  lemma SavingOneUpdate(rows: Rows, entry: CachedHash)
    requires FromEntry(ONE_PATH, entry).Some?
    ensures SavedRows(rows, {}, [(ONE_PATH, entry)])
         == rows[(ONE_PATH, entry.hash.algorithm) := FromEntry(ONE_PATH, entry).value]
  {
    assert WithoutPaths(rows, {}) == rows;
    assert [(ONE_PATH, entry)][..0] == [];
    assert Upserted(rows, []) == rows;
  }

  /** What such a walk holds before it is saved. */
  function HashedOnce(p: Params, s: State, algorithm: U64): Walk {
    Walk(true, Load(s.rows), true, s.world.now, map[ONE_PATH := OLD_FILE], {ONE_PATH},
         map[(ONE_PATH, algorithm) := s.world.now],         [(ONE_PATH, EntryAt(p, algorithm, s.world.now))])
  }

  /** A state a full walk `w` of the one file may start from, with an algorithm
      no row has. */
  predicate AllButHashed(s: State, w: nat, algorithm: U64) {
    && s.world.files == ONE_OLD_FILE.world.files && w !in s.walks && DueInFull(s) && Kept(s.world.now)
    && algorithm <= I64_MAX && (ONE_PATH, algorithm) !in s.rows && (ONE_PATH, algorithm) !in s.taken
    && forall key <- s.rows :: key.0 == ONE_PATH
  }

  /** The walk with the one file's stamp read. */
  function ReadOne(s: State, w: nat): State {
    s.(walks := s.walks[w := Begun(s, true).(read := map[ONE_PATH := OLD_FILE])])
  }

  lemma ReadOnce(p: Params, s: State, w: nat)
    requires w !in s.walks && s.world.files == ONE_OLD_FILE.world.files
    ensures var begun := Apply(p, s, Begin(w, true));
            Enabled(p, begun, ReadStamp(w, ONE_PATH)) && Apply(p, begun, ReadStamp(w, ONE_PATH)) == ReadOne(s, w)
  {
    var begun := Apply(p, s, Begin(w, true));
    assert begun.walks[w := ReadOne(s, w).walks[w]] == ReadOne(s, w).walks;
  }

  lemma HashOnce(p: Params, s: State, w: nat, algorithm: U64)
    requires AllButHashed(s, w, algorithm)
    ensures var step := Hash(w, ONE_PATH, algorithm);
            && Enabled(p, ReadOne(s, w), step)
            && Apply(p, ReadOne(s, w), step) == s.(walks := s.walks[w := HashedOnce(p, s, algorithm)])
  {
    assert Hashed(p, ReadOne(s, w), w, ONE_PATH, algorithm) == HashedOnce(p, s, algorithm);
    assert ReadOne(s, w).walks[w := HashedOnce(p, s, algorithm)] == s.walks[w := HashedOnce(p, s, algorithm)];
  }

  lemma AFullWalkHashes(p: Params, s: State, w: nat, algorithm: U64)
    requires AllButHashed(s, w, algorithm)
    ensures Legal(p, s, OneWalk(w, algorithm)[..3])
    ensures After(p, s, OneWalk(w, algorithm)[..3]) == s.(walks := s.walks[w := HashedOnce(p, s, algorithm)])
  {
    OneStep(p, s, Begin(w, true));
    ReadOnce(p, s, w);
    StepOn(p, s, [Begin(w, true)], ReadStamp(w, ONE_PATH));
    HashOnce(p, s, w, algorithm);
    StepOn(p, s, [Begin(w, true)] + [ReadStamp(w, ONE_PATH)], Hash(w, ONE_PATH, algorithm));
    assert OneWalk(w, algorithm)[..3] == [Begin(w, true)] + [ReadStamp(w, ONE_PATH)] + [Hash(w, ONE_PATH, algorithm)];
  }

  /** It adds its row and commits its time, and leaves every row of another
      algorithm. */
  function OnceSaved(p: Params, s: State, algorithm: U64): State
    requires FromEntry(ONE_PATH, EntryAt(p, algorithm, s.world.now)).Some?
  {
    var row := FromEntry(ONE_PATH, EntryAt(p, algorithm, s.world.now)).value;
    State(s.world, s.rows[(ONE_PATH, algorithm) := row], Some(s.world.now), s.walks,
          s.checked[(ONE_PATH, algorithm) := s.world.now], s.taken[(ONE_PATH, algorithm) := s.world.now])
  }

  lemma AFullWalk(p: Params, s: State, w: nat, algorithm: U64)
    requires AllButHashed(s, w, algorithm)
    ensures FromEntry(ONE_PATH, EntryAt(p, algorithm, s.world.now)).Some?
    ensures Legal(p, s, OneWalk(w, algorithm))
    ensures After(p, s, OneWalk(w, algorithm)) == OnceSaved(p, s, algorithm)
  {
    RowsRoundTrip(ONE_PATH, EntryAt(p, algorithm, s.world.now));
    AFullWalkHashes(p, s, w, algorithm);
    AFullWalkSaves(p, s, w, algorithm);
    StepOn(p, s, OneWalk(w, algorithm)[..3], Save(w));
    assert OneWalk(w, algorithm) == OneWalk(w, algorithm)[..3] + [Save(w)];
  }

  lemma AFullWalkSaves(p: Params, s: State, w: nat, algorithm: U64)
    requires AllButHashed(s, w, algorithm) && FromEntry(ONE_PATH, EntryAt(p, algorithm, s.world.now)).Some?
    ensures AfterSave(s.(walks := s.walks[w := HashedOnce(p, s, algorithm)]), w) == OnceSaved(p, s, algorithm)
  {
    var entry := EntryAt(p, algorithm, s.world.now);
    NanosRoundTrip(s.world.now);
    var walk := HashedOnce(p, s, algorithm);
    assert GoneFrom(walk.saved, walk.seen) == {} by {
      assert forall key <- walk.saved :: key.0 == ONE_PATH;
    }
    SavingOneUpdate(s.rows, entry);
    assert s.walks[w := walk] - {w} == s.walks;
    CheckedOnce(s.checked, (ONE_PATH, algorithm), s.world.now);
    CheckedOnce(s.taken, (ONE_PATH, algorithm), s.world.now);
  }

  lemma CheckedOnce(checked: map<Key, Time>, of: Key, now: Time)
    ensures (map key | key in checked.Keys + map[of := now].Keys ::
               if key in map[of := now] then now else checked[key]) == checked[of := now]
    ensures of !in checked ==> Later(checked, map[of := now]) == checked[of := now]
  {
  }

  const LAST_WALK: seq<Step> := [Begin(2, true)] + [ReadStamp(2, ONE_PATH)]

  /** Walk 2, not full, trusts a row of the one file that no walk has checked for
      24 hours. */
  predicate TrustsLapsed(s: State) {
    && 2 in s.walks && !s.walks[2].full && ONE_PATH in s.walks[2].read
    && Answer(s, 2, ONE_PATH, 1).Some?
    && (ONE_PATH, 1) in s.checked
    && s.walks[2].walkedAt - s.checked[(ONE_PATH, 1)] >= 86_400_000_000_000
  }

  /** A state where the row was checked at 0, a day ago, and a walk in full was
      saved since. */
  predicate Lapsed(p: Params, s: State) {
    && 2 !in s.walks && s.world.now == FULL_HASH_EVERY && s.fullAt.Some? && 0 < s.fullAt.value <= FULL_HASH_EVERY
    && s.world.files == ONE_OLD_FILE.world.files
    && (ONE_PATH, 1) in s.checked && s.checked[(ONE_PATH, 1)] == 0
    && FromEntry(ONE_PATH, EntryAt(p, 1, 0)).Some?
    && (ONE_PATH, 1) in s.rows && s.rows[(ONE_PATH, 1)] == FromEntry(ONE_PATH, EntryAt(p, 1, 0)).value
  }

  lemma LastWalkTrusts(p: Params, s: State)
    requires Lapsed(p, s)
    ensures Legal(p, s, LAST_WALK) && TrustsLapsed(After(p, s, LAST_WALK))
  {
    NanosRoundTrip(s.fullAt.value);
    OneStep(p, s, Begin(2, true));
    var s1 := Apply(p, s, Begin(2, true));
    StepOn(p, s, [Begin(2, true)], ReadStamp(2, ONE_PATH));
    RowsRoundTrip(ONE_PATH, EntryAt(p, 1, 0));
    assert s1.walks[2].saved[(ONE_PATH, 1)] == EntryAt(p, 1, 0);
  }

  /** A full walk with algorithm 1; a day later one with algorithm 2 alone; then
      a walk that is not full. */
  const TWO_ALGORITHMS: seq<Step> :=
    OneWalk(0, 1) + [Tick(FULL_HASH_EVERY)] + OneWalk(1, 2) + LAST_WALK

  /** With two algorithms the claim fails, though each full walk has the table to
      itself. */
  lemma ALapsedRowIsTrusted(p: Params)
    ensures Init(ONE_OLD_FILE) && Legal(p, ONE_OLD_FILE, TWO_ALGORITHMS)
    ensures TrustsLapsed(After(p, ONE_OLD_FILE, TWO_ALGORITHMS))
  {
    var s := ONE_OLD_FILE;
    AFullWalk(p, s, 0, 1);
    StepOn(p, s, OneWalk(0, 1), Tick(FULL_HASH_EVERY));
    var s2 := After(p, s, OneWalk(0, 1) + [Tick(FULL_HASH_EVERY)]);
    NanosRoundTrip(0);
    AFullWalk(p, s2, 1, 2);
    RunsJoin(p, s, OneWalk(0, 1) + [Tick(FULL_HASH_EVERY)], OneWalk(1, 2));
    LastWalkTrusts(p, After(p, s2, OneWalk(1, 2)));
    RunsJoin(p, s, OneWalk(0, 1) + [Tick(FULL_HASH_EVERY)] + OneWalk(1, 2), LAST_WALK);
  }

  /** A full walk begins and lists the folder before the file is put there;
      another hashes the file and is saved; the first is saved a second later. */
  const OVERLAPPING: seq<Step> := [Begin(0, true)] + [Edit(ONE_PATH, OLD_FILE)] + OneWalk(1, 1)

  const OVERLAPPED: seq<Step> :=
    OVERLAPPING + [Tick(SECOND)] + [Save(0)] + [Tick(FULL_HASH_EVERY)] + LAST_WALK

  lemma TheOtherWalk(p: Params)
    ensures Init(NO_FILE) && Legal(p, NO_FILE, OVERLAPPING)
    ensures var s := ONE_OLD_FILE.(walks := map[0 := Begun(NO_FILE, true)]);
            FromEntry(ONE_PATH, EntryAt(p, 1, 0)).Some? && After(p, NO_FILE, OVERLAPPING) == OnceSaved(p, s, 1)
  {
    OneStep(p, NO_FILE, Begin(0, true));
    StepOn(p, NO_FILE, [Begin(0, true)], Edit(ONE_PATH, OLD_FILE));
    var s := ONE_OLD_FILE.(walks := map[0 := Begun(NO_FILE, true)]);
    assert After(p, NO_FILE, [Begin(0, true)] + [Edit(ONE_PATH, OLD_FILE)]) == s;
    AFullWalk(p, s, 1, 1);
    RunsJoin(p, NO_FILE, [Begin(0, true)] + [Edit(ONE_PATH, OLD_FILE)], OneWalk(1, 1));
  }

  lemma SavingNothing(s: State, w: nat, at: Time)
    requires w in s.walks && s.walks[w] == Walk(true, map[], true, at, map[], {}, map[], [])
    ensures AfterSave(s, w) == s.(walks := s.walks - {w}, fullAt := Some(ToNanos(s.world.now)))
  {
    var walk := s.walks[w];
    assert GoneFrom(walk.saved, walk.seen) == {};
    assert WithoutPaths(s.rows, {}) == s.rows;
    assert Upserted(s.rows, []) == s.rows;
    assert AfterSave(s, w).checked == s.checked && Later(s.taken, map[]) == s.taken;
  }

  /** With walks that overlap it fails too, by as long as the full walk took. */
  lemma AnOverlappedRowIsTrusted(p: Params)
    ensures Init(NO_FILE) && Legal(p, NO_FILE, OVERLAPPED)
    ensures TrustsLapsed(After(p, NO_FILE, OVERLAPPED))
  {
    TheOtherWalk(p);
    StepOn(p, NO_FILE, OVERLAPPING, Tick(SECOND));
    var s1 := After(p, NO_FILE, OVERLAPPING + [Tick(SECOND)]);
    NanosRoundTrip(SECOND);
    SavingNothing(s1, 0, 0);
    StepOn(p, NO_FILE, OVERLAPPING + [Tick(SECOND)], Save(0));
    StepOn(p, NO_FILE, OVERLAPPING + [Tick(SECOND)] + [Save(0)], Tick(FULL_HASH_EVERY));
    var s3 := After(p, NO_FILE, OVERLAPPING + [Tick(SECOND)] + [Save(0)] + [Tick(FULL_HASH_EVERY)]);
    LastWalkTrusts(p, s3);
    RunsJoin(p, NO_FILE, OVERLAPPING + [Tick(SECOND)] + [Save(0)] + [Tick(FULL_HASH_EVERY)], LAST_WALK);
  }
}
