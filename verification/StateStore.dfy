/** The package state store: opens its file on first use, replaces a damaged
    one, and keeps its tables in memory once the file cannot keep a write. */
module StateStore {
  import opened Wrappers
  import opened Times

  datatype ChangeSource = Edit | PublishingOn | FirstSeen | Commit

  function AsStr(source: ChangeSource): string {
    match source
    case Edit => "edit"
    case PublishingOn => "publishing_on"
    case FirstSeen => "first_seen"
    case Commit => "commit"
  }

  function Parse(value: string): Option<ChangeSource> {
    if value == "edit" then Some(Edit)
    else if value == "publishing_on" then Some(PublishingOn)
    else if value == "first_seen" then Some(FirstSeen)
    else if value == "commit" then Some(Commit)
    else None
  }

  /** The names a source is stored under, and no other reads as one. */
  lemma SourceNames(value: string)
    ensures AsStr(Edit) == "edit" && AsStr(PublishingOn) == "publishing_on"
    ensures AsStr(FirstSeen) == "first_seen" && AsStr(Commit) == "commit"
    ensures forall source :: Parse(value) == Some(source) <==> value == AsStr(source)
  {
    assert "edit" != "publishing_on" && "edit"[0] != "first_seen"[0] && "edit"[0] != "commit"[0];
    assert "publishing_on"[0] != "edit"[0] && "publishing_on"[0] != "first_seen"[0];
    assert "commit"[0] != "publishing_on"[0] && "commit"[0] != "first_seen"[0];
  }

  datatype Activity = Activity(lastChangeAt: Time, source: ChangeSource)

  /** A row of the activity table. */
  datatype ActivityRow = ActivityRow(lastChangeAt: int, source: string)

  function ToRow(at: Time, source: ChangeSource): ActivityRow {
    ActivityRow(ToMillis(at), AsStr(source))
  }

  function FromRow(row: ActivityRow): Option<Activity> {
    match Parse(row.source)
    case None => None
    case Some(source) => Some(Activity(FromMillis(row.lastChangeAt), source))
  }

  /** A recorded change reads back with its source, at most a millisecond early. */
  lemma ActivityRoundTrip(at: Time, source: ChangeSource)
    requires 0 <= at && at / MILLI <= I64_MAX
    ensures FromRow(ToRow(at, source)).Some?
    ensures var read := FromRow(ToRow(at, source)).value;
            read.source == source && read.lastChangeAt <= at < read.lastChangeAt + MILLI
  {
    MillisRoundTrip(at);
    match source {
      case Edit => assert Parse("edit") == Some(Edit);
      case PublishingOn => assert "publishing_on"[0] != "edit"[0];
      case FirstSeen => assert "first_seen"[0] != "edit"[0] && "first_seen"[0] != "publishing_on"[0];
      case Commit =>
        assert "commit"[0] != "edit"[0] && "commit"[0] != "publishing_on"[0] && "commit"[0] != "first_seen"[0];
    }
  }

  type Tables = map<string, ActivityRow>

  datatype StoreError = Corrupt | NotADatabase | OtherSqlite | Io | Closed | NewerSchema

  /** Whether the file itself is bad, so starting a new one is the fix. */
  predicate IsDamage(error: StoreError) {
    error.NewerSchema? || error.Corrupt? || error.NotADatabase?
  }

  /** What the storage does in one attempt, each part if it is asked: open the
      file, delete it, open it again, open a database in memory, run the call.
      `None` is success. */
  datatype Attempt = Attempt(
    fileOpens: Option<StoreError>,
    deleted: bool,
    fileReopens: Option<StoreError>,
    memoryOpens: bool,
    call: Option<StoreError>)

  predicate Calm(a: Attempt) {
    a.fileOpens.None? && a.memoryOpens && a.call.None?
  }

  datatype Open = OnDisk | InMemory(tables: Tables)

  /** What the store met and did, in order: an open or a call that failed, and
      the deletion of its file. */
  datatype Event = Met(error: StoreError) | Deleted

  /** Each deletion comes right after an error that says the file is damaged. */
  predicate DeletesOnlyDamage(events: seq<Event>) {
    forall i | 0 <= i < |events| && events[i].Deleted? :: i > 0 && SaysDamaged(events[i - 1])
  }

  /** The three errors that say so. */
  predicate SaysDamaged(event: Event) {
    event == Met(Corrupt) || event == Met(NotADatabase) || event == Met(NewerSchema)
  }

  function Deletions(events: seq<Event>): nat {
    if events == [] then 0 else (if events[0].Deleted? then 1 else 0) + Deletions(events[1..])
  }

  lemma {:induction false} DeletionsConcat(a: seq<Event>, b: seq<Event>)
    ensures Deletions(a + b) == Deletions(a) + Deletions(b)
  {
    if a == [] {
      assert a + b == b;
    } else {
      assert (a + b)[1..] == a[1..] + b;
      DeletionsConcat(a[1..], b);
    }
  }

  /** What is open once the store has opened what it can. */
  function Opened(open: Option<Open>, onPath: bool, a: Attempt): Option<Open> {
    if open.Some? then open
    else if onPath && (a.fileOpens.None? || (IsDamage(a.fileOpens.value) && a.fileReopens.None?)) then Some(OnDisk)
    else if a.memoryOpens then Some(InMemory(map[]))
    else None
  }

  /** What opening goes through. */
  function OpenEvents(open: Option<Open>, onPath: bool, a: Attempt): seq<Event> {
    if open.Some? || !onPath || a.fileOpens.None? then []
    else if !IsDamage(a.fileOpens.value) then [Met(a.fileOpens.value)]
    else if a.fileReopens.None? then [Met(a.fileOpens.value), Deleted]
    else [Met(a.fileOpens.value), Deleted, Met(a.fileReopens.value)]
  }

  /** Whether the call meets the first damage a call on the file meets in a run. */
  predicate Discards(open: Option<Open>, a: Attempt, discarded: bool) {
    open == Some(OnDisk) && a.call.Some? && !discarded && IsDamage(a.call.value)
  }

  function CallEvents(open: Option<Open>, a: Attempt, discarded: bool): seq<Event> {
    if open.None? || a.call.None? then []
    else if Discards(open, a, discarded) then [Met(a.call.value), Deleted]
    else [Met(a.call.value)]
  }

  /** What one attempt goes through, from what is open when it starts. */
  function TryEvents(open: Option<Open>, onPath: bool, a: Attempt, discarded: bool): seq<Event> {
    OpenEvents(open, onPath, a) + CallEvents(Opened(open, onPath, a), a, discarded)
  }

  /** Whether an attempt asks for another: its call failed on the file. */
  predicate Again(open: Option<Open>, a: Attempt) {
    open == Some(OnDisk) && a.call.Some?
  }

  /** What the next attempt starts from: nothing open once the file is deleted,
      else memory. */
  function NextOpen(open: Option<Open>, a: Attempt, discarded: bool): Option<Open> {
    if Discards(open, a, discarded) || !a.memoryOpens then None else Some(InMemory(map[]))
  }

  /** What a whole run goes through. */
  function RunEvents(open: Option<Open>, onPath: bool, env: seq<Attempt>, discarded: bool): seq<Event>
    decreases |env|
  {
    if env == [] then []
    else
      var a := env[0];
      var now := Opened(open, onPath, a);
      var tried := TryEvents(open, onPath, a, discarded);
      if !Again(now, a) then tried
      else tried + RunEvents(NextOpen(now, a, discarded), onPath, env[1..], discarded || Discards(now, a, discarded))
  }

  /** A log with at most `n` deletions, each of a damaged file. */
  predicate Careful(events: seq<Event>, n: nat) {
    DeletesOnlyDamage(events) && Deletions(events) <= n
  }

  lemma CarefulConcat(a: seq<Event>, b: seq<Event>, n: nat, m: nat)
    requires Careful(a, n) && Careful(b, m)
    ensures Careful(a + b, n + m)
  {
    forall i | 0 <= i < |a + b| && (a + b)[i].Deleted?
      ensures i > 0 && SaysDamaged((a + b)[i - 1])
    {
      assert i >= |a| ==> b[i - |a|].Deleted?;
    }
    DeletionsConcat(a, b);
  }

  /** An attempt deletes at most what it opens and what its call met. */
  lemma TryCareful(open: Option<Open>, onPath: bool, a: Attempt, discarded: bool)
    ensures Careful(TryEvents(open, onPath, a, discarded),
                    if Discards(Opened(open, onPath, a), a, discarded) then 2 else 1)
  {
    var now := Opened(open, onPath, a);
    OpenCareful(open, onPath, a);
    CallCareful(now, a, discarded);
    CarefulConcat(OpenEvents(open, onPath, a), CallEvents(now, a, discarded), 1,
                  if Discards(now, a, discarded) then 1 else 0);
  }

  lemma MetCareful(error: StoreError)
    ensures Careful([Met(error)], 0)
    ensures IsDamage(error) ==> Careful([Met(error), Deleted], 1)
  {
    assert [Met(error)][1..] == [];
    assert [Met(error), Deleted][1..] == [Deleted] && [Deleted][1..] == [];
  }

  lemma OpenCareful(open: Option<Open>, onPath: bool, a: Attempt)
    ensures Careful(OpenEvents(open, onPath, a), 1)
  {
    if open.None? && onPath && a.fileOpens.Some? {
      MetCareful(a.fileOpens.value);
      if IsDamage(a.fileOpens.value) && a.fileReopens.Some? {
        MetCareful(a.fileReopens.value);
        CarefulConcat([Met(a.fileOpens.value), Deleted], [Met(a.fileReopens.value)], 1, 0);
      }
    }
  }

  lemma CallCareful(open: Option<Open>, a: Attempt, discarded: bool)
    ensures Careful(CallEvents(open, a, discarded), if Discards(open, a, discarded) then 1 else 0)
  {
    if a.call.Some? {
      MetCareful(a.call.value);
    }
  }

  /** **A file is deleted only right after an error that says it is damaged**, at
      most once an attempt and once more in a run. */
  lemma {:induction false} RunCareful(open: Option<Open>, onPath: bool, env: seq<Attempt>, discarded: bool)
    ensures Careful(RunEvents(open, onPath, env, discarded), |env| + if discarded then 0 else 1)
    decreases |env|
  {
    if env != [] {
      var a, now := env[0], Opened(open, onPath, env[0]);
      TryCareful(open, onPath, a, discarded);
      if Again(now, a) {
        var later := discarded || Discards(now, a, discarded);
        RunCareful(NextOpen(now, a, discarded), onPath, env[1..], later);
        CarefulConcat(TryEvents(open, onPath, a, discarded),
                      RunEvents(NextOpen(now, a, discarded), onPath, env[1..], later),
                      if Discards(now, a, discarded) then 2 else 1, |env| - 1 + if later then 0 else 1);
      }
    }
  }

  /** What is left of a run after an attempt. */
  function Rest(open: Option<Open>, onPath: bool, env: seq<Attempt>, k: nat, discarded: bool): seq<Event>
    requires k < |env|
  {
    var now := Opened(open, onPath, env[k]);
    if !Again(now, env[k]) then []
    else
      RunEvents(NextOpen(now, env[k], discarded), onPath, env[k + 1..],
                discarded || Discards(now, env[k], discarded))
  }

  lemma RunStep(open: Option<Open>, onPath: bool, env: seq<Attempt>, k: nat, discarded: bool)
    requires k < |env|
    ensures RunEvents(open, onPath, env[k..], discarded)
         == TryEvents(open, onPath, env[k], discarded) + Rest(open, onPath, env, k, discarded)
  {
    assert env[k..][1..] == env[k + 1..];
  }

  lemma Assoc(a: seq<Event>, b: seq<Event>, c: seq<Event>)
    ensures a + b + c == a + (b + c)
  {
  }

  lemma RunGoesOn(before: seq<Event>, log: seq<Event>, open: Option<Open>, onPath: bool, env: seq<Attempt>, k: nat,
                  discarded: bool)
    returns (tried: seq<Event>)
    requires k < |env|
    ensures tried == TryEvents(open, onPath, env[k], discarded)
    ensures before + log + tried == before + (log + tried)
    ensures log + RunEvents(open, onPath, env[k..], discarded)
         == (log + tried) + Rest(open, onPath, env, k, discarded)
  {
    tried := TryEvents(open, onPath, env[k], discarded);
    RunStep(open, onPath, env, k, discarded);
    Assoc(before, log, tried);
    Assoc(log, tried, Rest(open, onPath, env, k, discarded));
  }

  /** Whether a run gets its answer: an attempt with something open whose call
      does not fail. */
  predicate Succeeds(open: Option<Open>, onPath: bool, env: seq<Attempt>, discarded: bool)
    decreases |env|
  {
    env != [] &&
    var a := env[0];
    var now := Opened(open, onPath, a);
    && now.Some?
    && (|| a.call.None?
        || (Again(now, a) &&
            Succeeds(NextOpen(now, a, discarded), onPath, env[1..], discarded || Discards(now, a, discarded))))
  }

  lemma SucceedsOn(open: Option<Open>, onPath: bool, env: seq<Attempt>, k: nat, discarded: bool)
    requires k < |env|
    ensures var now := Opened(open, onPath, env[k]);
            Succeeds(open, onPath, env[k..], discarded) <==>
              && now.Some?
              && (|| env[k].call.None?
                  || (Again(now, env[k]) &&
                      Succeeds(NextOpen(now, env[k], discarded), onPath, env[k + 1..],
                               discarded || Discards(now, env[k], discarded))))
  {
    assert env[k..][1..] == env[k + 1..];
  }

  /** **When a run answers.** With memory to be had it does when its first call
      does not fail, and when one that failed on the file does not fail again; it
      does not when there is nothing to open, or when the call fails in memory. */
  lemma WhenRunsSucceed(open: Option<Open>, onPath: bool, env: seq<Attempt>)
    requires |env| >= 2
    ensures env[0].memoryOpens && env[0].call.None? ==> Succeeds(open, onPath, env, false)
    ensures open == Some(OnDisk) && env[0].memoryOpens && env[1].memoryOpens && env[1].call.None? ==>
              Succeeds(open, onPath, env, false)
    ensures open.None? && !env[0].memoryOpens && (!onPath || Unopenable(env[0])) ==> !Succeeds(open, onPath, env, false)
    ensures open.Some? && open.value.InMemory? ==> (Succeeds(open, onPath, env, false) <==> env[0].call.None?)
  {
    assert env[1..][0] == env[1];
  }

  /** The file opens neither as it is nor, when it is damaged, made anew. */
  predicate Unopenable(a: Attempt) {
    a.fileOpens.Some? && (SaysDamaged(Met(a.fileOpens.value)) ==> a.fileReopens.Some?)
  }

  /** **What is open.** The file, as it is or made anew after damage; else memory,
      if that opens. A call that fails on the file goes on in memory, but after the
      first damage in a run, when the file is opened anew. */
  lemma WhatIsOpen(a: Attempt, discarded: bool)
    ensures Opened(None, true, a) == Some(OnDisk) <==> !Unopenable(a)
    ensures Opened(None, false, a) != Some(OnDisk)
    ensures forall onPath :: Opened(None, onPath, a) != Some(OnDisk) ==>
              Opened(None, onPath, a) == if a.memoryOpens then Some(InMemory(map[])) else None
    ensures a.call.Some? ==>
              NextOpen(Some(OnDisk), a, discarded) ==
                if a.memoryOpens && (discarded || !SaysDamaged(Met(a.call.value))) then Some(InMemory(map[])) else None
  {
  }

  /** On the file, the first damage a call meets in a run deletes the file, and
      nothing else it meets does. */
  lemma FirstDamageDeletes(a: Attempt, discarded: bool)
    requires a.call.Some?
    ensures Deleted in CallEvents(Some(OnDisk), a, discarded) <==> !discarded && SaysDamaged(Met(a.call.value))
    ensures Deleted in OpenEvents(None, true, a) <==> a.fileOpens.Some? && SaysDamaged(Met(a.fileOpens.value))
  {
    if a.fileOpens.Some? && IsDamage(a.fileOpens.value) {
      assert OpenEvents(None, true, a)[1] == Deleted;
    }
    if !discarded && IsDamage(a.call.value) {
      assert CallEvents(Some(OnDisk), a, discarded)[1] == Deleted;
    }
  }

  lemma RunAfter(before: seq<Event>, open: Option<Open>, onPath: bool, env: seq<Attempt>)
    requires DeletesOnlyDamage(before)
    ensures DeletesOnlyDamage(before + RunEvents(open, onPath, env, false))
  {
    RunCareful(open, onPath, env, false);
    CarefulConcat(before, RunEvents(open, onPath, env, false), Deletions(before), |env| + 1);
  }

  class PackageStateStore {
    /** Whether the store has a path; `file` is what is at it. */
    const onPath: bool
    var file: Option<Tables>
    var open: Option<Open>
    /** What the store has met and done to its file. */
    ghost var events: seq<Event>
    /** Each package's last change recorded with success, in this store's life or
        on the file it began with. */
    ghost var recorded: map<string, ActivityRow>

    constructor (onPath: bool, file: Option<Tables>)
      ensures Valid() && this.onPath == onPath && this.file == file && open.None? && events == []
      ensures recorded == if onPath && file.Some? then file.value else map[]
    {
      this.onPath, this.file, open, events := onPath, file, None, [];
      recorded := if onPath && file.Some? then file.value else map[];
    }

    /** The tables a call made now would run on, if nothing fails. */
    ghost function Current(): Tables
      reads this
    {
      if open.Some? && open.value.InMemory? then open.value.tables
      else if onPath && file.Some? then file.value
      else map[]
    }

    /** Nothing readable is older than the last success, and only a damaged file
        was ever deleted. */
    ghost predicate Valid()
      reads this
    {
      && (!onPath ==> open != Some(OnDisk))
      && DeletesOnlyDamage(events)
      && forall namespace <- Current() ::
           namespace in recorded && recorded[namespace] == Current()[namespace]
    }

    /** A user, or another program, deletes the file. */
    method FileRemoved()
      requires Valid()
      modifies this`file
      ensures Valid() && file.None?
    {
      file := None;
    }

    method DiscardFile(deleted: bool)
      requires onPath
      modifies this`file, this`events
      ensures file == if deleted then None else old(file)
      ensures events == old(events) + [Deleted]
    {
      if deleted {
        file := None;
      }
      events := events + [Deleted];
    }

    ghost method Meet(error: StoreError)
      modifies this`events
      ensures events == old(events) + [Met(error)]
    {
      events := events + [Met(error)];
    }

    method OpenMemoryOrLog(a: Attempt) returns (r: Option<Open>)
      ensures r == if a.memoryOpens then Some(InMemory(map[])) else None
    {
      r := if a.memoryOpens then Some(InMemory(map[])) else None;
    }

    /** Only a damaged file is deleted; any other failure keeps it and uses memory. */
    method OpenConnection(a: Attempt) returns (r: Option<Open>)
      requires open.None?
      modifies this`file, this`events
      ensures events == old(events) + OpenEvents(None, onPath, a)
      ensures r == Opened(None, onPath, a)
      ensures r == Some(OnDisk) ==> file.Some? && (file.value == old(Current()) || file.value == map[])
      ensures onPath && a.fileOpens.None? ==> file == Some(old(Current()))
      ensures r != Some(OnDisk) ==> file == old(file) || file.None?
      ensures old(file).Some? && file != old(file) ==> Deleted in OpenEvents(None, onPath, a)
      ensures !onPath ==> file == old(file)
    {
      if onPath {
        match a.fileOpens {
          case None =>
            file := Some(if file.Some? then file.value else map[]);
            return Some(OnDisk);
          case Some(error) =>
            Meet(error);
            if IsDamage(error) {
              DiscardFile(a.deleted);
              if a.fileReopens.None? {
                file := Some(if file.Some? then file.value else map[]);
                return Some(OnDisk);
              }
              Meet(a.fileReopens.value);
            }
        }
      }
      r := OpenMemoryOrLog(a);
    }

    ghost predicate Remembers()
      reads this
    {
      open.Some? && open.value.InMemory?
    }

    /** What is open: a file deleted under an open connection is not. */
    ghost function StillOpen(): Option<Open>
      reads this
    {
      if open == Some(OnDisk) && file.None? then None else open
    }

    /** Run `op` on what is open. */
    method Call<T>(op: Tables -> (Tables, T), a: Attempt, discarded: bool)
      returns (r: Option<T>, again: bool, discardedNow: bool)
      requires open.Some? && (open == Some(OnDisk) ==> onPath && file.Some?)
      modifies this`file, this`open, this`events
      ensures !onPath ==> open != Some(OnDisk)
      ensures events == old(events) + CallEvents(old(open), a, discarded)
      ensures r.Some? <==> a.call.None?
      ensures r.Some? ==> !again && (Current(), r.value) == op(old(Current()))
      ensures r.None? ==> Current() == old(Current()) || Current() == map[]
      ensures old(Remembers()) ==> !again && Remembers() && file == old(file)
      ensures discardedNow <==> discarded || Discards(old(open), a, discarded)
      ensures old(file).Some? && file != old(file) ==>
                || (r.Some? && file == Some(op(old(file).value).0))
                || Deleted in CallEvents(old(open), a, discarded)
      ensures again <==> Again(old(open), a)
      ensures again ==> open == NextOpen(old(open), a, discarded)
      ensures !again && r.None? ==> Remembers()
    {
      match open.value {
        case OnDisk =>
          if a.call.None? {
            var (tables, value) := op(file.value);
            file := Some(tables);
            return Some(value), false, discarded;
          }
          Meet(a.call.value);
          if !discarded && IsDamage(a.call.value) {
            open := None;
            DiscardFile(a.deleted);
            return None, true, true;
          }
          open := OpenMemoryOrLog(a);
          return None, true, discarded;
        case InMemory(memory) =>
          if a.call.None? {
            var (tables, value) := op(memory);
            open := Some(InMemory(tables));
            return Some(value), false, discarded;
          }
          Meet(a.call.value);
          return None, false, discarded;
      }
    }

    /** Opens the store, if it is not open or its file is gone. */
    method Reopen(a: Attempt)
      requires !onPath ==> open != Some(OnDisk)
      modifies this`file, this`open, this`events
      ensures open == Opened(old(StillOpen()), onPath, a) && (open == Some(OnDisk) ==> onPath && file.Some?)
      ensures events == old(events) + OpenEvents(old(StillOpen()), onPath, a)
      ensures Current() == old(Current()) || Current() == map[]
      ensures a.fileOpens.None? && a.memoryOpens ==> open.Some? && Current() == old(Current())
      ensures old(file).Some? && file != old(file) ==> Deleted in OpenEvents(old(StillOpen()), onPath, a)
      ensures old(Remembers()) ==> open == old(open) && file == old(file)
    {
      var gone := open == Some(OnDisk) && file.None?;
      if gone {
        open := None;
      }
      if open.None? {
        open := OpenConnection(a);
      }
    }

    /** One attempt of `Run`: `again` asks for another. */
    method Try<T>(op: Tables -> (Tables, T), a: Attempt, discarded: bool)
      returns (r: Option<T>, again: bool, discardedNow: bool)
      requires !onPath ==> open != Some(OnDisk)
      modifies this`file, this`open, this`events
      ensures !onPath ==> open != Some(OnDisk)
      ensures events == old(events) + TryEvents(old(StillOpen()), onPath, a, discarded)
      ensures r.Some? <==> Opened(old(StillOpen()), onPath, a).Some? && a.call.None?
      ensures again <==> Again(Opened(old(StillOpen()), onPath, a), a)
      ensures again ==> StillOpen() == NextOpen(Opened(old(StillOpen()), onPath, a), a, discarded)
      ensures discardedNow <==> discarded || Discards(Opened(old(StillOpen()), onPath, a), a, discarded)
      ensures r.Some? ==> !again && RanOnce(op, old(Current()), r.value, Current())
      ensures r.None? ==> Current() == old(Current()) || Current() == map[]
      ensures Calm(a) ==> r.Some? && (Current(), r.value) == op(old(Current()))
      ensures old(Remembers()) ==>
                && !again && Remembers() && file == old(file)
                && Deleted !in TryEvents(old(StillOpen()), onPath, a, discarded)
      ensures old(file).Some? && file != old(file) ==>
                || (r.Some? && file == Some(op(old(file).value).0))
                || Deleted in TryEvents(old(StillOpen()), onPath, a, discarded)
      ensures !again && r.None? && a.memoryOpens ==> Remembers() && a.call.Some?
    {
      Reopen(a);
      if open.None? {
        return None, false, discarded;
      }
      r, again, discardedNow := Call(op, a, discarded);
    }

    /** Run `op`, opening the store first if needed. It runs once, on the tables
        as they were or on none; a store in memory stays there and leaves the
        file alone. It meets and deletes exactly what `RunEvents` says, so by
        `RunCareful` only damaged files; a file not deleted is as it was or as
        `op` left it. With memory to be had a run fails only in memory, within the
        three attempts: `exhausted` says the loop ran out. */
    method Run<T>(op: Tables -> (Tables, T), env: seq<Attempt>)
      returns (r: Option<T>, ghost exhausted: bool, ghost log: seq<Event>)
      requires |env| == 3 && (!onPath ==> open != Some(OnDisk))
      modifies this`file, this`open, this`events
      ensures !onPath ==> open != Some(OnDisk)
      ensures events == old(events) + log && log == RunEvents(old(StillOpen()), onPath, env, false)
      ensures r.Some? <==> Succeeds(old(StillOpen()), onPath, env, false)
      ensures old(file).Some? && Deleted !in log ==>
                file == old(file) || (r.Some? && file == Some(op(old(file).value).0))
      ensures r.Some? ==> RanOnce(op, old(Current()), r.value, Current())
      ensures r.None? ==> Current() == old(Current()) || Current() == map[]
      ensures Calm(env[0]) ==> r.Some? && (Current(), r.value) == op(old(Current()))
      ensures old(Remembers()) ==> Remembers() && file == old(file) && Deleted !in log
      ensures (forall i | 0 <= i < 3 :: env[i].memoryOpens) ==>
                && !exhausted
                && (r.None? ==> Remembers() && exists i | 0 <= i < 3 :: env[i].call.Some?)
    {
      var discarded := false;
      exhausted, log := false, [];
      assert env[0..] == env;
      var attempt := 0;
      while attempt < 3
        invariant 0 <= attempt <= 3
        invariant events == old(events) + log
        invariant log + RunEvents(StillOpen(), onPath, env[attempt..], discarded)
               == RunEvents(old(StillOpen()), onPath, env, false)
        invariant Succeeds(StillOpen(), onPath, env[attempt..], discarded)
             <==> Succeeds(old(StillOpen()), onPath, env, false)
        invariant old(file).Some? && Deleted !in log ==> file == old(file)
        invariant !onPath ==> open != Some(OnDisk)
        invariant Current() == old(Current()) || (attempt > 0 && Current() == map[])
        invariant old(Remembers()) ==> attempt == 0 && Remembers() && file == old(file) && log == []
        invariant attempt > 0 ==> !Calm(env[0])
        invariant (forall i | 0 <= i < 3 :: env[i].memoryOpens) ==>
                    && attempt < 3
                    && (attempt == 1 ==> Remembers() || discarded)
                    && (attempt == 2 ==> Remembers())
      {
        var again;
        SucceedsOn(StillOpen(), onPath, env, attempt, discarded);
        ghost var tried := RunGoesOn(old(events), log, StillOpen(), onPath, env, attempt, discarded);
        r, again, discarded := Try(op, env[attempt], discarded);
        log := log + tried;
        if !again {
          return;
        }
        attempt := attempt + 1;
      }
      r, exhausted := None, true;
    }

    /** Set the package's last-change time, replacing any stored one. */
    method RecordChange(namespace: string, at: Time, source: ChangeSource, env: seq<Attempt>) returns (done: bool)
      requires |env| == 3 && Valid()
      modifies this
      ensures Valid()
      ensures recorded == if done then old(recorded)[namespace := ToRow(at, source)] else old(recorded)
      ensures done <==> Succeeds(old(StillOpen()), onPath, env, false)
      ensures done ==>
                Current() == old(Current())[namespace := ToRow(at, source)]
                || Current() == map[namespace := ToRow(at, source)]
      ensures Calm(env[0]) ==> done && Current() == old(Current())[namespace := ToRow(at, source)]
    {
      var row := ToRow(at, source);
      var upsert := (tables: Tables) => (tables[namespace := row], ());
      RunAfter(events, StillOpen(), onPath, env);
      var r, _, _ := Run(upsert, env);
      done := r.Some?;
      if done {
        recorded := recorded[namespace := row];
      }
    }

    /** Store `at` as a first sighting unless the package already has a time. */
    method RecordFirstSeen(namespace: string, at: Time, env: seq<Attempt>) returns (stored: bool)
      requires |env| == 3 && Valid()
      modifies this
      ensures Valid()
      ensures recorded == if stored then old(recorded)[namespace := ToRow(at, FirstSeen)] else old(recorded)
      ensures stored ==> namespace !in old(Current()) || Current() == map[namespace := ToRow(at, FirstSeen)]
      ensures stored ==> Succeeds(old(StillOpen()), onPath, env, false)
      ensures Succeeds(old(StillOpen()), onPath, env, false) && !stored ==> namespace in old(Current())
      ensures Calm(env[0]) ==>
                && (stored <==> namespace !in old(Current()))
                && Current() == if stored then old(Current())[namespace := ToRow(at, FirstSeen)] else old(Current())
    {
      var row := ToRow(at, FirstSeen);
      var insert := (tables: Tables) =>
        if namespace in tables then (tables, false) else (tables[namespace := row], true);
      RunAfter(events, StillOpen(), onPath, env);
      var r, _, _ := Run(insert, env);
      stored := r == Some(true);
      if stored {
        recorded := recorded[namespace := row];
      }
    }

    /** Delete the package's last-change time. */
    method Forget(namespace: string, env: seq<Attempt>) returns (done: bool)
      requires |env| == 3 && Valid()
      modifies this
      ensures Valid()
      ensures recorded == if done then old(recorded) - {namespace} else old(recorded)
      ensures done <==> Succeeds(old(StillOpen()), onPath, env, false)
      ensures done ==> Current() == old(Current()) - {namespace} || Current() == map[]
      ensures Calm(env[0]) ==> done && Current() == old(Current()) - {namespace}
    {
      var delete := (tables: Tables) => (tables - {namespace}, ());
      RunAfter(events, StillOpen(), onPath, env);
      var r, _, _ := Run(delete, env);
      done := r.Some?;
      if done {
        recorded := recorded - {namespace};
      }
    }

    /** **The last recorded change, or nothing.** What this answers is the last
        change recorded with success, never an older one, whatever failed since. */
    method LastChange(namespace: string, env: seq<Attempt>) returns (r: Option<Activity>)
      requires |env| == 3 && Valid()
      modifies this`file, this`open, this`events
      ensures Valid()
      ensures r.Some? ==> namespace in recorded && r == FromRow(recorded[namespace])
      ensures r.Some? ==> Succeeds(old(StillOpen()), onPath, env, false)
      ensures Calm(env[0]) ==>
                r == if namespace in old(Current()) then FromRow(old(Current())[namespace]) else None
    {
      var query := (tables: Tables) =>
        (tables, if namespace in tables then Some(tables[namespace]) else Option<ActivityRow>.None);
      RunAfter(events, StillOpen(), onPath, env);
      var row, _, _ := Run(query, env);
      if row == None || row.value == None {
        return None;
      }
      return FromRow(row.value.value);
    }
  }

  /** A call ran one time, on the tables as they were or on none. */
  ghost predicate RanOnce<T>(op: Tables -> (Tables, T), before: Tables, value: T, after: Tables) {
    (after, value) == op(before) || (after, value) == op(map[])
  }
}
