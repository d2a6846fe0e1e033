/** Any number of tasks sharing one record: the package locks, the short lock
    around each splice of `data.json`, and the locks taken inside a package's.
    A run is any interleaving of the tasks' steps, crashes included. */
module RecordProtocol {
  import opened Wrappers
  import opened Lineage

  type Task = nat

  /** Lock files, and the in-process mutex taken before a host's lock file. */
  datatype Lock =
    | PackageLock(namespace: Namespace)
    | ShortLock
    | UserRulesLock
    | AuthMutex(app: nat, host: string)
    | AuthFile(host: string)

  /** `basis` is, for each package whose lock the task holds, the entry it last
      read or wrote; `reread` is the record as read under the short lock. */
  datatype TaskState = TaskState(
    held: set<Lock>,
    waits: Option<Lock>,
    basis: map<Namespace, Option<PackageLineage>>,
    reread: Option<File>)

  const IDLE := TaskState({}, None, map[], None)

  datatype Event =
    | Locked(task: Task, namespace: Namespace)
    | Read(task: Task, namespace: Namespace, seen: Option<PackageLineage>)
    | Spliced(task: Task, namespace: Namespace, basis: Option<PackageLineage>,
              over: Option<PackageLineage>, to: Option<PackageLineage>)
    | Edited(task: Task, namespace: Namespace, over: Option<PackageLineage>, to: Option<PackageLineage>)
    | Unlocked(task: Task, namespace: Namespace)
    | Crashed(task: Task)

  datatype State = State(data: File, tasks: seq<TaskState>, log: seq<Event>)

  datatype Step =
    | Ask(lock: Lock)
    | Take
    | TryTake(namespace: Namespace)
    | ReadIt(namespace: Namespace)
    | Reread
    | SpliceIt(namespace: Namespace, to: Option<PackageLineage>)
    | EditIt(namespace: Namespace, edited: PackageLineage)
    | ChangeHome(home: string, overwrite: bool)
    | Fail
    | Release(lock: Lock)
    | Crash

  datatype Move = Move(task: Task, step: Step)

  predicate OnlyPackages(held: set<Lock>) {
    forall lock <- held :: lock.PackageLock?
  }

  predicate Free(s: State, lock: Lock) {
    forall i | 0 <= i < |s.tasks| :: lock !in s.tasks[i].held
  }

  /** What the callers hold where they wait for each lock. */
  predicate MayAsk(held: set<Lock>, lock: Lock) {
    match lock
    case PackageLock(_) => held == {}
    case ShortLock => OnlyPackages(held)
    case UserRulesLock => OnlyPackages(held)
    case AuthMutex(_, _) => OnlyPackages(held)
    case AuthFile(host) => forall k <- held :: k.PackageLock? || (k.AuthMutex? && k.host == host)
  }

  /** Guards drop in the order their holders nest. */
  predicate MayRelease(held: set<Lock>, lock: Lock) {
    && lock in held
    && (lock.PackageLock? ==> OnlyPackages(held))
    && (lock.AuthMutex? ==> AuthFile(lock.host) !in held)
  }

  predicate Enabled(s: State, m: Move) {
    && m.task < |s.tasks|
    && var me := s.tasks[m.task];
       match m.step
       case Ask(lock) => me.waits.None? && MayAsk(me.held, lock)
       case Take => me.waits.Some? && Free(s, me.waits.value)
       case TryTake(namespace) => me.waits.None? && OnlyPackages(me.held) && Free(s, PackageLock(namespace))
       case ReadIt(namespace) =>
         me.waits.None? && PackageLock(namespace) in me.held && ReadRecord(s.data).Ok?
       case Reread => me.waits.None? && ShortLock in me.held && me.reread.None?
       case SpliceIt(namespace, _) =>
         && me.waits.None? && ShortLock in me.held && PackageLock(namespace) in me.held
         && namespace in me.basis && me.reread.Some? && ReadRecord(me.reread.value).Ok?
       case EditIt(namespace, _) =>
         && me.waits.None? && ShortLock in me.held && PackageLock(namespace) in me.held
         && me.reread.Some? && ReadRecord(me.reread.value).Ok?
         && EntryOf(me.reread.value, namespace).Some?
       case ChangeHome(_, _) => me.waits.None? && ShortLock in me.held && me.reread.Some?
       case Fail => me.waits.None? && me.reread.Some?
       case Release(lock) => me.waits.None? && MayRelease(me.held, lock)
       case Crash => true
  }

  function WithTask(s: State, task: Task, me: TaskState, events: seq<Event>): State
    requires task < |s.tasks|
  {
    s.(tasks := s.tasks[task := me], log := s.log + events)
  }

  function Taken(me: TaskState, lock: Lock): TaskState {
    me.(held := me.held + {lock}, waits := None)
  }

  function Released(me: TaskState, lock: Lock): TaskState {
    match lock
    case PackageLock(namespace) => me.(held := me.held - {lock}, basis := me.basis - {namespace})
    case ShortLock => me.(held := me.held - {lock}, reread := None)
    case _ => me.(held := me.held - {lock})
  }

  function LockedEvent(task: Task, lock: Lock): seq<Event> {
    if lock.PackageLock? then [Locked(task, lock.namespace)] else []
  }

  function UnlockedEvent(task: Task, lock: Lock): seq<Event> {
    if lock.PackageLock? then [Unlocked(task, lock.namespace)] else []
  }

  /** The write itself takes the record from the task's own copy, `reread`:
      that the copy is what is on disk is for the proofs to show. */
  function Apply(s: State, m: Move): State
    requires Enabled(s, m)
  {
    var me := s.tasks[m.task];
    match m.step
    case Ask(lock) => WithTask(s, m.task, me.(waits := Some(lock)), [])
    case Take => WithTask(s, m.task, Taken(me, me.waits.value), LockedEvent(m.task, me.waits.value))
    case TryTake(namespace) =>
      WithTask(s, m.task, Taken(me, PackageLock(namespace)), [Locked(m.task, namespace)])
    case ReadIt(namespace) =>
      var seen := EntryOf(s.data, namespace);
      WithTask(s, m.task, me.(basis := me.basis[namespace := seen]), [Read(m.task, namespace, seen)])
    case Reread => WithTask(s, m.task, me.(reread := Some(s.data)), [])
    case SpliceIt(namespace, to) =>
      var copy := me.reread.value;
      WithTask(s, m.task, me.(basis := me.basis[namespace := to], reread := None),
               [Spliced(m.task, namespace, me.basis[namespace], EntryOf(copy, namespace), to)])
      .(data := Holds(Splice(copy.lineage, namespace, to)))
    case EditIt(namespace, to) =>
      var copy := me.reread.value;
      WithTask(s, m.task, me.(basis := me.basis[namespace := Some(to)], reread := None),
               [Edited(m.task, namespace, EntryOf(copy, namespace), Some(to))])
      .(data := Holds(Splice(copy.lineage, namespace, Some(to))))
    case ChangeHome(home, overwrite) =>
      var change := ChangeHomeOf(me.reread.value, home, overwrite);
      var next := WithTask(s, m.task, me.(reread := None), []);
      if change.WriteRecord? then next.(data := Holds(change.lineage)) else next
    case Fail => WithTask(s, m.task, me.(reread := None), [])
    case Release(lock) => WithTask(s, m.task, Released(me, lock), UnlockedEvent(m.task, lock))
    case Crash => WithTask(s, m.task, IDLE, [Crashed(m.task)])
  }

  predicate Legal(s: State, moves: seq<Move>)
    decreases |moves|, 0
  {
    moves == [] ||
    (Legal(s, moves[..|moves| - 1]) && Enabled(After(s, moves[..|moves| - 1]), moves[|moves| - 1]))
  }

  /** The state `moves` lead to. */
  function After(s: State, moves: seq<Move>): State
    requires Legal(s, moves)
    decreases |moves|, 1
  {
    if moves == [] then s else Apply(After(s, moves[..|moves| - 1]), moves[|moves| - 1])
  }

  predicate Init(s: State) {
    && s.log == []
    && forall i | 0 <= i < |s.tasks| :: s.tasks[i] == IDLE
  }

  // ---- The reference: one writer of a package at a time ----

  /** One package as its writers would leave it one after the other: its entry,
      who is writing, and the entry that writer last saw. */
  datatype Turn = Turn(entry: Option<PackageLineage>, writer: Option<Task>, seen: Option<Option<PackageLineage>>)

  /** The one-at-a-time machine on one event; `None` for an event it has not.
      A splice must have been computed from the entry it replaces. */
  function Next(turn: Turn, namespace: Namespace, e: Event): Option<Turn> {
    match e
    case Locked(task, n) =>
      if n != namespace then Some(turn)
      else if turn.writer.None? then Some(Turn(turn.entry, Some(task), None)) else None
    case Read(task, n, seen) =>
      if n != namespace then Some(turn)
      else if turn.writer == Some(task) && seen == turn.entry then Some(turn.(seen := Some(seen))) else None
    case Spliced(task, n, basis, over, to) =>
      if n != namespace then Some(turn)
      else if turn.writer == Some(task) && turn.seen == Some(basis) && basis == over == turn.entry
      then Some(Turn(to, turn.writer, Some(to))) else None
    case Edited(task, n, over, to) =>
      if n != namespace then Some(turn)
      else if turn.writer == Some(task) && over == turn.entry
      then Some(Turn(to, turn.writer, Some(to))) else None
    case Unlocked(task, n) =>
      if n != namespace then Some(turn)
      else if turn.writer == Some(task) then Some(Turn(turn.entry, None, None)) else None
    case Crashed(task) =>
      if turn.writer == Some(task) then Some(Turn(turn.entry, None, None)) else Some(turn)
  }

  /** The whole history of one package run one writer at a time, from `first`;
      `None` when the history is not such a run. */
  function Serial(first: Option<PackageLineage>, namespace: Namespace, log: seq<Event>): Option<Turn>
    decreases |log|
  {
    if log == [] then Some(Turn(first, None, None))
    else
      var before := Serial(first, namespace, log[..|log| - 1]);
      if before.None? then None else Next(before.value, namespace, log[|log| - 1])
  }

  // ---- The invariant ----

  /** No two tasks hold one lock. */
  predicate Exclusive(s: State) {
    forall i, j | 0 <= i < j < |s.tasks| :: s.tasks[i].held !! s.tasks[j].held
  }

  function Rank(lock: Lock): nat {
    match lock
    case PackageLock(_) => 0
    case AuthMutex(_, _) => 1
    case _ => 2
  }

  /** A task waits only for a lock above all it holds. */
  predicate Ordered(me: TaskState) {
    me.waits.Some? ==> forall k <- me.held :: Rank(k) < Rank(me.waits.value)
  }

  /** What a task remembers is what is on disk, for as long as it may act on it. */
  predicate Current(s: State, me: TaskState) {
    && (me.reread.Some? ==> ShortLock in me.held && me.reread.value == s.data)
    && (forall n <- me.basis :: PackageLock(n) in me.held && me.basis[n] == EntryOf(s.data, n))
  }

  predicate Good(s: State) {
    && Exclusive(s)
    && forall i | 0 <= i < |s.tasks| :: Ordered(s.tasks[i]) && Current(s, s.tasks[i])
  }

  /** The one-at-a-time machine agrees with the tasks about one package. */
  predicate Agrees(s: State, namespace: Namespace, turn: Turn) {
    && turn.entry == EntryOf(s.data, namespace)
    && (turn.writer.Some? ==> turn.writer.value < |s.tasks|)
    && (forall i | 0 <= i < |s.tasks| :: PackageLock(namespace) in s.tasks[i].held <==> turn.writer == Some(i))
    && (turn.writer.Some? ==>
          var basis := s.tasks[turn.writer.value].basis;
          turn.seen == if namespace in basis then Some(basis[namespace]) else None)
  }

  /** Each step keeps the invariant. */
  lemma GoodKept(s: State, m: Move)
    requires Good(s) && Enabled(s, m)
    ensures Good(Apply(s, m))
  {
    var s' := Apply(s, m);
    var me := s.tasks[m.task];
    assert forall i | 0 <= i < |s.tasks| && i != m.task :: s'.tasks[i] == s.tasks[i];
    if s'.data != s.data {
      DataStepSparesOthers(s, m);
    }
    forall i | 0 <= i < |s.tasks|
      ensures Ordered(s'.tasks[i]) && Current(s', s'.tasks[i])
    {
    }
  }

  /** A write happens under the short lock, on a copy that is the record on
      disk at that moment: it changes one entry, whose package the writer has
      locked, or the home alone. */
  lemma DataStepSparesOthers(s: State, m: Move)
    requires Good(s) && Enabled(s, m) && Apply(s, m).data != s.data
    ensures ShortLock in s.tasks[m.task].held
    ensures s.tasks[m.task].reread == Some(s.data)
    ensures m.step.SpliceIt? || m.step.EditIt? || m.step.ChangeHome?
    ensures !m.step.ChangeHome? ==>
              && PackageLock(m.step.namespace) in s.tasks[m.task].held
              && s.data.Holds?
              && (exists to :: Apply(s, m).data == Holds(Splice(s.data.lineage, m.step.namespace, to)))
              && (forall n :: n != m.step.namespace ==> EntryOf(Apply(s, m).data, n) == EntryOf(s.data, n))
              && Apply(s, m).data.lineage.home == s.data.lineage.home
    ensures m.step.ChangeHome? ==>
              && Apply(s, m).data.Holds? && Apply(s, m).data.lineage.home == m.step.home
              && (forall n :: EntryOf(Apply(s, m).data, n) == EntryOf(s.data, n))
    ensures forall i | 0 <= i < |s.tasks| && i != m.task :: s.tasks[i].reread.None?
  {
    var me := s.tasks[m.task];
    match m.step {
      case SpliceIt(n, to) => SpliceChangesOneEntry(s.data.lineage, n, to);
      case EditIt(n, to) => SpliceChangesOneEntry(s.data.lineage, n, Some(to));
      case ChangeHome(home, overwrite) => HomeChangeSparesPackages(s.data, home, overwrite);
      case _ =>
    }
  }

  /** A step that writes leaves the record the methods of `DomainLineageIo`
      leave, run in one piece on the record then on disk. */
  lemma StepsAreTheMethods(s: State, m: Move)
    requires Good(s) && Enabled(s, m)
    ensures m.step.SpliceIt? ==>
              var put := (e: Option<PackageLineage>) => Result<(Option<PackageLineage>, ()), Error>.Ok((m.step.to, ()));
              Updated(s.data, SpliceStep(m.step.namespace, put), true) == (Apply(s, m).data, Ok(()))
    ensures m.step.EditIt? ==>
              var put := (e: Option<PackageLineage>) =>
                if e.None? then Result<(Option<PackageLineage>, ()), Error>.Err(NotInstalled(m.step.namespace))
                else Ok((Some(m.step.edited), ()));
              Updated(s.data, SpliceStep(m.step.namespace, put), true) == (Apply(s, m).data, Ok(()))
    ensures m.step.ChangeHome? ==>
              var change := ChangeHomeOf(s.data, m.step.home, m.step.overwrite);
              Apply(s, m).data == if change.WriteRecord? then Holds(change.lineage) else s.data
  {
  }

  lemma {:induction false} GoodRun(s: State, moves: seq<Move>)
    requires Good(s) && Legal(s, moves)
    ensures Good(After(s, moves))
    decreases |moves|
  {
    if moves != [] {
      GoodRun(s, moves[..|moves| - 1]);
      GoodKept(After(s, moves[..|moves| - 1]), moves[|moves| - 1]);
    }
  }

  // ---- No update is lost ----

  /** The serial machine takes the event of a step, if any, and then agrees. */
  ghost predicate Follows(s: State, m: Move, namespace: Namespace, turn: Turn)
    requires Enabled(s, m)
  {
    var s' := Apply(s, m);
    && s.log <= s'.log
    && if |s'.log| == |s.log| then Agrees(s', namespace, turn)
       else
         && |s'.log| == |s.log| + 1
         && var next := Next(turn, namespace, s'.log[|s.log|]);
            next.Some? && Agrees(s', namespace, next.value)
  }

  /** Who writes a package only the lock steps change. */
  lemma LockStepsFollow(s: State, m: Move, namespace: Namespace, turn: Turn)
    requires Good(s) && Enabled(s, m) && Agrees(s, namespace, turn)
    requires m.step.Take? || m.step.TryTake? || m.step.Release? || m.step.Crash?
    ensures Follows(s, m, namespace, turn)
  {
    var s' := Apply(s, m);
    assert forall i | 0 <= i < |s.tasks| && i != m.task :: s'.tasks[i] == s.tasks[i];
    assert s'.data == s.data;
    assert PackageLock(namespace) in s.tasks[m.task].held ==> turn.writer == Some(m.task);
  }

  lemma DataStepsFollow(s: State, m: Move, namespace: Namespace, turn: Turn)
    requires Good(s) && Enabled(s, m) && Agrees(s, namespace, turn)
    requires m.step.SpliceIt? || m.step.EditIt? || m.step.ChangeHome?
    ensures Follows(s, m, namespace, turn)
  {
    OthersStay(s, m);
    if Apply(s, m).data != s.data {
      DataStepSparesOthers(s, m);
    }
    match m.step {
      case SpliceIt(n, to) => SpliceChangesOneEntry(s.data.lineage, n, to);
      case EditIt(n, to) => SpliceChangesOneEntry(s.data.lineage, n, Some(to));
      case _ =>
    }
  }

  /** A step on the record leaves what every task holds, and the other tasks, alone. */
  lemma OthersStay(s: State, m: Move)
    requires Enabled(s, m) && (m.step.SpliceIt? || m.step.EditIt? || m.step.ChangeHome?)
    ensures |Apply(s, m).tasks| == |s.tasks|
    ensures forall i | 0 <= i < |s.tasks| && i != m.task :: Apply(s, m).tasks[i] == s.tasks[i]
    ensures Apply(s, m).tasks[m.task].held == s.tasks[m.task].held
  {
  }

  lemma OtherStepsFollow(s: State, m: Move, namespace: Namespace, turn: Turn)
    requires Good(s) && Enabled(s, m) && Agrees(s, namespace, turn)
    requires m.step.Ask? || m.step.ReadIt? || m.step.Reread? || m.step.Fail?
    ensures Follows(s, m, namespace, turn)
  {
    var s' := Apply(s, m);
    assert forall i | 0 <= i < |s.tasks| && i != m.task :: s'.tasks[i] == s.tasks[i];
    assert s'.tasks[m.task].held == s.tasks[m.task].held;
    assert s'.data == s.data;
  }

  lemma EveryStepFollows(s: State, m: Move, namespace: Namespace, turn: Turn)
    requires Good(s) && Enabled(s, m) && Agrees(s, namespace, turn)
    ensures Follows(s, m, namespace, turn)
  {
    match m.step {
      case Take | TryTake(_) | Release(_) | Crash => LockStepsFollow(s, m, namespace, turn);
      case SpliceIt(_, _) | EditIt(_, _) | ChangeHome(_, _) => DataStepsFollow(s, m, namespace, turn);
      case Ask(_) | ReadIt(_) | Reread | Fail => OtherStepsFollow(s, m, namespace, turn);
    }
  }

  /** **No lost update.** In every run of any number of tasks, with crashes, the
      history of each package is a run of its own writers one at a time: each
      write's basis, the entry it replaced and the entry on disk are one. */
  lemma {:induction false} EveryHistoryIsSerial(s: State, moves: seq<Move>, namespace: Namespace)
    requires Init(s) && Legal(s, moves)
    ensures Good(After(s, moves))
    ensures var turn := Serial(EntryOf(s.data, namespace), namespace, After(s, moves).log);
            turn.Some? && Agrees(After(s, moves), namespace, turn.value)
    decreases |moves|
  {
    if moves != [] {
      var before := After(s, moves[..|moves| - 1]);
      var after := After(s, moves);
      EveryHistoryIsSerial(s, moves[..|moves| - 1], namespace);
      GoodKept(before, moves[|moves| - 1]);
      var turn := Serial(EntryOf(s.data, namespace), namespace, before.log);
      EveryStepFollows(before, moves[|moves| - 1], namespace, turn.value);
      if |after.log| != |before.log| {
        assert after.log[..|after.log| - 1] == before.log;
      } else {
        assert after.log == before.log;
      }
    }
  }

  /** In a serial history every prefix is one too, so the entry each splice was
      computed from is the entry the writers before it left. */
  lemma {:induction false} SplicedOverItsBasis(first: Option<PackageLineage>, namespace: Namespace, log: seq<Event>,
                                               k: nat)
    requires Serial(first, namespace, log).Some?
    requires k < |log| && log[k].Spliced? && log[k].namespace == namespace
    ensures var before := Serial(first, namespace, log[..k]);
            && before.Some?
            && log[k].basis == log[k].over == before.value.entry
            && before.value.writer == Some(log[k].task)
    decreases |log|
  {
    if k == |log| - 1 {
    } else {
      var shorter := log[..|log| - 1];
      assert shorter[..k] == log[..k];
      SplicedOverItsBasis(first, namespace, shorter, k);
    }
  }

  // ---- The home ----

  /** A package is installed in every state of the run but perhaps the last. */
  predicate InstalledThroughout(s: State, moves: seq<Move>)
    requires Legal(s, moves)
    decreases |moves|
  {
    moves == [] ||
    (var most := moves[..|moves| - 1];
     && InstalledThroughout(s, most)
     && After(s, most).data.Holds? && After(s, most).data.lineage.packages != map[])
  }

  /** **The home stays.** While a package is installed in every state of a run,
      and no step overwrites the home, a stored home does not change. */
  lemma {:induction false} HomeStays(s: State, moves: seq<Move>)
    requires Good(s) && Legal(s, moves)
    requires s.data.Holds? && s.data.lineage.home != ""
    requires forall m <- moves :: m.step.ChangeHome? ==> !m.step.overwrite
    requires InstalledThroughout(s, moves)
    ensures After(s, moves).data.Holds?
    ensures After(s, moves).data.lineage.home == s.data.lineage.home
    decreases |moves|
  {
    if moves != [] {
      var most := moves[..|moves| - 1];
      HomeStays(s, most);
      GoodRun(s, most);
      var before := After(s, most);
      var m := moves[|moves| - 1];
      if Apply(before, m).data != before.data {
        DataStepSparesOthers(before, m);
        if m.step.ChangeHome? {
          HomeChangeSparesPackages(before.data, m.step.home, m.step.overwrite);
        }
      }
    }
  }

  // ---- No deadlock ----

  predicate Resting(me: TaskState) {
    me.held == {} && me.waits.None?
  }

  predicate AllRest(s: State) {
    forall i | 0 <= i < |s.tasks| :: Resting(s.tasks[i])
  }

  predicate Finishing(step: Step) {
    step.Take? || step.Release?
  }

  function Load(me: TaskState): nat {
    |me.held| + if me.waits.Some? then 2 else 0
  }

  function TotalLoad(tasks: seq<TaskState>): nat {
    if tasks == [] then 0 else TotalLoad(tasks[..|tasks| - 1]) + Load(tasks[|tasks| - 1])
  }

  lemma {:induction false} LighterTask(tasks: seq<TaskState>, i: nat, me: TaskState)
    requires i < |tasks| && Load(me) < Load(tasks[i])
    ensures TotalLoad(tasks[i := me]) < TotalLoad(tasks)
    decreases |tasks|
  {
    var last := |tasks| - 1;
    if i == last {
      assert tasks[i := me][..last] == tasks[..last];
    } else {
      assert tasks[i := me][..last] == tasks[..last][i := me];
      LighterTask(tasks[..last], i, me);
    }
  }

  /** A task that holds a lock and waits for none can let one go. */
  lemma SomeLockToRelease(held: set<Lock>) returns (lock: Lock)
    requires held != {}
    ensures MayRelease(held, lock)
  {
    if k :| k in held && k.AuthFile? {
      lock := k;
    } else if k :| k in held && !k.PackageLock? {
      lock := k;
    } else {
      lock :| lock in held;
    }
  }

  /** From a waiting task, following who holds what it waits for leads, by the
      lock order, to a task that can step. */
  lemma {:induction false} SomeoneCanStep(s: State, waiter: Task) returns (m: Move)
    requires Good(s) && waiter < |s.tasks| && s.tasks[waiter].waits.Some?
    ensures Enabled(s, m) && Finishing(m.step)
    decreases 2 - Rank(s.tasks[waiter].waits.value)
  {
    var lock := s.tasks[waiter].waits.value;
    if Free(s, lock) {
      m := Move(waiter, Take);
    } else {
      var holder :| 0 <= holder < |s.tasks| && lock in s.tasks[holder].held;
      if s.tasks[holder].waits.Some? {
        assert Rank(lock) < Rank(s.tasks[holder].waits.value);
        m := SomeoneCanStep(s, holder);
      } else {
        var k := SomeLockToRelease(s.tasks[holder].held);
        m := Move(holder, Release(k));
      }
    }
  }

  lemma FinishingLightens(s: State, m: Move)
    requires Good(s) && Enabled(s, m) && Finishing(m.step)
    ensures TotalLoad(Apply(s, m).tasks) < TotalLoad(s.tasks)
  {
    var me := s.tasks[m.task];
    var me' := Apply(s, m).tasks[m.task];
    if m.step.Take? {
      assert me.waits.value !in me.held;
      assert me'.held - {me.waits.value} == me.held;
    } else {
      assert me'.held == me.held - {m.step.lock};
    }
    LighterTask(s.tasks, m.task, me');
  }

  lemma {:induction false} RunsJoin(s: State, first: Move, rest: seq<Move>)
    requires Enabled(s, first) && Legal(Apply(s, first), rest)
    ensures Legal(s, [first] + rest) && After(s, [first] + rest) == After(Apply(s, first), rest)
    decreases |rest|
  {
    var all := [first] + rest;
    if rest == [] {
      assert all[..0] == [];
      assert Legal(s, all[..0]);
    } else {
      var shorter := rest[..|rest| - 1];
      assert all[..|all| - 1] == [first] + shorter;
      RunsJoin(s, first, shorter);
    }
  }

  /** **No deadlock.** From every reachable state, waits granted and locks let
      go in some order bring every task to rest: nobody waits for ever on a
      cycle. */
  lemma {:induction false} EveryRunDrains(s: State) returns (moves: seq<Move>)
    requires Good(s)
    ensures Legal(s, moves) && (forall m <- moves :: Finishing(m.step))
    ensures AllRest(After(s, moves))
    decreases TotalLoad(s.tasks)
  {
    if AllRest(s) {
      moves := [];
    } else {
      var i :| 0 <= i < |s.tasks| && !Resting(s.tasks[i]);
      var m: Move;
      if s.tasks[i].waits.Some? {
        m := SomeoneCanStep(s, i);
      } else {
        var k := SomeLockToRelease(s.tasks[i].held);
        m := Move(i, Release(k));
      }
      FinishingLightens(s, m);
      GoodKept(s, m);
      var rest := EveryRunDrains(Apply(s, m));
      RunsJoin(s, m, rest);
      moves := [m] + rest;
    }
  }
}
