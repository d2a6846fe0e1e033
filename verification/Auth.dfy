/** One host's stored tokens and credentials, the tasks that refresh them under
    the host's lock, the logins that write without it, and each application's
    record of the active role. A run is any interleaving of their steps. */
module Auth {
  import opened Wrappers

  type Token = nat
  type App = nat
  type Role = string

  /** A task of one application; applications share the store and the lock. */
  datatype Task = Task(app: App, id: nat)

  datatype Tokens = Tokens(access: Token, refresh: Token, expiresAt: int)

  /** `serial` is when the server vended them, by the count of vends and flushes. */
  datatype Creds = Creds(serial: nat, expiresAt: int)

  /** Get credentials, ask for or switch the role, ask for a listing, expire the
      credentials, or log out. */
  datatype Call = Vend | AskRole(switch: bool) | List | Expire | Logout

  datatype Pc =
    | Idle
    | Waiting(call: Call)
    | Locked(call: Call)
    | Ready(call: Call, forced: bool)
    | Refreshing(call: Call, forced: bool, token: Token, retried: bool)
    | Storing(call: Call, forced: bool, token: Token, given: Tokens)
    | Calling(call: Call, forced: bool, access: Token)
    | Writing(creds: Creds)
    | Reconciling(switch: bool, role: Role)
    | Flushing(expiring: bool)
    | Erasing

  /** What the token endpoint does with a refresh token. It may rotate the token
      or keep it; `Lost` is a rotation whose answer never comes. */
  datatype Answer =
    | Rotated(tokens: Tokens)
    | KeptToken(access: Token, expiresAt: int)
    | Refused
    | Errored
    | Lost(refresh: Token)

  datatype Reply = Vended(expiresAt: int) | RoleIs(role: Role) | Listed | Unauthorized

  /** Every refresh token the server gave out, and those it has replaced. */
  datatype Server = Server(issued: set<Token>, retired: set<Token>)

  /** What happened so far: the tokens whose own rotation was lost, whether the
      credentials stored now are a login's, how many vends were asked for,
      who was given what, when the last flush was, and who was flushed for. */
  datatype History = History(
    lostFor: set<Token>,
    loginCreds: bool,
    vends: nat,
    served: seq<(Task, Creds)>,
    serial: nat,
    lastFlush: nat,
    flushed: set<App>)

  /** `logins` is what each login was vended and has not written yet. */
  datatype State = State(
    now: int,
    tasks: map<Task, Pc>,
    logins: map<nat, Creds>,
    holder: Option<Task>,
    tokens: Option<Tokens>,
    creds: Option<Creds>,
    roles: map<App, Role>,
    server: Server,
    history: History)

  datatype Step =
    | Tick(to: int)
    | Start(task: Task, call: Call)
    | Acquire(task: Task)
    | Proceed(task: Task)
    | ReadTokens(task: Task)
    | Present(task: Task, answer: Answer)
    | Store(task: Task, ok: bool)
    | Ask(task: Task, reply: Reply)
    | WriteCreds(task: Task)
    | Observe(task: Task)
    | Delete(task: Task, ok: bool)
    | Erase(task: Task, tokensGone: bool, credsGone: bool)
    | Fail(task: Task)
    | Crash(app: App)
    | LoginStore(tokens: Tokens)
    | LoginAsk(login: nat, expiresAt: int)
    | LoginWrite(login: nat)
    | LoginEnd(login: nat)

  function PcOf(s: State, task: Task): Pc {
    if task in s.tasks then s.tasks[task] else Idle
  }

  predicate HoldsLock(pc: Pc) {
    !pc.Idle? && !pc.Waiting?
  }

  /** Credentials past their time read as none. */
  function ReadCreds(s: State): Option<Creds> {
    if s.creds.Some? && s.creds.value.expiresAt <= s.now then None else s.creds
  }

  const WINDOW := 60

  predicate IsFresh(s: State, token: Token) {
    token !in s.server.issued
  }

  /** A token the server gave out and has not replaced. */
  predicate Usable(server: Server, token: Token) {
    token in server.issued && token !in server.retired
  }

  /** What the server may do: it renews a usable token only, with one it never
      gave out. It may refuse any, and any answer may be an error. */
  predicate Possible(s: State, token: Token, answer: Answer) {
    match answer
    case Rotated(tokens) => Usable(s.server, token) && IsFresh(s, tokens.refresh)
    case KeptToken(_, _) => Usable(s.server, token)
    case Lost(refresh) => Usable(s.server, token) && IsFresh(s, refresh)
    case Refused => true
    case Errored => true
  }

  predicate Fits(call: Call, reply: Reply) {
    match reply
    case Vended(_) => call.Vend?
    case RoleIs(_) => call.AskRole?
    case Listed => call.List?
    case Unauthorized => true
  }

  predicate Enabled(s: State, step: Step) {
    match step
    case Tick(to) => s.now <= to
    case Start(t, call) => PcOf(s, t).Idle?
    case Acquire(t) => PcOf(s, t).Waiting? && s.holder.None?
    case Proceed(t) => PcOf(s, t).Locked?
    case ReadTokens(t) => PcOf(s, t).Ready? && s.tokens.Some?
    case Present(t, answer) => PcOf(s, t).Refreshing? && Possible(s, PcOf(s, t).token, answer)
    case Store(t, _) => PcOf(s, t).Storing?
    case Ask(t, reply) => PcOf(s, t).Calling? && Fits(PcOf(s, t).call, reply)
    case WriteCreds(t) => PcOf(s, t).Writing?
    case Observe(t) => PcOf(s, t).Reconciling?
    case Delete(t, _) => PcOf(s, t).Flushing?
    case Erase(t, _, _) => PcOf(s, t).Erasing?
    case Fail(t) =>
      var pc := PcOf(s, t);
      pc.Waiting? || pc.Locked? || pc.Ready? || pc.Refreshing? || pc.Calling? || pc.Writing?
    case Crash(_) => true
    case LoginStore(tokens) => IsFresh(s, tokens.refresh)
    case LoginAsk(login, _) => login !in s.logins
    case LoginWrite(login) => login in s.logins
    case LoginEnd(login) => login in s.logins
  }

  function At(s: State, task: Task, pc: Pc): State {
    s.(tasks := s.tasks[task := pc])
  }

  /** The task's call ends, and its lock is let go. */
  function Ended(s: State, task: Task): State {
    s.(tasks := s.tasks[task := Idle], holder := if s.holder == Some(task) then None else s.holder)
  }

  function Served(s: State, task: Task, creds: Creds): State {
    s.(history := s.history.(served := s.history.served + [(task, creds)]))
  }

  /** The credentials on disk; `login` is whether a login put them there. */
  function Stored(s: State, creds: Creds, login: bool): State {
    s.(creds := Some(creds), history := s.history.(loginCreds := login))
  }

  function Retired(s: State, token: Token, given: Token): State {
    s.(server := Server(s.server.issued + {given}, s.server.retired + {token}))
  }

  /** The tokens given for these never reach the store. */
  function LostRotation(s: State, tokens: set<Token>): State {
    s.(history := s.history.(lostFor := s.history.lostFor + tokens))
  }

  function AfterProceed(s: State, task: Task, call: Call): State {
    match call
    case Expire => At(s, task, Flushing(true))
    case Logout => At(s, task, Erasing)
    case Vend =>
      if ReadCreds(s).Some? then Ended(Served(s, task, ReadCreds(s).value), task) else At(s, task, Ready(Vend, false))
    case AskRole(_) => At(s, task, Ready(call, false))
    case List => At(s, task, Ready(call, false))
  }

  /** A token inside its last minute is refreshed first; on the second leg of a
      refused call any token is. */
  function AfterReadTokens(s: State, task: Task, call: Call, forced: bool, tokens: Tokens): State {
    if forced || tokens.expiresAt <= s.now + WINDOW then At(s, task, Refreshing(call, forced, tokens.refresh, false))
    else At(s, task, Calling(call, forced, tokens.access))
  }

  function AfterPresent(s: State, task: Task, pc: Pc, answer: Answer): State
    requires pc.Refreshing?
  {
    match answer
    case Rotated(tokens) =>
      At(Retired(s, pc.token, tokens.refresh), task, Storing(pc.call, pc.forced, pc.token, tokens))
    case KeptToken(access, expiresAt) =>
      At(s, task, Storing(pc.call, pc.forced, pc.token, Tokens(access, pc.token, expiresAt)))
    case Refused =>
      if pc.retried then Ended(s, task) else At(s, task, Refreshing(pc.call, pc.forced, pc.token, true))
    case Errored => Ended(s, task)
    case Lost(refresh) =>
      Ended(LostRotation(Retired(s, pc.token, refresh), {pc.token}), task)
  }

  function AfterStore(s: State, task: Task, pc: Pc, ok: bool): State
    requires pc.Storing?
  {
    if ok then At(s.(tokens := Some(pc.given)), task, Calling(pc.call, pc.forced, pc.given.access))
    else Ended(LostRotation(s, if pc.given.refresh != pc.token then {pc.token} else {}), task)
  }

  function AfterAsk(s: State, task: Task, pc: Pc, reply: Reply): State
    requires pc.Calling? && Fits(pc.call, reply)
  {
    var asked := if pc.call.Vend? then s.(history := s.history.(vends := s.history.vends + 1)) else s;
    match reply
    case Vended(expiresAt) =>
      var serial := s.history.serial + 1;
      At(asked.(history := asked.history.(serial := serial)), task, Writing(Creds(serial, expiresAt)))
    case RoleIs(role) => At(asked, task, Reconciling(pc.call.switch, role))
    case Listed => Ended(asked, task)
    case Unauthorized => if pc.forced then Ended(asked, task) else At(asked, task, Ready(pc.call, true))
  }

  /** A switch drops the record first. A role that is not the one on record goes
      on record, and the credentials are flushed. */
  function AfterObserve(s: State, task: Task, switch: bool, role: Role): State {
    var before := if switch then s.roles - {task.app} else s.roles;
    var after := s.(roles := before[task.app := role]);
    if task.app in before && before[task.app] == role then Ended(after, task)
    else At(after.(history := s.history.(flushed := s.history.flushed - {task.app})), task, Flushing(false))
  }

  /** A flush that fails drops the record again; one that was asked for has none. */
  function AfterDelete(s: State, task: Task, expiring: bool, ok: bool): State {
    if !ok then Ended(if expiring then s else s.(roles := s.roles - {task.app}), task)
    else
      var serial := s.history.serial + 1;
      var flushed := s.history.flushed + s.roles.Keys;
      Ended(s.(creds := None,
               history := s.history.(serial := serial, lastFlush := serial, flushed := flushed, loginCreds := false)),
            task)
  }

  /** A logout removes the host's files; one that fails part-way leaves some. */
  function AfterErase(s: State, task: Task, tokensGone: bool, credsGone: bool): State {
    var kept := if credsGone then s.(creds := None, history := s.history.(loginCreds := false)) else s;
    Ended(if tokensGone then kept.(tokens := None) else kept, task)
  }

  /** The application is gone: its tasks, its lock, and its record of the role. */
  function AfterCrash(s: State, app: App): State {
    var cut := set t <- s.tasks | t.app == app && MidRotation(s.tasks[t]) :: s.tasks[t].token;
    LostRotation(s, cut)
    .(tasks := map t | t in s.tasks && t.app != app :: s.tasks[t],
      holder := if s.holder.Some? && s.holder.value.app == app then None else s.holder,
      roles := s.roles - {app})
  }

  /** The server has replaced the token, and the new one is not stored yet. */
  predicate MidRotation(pc: Pc) {
    pc.Storing? && pc.given.refresh != pc.token
  }

  function Apply(s: State, step: Step): State
    requires Enabled(s, step)
  {
    match step
    case Tick(to) => s.(now := to)
    case Start(t, call) =>
      if call.Vend? && ReadCreds(s).Some? then Served(s, t, ReadCreds(s).value) else At(s, t, Waiting(call))
    case Acquire(t) => At(s.(holder := Some(t)), t, Locked(PcOf(s, t).call))
    case Proceed(t) => AfterProceed(s, t, PcOf(s, t).call)
    case ReadTokens(t) => AfterReadTokens(s, t, PcOf(s, t).call, PcOf(s, t).forced, s.tokens.value)
    case Present(t, answer) => AfterPresent(s, t, PcOf(s, t), answer)
    case Store(t, ok) => AfterStore(s, t, PcOf(s, t), ok)
    case Ask(t, reply) => AfterAsk(s, t, PcOf(s, t), reply)
    case WriteCreds(t) =>
      var creds := PcOf(s, t).creds;
      Ended(Stored(Served(s, t, creds), creds, false), t)
    case Observe(t) => AfterObserve(s, t, PcOf(s, t).switch, PcOf(s, t).role)
    case Delete(t, ok) => AfterDelete(s, t, PcOf(s, t).expiring, ok)
    case Erase(t, tokensGone, credsGone) => AfterErase(s, t, tokensGone, credsGone)
    case Fail(t) => Ended(s, t)
    case Crash(app) => AfterCrash(s, app)
    case LoginStore(tokens) =>
      s.(tokens := Some(tokens), server := s.server.(issued := s.server.issued + {tokens.refresh}))
    case LoginAsk(login, expiresAt) =>
      var serial := s.history.serial + 1;
      s.(logins := s.logins[login := Creds(serial, expiresAt)], history := s.history.(serial := serial))
    case LoginWrite(login) => Stored(s, s.logins[login], true).(logins := s.logins - {login})
    case LoginEnd(login) => s.(logins := s.logins - {login})
  }

  /** The states gone through, and the steps between them. */
  datatype Trace = Trace(states: seq<State>, steps: seq<Step>)

  predicate Follows(s: State, step: Step, next: State) {
    Enabled(s, step) && next == Apply(s, step)
  }

  /** Each state follows from the one before by an enabled step. */
  predicate IsRun(t: Trace) {
    && |t.states| == |t.steps| + 1
    && forall i | 0 <= i < |t.steps| :: FollowsAt(t, i)
  }

  predicate FollowsAt(t: Trace, i: nat)
    requires i < |t.steps| && i + 1 < |t.states|
  {
    Follows(t.states[i], t.steps[i], t.states[i + 1])
  }

  type Run = t: Trace | IsRun(t) witness Trace([START], [])

  /** A run from the start. */
  type WholeRun = run: Run | Init(run.states[0]) witness Trace([START], [])

  const START := State(0, map[], map[], None, None, None, map[], Server({}, {}),
                       History({}, false, 0, [], 0, 0, {}))

  /** One step of a run. */
  lemma StepOf(run: Run, i: nat)
    requires i < |run.steps|
    ensures i + 1 < |run.states| && Follows(run.states[i], run.steps[i], run.states[i + 1])
  {
    assert FollowsAt(run, i);
  }

  predicate Init(s: State) {
    && s.tasks == map[] && s.logins == map[] && s.holder == None && s.roles == map[]
    && s.server.retired <= s.server.issued
    && (s.tokens.Some? ==> s.tokens.value.refresh in s.server.issued - s.server.retired)
    && (s.creds.Some? ==> s.history.lastFlush < s.creds.value.serial)
    && s.history.lostFor == {} && !s.history.loginCreds && s.history.flushed == {}
    && s.history.lastFlush <= s.history.serial
  }

  // ---- What every run keeps ----

  /** The tasks that hold the lock are the one on record as its holder. */
  predicate OneHolder(s: State) {
    && (forall t <- s.tasks :: HoldsLock(s.tasks[t]) <==> s.holder == Some(t))
    && (s.holder.Some? ==> s.holder.value in s.tasks)
  }

  function HolderPc(s: State): Pc {
    if s.holder.None? then Idle else PcOf(s, s.holder.value)
  }

  /** The stored token, and the one in the holder's hands, is replaced only if its
      rotation was lost, but for the stored one between a rotation and its store. */
  predicate TokensGood(s: State) {
    && s.history.lostFor <= s.server.retired <= s.server.issued
    && (s.tokens.Some? ==>
          && s.tokens.value.refresh in s.server.issued
          && (s.tokens.value.refresh in s.server.retired ==>
                || s.tokens.value.refresh in s.history.lostFor
                || (MidRotation(HolderPc(s)) && HolderPc(s).token == s.tokens.value.refresh)))
    && (HolderPc(s).Refreshing? ==> OnlyLost(s, HolderPc(s).token))
    && (HolderPc(s).Storing? ==>
          OnlyLost(s, HolderPc(s).given.refresh)
          && (MidRotation(HolderPc(s)) ==> HolderPc(s).token in s.server.retired))
  }

  /** A token the server gave out, and replaced only if its rotation was lost. */
  predicate OnlyLost(s: State, token: Token) {
    token in s.server.issued && (token in s.server.retired ==> token in s.history.lostFor)
  }

  /** A vend is under way, past the look at the stored credentials under the lock. */
  predicate Vending(pc: Pc) {
    || pc.Writing?
    || ((pc.Ready? || pc.Refreshing? || pc.Storing? || pc.Calling?) && pc.call.Vend?)
  }

  predicate VendsGood(s: State) {
    Vending(HolderPc(s)) ==> ReadCreds(s).None? || s.history.loginCreds
  }

  predicate FlushGood(s: State) {
    && s.history.lastFlush <= s.history.serial
    && (HolderPc(s).Writing? ==> s.history.lastFlush < HolderPc(s).creds.serial)
    && (s.creds.Some? ==>
          && s.creds.value.serial != s.history.lastFlush
          && (s.history.lastFlush < s.creds.value.serial || s.history.loginCreds))
    && forall login <- s.logins ::
         s.logins[login].serial <= s.history.serial && s.logins[login].serial != s.history.lastFlush
  }

  /** A call of the application has put a role on record and not flushed yet. */
  predicate MidFlush(s: State, app: App) {
    s.holder.Some? && s.holder.value.app == app && HolderPc(s) == Flushing(false)
  }

  predicate RolesGood(s: State) {
    forall app <- s.roles :: app in s.history.flushed || MidFlush(s, app)
  }

  predicate Good(s: State) {
    OneHolder(s) && TokensGood(s) && VendsGood(s) && FlushGood(s) && RolesGood(s)
  }

  /** The steps that end a request, and the crash that may cut one off. */
  predicate AsksServer(step: Step) {
    step.Present? || step.Ask? || step.Store? || step.Crash?
  }

  /** The other steps that change what is stored, or take it in hand. */
  predicate MovesStore(step: Step) {
    step.ReadTokens? || step.WriteCreds? || step.Delete? || step.Erase?
  }

  /** The steps of a login, which takes no lock. */
  predicate IsLogin(step: Step) {
    step.LoginStore? || step.LoginAsk? || step.LoginWrite? || step.LoginEnd?
  }

  lemma OneHolderStart(s: State, task: Task, call: Call)
    requires OneHolder(s) && Enabled(s, Start(task, call))
    ensures OneHolder(Apply(s, Start(task, call)))
  {
  }

  lemma OneHolderFail(s: State, task: Task)
    requires OneHolder(s) && Enabled(s, Fail(task))
    ensures OneHolder(Apply(s, Fail(task)))
  {
  }

  lemma OneHolderCrash(s: State, app: App)
    requires OneHolder(s)
    ensures OneHolder(Apply(s, Crash(app)))
  {
  }

  lemma OneHolderKept(s: State, step: Step)
    requires OneHolder(s) && Enabled(s, step)
    ensures OneHolder(Apply(s, step))
  {
    if IsLogin(step) {
      LoginSpares(s, step);
    } else if MovesStore(step) {
      OneHolderMoved(s, step);
    } else if step.Crash? {
      OneHolderCrash(s, step.app);
    } else if step.Fail? {
      OneHolderFail(s, step.task);
    } else if step.Start? {
      OneHolderStart(s, step.task, step.call);
    } else if step.Present? {
      OneHolderPresent(s, step.task, step.answer);
    } else {
      OneHolderOther(s, step);
    }
  }

  /** A login touches no task and no lock, and asks for no task's vend. */
  lemma LoginSpares(s: State, step: Step)
    requires Enabled(s, step) && IsLogin(step)
    ensures var next := Apply(s, step);
            && next.tasks == s.tasks && next.holder == s.holder && next.roles == s.roles && next.now == s.now
            && next.history.vends == s.history.vends && next.history.served == s.history.served
            && next.history.flushed == s.history.flushed && next.history.lostFor == s.history.lostFor
            && next.history.lastFlush == s.history.lastFlush
  {
  }

  lemma OneHolderMoved(s: State, step: Step)
    requires OneHolder(s) && Enabled(s, step) && MovesStore(step)
    ensures OneHolder(Apply(s, step))
  {
  }

  lemma OneHolderPresent(s: State, task: Task, answer: Answer)
    requires OneHolder(s) && Enabled(s, Present(task, answer))
    ensures OneHolder(Apply(s, Present(task, answer)))
  {
  }

  lemma OneHolderOther(s: State, step: Step)
    requires OneHolder(s) && Enabled(s, step) && !step.Present? && !step.Crash? && !step.Fail? && !step.Start?
    requires !IsLogin(step) && !MovesStore(step)
    ensures OneHolder(Apply(s, step))
  {
  }

  lemma TokensKept(s: State, step: Step)
    requires OneHolder(s) && TokensGood(s) && Enabled(s, step)
    ensures TokensGood(Apply(s, step))
  {
    if step.Crash? {
      TokensCrash(s, step.app);
    } else if step.Present? {
      TokensPresented(s, step.task, step.answer);
    } else if AsksServer(step) {
      TokensAsked(s, step);
    } else if IsLogin(step) {
      TokensLogin(s, step);
    } else if step.ReadTokens? {
      TokensRead(s, step.task);
    } else if MovesStore(step) {
      TokensMoved(s, step);
    } else {
      TokensOther(s, step);
    }
  }

  lemma TokensCrash(s: State, app: App)
    requires OneHolder(s) && TokensGood(s)
    ensures TokensGood(AfterCrash(s, app))
  {
  }

  lemma TokensPresented(s: State, task: Task, answer: Answer)
    requires OneHolder(s) && TokensGood(s) && Enabled(s, Present(task, answer))
    ensures TokensGood(Apply(s, Present(task, answer)))
  {
  }

  lemma TokensLogin(s: State, step: Step)
    requires TokensGood(s) && Enabled(s, step) && IsLogin(step)
    ensures TokensGood(Apply(s, step))
  {
  }

  lemma TokensAsked(s: State, step: Step)
    requires OneHolder(s) && TokensGood(s) && Enabled(s, step) && (step.Store? || step.Ask?)
    ensures TokensGood(Apply(s, step))
  {
  }

  lemma TokensRead(s: State, task: Task)
    requires OneHolder(s) && TokensGood(s) && Enabled(s, ReadTokens(task))
    ensures TokensGood(Apply(s, ReadTokens(task)))
  {
  }

  lemma TokensMoved(s: State, step: Step)
    requires OneHolder(s) && TokensGood(s) && Enabled(s, step) && MovesStore(step) && !step.ReadTokens?
    ensures TokensGood(Apply(s, step))
  {
  }

  lemma TokensOther(s: State, step: Step)
    requires OneHolder(s) && TokensGood(s) && Enabled(s, step) && !AsksServer(step) && !MovesStore(step)
    requires !IsLogin(step)
    ensures TokensGood(Apply(s, step))
  {
  }

  lemma VendsKept(s: State, step: Step)
    requires OneHolder(s) && VendsGood(s) && Enabled(s, step)
    ensures VendsGood(Apply(s, step))
  {
    if IsLogin(step) {
      LoginSpares(s, step);
    } else if AsksServer(step) {
      VendsAsked(s, step);
    } else {
      VendsOther(s, step);
    }
  }

  lemma VendsAsked(s: State, step: Step)
    requires OneHolder(s) && VendsGood(s) && Enabled(s, step) && AsksServer(step)
    ensures VendsGood(Apply(s, step))
  {
  }

  lemma VendsOther(s: State, step: Step)
    requires OneHolder(s) && VendsGood(s) && Enabled(s, step) && !AsksServer(step) && !IsLogin(step)
    ensures VendsGood(Apply(s, step))
  {
  }

  lemma FlushKept(s: State, step: Step)
    requires OneHolder(s) && FlushGood(s) && Enabled(s, step)
    ensures FlushGood(Apply(s, step))
  {
    if step.Crash? {
      FlushCrash(s, step.app);
    } else if step.Present? {
      FlushPresented(s, step.task, step.answer);
    } else if AsksServer(step) {
      FlushAsked(s, step);
    } else if IsLogin(step) {
      FlushLogin(s, step);
    } else if step.Delete? {
      FlushDeleted(s, step.task, step.ok);
    } else if MovesStore(step) {
      FlushMoved(s, step);
    } else {
      FlushOther(s, step);
    }
  }

  lemma FlushCrash(s: State, app: App)
    requires OneHolder(s) && FlushGood(s)
    ensures FlushGood(AfterCrash(s, app))
  {
  }

  lemma FlushPresented(s: State, task: Task, answer: Answer)
    requires OneHolder(s) && FlushGood(s) && Enabled(s, Present(task, answer))
    ensures FlushGood(Apply(s, Present(task, answer)))
  {
  }

  lemma FlushAsked(s: State, step: Step)
    requires OneHolder(s) && FlushGood(s) && Enabled(s, step) && (step.Ask? || step.Store?)
    ensures FlushGood(Apply(s, step))
  {
  }

  lemma FlushLogin(s: State, step: Step)
    requires FlushGood(s) && Enabled(s, step) && IsLogin(step)
    ensures FlushGood(Apply(s, step))
  {
  }

  lemma FlushDeleted(s: State, task: Task, ok: bool)
    requires OneHolder(s) && FlushGood(s) && Enabled(s, Delete(task, ok))
    ensures FlushGood(Apply(s, Delete(task, ok)))
  {
  }

  lemma FlushMoved(s: State, step: Step)
    requires OneHolder(s) && FlushGood(s) && Enabled(s, step) && MovesStore(step) && !step.Delete?
    ensures FlushGood(Apply(s, step))
  {
  }

  lemma FlushOther(s: State, step: Step)
    requires OneHolder(s) && FlushGood(s) && Enabled(s, step) && !AsksServer(step) && !MovesStore(step)
    requires !IsLogin(step)
    ensures FlushGood(Apply(s, step))
  {
  }

  lemma RolesKept(s: State, step: Step)
    requires OneHolder(s) && RolesGood(s) && Enabled(s, step)
    ensures RolesGood(Apply(s, step))
  {
    match step
    case Observe(t) => RolesObserve(s, t);
    case Delete(t, ok) => RolesDelete(s, t, ok);
    case Crash(app) => RolesCrash(s, app);
    case _ => RolesOther(s, step);
  }

  lemma RolesObserve(s: State, task: Task)
    requires OneHolder(s) && RolesGood(s) && PcOf(s, task).Reconciling?
    ensures RolesGood(Apply(s, Observe(task)))
  {
  }

  lemma RolesDelete(s: State, task: Task, ok: bool)
    requires OneHolder(s) && RolesGood(s) && PcOf(s, task).Flushing?
    ensures RolesGood(Apply(s, Delete(task, ok)))
  {
  }

  lemma RolesCrash(s: State, app: App)
    requires OneHolder(s) && RolesGood(s)
    ensures RolesGood(AfterCrash(s, app))
  {
  }

  /** Steps of the calls other than a flush keep what is on record and flushed. */
  lemma RecordSame(s: State, step: Step)
    requires Enabled(s, step) && !step.Observe? && !step.Delete? && !step.Crash?
    ensures Apply(s, step).roles == s.roles && Apply(s, step).history.flushed == s.history.flushed
  {
    if AsksServer(step) {
      AskedRecordSame(s, step);
    } else if IsLogin(step) {
      LoginSpares(s, step);
    }
  }

  lemma AskedRecordSame(s: State, step: Step)
    requires Enabled(s, step) && AsksServer(step) && !step.Crash?
    ensures Apply(s, step).roles == s.roles && Apply(s, step).history.flushed == s.history.flushed
  {
  }

  lemma RolesOther(s: State, step: Step)
    requires OneHolder(s) && RolesGood(s) && Enabled(s, step)
    requires !step.Observe? && !step.Delete? && !step.Crash?
    ensures RolesGood(Apply(s, step))
  {
    RecordSame(s, step);
    forall app | app in s.roles && MidFlush(s, app) ensures MidFlush(Apply(s, step), app) {
    }
  }

  lemma {:induction false} GoodRun(run: WholeRun, i: nat)
    requires i < |run.states|
    ensures Good(run.states[i])
  {
    if i > 0 {
      GoodRun(run, i - 1);
      StepOf(run, i - 1);
      var s, step := run.states[i - 1], run.steps[i - 1];
      OneHolderKept(s, step);
      TokensKept(s, step);
      VendsKept(s, step);
      FlushKept(s, step);
      RolesKept(s, step);
    }
  }

  // ---- Retired tokens ----

  /** The step loses the rotation of `token`: the answer never comes, is not
      stored, or is cut off by a crash. */
  predicate Loses(s: State, step: Step, token: Token) {
    match step
    case Present(t, Lost(_)) => PcOf(s, t).Refreshing? && PcOf(s, t).token == token
    case Store(t, ok) => !ok && MidRotation(PcOf(s, t)) && PcOf(s, t).token == token
    case Crash(app) => exists t <- s.tasks :: t.app == app && MidRotation(s.tasks[t]) && s.tasks[t].token == token
    case _ => false
  }

  lemma LosesOrHas(s: State, step: Step, token: Token)
    requires Enabled(s, step)
    ensures token in Apply(s, step).history.lostFor <==> token in s.history.lostFor || Loses(s, step, token)
  {
  }

  lemma {:induction false} LostIsLost(run: WholeRun, i: nat, token: Token)
    requires i < |run.states|
    ensures token in run.states[i].history.lostFor <==>
              exists k | 0 <= k < i :: Loses(run.states[k], run.steps[k], token)
  {
    if i > 0 {
      LostIsLost(run, i - 1, token);
      StepOf(run, i - 1);
      LosesOrHas(run.states[i - 1], run.steps[i - 1], token);
    }
  }

  /** **A retired token is presented exactly when its own rotation was lost**, in
      any run, logins and crashes included. */
  lemma RetiredOnlyAfterLoss(run: WholeRun, i: nat)
    requires i < |run.steps| && run.steps[i].Present?
    ensures PcOf(run.states[i], run.steps[i].task).Refreshing?
    ensures var token := PcOf(run.states[i], run.steps[i].task).token;
            token in run.states[i].server.retired <==>
            exists k | 0 <= k < i :: Loses(run.states[k], run.steps[k], token)
  {
    GoodRun(run, i);
    StepOf(run, i);
    LostIsLost(run, i, PcOf(run.states[i], run.steps[i].task).token);
  }

  /** So every other token presented, on the forced second refresh too, which
      reads the stored tokens again, is one the server takes. */
  lemma SecondRefreshIsUsable(run: WholeRun, i: nat)
    requires i < |run.steps| && run.steps[i].Present?
    ensures PcOf(run.states[i], run.steps[i].task).Refreshing?
    ensures var token := PcOf(run.states[i], run.steps[i].task).token;
            Usable(run.states[i].server, token) <==>
            !exists k | 0 <= k < i :: Loses(run.states[k], run.steps[k], token)
  {
    RetiredOnlyAfterLoss(run, i);
    GoodRun(run, i);
  }

  /** The store holds a token the server has replaced, or none, and so does the
      holder's hand. */
  predicate StuckOn(s: State, token: Token) {
    && token in s.server.retired
    && (s.tokens.Some? ==> s.tokens.value.refresh == token)
    && (HolderPc(s).Refreshing? ==> HolderPc(s).token == token)
    && !HolderPc(s).Storing?
  }

  lemma StuckStep(s: State, step: Step, next: State, token: Token)
    requires OneHolder(s) && Follows(s, step, next) && StuckOn(s, token)
    requires !step.Present? && !step.LoginStore?
    ensures StuckOn(next, token)
  {
    if AsksServer(step) {
      StuckAsked(s, step, token);
    } else if MovesStore(step) {
      StuckMoved(s, step, token);
    }
  }

  lemma StuckMoved(s: State, step: Step, token: Token)
    requires OneHolder(s) && Enabled(s, step) && StuckOn(s, token) && MovesStore(step)
    ensures StuckOn(Apply(s, step), token)
  {
  }

  lemma StuckAsked(s: State, step: Step, token: Token)
    requires OneHolder(s) && Enabled(s, step) && StuckOn(s, token) && AsksServer(step) && !step.Present?
    ensures StuckOn(Apply(s, step), token)
  {
  }

  lemma {:induction false} StuckUntilPresented(run: WholeRun, i: nat, m: nat, token: Token)
    requires i <= m < |run.states| && StuckOn(run.states[i], token)
    requires forall k | i <= k < m :: !run.steps[k].Present? && !run.steps[k].LoginStore?
    ensures StuckOn(run.states[m], token)
    decreases m
  {
    if i < m {
      StuckUntilPresented(run, i, m - 1, token);
      OneHolderRun(run, m - 1);
      StepOf(run, m - 1);
      StuckStep(run.states[m - 1], run.steps[m - 1], run.states[m], token);
    }
  }

  /** **A retired token in the store is presented**: with the lock free and a
      replaced token stored, the next token any caller presents before a login
      stores new ones is that token. */
  lemma StoredRetiredIsPresented(run: WholeRun, i: nat, m: nat)
    requires i <= m < |run.steps| && run.states[i].holder.None? && run.states[i].tokens.Some?
    requires run.states[i].tokens.value.refresh in run.states[i].server.retired
    requires run.steps[m].Present?
    requires forall k | i <= k < m :: !run.steps[k].Present? && !run.steps[k].LoginStore?
    ensures PcOf(run.states[m], run.steps[m].task).Refreshing?
    ensures PcOf(run.states[m], run.steps[m].task).token == run.states[i].tokens.value.refresh
  {
    StuckUntilPresented(run, i, m, run.states[i].tokens.value.refresh);
    OneHolderRun(run, m);
    StepOf(run, m);
  }

  /** What a lost answer leaves: the lock free, and the token it was for replaced. */
  lemma LostLeavesRetired(s: State, task: Task, given: Token)
    requires Enabled(s, Present(task, Lost(given))) && s.holder == Some(task)
    ensures var after := Apply(s, Present(task, Lost(given)));
            after.holder.None? && after.tokens == s.tokens && PcOf(s, task).token in after.server.retired
  {
  }

  /** **A lost answer is met again**: when the answer to a rotation of the stored
      token is lost, the next caller to refresh before a login presents that token,
      which the server has replaced. */
  lemma LostIsPresented(run: WholeRun, k: nat, m: nat)
    requires k < m < |run.steps| && run.steps[k].Present? && run.steps[k].answer.Lost? && run.steps[m].Present?
    requires PcOf(run.states[k], run.steps[k].task).Refreshing? && run.states[k].tokens.Some?
    requires run.states[k].tokens.value.refresh == PcOf(run.states[k], run.steps[k].task).token
    requires forall n | k < n < m :: !run.steps[n].Present? && !run.steps[n].LoginStore?
    ensures PcOf(run.states[m], run.steps[m].task).Refreshing?
    ensures var token := PcOf(run.states[m], run.steps[m].task).token;
            token == run.states[k].tokens.value.refresh && token in run.states[m].server.retired
  {
    OneHolderRun(run, k);
    StepOf(run, k);
    LostLeavesRetired(run.states[k], run.steps[k].task, run.steps[k].answer.refresh);
    StuckUntilPresented(run, k + 1, m, run.states[k].tokens.value.refresh);
    StoredRetiredIsPresented(run, k + 1, m);
  }

  /** What one task does to get credentials with a token past its time, up to
      the token endpoint's answer. */
  function UntilAnswer(task: Task, answer: Answer): seq<Step> {
    [Start(task, Vend), Acquire(task), Proceed(task), ReadTokens(task), Present(task, answer)]
  }

  /** The task at `pc`, with the lock. */
  function HeldAt(s: State, task: Task, pc: Pc): State {
    s.(tasks := s.tasks[task := pc], holder := Some(task))
  }

  lemma MovesOn(s: State, task: Task, before: Pc, after: Pc)
    ensures At(HeldAt(s, task, before), task, after) == HeldAt(s, task, after)
  {
    assert s.tasks[task := before][task := after] == s.tasks[task := after];
  }

  /** A free task takes the free lock. */
  lemma TakesLock(s: State, task: Task, call: Call) returns (run: Run)
    requires PcOf(s, task).Idle? && s.holder.None? && (call.Vend? ==> ReadCreds(s).None?)
    ensures run.steps == [Start(task, call), Acquire(task)]
    ensures run.states[0] == s && run.states[2] == HeldAt(s, task, Locked(call))
  {
    var waiting := At(s, task, Waiting(call));
    assert s.tasks[task := Waiting(call)][task := Locked(call)] == s.tasks[task := Locked(call)];
    var t := Trace([s, waiting, HeldAt(s, task, Locked(call))], [Start(task, call), Acquire(task)]);
    assert FollowsAt(t, 0) && FollowsAt(t, 1);
    run := t;
  }

  lemma OneStep(s: State, step: Step) returns (run: Run)
    requires Enabled(s, step)
    ensures run == Trace([s, Apply(s, step)], [step])
  {
    var t := Trace([s, Apply(s, step)], [step]);
    assert FollowsAt(t, 0);
    run := t;
  }

  lemma ReachesRefresh(s: State, task: Task) returns (run: Run)
    requires ReadCreds(s).None? && s.tokens.Some? && s.tokens.value.expiresAt <= s.now
    ensures run.steps == [Proceed(task), ReadTokens(task)] && run.states[0] == HeldAt(s, task, Locked(Vend))
    ensures run.states[2] == HeldAt(s, task, Refreshing(Vend, false, s.tokens.value.refresh, false))
  {
    MovesOn(s, task, Locked(Vend), Ready(Vend, false));
    MovesOn(s, task, Ready(Vend, false), Refreshing(Vend, false, s.tokens.value.refresh, false));
    var proceeds := OneStep(HeldAt(s, task, Locked(Vend)), Proceed(task));
    var refreshes := OneStep(HeldAt(s, task, Ready(Vend, false)), ReadTokens(task));
    run := RunsJoin(proceeds, refreshes);
  }

  lemma ReachesAnswer(s: State, task: Task, answer: Answer) returns (run: Run)
    requires PcOf(s, task).Idle? && s.holder.None? && s.creds.None? && s.tokens.Some?
    requires s.tokens.value.expiresAt <= s.now && Possible(s, s.tokens.value.refresh, answer)
    ensures var refreshing := Refreshing(Vend, false, s.tokens.value.refresh, false);
            && run.steps == UntilAnswer(task, answer) && run.states[0] == s
            && run.states[4] == HeldAt(s, task, refreshing)
            && run.states[5] == AfterPresent(HeldAt(s, task, refreshing), task, refreshing, answer)
  {
    var locks := TakesLock(s, task, Vend);
    var refreshes := ReachesRefresh(s, task);
    var presents := OneStep(refreshes.states[2], Present(task, answer));
    var both := RunsJoin(locks, refreshes);
    run := RunsJoin(both, presents);
  }

  lemma RunsJoin(a: Run, b: Run) returns (run: Run)
    requires a.states[|a.steps|] == b.states[0]
    ensures run == Trace(a.states + b.states[1..], a.steps + b.steps)
  {
    var t := Trace(a.states + b.states[1..], a.steps + b.steps);
    forall i | 0 <= i < |t.steps| ensures FollowsAt(t, i) {
      if i >= |a.steps| {
        var k := i - |a.steps|;
        StepOf(b, k);
        assert t.states[i] == b.states[k] && t.states[i + 1] == b.states[k + 1] && t.steps[i] == b.steps[k];
      } else {
        StepOf(a, i);
        assert t.states[i] == a.states[i] && t.states[i + 1] == a.states[i + 1] && t.steps[i] == a.steps[i];
      }
    }
    run := t;
  }

  /** Both happen: a run that loses one answer, in its step 4, and presents the
      token it retired, in step 9. */
  lemma LossLeadsToRetired() returns (run: WholeRun)
    ensures |run.steps| == 10 && run.steps[4].Present? && Loses(run.states[4], run.steps[4], 1)
    ensures run.steps[9].Present? && PcOf(run.states[9], run.steps[9].task).Refreshing?
    ensures PcOf(run.states[9], run.steps[9].task).token == 1 && 1 in run.states[9].server.retired
  {
    var task := Task(0, 0);
    var s := START.(tokens := Some(Tokens(1, 1, 0)), server := Server({1}, {}));
    var first := ReachesAnswer(s, task, Lost(2));
    assert first.states[5].server.retired == {1};
    var second := ReachesAnswer(first.states[5], task, Refused);
    var both := RunsJoin(first, second);
    assert Init(both.states[0]);
    run := both;
    assert run.steps[4] == first.steps[4] && run.steps[9] == second.steps[4];
    assert run.states[4] == first.states[4] && run.states[9] == second.states[4];
  }

  // ---- One refresh for all ----

  /** With valid credentials stored that no login wrote, no vend is under way. */
  lemma OwnCredsEndVends(run: WholeRun, i: nat)
    requires i < |run.states|
    requires ReadCreds(run.states[i]).Some? && !run.states[i].history.loginCreds
    ensures !Vending(HolderPc(run.states[i]))
  {
    GoodRun(run, i);
  }

  /** One step with valid credentials stored and no vend under way starts none. */
  lemma StepStartsNoVend(s: State, step: Step, next: State)
    requires OneHolder(s) && Enabled(s, step) && next == Apply(s, step)
    requires ReadCreds(s).Some? && !Vending(HolderPc(s))
    ensures !Vending(HolderPc(next)) && next.history.vends == s.history.vends
  {
    if IsLogin(step) {
      LoginSpares(s, step);
    } else if AsksServer(step) {
      AskedStartsNoVend(s, step);
    } else {
      OtherStartsNoVend(s, step);
    }
  }

  lemma AskedStartsNoVend(s: State, step: Step)
    requires OneHolder(s) && Enabled(s, step) && AsksServer(step) && !Vending(HolderPc(s))
    ensures !Vending(HolderPc(Apply(s, step))) && Apply(s, step).history.vends == s.history.vends
  {
  }

  lemma OtherStartsNoVend(s: State, step: Step)
    requires OneHolder(s) && Enabled(s, step) && !AsksServer(step) && !IsLogin(step)
    requires ReadCreds(s).Some? && !Vending(HolderPc(s))
    ensures !Vending(HolderPc(Apply(s, step))) && Apply(s, step).history.vends == s.history.vends
  {
  }

  /** Whoever it gives credentials is given the stored ones. */
  lemma StepServesStored(s: State, step: Step, next: State)
    requires OneHolder(s) && Enabled(s, step) && next == Apply(s, step)
    requires ReadCreds(s).Some? && !Vending(HolderPc(s))
    ensures Extends(s.history.served, next.history.served, s.creds.value)
  {
    if IsLogin(step) {
      LoginSpares(s, step);
    } else if AsksServer(step) {
      AskedServesNone(s, step);
    } else if MovesStore(step) {
      MovedServesNone(s, step);
    }
  }

  lemma AskedServesNone(s: State, step: Step)
    requires Enabled(s, step) && AsksServer(step)
    ensures Apply(s, step).history.served == s.history.served
  {
  }

  lemma MovedServesNone(s: State, step: Step)
    requires OneHolder(s) && Enabled(s, step) && !Vending(HolderPc(s)) && MovesStore(step)
    ensures Apply(s, step).history.served == s.history.served
  {
  }

  /** The step after state `k` gives callers only what was stored then. */
  predicate ServesStored(run: Run, k: nat)
    requires k + 1 < |run.states|
  {
    && run.states[k].creds.Some?
    && Extends(run.states[k].history.served, run.states[k + 1].history.served, run.states[k].creds.value)
  }

  /** **No vend while credentials are valid.** From a state with no vend under
      way, for as long as valid credentials are stored, whoever stores them, none
      is asked for, and each caller is given those stored when it looks. */
  lemma {:induction false} NoVendWhileValid(run: WholeRun, i: nat, j: nat)
    requires i <= j < |run.states|
    requires !Vending(HolderPc(run.states[i]))
    requires forall k | i <= k <= j :: ReadCreds(run.states[k]).Some?
    ensures !Vending(HolderPc(run.states[j])) && run.states[j].history.vends == run.states[i].history.vends
    ensures forall k | i <= k < j :: ServesStored(run, k)
    decreases j
  {
    if i < j {
      NoVendWhileValid(run, i, j - 1);
      assert ReadCreds(run.states[j - 1]).Some?;
      ValidForOneStep(run, j - 1);
      assert ServesStored(run, j - 1);
    }
  }

  lemma ValidForOneStep(run: WholeRun, k: nat)
    requires k < |run.steps|
    requires ReadCreds(run.states[k]).Some? && !Vending(HolderPc(run.states[k]))
    ensures !Vending(HolderPc(run.states[k + 1])) && run.states[k + 1].history.vends == run.states[k].history.vends
    ensures ServesStored(run, k)
  {
    OneHolderRun(run, k);
    StepOf(run, k);
    StepStartsNoVend(run.states[k], run.steps[k], run.states[k + 1]);
    StepServesStored(run.states[k], run.steps[k], run.states[k + 1]);
  }

  lemma OneHolderRun(run: WholeRun, i: nat)
    requires i < |run.states|
    ensures OneHolder(run.states[i])
  {
    GoodRun(run, i);
  }

  predicate Extends(before: seq<(Task, Creds)>, after: seq<(Task, Creds)>, creds: Creds) {
    before <= after && forall k | |before| <= k < |after| :: after[k].1 == creds
  }

  lemma ClockRises(s: State, step: Step)
    requires Enabled(s, step)
    ensures s.now <= Apply(s, step).now
  {
  }

  /** Steps that leave the stored credentials alone, while no vend is under way. */
  predicate KeepsCreds(step: Step) {
    && !step.LoginWrite?
    && (step.Delete? ==> !step.ok)
    && (step.Erase? ==> !step.credsGone)
  }

  /** The steps that neither move the store nor are a login's leave the
      credentials as they are, and flush none. */
  lemma StoreSame(s: State, step: Step)
    requires Enabled(s, step) && !MovesStore(step) && !IsLogin(step)
    ensures StoreIsSame(s, Apply(s, step))
  {
    if AsksServer(step) {
      AskedSame(s, step);
    }
  }

  predicate StoreIsSame(s: State, next: State) {
    next.creds == s.creds && next.logins == s.logins && next.history.lastFlush == s.history.lastFlush
  }

  lemma AskedSame(s: State, step: Step)
    requires Enabled(s, step) && AsksServer(step)
    ensures StoreIsSame(s, Apply(s, step))
  {
  }

  lemma StepKeepsStored(s: State, step: Step, next: State)
    requires OneHolder(s) && Enabled(s, step) && next == Apply(s, step) && KeepsCreds(step)
    requires !Vending(HolderPc(s))
    ensures next.creds == s.creds
  {
    if !MovesStore(step) && !IsLogin(step) {
      StoreSame(s, step);
    }
  }

  /** **One vend serves all.** From a moment valid credentials are stored and no
      vend is under way, until they run out or a flush, a login or a logout
      changes them, any number of callers are given them and no vend is asked for. */
  lemma {:induction false} OneVendServesAll(run: WholeRun, i: nat, j: nat, creds: Creds)
    requires i <= j < |run.states|
    requires run.states[i].creds == Some(creds) && !Vending(HolderPc(run.states[i]))
    requires forall k | i <= k < j :: KeepsCreds(run.steps[k])
    requires run.states[j].now < creds.expiresAt
    ensures ServedAll(run.states[i], run.states[j], creds)
    decreases j
  {
    if i < j {
      StepOf(run, j - 1);
      ClockRises(run.states[j - 1], run.steps[j - 1]);
      OneVendServesAll(run, i, j - 1, creds);
      ServesOneMore(run, run.states[i], j - 1, creds);
    }
  }

  lemma {:induction false} ClockRuns(run: WholeRun, i: nat, j: nat)
    requires i <= j < |run.states|
    ensures run.states[i].now <= run.states[j].now
    decreases j
  {
    if i < j {
      ClockRuns(run, i, j - 1);
      StepOf(run, j - 1);
      ClockRises(run.states[j - 1], run.steps[j - 1]);
    }
  }

  /** So it is from any moment credentials that no login wrote are stored. */
  lemma OwnCredsServeAll(run: WholeRun, i: nat, j: nat, creds: Creds)
    requires i <= j < |run.states|
    requires run.states[i].creds == Some(creds) && !run.states[i].history.loginCreds
    requires forall k | i <= k < j :: KeepsCreds(run.steps[k])
    requires run.states[j].now < creds.expiresAt
    ensures ServedAll(run.states[i], run.states[j], creds)
  {
    ClockRuns(run, i, j);
    OwnCredsEndVends(run, i);
    OneVendServesAll(run, i, j, creds);
  }

  /** Between the two states the credentials stayed, no vend was asked for, and
      whoever was given credentials was given these. */
  predicate ServedAll(before: State, after: State, creds: Creds) {
    && after.creds == Some(creds) && !Vending(HolderPc(after))
    && after.history.vends == before.history.vends
    && Extends(before.history.served, after.history.served, creds)
  }

  lemma ServesOneMore(run: WholeRun, before: State, k: nat, creds: Creds)
    requires k < |run.steps| && KeepsCreds(run.steps[k])
    requires ServedAll(before, run.states[k], creds) && run.states[k].now < creds.expiresAt
    ensures ServedAll(before, run.states[k + 1], creds)
  {
    ValidForOneStep(run, k);
    CredsStay(run, k);
    ExtendsOn(before.history.served, run.states[k].history.served, run.states[k + 1].history.served, creds);
  }

  lemma CredsStay(run: WholeRun, k: nat)
    requires k < |run.steps|
    requires KeepsCreds(run.steps[k]) && !Vending(HolderPc(run.states[k]))
    ensures run.states[k + 1].creds == run.states[k].creds
  {
    OneHolderRun(run, k);
    StepOf(run, k);
    StepKeepsStored(run.states[k], run.steps[k], run.states[k + 1]);
  }

  lemma ExtendsOn(a: seq<(Task, Creds)>, b: seq<(Task, Creds)>, c: seq<(Task, Creds)>, creds: Creds)
    requires Extends(a, b, creds) && Extends(b, c, creds)
    ensures Extends(a, c, creds)
  {
    assert forall k | |a| <= k < |b| :: c[k] == b[k];
  }

  // ---- Roles ----

  /** **A role on record was flushed for**: with no call of the application in
      between, the credentials were deleted since the role went on record. */
  lemma RecordedRoleWasFlushed(run: WholeRun, i: nat, app: App)
    requires i < |run.states|
    requires app in run.states[i].roles && !MidFlush(run.states[i], app)
    ensures app in run.states[i].history.flushed
    ensures exists k | 0 <= k < i :: run.steps[k].Delete? && run.steps[k].ok && SinceThen(run, app, k, i)
  {
    GoodRun(run, i);
    FlushOnRecord(run, i, app);
  }

  /** From after step `k` to state `i` the application's role on record is the same. */
  predicate SinceThen(run: Run, app: App, k: nat, i: nat)
    requires k < i < |run.states|
  {
    forall m | k < m <= i ::
      app in run.states[m].roles && app in run.states[i].roles && run.states[m].roles[app] == run.states[i].roles[app]
  }

  lemma {:induction false} FlushOnRecord(run: WholeRun, i: nat, app: App)
    requires i < |run.states|
    requires app in run.states[i].roles && app in run.states[i].history.flushed
    ensures exists k | 0 <= k < i :: run.steps[k].Delete? && run.steps[k].ok && SinceThen(run, app, k, i)
    decreases i
  {
    if i > 0 {
      StepOf(run, i - 1);
      var s, step := run.states[i - 1], run.steps[i - 1];
      if step.Delete? && step.ok {
        assert SinceThen(run, app, i - 1, i);
      } else {
        RecordStays(s, step, app);
        FlushOnRecord(run, i - 1, app);
        var k :| 0 <= k < i - 1 && run.steps[k].Delete? && run.steps[k].ok && SinceThen(run, app, k, i - 1);
        SinceThenOn(run, app, k, i);
      }
    }
  }

  lemma SinceThenOn(run: Run, app: App, k: nat, i: nat)
    requires k + 1 < i < |run.states| && SinceThen(run, app, k, i - 1)
    requires app in run.states[i].roles && run.states[i].roles[app] == run.states[i - 1].roles[app]
    ensures SinceThen(run, app, k, i)
  {
  }

  /** But for a flush that succeeds, a role stays flushed for only by staying on record. */
  lemma RecordStays(s: State, step: Step, app: App)
    requires Enabled(s, step) && !(step.Delete? && step.ok)
    requires app in Apply(s, step).roles && app in Apply(s, step).history.flushed
    ensures app in s.roles && app in s.history.flushed && s.roles[app] == Apply(s, step).roles[app]
  {
    if !step.Observe? && !step.Delete? && !step.Crash? {
      RecordSame(s, step);
    }
  }

  /** Only a role answered to one of its own calls puts a role on record. */
  lemma StaysUnknown(s: State, step: Step, app: App)
    requires Enabled(s, step) && app !in s.roles && (step.Observe? ==> step.task.app != app)
    ensures app !in Apply(s, step).roles
  {
    if !step.Observe? && !step.Delete? && !step.Crash? {
      RecordSame(s, step);
    }
  }

  predicate FailsToFlush(s: State, step: Step, app: App) {
    step.Delete? && !step.ok && step.task.app == app && PcOf(s, step.task) == Flushing(false)
  }

  predicate Observes(step: Step, app: App) {
    step.Observe? && step.task.app == app
  }

  lemma {:induction false} UnknownUntilObserved(run: WholeRun, k: nat, m: nat, app: App)
    requires k < m < |run.states| && FailsToFlush(run.states[k], run.steps[k], app)
    requires forall j | k < j < m :: !Observes(run.steps[j], app)
    ensures app !in run.states[m].roles
    decreases m
  {
    StepOf(run, m - 1);
    if k + 1 < m {
      UnknownUntilObserved(run, k, m - 1, app);
      StaysUnknown(run.states[m - 1], run.steps[m - 1], app);
    }
  }

  /** **A failed flush is made up for.** After one, the next role any call of the
      application is told is flushed for, whatever role it is and whoever asks. */
  lemma FailedFlushIsRetried(run: WholeRun, k: nat, m: nat, app: App)
    requires k < m < |run.steps|
    requires FailsToFlush(run.states[k], run.steps[k], app) && Observes(run.steps[m], app)
    requires forall j | k < j < m :: !Observes(run.steps[j], app)
    ensures PcOf(run.states[m + 1], run.steps[m].task) == Flushing(false)
  {
    UnknownUntilObserved(run, k, m, app);
    StepOf(run, m);
  }

  // ---- A role call from its answer to its end ----

  /** The role an application has on record. */
  function RoleOf(s: State, app: App): Option<Role> {
    if app in s.roles then Some(s.roles[app]) else None
  }

  /** An application's role on record and a host's stored credentials. */
  datatype Record = Record(role: Option<Role>, creds: Option<Creds>)

  function RecordOf(s: State, app: App): Record {
    Record(RoleOf(s, app), s.creds)
  }

  /** What a role the registry names leaves. A role stands only over credentials
      vended under it: either it stood before, or the stored ones are gone. */
  function Reconciled(before: Record, switch: bool, role: Role, deleteOk: bool): Record {
    if !switch && before.role == Some(role) then before
    else if deleteOk then Record(Some(role), None)
    else Record(None, before.creds)
  }

  /** A task's steps for it, which others' steps may come between. */
  lemma StepsReconcile(s: State, task: Task, ok: bool)
    requires PcOf(s, task).Reconciling?
    ensures var told := PcOf(s, task);
            var observed := Apply(s, Observe(task));
            && (PcOf(observed, task).Idle? <==> !told.switch && RoleOf(s, task.app) == Some(told.role))
            && (!PcOf(observed, task).Idle? ==> PcOf(observed, task) == Flushing(false))
            && var after := if PcOf(observed, task).Idle? then observed else Apply(observed, Delete(task, ok));
               && RecordOf(after, task.app) == Reconciled(RecordOf(s, task.app), told.switch, told.role, ok)
               && after.roles - {task.app} == s.roles - {task.app}
  {
  }

  /** Where a task told `role` may be before its call ends. */
  predicate Reconciles(s: State, task: Task, switch: bool, role: Role) {
    || PcOf(s, task) == Reconciling(switch, role)
    || (PcOf(s, task) == Flushing(false) && RoleOf(s, task.app) == Some(role))
  }

  /** How such a call may end: over a flush, with no role on record when the flush
      failed, or over none for a role that was on record and asked for by no switch. */
  predicate EndsReconciled(before: State, step: Step, after: State, task: Task, switch: bool, role: Role) {
    || (step == Delete(task, true) && after.creds.None? && RoleOf(after, task.app) == Some(role))
    || (step == Delete(task, false) && after.creds == before.creds && RoleOf(after, task.app).None?)
    || (step == Observe(task) && !switch && RoleOf(before, task.app) == Some(role)
        && after.roles == before.roles && after.creds == before.creds)
  }

  lemma ReconcileStep(s: State, step: Step, next: State, task: Task, switch: bool, role: Role)
    requires OneHolder(s) && Enabled(s, step) && next == Apply(s, step) && step != Crash(task.app)
    requires Reconciles(s, task, switch, role)
    ensures if PcOf(next, task).Idle? then EndsReconciled(s, step, next, task, switch, role)
            else Reconciles(next, task, switch, role)
  {
    if AsksServer(step) {
      ReconcileAsked(s, step, task, switch, role);
    } else if step.Observe? || step.Delete? {
      assert step.task == task;
    } else {
      ReconcileOther(s, step, task, switch, role);
    }
  }

  /** No other step moves it on. */
  lemma ReconcileOther(s: State, step: Step, task: Task, switch: bool, role: Role)
    requires OneHolder(s) && Enabled(s, step) && !AsksServer(step) && !step.Observe? && !step.Delete?
    requires Reconciles(s, task, switch, role)
    ensures Reconciles(Apply(s, step), task, switch, role) && !PcOf(Apply(s, step), task).Idle?
  {
    RecordSame(s, step);
  }

  /** No answer from the server is waited for in the meantime. */
  lemma ReconcileAsked(s: State, step: Step, task: Task, switch: bool, role: Role)
    requires OneHolder(s) && Enabled(s, step) && AsksServer(step) && step != Crash(task.app)
    requires Reconciles(s, task, switch, role)
    ensures Reconciles(Apply(s, step), task, switch, role) && !PcOf(Apply(s, step), task).Idle?
  {
  }

  /** The registry's answer to a role call, in a run. */
  predicate ToldRole(run: Run, k: nat, task: Task, switch: bool, role: Role)
    requires k < |run.steps|
  {
    && PcOf(run.states[k], task).Calling? && PcOf(run.states[k], task).call == AskRole(switch)
    && run.steps[k] == Ask(task, RoleIs(role))
  }

  lemma ToldThenReconciles(run: WholeRun, k: nat, task: Task, switch: bool, role: Role)
    requires k < |run.steps| && ToldRole(run, k, task, switch, role)
    ensures PcOf(run.states[k + 1], task) == Reconciling(switch, role)
  {
    StepOf(run, k);
  }

  lemma RunReconcileStep(run: WholeRun, k: nat, task: Task, switch: bool, role: Role)
    requires k < |run.steps| && run.steps[k] != Crash(task.app)
    requires Reconciles(run.states[k], task, switch, role)
    ensures PcOf(run.states[k + 1], task).Idle? ==>
              EndsReconciled(run.states[k], run.steps[k], run.states[k + 1], task, switch, role)
    ensures !PcOf(run.states[k + 1], task).Idle? ==> Reconciles(run.states[k + 1], task, switch, role)
  {
    OneHolderRun(run, k);
    StepOf(run, k);
    ReconcileStep(run.states[k], run.steps[k], run.states[k + 1], task, switch, role);
  }

  /** **How a role call ends.** Once the registry has named the role, and unless
      the application crashes, the call goes on to put it on record, and ends with
      that role on record over deleted credentials, with no role on record when the
      delete failed, or, never for a switch, with nothing changed because the role
      was on record. */
  lemma {:induction false} RoleCallEnds(run: WholeRun, k: nat, m: nat, task: Task, switch: bool, role: Role)
    requires k < m < |run.states| && ToldRole(run, k, task, switch, role)
    requires forall j | k < j < m :: run.steps[j] != Crash(task.app) && !PcOf(run.states[j], task).Idle?
    ensures PcOf(run.states[m], task).Idle? ==>
              EndsReconciled(run.states[m - 1], run.steps[m - 1], run.states[m], task, switch, role)
    ensures !PcOf(run.states[m], task).Idle? ==> Reconciles(run.states[m], task, switch, role)
    decreases m
  {
    if k + 1 == m {
      ToldThenReconciles(run, k, task, switch, role);
    } else {
      RoleCallEnds(run, k, m - 1, task, switch, role);
      RunReconcileStep(run, m - 1, task, switch, role);
    }
  }

  // ---- Credentials and flushes ----

  /** A login was vended these and has not written them yet. */
  predicate Pending(s: State, creds: Creds) {
    exists login <- s.logins :: s.logins[login] == creds
  }

  predicate Held(s: State, creds: Creds) {
    s.creds == Some(creds) || Pending(s, creds)
  }

  predicate Flushes(step: Step) {
    step.Delete? && step.ok
  }

  /** Credentials become older than the last flush only at a flush, pending. */
  lemma OlderStep(s: State, step: Step, creds: Creds)
    requires OneHolder(s) && FlushGood(s) && Enabled(s, step)
    requires Held(Apply(s, step), creds) && creds.serial < Apply(s, step).history.lastFlush
    ensures || (Flushes(step) && Pending(s, creds))
            || (Held(s, creds) && creds.serial < s.history.lastFlush)
  {
    if IsLogin(step) {
      OlderLogin(s, step, creds);
    } else if step.WriteCreds? {
      assert HolderPc(s).Writing?;
    } else if !Flushes(step) {
      NothingNew(s, step);
    }
  }

  lemma OlderLogin(s: State, step: Step, creds: Creds)
    requires FlushGood(s) && Enabled(s, step) && IsLogin(step)
    requires Held(Apply(s, step), creds) && creds.serial < Apply(s, step).history.lastFlush
    ensures Held(s, creds) && creds.serial < s.history.lastFlush
  {
  }

  /** Any other step stores no credentials and is no flush. */
  lemma NothingNew(s: State, step: Step)
    requires Enabled(s, step) && !IsLogin(step) && !step.WriteCreds? && !Flushes(step)
    ensures var next := Apply(s, step);
            && next.logins == s.logins && (next.creds.Some? ==> next.creds == s.creds)
            && next.history.lastFlush == s.history.lastFlush
  {
    if !MovesStore(step) {
      StoreSame(s, step);
    }
  }

  lemma {:induction false} OlderWasPending(run: WholeRun, i: nat, creds: Creds)
    requires i < |run.states|
    requires Held(run.states[i], creds) && creds.serial < run.states[i].history.lastFlush
    ensures exists d | 0 <= d < i :: Flushes(run.steps[d]) && Pending(run.states[d], creds)
  {
    if i > 0 {
      GoodRun(run, i - 1);
      StepOf(run, i - 1);
      OlderStep(run.states[i - 1], run.steps[i - 1], creds);
      if !(Flushes(run.steps[i - 1]) && Pending(run.states[i - 1], creds)) {
        OlderWasPending(run, i - 1, creds);
      }
    }
  }

  lemma FlushesRise(s: State, step: Step)
    requires FlushGood(s) && Enabled(s, step)
    ensures s.history.lastFlush <= Apply(s, step).history.lastFlush
    ensures Flushes(step) ==> Apply(s, step).history.lastFlush == s.history.serial + 1
  {
    if !MovesStore(step) && !IsLogin(step) {
      StoreSame(s, step);
    }
  }

  lemma {:induction false} PendingGetsOlder(run: WholeRun, d: nat, i: nat, creds: Creds)
    requires d < i < |run.states| && Flushes(run.steps[d]) && Pending(run.states[d], creds)
    ensures creds.serial < run.states[i].history.lastFlush
    decreases i
  {
    GoodRun(run, i - 1);
    StepOf(run, i - 1);
    FlushesRise(run.states[i - 1], run.steps[i - 1]);
    if d < i - 1 {
      PendingGetsOlder(run, d, i - 1, creds);
    }
  }

  /** **Which credentials outlive a flush.** Stored credentials were vended before
      the last flush exactly when a login wrote them that had been vended them, and
      not written them yet, when a flush was done. */
  lemma CredsPostdateFlushes(run: WholeRun, i: nat)
    requires i < |run.states| && run.states[i].creds.Some?
    ensures var creds := run.states[i].creds.value;
            && (creds.serial < run.states[i].history.lastFlush <==>
                exists d | 0 <= d < i :: Flushes(run.steps[d]) && Pending(run.states[d], creds))
            && creds.serial != run.states[i].history.lastFlush
            && (!run.states[i].history.loginCreds ==> creds.serial > run.states[i].history.lastFlush)
  {
    var creds := run.states[i].creds.value;
    GoodRun(run, i);
    if creds.serial < run.states[i].history.lastFlush {
      OlderWasPending(run, i, creds);
    }
    forall d | 0 <= d < i && Flushes(run.steps[d]) && Pending(run.states[d], creds)
      ensures creds.serial < run.states[i].history.lastFlush
    {
      PendingGetsOlder(run, d, i, creds);
    }
  }

  /** A flush, from a free lock. */
  lemma ExpiresCreds(s: State, task: Task) returns (run: Run)
    requires PcOf(s, task).Idle? && s.holder.None?
    ensures run.states[0] == s && |run.steps| == 4 && Flushes(run.steps[3])
    ensures var last := run.states[4];
            && last.logins == s.logins && last.now == s.now
            && last.history.serial == last.history.lastFlush == s.history.serial + 1
  {
    var locks := TakesLock(s, task, Expire);
    MovesOn(s, task, Locked(Expire), Flushing(true));
    var proceeds := OneStep(HeldAt(s, task, Locked(Expire)), Proceed(task));
    var deletes := OneStep(HeldAt(s, task, Flushing(true)), Delete(task, true));
    var both := RunsJoin(locks, proceeds);
    run := RunsJoin(both, deletes);
  }

  /** It happens: a login is vended credentials, the stored ones are expired, and
      the login writes its own. */
  lemma ALoginOutlivesAFlush() returns (run: WholeRun)
    ensures var last := run.states[|run.steps|];
            ReadCreds(last).Some? && last.creds.value.serial < last.history.lastFlush
  {
    var asks := OneStep(START, LoginAsk(0, 100));
    var flushes := ExpiresCreds(asks.states[1], Task(0, 0));
    var writes := OneStep(flushes.states[4], LoginWrite(0));
    var both := RunsJoin(asks, flushes);
    var whole := RunsJoin(both, writes);
    assert Init(whole.states[0]);
    run := whole;
  }

  // ---- The role on record, in one application ----

  /** One application's record of each host's role, and the hosts' stored
      credentials. Callers hold the host's lock. */
  class Session {
    var roles: map<string, Role>
    var creds: map<string, Creds>

    ghost function Of(host: string): Record
      reads this
    {
      Record(if host in roles then Some(roles[host]) else None, if host in creds then Some(creds[host]) else None)
    }

    constructor (creds: map<string, Creds>)
      ensures roles == map[] && this.creds == creds
    {
      roles, this.creds := map[], creds;
    }

    method ObserveRole(host: string, role: Role) returns (stale: bool)
      modifies this`roles
      ensures stale <==> old(Of(host)).role != Some(role)
      ensures roles == old(roles)[host := role]
    {
      stale := !(host in roles && roles[host] == role);
      roles := roles[host := role];
    }

    method ForgetRole(host: string)
      modifies this`roles
      ensures roles == old(roles) - {host}
    {
      roles := roles - {host};
    }

    /** Deletes the host's stored credentials; having none is success. */
    method ExpireCredentials(host: string, deleteOk: bool) returns (ok: bool)
      modifies this`creds
      ensures ok == deleteOk
      ensures creds == if ok then old(creds) - {host} else old(creds)
    {
      if deleteOk {
        creds := creds - {host};
      }
      return deleteOk;
    }

    /** A failed flush leaves no role, and is the only failure. */
    method ReconcileRole(host: string, role: Role, deleteOk: bool) returns (ok: bool)
      modifies this
      ensures Of(host) == Reconciled(old(Of(host)), false, role, deleteOk)
      ensures ok <==> Of(host).role == Some(role)
      ensures forall other | other != host :: Of(other) == old(Of(other))
    {
      var stale := ObserveRole(host, role);
      if !stale {
        return true;
      }
      ok := ExpireCredentials(host, deleteOk);
      if !ok {
        ForgetRole(host);
      }
    }

    /** A switch drops the record first, so the credentials go in any case. */
    method AfterSwitch(host: string, role: Role, deleteOk: bool) returns (ok: bool)
      modifies this
      ensures Of(host) == Reconciled(old(Of(host)), true, role, deleteOk)
      ensures ok <==> Of(host).role == Some(role)
      ensures forall other | other != host :: Of(other) == old(Of(other))
    {
      ForgetRole(host);
      ok := ReconcileRole(host, role, deleteOk);
    }
  }
}
