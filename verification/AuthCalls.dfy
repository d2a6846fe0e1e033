/** The calls of one task, as its code makes them one after the other: each is a
    run of the steps of `Auth`, under the host's lock where it must be. */
module AuthCalls {
  import opened Wrappers
  import opened Auth

  /** What the server and the storage do when asked, in each state. */
  datatype World = World(
    answer: (State, Token) -> Answer,
    reply: (State, Call) -> Reply,
    storeOk: State -> bool,
    writeOk: State -> bool,
    deleteOk: State -> bool)

  ghost predicate IsWorld(w: World) {
    && (forall s, token :: Possible(s, token, w.answer(s, token)))
    && (forall s, call :: Fits(call, w.reply(s, call)))
  }

  /** A task in the middle of a call; logouts are made elsewhere. */
  predicate Working(pc: Pc) {
    !pc.Idle? && !pc.Erasing?
  }

  /** The one step a task's code makes from where it is. */
  function NextStep(w: World, s: State, task: Task): Step
    requires Working(PcOf(s, task))
  {
    match PcOf(s, task)
    case Waiting(_) => Acquire(task)
    case Locked(_) => Proceed(task)
    case Ready(_, _) => if s.tokens.None? then Fail(task) else ReadTokens(task)
    case Refreshing(_, _, token, _) => Present(task, w.answer(s, token))
    case Storing(_, _, _, _) => Store(task, w.storeOk(s))
    case Calling(call, _, _) => Ask(task, w.reply(s, call))
    case Writing(_) => if w.writeOk(s) then WriteCreds(task) else Fail(task)
    case Reconciling(_, _) => Observe(task)
    case Flushing(_) => Delete(task, w.deleteOk(s))
  }

  /** Where the task is, what the server or the storage does ends its call with no
      answer: no tokens, a refresh that fails, its answer not stored, a second
      refusal, credentials not stored, or a flush that fails. */
  predicate EndsEmpty(w: World, s: State, task: Task) {
    match PcOf(s, task)
    case Ready(_, _) => s.tokens.None?
    case Refreshing(_, _, token, retried) =>
      var answer := w.answer(s, token);
      answer.Errored? || answer.Lost? || (answer.Refused? && retried)
    case Storing(_, _, _, _) => !w.storeOk(s)
    case Calling(call, forced, _) => forced && w.reply(s, call).Unauthorized?
    case Writing(_) => !w.writeOk(s)
    case Flushing(_) => !w.deleteOk(s)
    case _ => false
  }

  /** A step of the run is the code's, or the start of a call. */
  predicate MadeAt(w: World, task: Task, run: Trace, i: nat)
    requires i < |run.steps| && i < |run.states|
  {
    if Working(PcOf(run.states[i], task)) then run.steps[i] == NextStep(w, run.states[i], task)
    else run.steps[i].Start? && run.steps[i].task == task
  }

  predicate Makes(w: World, task: Task, run: Trace) {
    |run.states| == |run.steps| + 1 && forall i | 0 <= i < |run.steps| :: MadeAt(w, task, run, i)
  }

  /** The last step of the run. */
  predicate EndedEmpty(w: World, task: Task, run: Trace)
    requires |run.states| == |run.steps| + 1
  {
    |run.steps| > 0 && EndsEmpty(w, run.states[|run.steps| - 1], task)
  }

  /** The credentials, the role on record and what was vended and given are as
      they were. */
  predicate Quiet(before: State, after: State) {
    && after.creds == before.creds && after.roles == before.roles && after.now == before.now
    && after.history.vends == before.history.vends && after.history.served == before.history.served
  }

  /** The task goes on to its call with the access token now stored, or it has
      ended and let the lock go. */
  predicate GoesOn(before: State, after: State, task: Task, call: Call, forced: bool) {
    var pc := PcOf(after, task);
    && Quiet(before, after)
    && if pc.Calling? then
         && pc.call == call && pc.forced == forced && after.holder == Some(task)
         && after.tokens.Some? && after.tokens.value.access == pc.access
       else pc.Idle? && after.holder.None?
  }

  predicate Longer(before: Trace, after: Trace) {
    before.steps < after.steps && before.states < after.states
  }

  lemma RunGrows(run: Trace, step: Step, next: State)
    requires IsRun(run) && Follows(run.states[|run.steps|], step, next)
    ensures IsRun(Trace(run.states + [next], run.steps + [step]))
  {
    var longer := Trace(run.states + [next], run.steps + [step]);
    forall i | 0 <= i < |longer.steps| ensures FollowsAt(longer, i) {
      assert i < |run.steps| ==> FollowsAt(run, i);
    }
  }

  lemma MakesGrows(w: World, task: Task, run: Trace, step: Step, next: State)
    requires Makes(w, task, run)
    requires var s := run.states[|run.steps|];
             if Working(PcOf(s, task)) then step == NextStep(w, s, task) else step.Start? && step.task == task
    ensures Makes(w, task, Trace(run.states + [next], run.steps + [step]))
  {
    var longer := Trace(run.states + [next], run.steps + [step]);
    forall i | 0 <= i < |longer.steps| ensures MadeAt(w, task, longer, i) {
      assert i < |run.steps| ==> MadeAt(w, task, run, i);
    }
  }

  /** One task, and the run it makes. */
  class Caller {
    const task: Task
    const world: World
    var s: State
    ghost var run: Trace

    ghost predicate Valid()
      reads this
    {
      IsWorld(world) && IsRun(run) && Makes(world, task, run) && run.states[|run.steps|] == s
    }

    constructor (task: Task, s: State, world: World)
      requires IsWorld(world)
      ensures Valid() && this.task == task && this.s == s && this.world == world && run == Trace([s], [])
    {
      this.task, this.s, this.world, run := task, s, world, Trace([s], []);
    }

    method Take(step: Step)
      requires Valid() && Enabled(s, step)
      requires if Working(PcOf(s, task)) then step == NextStep(world, s, task) else step.Start? && step.task == task
      modifies this
      ensures Valid() && s == Apply(old(s), step)
      ensures run == Trace(old(run).states + [s], old(run).steps + [step])
    {
      s := Apply(s, step);
      RunGrows(run, step, s);
      MakesGrows(world, task, run, step, s);
      run := Trace(run.states + [s], run.steps + [step]);
    }

    /** Present the token in hand, and store the answer. A first refusal leaves
        the same token in hand. */
    method RefreshTokens()
      requires Valid() && PcOf(s, task).Refreshing? && s.holder == Some(task)
      modifies this
      ensures Valid() && Longer(old(run), run)
      ensures var pc := PcOf(old(s), task);
              if PcOf(s, task).Refreshing? then
                && !pc.retried && PcOf(s, task) == pc.(retried := true)
                && Quiet(old(s), s) && s.holder == Some(task) && s.tokens == old(s).tokens
              else GoesOn(old(s), s, task, pc.call, pc.forced)
      ensures PcOf(s, task).Calling? ==>
                match world.answer(old(s), PcOf(old(s), task).token)
                case Rotated(tokens) => s.tokens == Some(tokens)
                case KeptToken(access, expiresAt) =>
                  s.tokens == Some(Tokens(access, PcOf(old(s), task).token, expiresAt))
                case _ => false
      ensures PcOf(s, task).Idle? ==> EndedEmpty(world, task, run)
    {
      Take(Present(task, world.answer(s, PcOf(s, task).token)));
      if PcOf(s, task).Storing? {
        Take(Store(task, world.storeOk(s)));
      }
    }

    /** A refusal is tried once more, with the same token. */
    method RefreshTokensWithRetry()
      requires Valid() && PcOf(s, task).Refreshing? && !PcOf(s, task).retried && s.holder == Some(task)
      modifies this
      ensures Valid() && Longer(old(run), run)
      ensures GoesOn(old(s), s, task, PcOf(old(s), task).call, PcOf(old(s), task).forced)
      ensures PcOf(s, task).Idle? ==> EndedEmpty(world, task, run)
    {
      RefreshTokens();
      if PcOf(s, task).Refreshing? {
        RefreshTokens();
      }
    }

    /** A valid access token, refreshed first inside its last minute, or in any
        case on the second leg of a refused call. */
    method AccessToken()
      requires Valid() && PcOf(s, task).Ready? && s.holder == Some(task)
      modifies this
      ensures Valid() && Longer(old(run), run)
      ensures GoesOn(old(s), s, task, PcOf(old(s), task).call, PcOf(old(s), task).forced)
      ensures PcOf(s, task).Idle? ==> EndedEmpty(world, task, run)
      ensures !PcOf(old(s), task).forced && old(s).tokens.Some?
              && old(s).tokens.value.expiresAt > old(s).now + 60 ==>
                PcOf(s, task).Calling? && s.tokens == old(s).tokens && s.server == old(s).server
      ensures PcOf(s, task).Calling? ==>
                && old(s).tokens.Some?
                && (|run.steps| == |old(run).steps| + 1 <==>
                    !PcOf(old(s), task).forced && old(s).tokens.value.expiresAt > old(s).now + 60)
    {
      if s.tokens.None? {
        Take(Fail(task));
        return;
      }
      Take(ReadTokens(task));
      if PcOf(s, task).Refreshing? {
        RefreshTokensWithRetry();
      }
    }

    /** What a call to the registry came to: asked at most twice, the second time
        with a token fetched anew after a refusal. */
    method AskWithRetry()
      requires Valid() && PcOf(s, task).Calling? && !PcOf(s, task).forced && s.holder == Some(task)
      modifies this
      ensures Valid() && Longer(old(run), run)
      ensures Asked(old(s), s, task, PcOf(old(s), task).call)
      ensures PcOf(s, task).Idle? ==> EndedEmpty(world, task, run) || PcOf(old(s), task).call.List?
    {
      var call := PcOf(s, task).call;
      Take(Ask(task, world.reply(s, call)));
      if PcOf(s, task).Ready? {
        AskAgain();
      }
    }

    /** The second leg of a refused call. */
    method AskAgain()
      requires Valid() && PcOf(s, task).Ready? && PcOf(s, task).forced && s.holder == Some(task)
      modifies this
      ensures Valid() && Longer(old(run), run)
      ensures AskedOnce(old(s), s, task, PcOf(old(s), task).call)
      ensures PcOf(s, task).Idle? ==> EndedEmpty(world, task, run) || PcOf(old(s), task).call.List?
    {
      AccessToken();
      if PcOf(s, task).Calling? {
        Take(Ask(task, world.reply(s, PcOf(s, task).call)));
      }
    }

    /** The stored credentials when they are valid; else, under the lock, those
        stored meanwhile, or new ones. */
    method GetCredentialsOrRefresh() returns (r: Option<Creds>)
      requires Valid() && PcOf(s, task).Idle? && s.holder.None?
      modifies this
      ensures Valid() && Longer(old(run), run)
      ensures PcOf(s, task).Idle? && s.holder.None?
      ensures ReadCreds(old(s)).Some? ==> r == ReadCreds(old(s)) && s.history.vends == old(s).history.vends
      ensures r.Some? ==> s.creds == r && s.history.served == old(s).history.served + [(task, r.value)]
      ensures r.None? ==> s.creds == old(s).creds && s.history.served == old(s).history.served
      ensures s.history.vends <= old(s).history.vends + 2 && s.roles == old(s).roles
      ensures r.None? <==> ReadCreds(old(s)).None? && EndedEmpty(world, task, run)
    {
      Take(Start(task, Vend));
      if PcOf(s, task).Idle? {
        return ReadCreds(s);
      }
      EnterVend();
      r := VendNew();
    }

    /** The stored credentials are looked at again under the lock. */
    method EnterVend()
      requires Valid() && PcOf(s, task) == Waiting(Vend) && s.holder.None? && ReadCreds(s).None?
      modifies this
      ensures Valid() && Longer(old(run), run)
      ensures PcOf(s, task) == Ready(Vend, false) && s.holder == Some(task)
      ensures Quiet(old(s), s) && s.tokens == old(s).tokens
    {
      Take(Acquire(task));
      Take(Proceed(task));
    }

    /** New credentials, given once they are stored. */
    method VendNew() returns (r: Option<Creds>)
      requires Valid() && PcOf(s, task) == Ready(Vend, false) && s.holder == Some(task)
      modifies this
      ensures Valid() && Longer(old(run), run)
      ensures PcOf(s, task).Idle? && s.holder.None?
      ensures r.Some? ==> s.creds == r && s.history.served == old(s).history.served + [(task, r.value)]
      ensures r.None? ==> s.creds == old(s).creds && s.history.served == old(s).history.served
      ensures s.history.vends <= old(s).history.vends + 2 && s.roles == old(s).roles
      ensures r.None? <==> EndedEmpty(world, task, run)
      ensures VendsAtOnce(world, old(s), task) || VendsOnRetry(world, old(s), task) ==> r.Some?
    {
      ghost var n := |run.steps|;
      AccessToken();
      if PcOf(s, task).Calling? {
        AskWithRetry();
      }
      if PcOf(s, task).Writing? {
        r := StoreNew();
      } else {
        r := None;
      }
      assert run.states[n] == old(s);
      VendedIsServed(world, task, run, n);
    }

    /** Credentials that cannot be stored are not given. */
    method StoreNew() returns (r: Option<Creds>)
      requires Valid() && PcOf(s, task).Writing? && s.holder == Some(task)
      modifies this
      ensures Valid() && Longer(old(run), run)
      ensures PcOf(s, task).Idle? && s.holder.None?
      ensures r == if world.writeOk(old(s)) then Some(PcOf(old(s), task).creds) else None
      ensures r.None? <==> EndedEmpty(world, task, run)
      ensures r.Some? ==> s.creds == r && s.history.served == old(s).history.served + [(task, r.value)]
      ensures r.None? ==> s.creds == old(s).creds && s.history.served == old(s).history.served
      ensures s.history.vends == old(s).history.vends && s.roles == old(s).roles
    {
      if !world.writeOk(s) {
        Take(Fail(task));
        return None;
      }
      r := Some(PcOf(s, task).creds);
      Take(WriteCreds(task));
    }

    /** Puts the role on record and flushes the stored credentials, unless it was
        on record and this is no switch. A failed flush leaves none on record. */
    method ReconcileRole() returns (ok: bool)
      requires Valid() && PcOf(s, task).Reconciling? && s.holder == Some(task)
      modifies this
      ensures Valid() && Longer(old(run), run) && PcOf(s, task).Idle? && s.holder.None?
      ensures var switch, role := PcOf(old(s), task).switch, PcOf(old(s), task).role;
              && RecordOf(s, task.app) == Reconciled(RecordOf(old(s), task.app), switch, role, ok)
              && (ok <==> RoleOf(s, task.app) == Some(role))
      ensures s.roles - {task.app} == old(s).roles - {task.app}
      ensures s.history.vends == old(s).history.vends && s.history.served == old(s).history.served
      ensures !ok <==> EndedEmpty(world, task, run)
    {
      StepsReconcile(s, task, world.deleteOk(Apply(s, Observe(task))));
      Take(Observe(task));
      ok := true;
      if PcOf(s, task).Flushing? {
        ok := world.deleteOk(s);
        Take(Delete(task, ok));
      }
    }

    /** A role call looks at nothing before it has the lock. */
    method EnterRoleCall(switch: bool)
      requires Valid() && PcOf(s, task).Idle? && s.holder.None?
      modifies this
      ensures Valid() && Longer(old(run), run)
      ensures PcOf(s, task) == Ready(AskRole(switch), false) && s.holder == Some(task)
      ensures Quiet(old(s), s) && s.tokens == old(s).tokens
    {
      Take(Start(task, AskRole(switch)));
      Take(Acquire(task));
      Take(Proceed(task));
    }

    /** Asks the registry for the role, or to switch it, and flushes the stored
        credentials unless the role on record is the one it names. */
    method RoleCall(switch: bool) returns (r: Option<Role>)
      requires Valid() && PcOf(s, task).Idle? && s.holder.None?
      modifies this
      ensures Valid() && Longer(old(run), run)
      ensures PcOf(s, task).Idle? && s.holder.None?
      ensures r.Some? ==> RecordOf(s, task.app) == Reconciled(RecordOf(old(s), task.app), switch, r.value, true)
      ensures r.None? ==> s.creds == old(s).creds && RoleOf(s, task.app) in {None, RoleOf(old(s), task.app)}
      ensures s.roles - {task.app} == old(s).roles - {task.app}
      ensures s.history.vends == old(s).history.vends && s.history.served == old(s).history.served
      ensures r.None? <==> EndedEmpty(world, task, run)
    {
      EnterRoleCall(switch);
      AccessToken();
      if PcOf(s, task).Calling? {
        AskWithRetry();
      }
      if !PcOf(s, task).Reconciling? {
        return None;
      }
      var role := PcOf(s, task).role;
      var ok := ReconcileRole();
      return if ok then Some(role) else None;
    }

    method EnterFlush()
      requires Valid() && PcOf(s, task).Idle? && s.holder.None?
      modifies this
      ensures Valid() && Longer(old(run), run)
      ensures PcOf(s, task) == Flushing(true) && s.holder == Some(task)
      ensures Quiet(old(s), s) && s.tokens == old(s).tokens
    {
      Take(Start(task, Expire));
      Take(Acquire(task));
      Take(Proceed(task));
    }

    /** Deletes the stored credentials under the lock. */
    method ExpireCredentials() returns (ok: bool)
      requires Valid() && PcOf(s, task).Idle? && s.holder.None?
      modifies this
      ensures Valid() && PcOf(s, task).Idle? && s.holder.None?
      ensures ok ==> s.creds.None?
      ensures !ok ==> s.creds == old(s).creds
      ensures s.roles == old(s).roles && s.tokens == old(s).tokens
      ensures !ok <==> EndedEmpty(world, task, run)
    {
      EnterFlush();
      ok := world.deleteOk(s);
      Take(Delete(task, ok));
    }
  }

  // ---- When a vend succeeds ----

  /** The registry vends on the first ask, made with the stored token, which is
      outside its last minute; and the credentials can be stored. */
  ghost predicate VendsAtOnce(w: World, s: State, task: Task)
    requires IsWorld(w)
  {
    && PcOf(s, task) == Ready(Vend, false) && s.tokens.Some? && s.tokens.value.expiresAt > s.now + 60
    && var asking := At(s, task, Calling(Vend, false, s.tokens.value.access));
       VendsAndStores(w, asking, task)
  }

  /** The answer to the ask is credentials, and they can be stored. */
  ghost predicate VendsAndStores(w: World, asking: State, task: Task)
    requires IsWorld(w) && PcOf(asking, task).Calling? && PcOf(asking, task).call.Vend?
  {
    && w.reply(asking, Vend).Vended?
    && w.writeOk(Apply(asking, Ask(task, w.reply(asking, Vend))))
  }

  /** The first ask is refused; the token endpoint gives tokens for the stored
      refresh token, which are stored; and the second ask is answered. */
  ghost predicate VendsOnRetry(w: World, s: State, task: Task)
    requires IsWorld(w)
  {
    && PcOf(s, task) == Ready(Vend, false) && s.tokens.Some? && s.tokens.value.expiresAt > s.now + 60
    && var asking := At(s, task, Calling(Vend, false, s.tokens.value.access));
       var token := s.tokens.value.refresh;
       && w.reply(asking, Vend).Unauthorized?
       && var refreshing := At(Apply(asking, Ask(task, Unauthorized)), task, Refreshing(Vend, true, token, false));
          && (w.answer(refreshing, token).Rotated? || w.answer(refreshing, token).KeptToken?)
          && var storing := Apply(refreshing, Present(task, w.answer(refreshing, token)));
             && w.storeOk(storing)
             && VendsAndStores(w, Apply(storing, Store(task, true)), task)
  }

  /** A run of the code goes on while the task works. */
  lemma MadeNext(w: World, task: Task, run: Trace, k: nat)
    requires IsRun(run) && Makes(w, task, run) && k < |run.states| && Working(PcOf(run.states[k], task))
    requires PcOf(run.states[|run.steps|], task).Idle?
    ensures k + 1 < |run.states|
    ensures Enabled(run.states[k], NextStep(w, run.states[k], task))
    ensures run.states[k + 1] == Apply(run.states[k], NextStep(w, run.states[k], task))
    ensures run.steps[k] == NextStep(w, run.states[k], task)
  {
    assert FollowsAt(run, k) && MadeAt(w, task, run, k);
  }

  /** From an ask that is answered with credentials the code stores them. */
  lemma VendedIsStored(w: World, task: Task, run: Trace, k: nat)
    requires IsWorld(w) && IsRun(run) && Makes(w, task, run) && k < |run.states|
    requires PcOf(run.states[|run.steps|], task).Idle?
    requires PcOf(run.states[k], task).Calling? && PcOf(run.states[k], task).call.Vend?
    requires VendsAndStores(w, run.states[k], task)
    ensures k + 2 < |run.states| && run.steps[k + 1] == WriteCreds(task)
    ensures run.states[k + 2].creds.Some? && PcOf(run.states[k + 2], task).Idle?
    ensures run.states[k + 2].creds.value.expiresAt == w.reply(run.states[k], Vend).expiresAt
  {
    MadeNext(w, task, run, k);
    MadeNext(w, task, run, k + 1);
  }

  /** **A vend that is answered is given.** From under the lock, with no valid
      credentials stored: at once, or on the second ask after one refusal, the code
      stores what was vended, with the time it was vended for. */
  lemma VendedIsGiven(w: World, task: Task, run: Trace, n: nat) returns (k: nat)
    requires IsWorld(w) && IsRun(run) && Makes(w, task, run) && n < |run.states|
    requires PcOf(run.states[|run.steps|], task).Idle?
    requires VendsAtOnce(w, run.states[n], task) || VendsOnRetry(w, run.states[n], task)
    ensures n < k < |run.steps| && run.steps[k] == WriteCreds(task)
    ensures run.states[k + 1].creds.Some? && PcOf(run.states[k + 1], task).Idle?
    ensures run.steps[k - 1] == Ask(task, Vended(run.states[k + 1].creds.value.expiresAt))
  {
    MadeNext(w, task, run, n);
    var ask := n + 1;
    if !VendsAndStores(w, run.states[ask], task) {
      ask := RetryAsks(w, task, run, n);
    }
    VendedIsStored(w, task, run, ask);
    MadeNext(w, task, run, ask);
    k := ask + 1;
  }

  lemma {:induction false} ServedGrows(run: Trace, i: nat, j: nat)
    requires IsRun(run) && i <= j < |run.states|
    ensures |run.states[i].history.served| <= |run.states[j].history.served|
    decreases j
  {
    if i < j {
      ServedGrows(run, i, j - 1);
      assert FollowsAt(run, j - 1);
      ServesMore(run.states[j - 1], run.steps[j - 1]);
    }
  }

  lemma ServesMore(s: State, step: Step)
    requires Enabled(s, step)
    ensures |s.history.served| <= |Apply(s, step).history.served|
    ensures step.WriteCreds? ==> |s.history.served| < |Apply(s, step).history.served|
  {
    if AsksServer(step) {
      AskedServesNone(s, step);
    }
  }

  lemma VendedIsServed(w: World, task: Task, run: Trace, n: nat)
    requires IsWorld(w) && IsRun(run) && Makes(w, task, run) && n < |run.states|
    requires PcOf(run.states[|run.steps|], task).Idle?
    ensures VendsAtOnce(w, run.states[n], task) || VendsOnRetry(w, run.states[n], task) ==>
              |run.states[n].history.served| < |run.states[|run.steps|].history.served|
  {
    if VendsAtOnce(w, run.states[n], task) || VendsOnRetry(w, run.states[n], task) {
      var k := VendedIsGiven(w, task, run, n);
      WrittenIsServed(run, n, k, task);
    }
  }

  lemma WrittenIsServed(run: Trace, n: nat, k: nat, task: Task)
    requires IsRun(run) && n <= k < |run.steps| && run.steps[k] == WriteCreds(task)
    ensures |run.states[n].history.served| < |run.states[|run.steps|].history.served|
  {
    ServedGrows(run, n, k);
    assert FollowsAt(run, k);
    ServesMore(run.states[k], run.steps[k]);
    ServedGrows(run, k + 1, |run.steps|);
  }

  lemma RetryAsks(w: World, task: Task, run: Trace, n: nat) returns (ask: nat)
    requires IsWorld(w) && IsRun(run) && Makes(w, task, run) && n < |run.states|
    requires PcOf(run.states[|run.steps|], task).Idle?
    requires VendsOnRetry(w, run.states[n], task)
    ensures ask == n + 5 && ask < |run.states|
    ensures PcOf(run.states[ask], task).Calling? && PcOf(run.states[ask], task).call.Vend?
    ensures VendsAndStores(w, run.states[ask], task)
  {
    MadeNext(w, task, run, n);
    MadeNext(w, task, run, n + 1);
    MadeNext(w, task, run, n + 2);
    ask := n + 5;
    RefreshAsks(w, task, run, n + 3);
  }

  /** Tokens that are given and stored go into the next ask. */
  lemma RefreshAsks(w: World, task: Task, run: Trace, k: nat)
    requires IsWorld(w) && IsRun(run) && Makes(w, task, run) && k < |run.states|
    requires PcOf(run.states[|run.steps|], task).Idle?
    requires PcOf(run.states[k], task).Refreshing?
    requires var answer := w.answer(run.states[k], PcOf(run.states[k], task).token);
             && (answer.Rotated? || answer.KeptToken?)
             && w.storeOk(Apply(run.states[k], Present(task, answer)))
    ensures k + 2 < |run.states|
    ensures var pc := PcOf(run.states[k], task);
            && PcOf(run.states[k + 2], task).Calling? && PcOf(run.states[k + 2], task).call == pc.call
            && run.states[k + 2]
               == Apply(Apply(run.states[k], Present(task, w.answer(run.states[k], pc.token))), Store(task, true))
  {
    MadeNext(w, task, run, k);
    MadeNext(w, task, run, k + 1);
  }

  /** The call was answered, or the task has ended; a vend was asked for at most
      `asks` times and nothing else is changed but the tokens. */
  predicate AskedWithin(before: State, after: State, task: Task, call: Call, asks: nat) {
    && after.creds == before.creds && after.roles == before.roles && after.history.served == before.history.served
    && before.history.vends <= after.history.vends
    && after.history.vends <= before.history.vends + (if call.Vend? then asks else 0)
    && match PcOf(after, task)
       case Writing(_) => call.Vend? && after.holder == Some(task)
       case Reconciling(switch, _) => call == AskRole(switch) && after.holder == Some(task)
       case Idle => after.holder.None?
       case _ => false
  }

  predicate Asked(before: State, after: State, task: Task, call: Call) {
    AskedWithin(before, after, task, call, 2)
  }

  predicate AskedOnce(before: State, after: State, task: Task, call: Call) {
    AskedWithin(before, after, task, call, 1)
  }
}
