/** The persisted cursor between two resumes (clients/core/src/cache.ts): a crash reads it as it is.  It passes a lost
    event exactly through a cursor write that waits ahead of the next reset when a failed one is repeated, or when an
    overtaken one fails, and it is left above lost rows by a reset that removes the rows and not the cursor. */
module DurableCrash {
  import opened Results
  import opened SyncEngine
  import SyncRuns
  import opened CacheSync
  import opened DurableDelivery

  /** A cursor write that will take effect, at or above a lost event. */
  predicate Passing(task: Task, blocked: Option<nat>, lost: set<nat>) {
    && task.CursorTask? && 0 <= task.seqno <= MAX_SAFE && (blocked.Some? ==> task.seqno < blocked.value)
    && exists m :: m in lost && m <= task.seqno
  }

  /** One such write waits ahead of the next reset. */
  predicate Threatened(tasks: seq<Task>, blocked: Option<nat>, lost: set<nat>)
    decreases |tasks|
  {
    tasks != [] && !tasks[0].ResetTask? && (Passing(tasks[0], blocked, lost) || Threatened(tasks[1..], blocked, lost))
  }

  predicate Threat(c: Cache, h: History) {
    Threatened(Pending(c), c.blockedCursorAt, h.lost)
  }

  /** A reset removes rows at or below the cursor, and leaves the cursor. */
  predicate Tears(y: System, outcome: Outcome) {
    outcome.rowsDone && !outcome.cursorDone && exists m :: m in y.history.applied && m <= Stored(y.cache)
  }

  /** A failed reset is not repeated, and an overtaken reset does not fail, ahead of a cursor write that would pass a lost
      event; and no reset tears. */
  predicate Guarded(y: System, a: Action)
    requires CanAct(y, a)
  {
    match a
    case Account => y.cache.resetFailed ==> !Threat(y.cache, y.history)
    case EndTask(outcome) =>
      y.cache.active.value.ResetTask? ==>
        !Tears(y, outcome) && (y.cache.active.value.epoch != y.cache.resetEpoch ==> !Threat(Act(y, a).cache, Act(y, a).history))
    case _ => true
  }

  /** At most a reset that waits keeps the cursor below what is lost. */
  predicate Safe(c: Cache, h: History) {
    BelowLost(c, h) && (Blocks(c, h) || c.resetFailed || (HasReset(Pending(c)) && !Threat(c, h)))
  }

  // ---- guarded actions keep the cursor safe ----

  lemma {:induction false} BlockedNoThreat(tasks: seq<Task>, blocked: Option<nat>, lost: set<nat>)
    requires forall n :: n in lost && n <= MAX_SAFE ==> blocked.Some? && blocked.value <= n
    ensures !Threatened(tasks, blocked, lost)
    decreases |tasks|
  {
    if tasks != [] {
      BlockedNoThreat(tasks[1..], blocked, lost);
    }
  }

  /** Tasks behind a reset threaten nothing, and a reset threatens nothing itself. */
  lemma {:induction false} ThreatAppend(tasks: seq<Task>, more: seq<Task>, blocked: Option<nat>, lost: set<nat>)
    requires HasReset(tasks) || (more != [] && more[0].ResetTask?)
    ensures Threatened(tasks + more, blocked, lost) <==> Threatened(tasks, blocked, lost)
    decreases |tasks|
  {
    if tasks == [] {
      assert tasks + more == more;
    } else {
      assert (tasks + more)[0] == tasks[0] && (tasks + more)[1..] == tasks[1..] + more;
      if !tasks[0].ResetTask? {
        assert tasks == [tasks[0]] + tasks[1..];
        HeadAndRest(0, tasks[0], tasks[1..]);
        hide HasReset;
        ThreatAppend(tasks[1..], more, blocked, lost);
      }
    }
  }

  /** A new loss with its block threatens nothing new. */
  lemma {:induction false} ThreatBlocked(tasks: seq<Task>, blocked: Option<nat>, lost: set<nat>, e: Event)
    requires Threatened(tasks, Blocked(blocked, e), lost + SeqSet(e))
    ensures Threatened(tasks, blocked, lost)
    decreases |tasks|
  {
    if !Passing(tasks[0], Blocked(blocked, e), lost + SeqSet(e)) {
      ThreatBlocked(tasks[1..], blocked, lost, e);
    }
  }

  lemma BlocksNoThreat(c: Cache, h: History)
    requires Blocks(c, h)
    ensures !Threat(c, h)
  {
    BlockedNoThreat(Pending(c), c.blockedCursorAt, h.lost);
  }

  lemma AppendSafe(c: Cache, h: History, h': History, more: seq<Task>)
    requires Safe(c, h) && h'.lost == h.lost && HasReset(Pending(c.(queue := c.queue + more))) == HasReset(Pending(c))
    ensures Safe(c.(queue := c.queue + more), h')
  {
    assert Pending(c.(queue := c.queue + more)) == Pending(c) + more;
    if HasReset(Pending(c)) {
      ThreatAppend(Pending(c), more, c.blockedCursorAt, h.lost);
    }
    hide HasReset;
    hide Threatened;
  }

  lemma EngineSafe(y: System, step: SyncRuns.Step)
    requires Inv(y) && CanAct(y, Engine(step)) && Safe(y.cache, y.history)
    ensures Safe(Act(y, Engine(step)).cache, Act(y, Engine(step)).history)
  {
    EngineKeeps(y, step);
    hide Inv;
    hide Safe;
    hide HasReset;
    hide SyncRuns.Next;
    hide SyncRuns.Enabled;
    hide Tasks;
    AppendSafe(y.cache, y.history, Act(y, Engine(step)).history, Tasks(Made(y.engine, SyncRuns.Next(y.engine, step))));
  }

  lemma AccountSafe(y: System)
    requires Inv(y) && Guarded(y, Account) && Safe(y.cache, y.history)
    ensures Safe(Act(y, Account).cache, Act(y, Account).history)
  {
    AccountKeeps(y);
    var last := ResetTask(y.cache.resetEpoch + 1);
    assert Pending(Act(y, Account).cache) == Pending(y.cache) + [last];
    ThreatAppend(Pending(y.cache), [last], y.cache.blockedCursorAt, y.history.lost);
    hide Inv;
    hide HasReset;
    hide Threatened;
  }

  /** A refused event is above the cursor. */
  lemma RefusedSafe(y: System)
    requires Inv(y) && CanAct(y, BeginTask) && Safe(y.cache, y.history) && y.cache.resetFailed
    ensures Safe(Act(y, BeginTask).cache, Act(y, BeginTask).history)
  {
    var task, rest := y.cache.queue[0], y.cache.queue[1..];
    assert Pending(y.cache) == [task] + rest;
    HeadAndRest(y.history.highest, task, rest);
    assert InTurn(y.history.highest, task) && !task.ResetTask?;
    hide Inv;
    hide Blocks;
    hide Pending;
    hide HasReset;
    hide Threatened;
  }

  lemma BegunSafe(c: Cache, c': Cache, h: History)
    requires Safe(c, h) && Pending(c') == Pending(c) && c'.cursor == c.cursor && c'.blockedCursorAt == c.blockedCursorAt
    requires c'.resetFailed == c.resetFailed
    ensures Safe(c', h)
  {
    hide HasReset;
    hide Threatened;
  }

  lemma BeginSafe(y: System)
    requires Inv(y) && CanAct(y, BeginTask) && Safe(y.cache, y.history)
    ensures Safe(Act(y, BeginTask).cache, Act(y, BeginTask).history)
  {
    if y.cache.resetFailed {
      RefusedSafe(y);
    } else {
      assert Pending(Act(y, BeginTask).cache) == Pending(y.cache);
      hide Inv;
      hide Safe;
      hide Pending;
      BegunSafe(y.cache, Act(y, BeginTask).cache, y.history);
    }
  }

  lemma HeadThreat(task: Task, rest: seq<Task>, blocked: Option<nat>, lost: set<nat>)
    requires !task.ResetTask?
    ensures Threatened([task] + rest, blocked, lost) <==> Passing(task, blocked, lost) || Threatened(rest, blocked, lost)
  {
    assert ([task] + rest)[0] == task && ([task] + rest)[1..] == rest;
  }

  lemma ApplyBelow(y: System, outcome: Outcome)
    requires Inv(y) && CanAct(y, EndTask(outcome)) && y.cache.active.value.ApplyTask? && BelowLost(y.cache, y.history)
    ensures BelowLost(Act(y, EndTask(outcome)).cache, Act(y, EndTask(outcome)).history)
  {
    var task, rest := y.cache.active.value, y.cache.queue;
    assert Pending(y.cache) == [task] + rest;
    HeadAndRest(y.history.highest, task, rest);
    assert InTurn(y.history.highest, task) && Stored(y.cache) <= y.history.highest;
    hide Inv;
    hide Pending;
  }

  lemma ApplyBlocks(y: System, outcome: Outcome)
    requires CanAct(y, EndTask(outcome)) && y.cache.active.value.ApplyTask? && Blocks(y.cache, y.history)
    ensures Blocks(Act(y, EndTask(outcome)).cache, Act(y, EndTask(outcome)).history)
  {
  }

  lemma ApplyThreat(y: System, outcome: Outcome)
    requires CanAct(y, EndTask(outcome)) && y.cache.active.value.ApplyTask? && !Threat(y.cache, y.history)
    ensures !Threat(Act(y, EndTask(outcome)).cache, Act(y, EndTask(outcome)).history)
  {
    var c, h := y.cache, y.history;
    var task, rest := c.active.value, c.queue;
    assert Pending(c) == [task] + rest && Pending(Act(y, EndTask(outcome)).cache) == rest;
    HeadThreat(task, rest, c.blockedCursorAt, h.lost);
    if Threatened(rest, Blocked(c.blockedCursorAt, task.event), h.lost + SeqSet(task.event)) {
      ThreatBlocked(rest, c.blockedCursorAt, h.lost, task.event);
    }
    hide Threatened;
    hide Passing;
    hide Blocked;
    hide SeqSet;
  }

  lemma EndOfApplySafe(y: System, outcome: Outcome)
    requires Inv(y) && CanAct(y, EndTask(outcome)) && y.cache.active.value.ApplyTask? && Safe(y.cache, y.history)
    ensures Safe(Act(y, EndTask(outcome)).cache, Act(y, EndTask(outcome)).history)
  {
    EndKeeps(y, outcome);
    assert !y.cache.resetFailed;
    hide Inv;
    hide BelowLost;
    hide Blocks;
    hide HasReset;
    hide Threat;
    ApplyBelow(y, outcome);
    if Blocks(y.cache, y.history) {
      ApplyBlocks(y, outcome);
    }
    if !Threat(y.cache, y.history) {
      ApplyThreat(y, outcome);
    }
    hide Act;
    hide CanAct;
  }

  lemma EndOfCursorSafe(y: System, outcome: Outcome)
    requires Inv(y) && CanAct(y, EndTask(outcome)) && y.cache.active.value.CursorTask? && Safe(y.cache, y.history)
    ensures Safe(Act(y, EndTask(outcome)).cache, Act(y, EndTask(outcome)).history)
  {
    EndKeeps(y, outcome);
    var c, h, c' := y.cache, y.history, Act(y, EndTask(outcome)).cache;
    var task, rest := c.active.value, c.queue;
    assert Pending(c) == [task] + rest && Pending(c') == rest;
    assert !c.resetFailed;
    HeadThreat(task, rest, c.blockedCursorAt, h.lost);
    hide Inv;
    hide HasReset;
    hide Threatened;
  }

  lemma EndOfResetSafe(y: System, outcome: Outcome)
    requires Inv(y) && CanAct(y, EndTask(outcome)) && y.cache.active.value.ResetTask? && Safe(y.cache, y.history)
    requires Guarded(y, EndTask(outcome))
    ensures Safe(Act(y, EndTask(outcome)).cache, Act(y, EndTask(outcome)).history)
  {
    EndKeeps(y, outcome);
    hide TopOf;
    hide Ascending;
    hide Seqs;
    hide HasReset;
    hide Threatened;
  }

  lemma ActSafe(y: System, a: Action)
    requires Inv(y) && CanAct(y, a) && Guarded(y, a) && Safe(y.cache, y.history)
    ensures Safe(Act(y, a).cache, Act(y, a).history)
  {
    match a {
      case Engine(step) => EngineSafe(y, step);
      case Account => AccountSafe(y);
      case Resume =>
      case BeginTask => BeginSafe(y);
      case EndTask(outcome) =>
        if y.cache.active.value.ApplyTask? {
          EndOfApplySafe(y, outcome);
        } else if y.cache.active.value.CursorTask? {
          EndOfCursorSafe(y, outcome);
        } else {
          EndOfResetSafe(y, outcome);
        }
    }
    hide Inv;
    hide Guarded;
    hide Threat;
    hide HasReset;
    hide End;
    hide Ended;
    hide SyncRuns.Next;
  }

  predicate AllGuarded(y: System, actions: seq<Action>)
    decreases |actions|
  {
    actions == [] || (var n := |actions| - 1;
      AllGuarded(y, actions[..n]) &&
      (Execute(y, actions).Some? ==> Guarded(Execute(y, actions[..n]).value, actions[n])))
  }

  lemma {:induction false} ExecuteSafe(y: System, actions: seq<Action>, persisted: Option<nat>)
    requires IsSeeded(y, persisted) && Execute(y, actions).Some? && AllGuarded(y, actions)
    ensures Inv(Execute(y, actions).value) && Safe(Execute(y, actions).value.cache, Execute(y, actions).value.history)
    decreases |actions|
  {
    hide Act;
    hide CanAct;
    hide Inv;
    hide Guarded;
    ExecuteKeeps(y, actions, persisted);
    if actions != [] {
      var n := |actions| - 1;
      ExecuteSafe(y, actions[..n], persisted);
      ActSafe(Execute(y, actions[..n]).value, actions[n]);
    }
  }

  /** At every step of every guarded run: the persisted cursor is below every delivered event that was lost, and every
      delivered event up to it has its row. */
  lemma CursorIsSafe(y: System, actions: seq<Action>, persisted: Option<nat>)
    requires IsSeeded(y, persisted) && Execute(y, actions).Some? && AllGuarded(y, actions)
    ensures var end := Execute(y, actions).value;
            && (forall n :: n in end.history.lost ==> Stored(end.cache) < n)
            && (forall n :: n in end.history.delivered && n <= Stored(end.cache) ==> n in end.history.applied)
  {
    hide Execute;
    hide TopOf;
    ExecuteSafe(y, actions, persisted);
    var end := Execute(y, actions).value;
    PendingAbove(end.history.highest, Pending(end.cache));
  }

  // ---- the guard is exact ----

  /** The queue is worked off, and no reset ends. */
  ghost predicate WorksOff(y: System, actions: seq<Action>)
    requires Execute(y, actions).Some?
    decreases |actions|
  {
    actions == [] || (var n := |actions| - 1;
      && WorksOff(y, actions[..n])
      && (actions[n].BeginTask? || (actions[n].EndTask? && !Execute(y, actions[..n]).value.cache.active.value.ResetTask?)))
  }

  /** Before another reset ends, the persisted cursor can be at or above a lost event. */
  ghost predicate CanFail(y: System) {
    exists actions :: Execute(y, actions).Some? && WorksOff(y, actions) &&
      !BelowLost(Execute(y, actions).value.cache, Execute(y, actions).value.history)
  }

  lemma {:induction false} WorkedOffSafe(y: System, actions: seq<Action>)
    requires Inv(y) && Safe(y.cache, y.history) && Execute(y, actions).Some? && WorksOff(y, actions)
    ensures var end := Execute(y, actions).value; Inv(end) && Safe(end.cache, end.history)
    decreases |actions|
  {
    hide Act;
    hide CanAct;
    hide Inv;
    if actions != [] {
      var n := |actions| - 1;
      WorkedOffSafe(y, actions[..n]);
      var before := Execute(y, actions[..n]).value;
      assert Guarded(before, actions[n]);
      ActKeeps(before, actions[n]);
      ActSafe(before, actions[n]);
    }
  }

  lemma SafeCannotFail(y: System)
    requires Inv(y) && Safe(y.cache, y.history)
    ensures !CanFail(y)
  {
    if CanFail(y) {
      var actions :| Execute(y, actions).Some? && WorksOff(y, actions) &&
        !BelowLost(Execute(y, actions).value.cache, Execute(y, actions).value.history);
      WorkedOffSafe(y, actions);
    }
  }

  lemma {:induction false} ExecuteConcat(y: System, some: seq<Action>, more: seq<Action>)
    requires Execute(y, some).Some?
    ensures Execute(y, some + more) == Execute(Execute(y, some).value, more)
    ensures Execute(y, some + more).Some? && WorksOff(y, some) && WorksOff(Execute(y, some).value, more) ==> WorksOff(y, some + more)
    decreases |more|
  {
    hide Act;
    hide CanAct;
    if more == [] {
      assert some + more == some;
    } else {
      var m := |more| - 1;
      ExecuteConcat(y, some, more[..m]);
      assert (some + more)[..|some + more| - 1] == some + more[..m];
    }
  }

  lemma FailsLater(y: System, some: seq<Action>)
    requires Execute(y, some).Some? && WorksOff(y, some) && CanFail(Execute(y, some).value)
    ensures CanFail(y)
  {
    var t := Execute(y, some).value;
    var more :| Execute(t, more).Some? && WorksOff(t, more) &&
      !BelowLost(Execute(t, more).value.cache, Execute(t, more).value.history);
    ExecuteConcat(y, some, more);
    hide Execute;
    hide WorksOff;
    hide BelowLost;
    assert Execute(y, some + more).Some? && WorksOff(y, some + more);
  }

  lemma FailsNow(y: System)
    requires !BelowLost(y.cache, y.history)
    ensures CanFail(y)
  {
    assert Execute(y, []) == Some(y) && WorksOff(y, []);
  }

  lemma OneAction(y: System, a: Action)
    requires CanAct(y, a) && (a.BeginTask? || (a.EndTask? && !y.cache.active.value.ResetTask?))
    ensures Execute(y, [a]) == Some(Act(y, a)) && WorksOff(y, [a])
  {
    hide Act;
    assert [a][..0] == [] && Execute(y, []) == Some(y) && WorksOff(y, []);
  }

  const DONE := EndTask(Outcome(true, true))

  lemma DoneWrite(y: System)
    requires CanAct(y, DONE) && y.cache.active.value.CursorTask? && BelowLost(y.cache, y.history)
    ensures var z := Act(y, DONE);
            && z.history.lost == y.history.lost && z.cache.blockedCursorAt == y.cache.blockedCursorAt && !z.cache.resetFailed == !y.cache.resetFailed
            && (Passing(y.cache.active.value, y.cache.blockedCursorAt, y.history.lost) ==> !BelowLost(z.cache, z.history))
  {
  }

  lemma DoneApply(y: System)
    requires CanAct(y, DONE) && y.cache.active.value.ApplyTask? && BelowLost(y.cache, y.history)
    ensures var z := Act(y, DONE);
            && z.history.lost == y.history.lost && z.cache.blockedCursorAt == y.cache.blockedCursorAt && !z.cache.resetFailed == !y.cache.resetFailed
            && BelowLost(z.cache, z.history)
  {
  }

  /** The task at hand is done. */
  lemma DoneTask(y: System)
    requires Inv(y) && BelowLost(y.cache, y.history) && Threat(y.cache, y.history) && y.cache.active.Some?
    ensures CanAct(y, DONE) && !y.cache.active.value.ResetTask?
    ensures var z := Act(y, DONE);
            !BelowLost(z.cache, z.history) ||
            (BelowLost(z.cache, z.history) && Threat(z.cache, z.history) && !z.cache.resetFailed && |Pending(z.cache)| == |Pending(y.cache)| - 1)
  {
    var c, h, c' := y.cache, y.history, Act(y, DONE).cache;
    var task, rest := c.active.value, c.queue;
    assert Pending(c) == [task] + rest && Pending(c') == rest;
    assert Pending(c)[0] == task;
    assert !task.ResetTask?;
    HeadThreat(task, rest, c.blockedCursorAt, h.lost);
    assert !c.resetFailed;
    if task.CursorTask? {
      DoneWrite(y);
    } else {
      DoneApply(y);
    }
    hide Inv;
    hide Threatened;
    hide Act;
    hide BelowLost;
    hide Passing;
  }

  /** A write that threatens can take effect. */
  lemma {:induction false} ThreatFails(y: System)
    requires Inv(y) && BelowLost(y.cache, y.history) && Threat(y.cache, y.history) && !y.cache.resetFailed
    ensures CanFail(y)
    decreases |Pending(y.cache)|, if y.cache.active.Some? then 0 else 1
  {
    if y.cache.active.Some? {
      DoneTask(y);
      var z := Act(y, DONE);
      OneAction(y, DONE);
      ActKeeps(y, DONE);
      hide Act;
      hide CanAct;
      hide Inv;
      hide Threat;
      hide BelowLost;
      hide Execute;
      hide WorksOff;
      if BelowLost(z.cache, z.history) {
        ThreatFails(z);
      } else {
        FailsNow(z);
      }
      FailsLater(y, [DONE]);
    } else {
      assert Pending(y.cache) == y.cache.queue != [];
      var z := Act(y, BeginTask);
      OneAction(y, BeginTask);
      ActKeeps(y, BeginTask);
      assert Pending(z.cache) == Pending(y.cache);
      hide Inv;
      hide Threatened;
      hide Execute;
      hide WorksOff;
      ThreatFails(z);
      FailsLater(y, [BeginTask]);
    }
  }

  /** After any guarded run, and at whatever comes next: the persisted cursor can pass a lost event before another reset
      ends, or is already above one, exactly when that action is not guarded. */
  lemma GuardIsExact(y: System, actions: seq<Action>, persisted: Option<nat>, a: Action)
    requires IsSeeded(y, persisted) && Execute(y, actions).Some? && AllGuarded(y, actions) && CanAct(Execute(y, actions).value, a)
    ensures var t := Execute(y, actions).value; CanFail(Act(t, a)) <==> !Guarded(t, a)
  {
    ExecuteSafe(y, actions, persisted);
    var t := Execute(y, actions).value;
    ActKeeps(t, a);
    hide Execute;
    hide Inv;
    if Guarded(t, a) {
      ActSafe(t, a);
      hide Act;
      SafeCannotFail(Act(t, a));
    } else {
      UnguardedFails(t, a);
    }
  }

  lemma UnguardedFails(t: System, a: Action)
    requires Inv(t) && Safe(t.cache, t.history) && CanAct(t, a) && !Guarded(t, a)
    ensures CanFail(Act(t, a))
  {
    ActKeeps(t, a);
    var z := Act(t, a);
    if !BelowLost(z.cache, z.history) {
      FailsNow(z);
    } else if a.Account? {
      EarlyRetry(t);
    } else {
      EndOfStale(t, a.outcome);
    }
  }

  lemma EarlyRetry(t: System)
    requires Inv(t) && t.cache.resetFailed && Threat(t.cache, t.history) && BelowLost(t.cache, t.history)
    ensures CanFail(Act(t, Account))
  {
    var last := ResetTask(t.cache.resetEpoch + 1);
    ActKeeps(t, Account);
    assert Pending(Act(t, Account).cache) == Pending(t.cache) + [last];
    ThreatAppend(Pending(t.cache), [last], t.cache.blockedCursorAt, t.history.lost);
    hide Inv;
    hide Threatened;
    ThreatFails(Act(t, Account));
  }

  lemma EndOfStale(t: System, outcome: Outcome)
    requires Inv(t) && CanAct(t, EndTask(outcome)) && !Guarded(t, EndTask(outcome))
    requires BelowLost(Act(t, EndTask(outcome)).cache, Act(t, EndTask(outcome)).history)
    ensures CanFail(Act(t, EndTask(outcome)))
  {
    var z := Act(t, EndTask(outcome));
    ActKeeps(t, EndTask(outcome));
    assert !Tears(t, outcome) by { TornIsAbove(t, outcome); }
    assert !t.cache.resetFailed && !z.cache.resetFailed;
    hide Inv;
    hide Act;
    hide Tears;
    ThreatFails(z);
  }

  lemma TornIsAbove(t: System, outcome: Outcome)
    requires CanAct(t, EndTask(outcome)) && t.cache.active.value.ResetTask?
    ensures Tears(t, outcome) ==> !BelowLost(Act(t, EndTask(outcome)).cache, Act(t, EndTask(outcome)).history)
  {
  }

  // ---- the failures are real ----

  lemma ActsOn(y: System, actions: seq<Action>, t: System, a: Action, u: System)
    requires Execute(y, actions) == Some(t) && CanAct(t, a) && Act(t, a) == u
    ensures Execute(y, actions + [a]) == Some(u)
  {
    hide Act;
    hide CanAct;
    assert (actions + [a])[..|actions|] == actions;
  }

  /** An event above the cursor comes in and is handed to the cache, and then its number. */
  function Handed(y: System, e: Event): System
    requires e.seqno.Some?
  {
    var n := e.seqno.value;
    y.(engine := ApplyNow(y.engine, e), cache := y.cache.(queue := y.cache.queue + [ApplyTask(e), CursorTask(n)]),
       history := y.history.(delivered := y.history.delivered + {n}))
  }

  lemma HandsOver(y: System, e: Event)
    requires y.engine.inFlight == None && e.seqno.Some? && Cursor(y.engine) < e.seqno.value
    ensures CanAct(y, Engine(SyncRuns.Received(e))) && Act(y, Engine(SyncRuns.Received(e))) == Handed(y, e)
  {
    var n := e.seqno.value;
    var outs := [Deliver(e), Acknowledge(n)];
    assert Made(y.engine, ApplyNow(y.engine, e)) == outs;
    assert outs[..1] == [Deliver(e)] && outs[..1][..0] == [];
    assert Tasks(outs) == Tasks(outs[..1]) + [CursorTask(n)] && Tasks(outs[..1]) == [] + [ApplyTask(e)];
    assert Tasks(outs) == [ApplyTask(e)] + [CursorTask(n)] == [ApplyTask(e), CursorTask(n)];
    SeqsConcat([ApplyTask(e)], [CursorTask(n)]);
    SeqsOf(ApplyTask(e));
    SeqsOf(CursorTask(n));
    hide Seqs;
    hide Tasks;
  }

  /** The first reset has been called and begun. */
  function Resetting(y: System): System {
    y.(cache := y.cache.(resetEpoch := 1, active := Some(ResetTask(1))))
  }

  lemma BeginsReset(y: System)
    requires y.cache.queue == [] && y.cache.active == None && y.cache.resetEpoch == 0 && !y.cache.resetFailed
    ensures Execute(y, [Account] + [BeginTask]) == Some(Resetting(y))
  {
    var m := y.(cache := y.cache.(resetEpoch := 1, queue := [ResetTask(1)]));
    assert y.cache.queue + [ResetTask(1)] == [ResetTask(1)];
    assert [] + [Account] == [Account];
    ActsOn(y, [], y, Account, m);
    ActsOn(y, [Account], m, BeginTask, Resetting(y));
  }

  /** A reset runs; an event and its number come in behind it; the reset fails, and the event is refused.  Called again
      at once, before the number has been refused too, the reset lets it through: the cursor lands on the lost event. */
  lemma EarlyRetryPasses(y: System, e: Event, persisted: Option<nat>)
    requires IsSeeded(y, persisted) && y.engine.inFlight == None && e.seqno.Some? && Cursor(y.engine) < e.seqno.value <= MAX_SAFE
    ensures var refused := [Account] + [BeginTask] + [Engine(SyncRuns.Received(e))] + [EndTask(Outcome(false, false))] + [BeginTask];
            var retried := refused + [Account] + [BeginTask] + [DONE];
            && Execute(y, refused).Some? && CanAct(Execute(y, refused).value, Account) && !Guarded(Execute(y, refused).value, Account)
            && Execute(y, retried).Some? && var end := Execute(y, retried).value;
               e.seqno.value in end.history.lost && Stored(end.cache) == e.seqno.value && HasReset(Pending(end.cache))
  {
    var n := e.seqno.value;
    var s1 := Resetting(y);
    BeginsReset(y);
    HandsOver(s1, e);
    hide Execute;
    var s2 := Handed(s1, e);
    ActsOn(y, [Account] + [BeginTask], s1, Engine(SyncRuns.Received(e)), s2);
    assert s2.cache.queue == [ApplyTask(e), CursorTask(n)];
    FailsAndRefuses(s2, e);
    var s3 := s2.(cache := s2.cache.(active := None, resetFailed := true));
    ActsOn(y, [Account] + [BeginTask] + [Engine(SyncRuns.Received(e))], s2, EndTask(Outcome(false, false)), s3);
    var refused := [Account] + [BeginTask] + [Engine(SyncRuns.Received(e))] + [EndTask(Outcome(false, false))] + [BeginTask];
    var s4 := Act(s3, BeginTask);
    ActsOn(y, [Account] + [BeginTask] + [Engine(SyncRuns.Received(e))] + [EndTask(Outcome(false, false))], s3, BeginTask, s4);
    RetryPasses(s4, n);
    var s5, s6, s7 := Act(s4, Account), Act(Act(s4, Account), BeginTask), Act(Act(Act(s4, Account), BeginTask), DONE);
    ActsOn(y, refused, s4, Account, s5);
    ActsOn(y, refused + [Account], s5, BeginTask, s6);
    ActsOn(y, refused + [Account] + [BeginTask], s6, DONE, s7);
  }

  lemma FailsAndRefuses(y: System, e: Event)
    requires e.seqno.Some? && y.history.highest < e.seqno.value && y.history.lost == {}
    requires y.cache.active == Some(ResetTask(1)) && y.cache.resetEpoch == 1 && y.cache.queue == [ApplyTask(e), CursorTask(e.seqno.value)]
    requires Stored(y.cache) < e.seqno.value && y.cache.blockedCursorAt == None
    ensures var z := Act(y, EndTask(Outcome(false, false))); z == y.(cache := y.cache.(active := None, resetFailed := true))
    ensures var z := Act(Act(y, EndTask(Outcome(false, false))), BeginTask);
            && z.cache == y.cache.(active := None, resetFailed := true, queue := [CursorTask(e.seqno.value)])
            && z.history.lost == {e.seqno.value}
  {
  }

  lemma RetryPasses(y: System, n: nat)
    requires y.cache.queue == [CursorTask(n)] && y.cache.active == None && y.cache.resetFailed && y.cache.blockedCursorAt == None
    requires y.history.lost == {n} && Stored(y.cache) < n <= MAX_SAFE
    ensures CanAct(y, Account) && !Guarded(y, Account) && CanAct(Act(y, Account), BeginTask) && CanAct(Act(Act(y, Account), BeginTask), DONE)
    ensures var z := Act(Act(Act(y, Account), BeginTask), DONE);
            n in z.history.lost && Stored(z.cache) == n && HasReset(Pending(z.cache))
  {
    assert Passing(Pending(y.cache)[0], None, {n});
    var last := ResetTask(y.cache.resetEpoch + 1);
    var a := Act(y, Account);
    assert a.cache.queue == [CursorTask(n), last];
    var b := Act(a, BeginTask);
    assert b.cache.queue == [last] && b.cache.active == Some(CursorTask(n));
    assert Pending(Act(b, DONE).cache)[0] == last;
  }

  /** The rows go and the cursor stays: an event that has its row and lies at the cursor loses it. */
  lemma TornReset(y: System, n: nat)
    requires y.cache.queue == [] && y.cache.active == None && y.cache.resetEpoch == 0 && !y.cache.resetFailed
    requires n in y.history.applied && y.history.lost == {} && Stored(y.cache) == n
    ensures var begun := [Account] + [BeginTask];
            && Execute(y, begun).Some? && CanAct(Execute(y, begun).value, EndTask(Outcome(true, false)))
            && !Guarded(Execute(y, begun).value, EndTask(Outcome(true, false)))
            && Execute(y, begun + [EndTask(Outcome(true, false))]).Some?
            && var end := Execute(y, begun + [EndTask(Outcome(true, false))]).value;
               end.cache.written == [] && Stored(end.cache) == n && n in end.history.lost
  {
    BeginsReset(y);
    var s := Resetting(y);
    ActsOn(y, [Account] + [BeginTask], s, EndTask(Outcome(true, false)), Act(s, EndTask(Outcome(true, false))));
    hide Execute;
  }

  /** Such a state is reached by one event and its number. */
  lemma WrittenAndAcknowledged(y: System, e: Event, persisted: Option<nat>)
    requires IsSeeded(y, persisted) && y.engine.inFlight == None && e.seqno.Some? && Cursor(y.engine) < e.seqno.value <= MAX_SAFE
    ensures var actions := [Engine(SyncRuns.Received(e))] + [BeginTask] + [DONE] + [BeginTask] + [DONE];
            && Execute(y, actions).Some? && var end := Execute(y, actions).value;
               && end.cache.queue == [] && end.cache.active == None && end.cache.resetEpoch == 0 && !end.cache.resetFailed
               && e.seqno.value in end.history.applied && end.history.lost == {} && Stored(end.cache) == e.seqno.value
  {
    var n := e.seqno.value;
    var r := Engine(SyncRuns.Received(e));
    HandsOver(y, e);
    var s1 := Handed(y, e);
    assert s1.cache.queue == [ApplyTask(e), CursorTask(n)];
    var s2 := Act(s1, BeginTask);
    assert s2.cache.queue == [CursorTask(n)] && s2.cache.active == Some(ApplyTask(e));
    var s3 := Act(s2, DONE);
    var s4 := Act(s3, BeginTask);
    assert s4.cache.queue == [] && s4.cache.active == Some(CursorTask(n));
    var s5 := Act(s4, DONE);
    assert [] + [r] == [r];
    ActsOn(y, [], y, r, s1);
    ActsOn(y, [r], s1, BeginTask, s2);
    ActsOn(y, [r] + [BeginTask], s2, DONE, s3);
    ActsOn(y, [r] + [BeginTask] + [DONE], s3, BeginTask, s4);
    ActsOn(y, [r] + [BeginTask] + [DONE] + [BeginTask], s4, DONE, s5);
    hide Execute;
  }
}
