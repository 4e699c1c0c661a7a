/** Engine and cache together (clients/core/src/sync.ts, cache.ts): every call of onEvent becomes a cache write and
    every call of onCursor a cursor write, and the engine of a session is seeded from the persisted cursor.  A cursor
    from which a session resumes is below every event that was delivered and lost. */
module DurableDelivery {
  import opened Results
  import opened SyncEngine
  import opened SyncRuns
  import opened CacheSync

  /** Sequence numbers of the durable events handed to the cache since the last seed or the last reset that removed rows
      and cursor, of those among them whose rows are in the store, and of those whose write failed or was refused or
      whose rows a reset has removed without the cursor; `highest` is the last number that has left the queue, or the
      seed. */
  datatype History = History(highest: nat, delivered: set<nat>, applied: set<nat>, lost: set<nat>)

  datatype System = System(engine: State, cache: Cache, history: History)

  datatype Action = Engine(step: Step) | Account | Resume | BeginTask | EndTask(outcome: Outcome)

  function TaskOf(o: Output): Task {
    match o
    case Deliver(e) => ApplyTask(e)
    case Acknowledge(n) => CursorTask(n)
  }

  function Tasks(outs: seq<Output>): seq<Task>
    decreases |outs|
  {
    if outs == [] then [] else Tasks(outs[..|outs| - 1]) + [TaskOf(outs[|outs| - 1])]
  }

  /** The calls a step of the engine made. */
  function Made(s: State, s': State): seq<Output> {
    if s.outputs <= s'.outputs then s'.outputs[|s.outputs|..] else []
  }

  function Seqs(tasks: seq<Task>): set<nat> {
    set t | t in tasks && t.ApplyTask? && t.event.seqno.Some? :: t.event.seqno.value
  }

  predicate CanAct(y: System, a: Action) {
    match a
    case Engine(step) => Enabled(y.engine, step) && !step.Seeded?
    case Account => true
    case Resume => !y.engine.running && Idle(y.cache) && !y.cache.resetFailed
    case BeginTask => y.cache.active == None && y.cache.queue != []
    case EndTask(_) => y.cache.active.Some?
  }

  function Raise(h: nat, e: Event): nat {
    if e.seqno.Some? && e.seqno.value > h then e.seqno.value else h
  }

  function RaiseTo(h: nat, n: int): nat {
    if n > h then n else h
  }

  function SeqSet(e: Event): set<nat> {
    if e.seqno.Some? then {e.seqno.value} else {}
  }

  /** A task refused after a failed reset. */
  function Refused(h: History, task: Task): History {
    match task
    case ApplyTask(e) => h.(highest := Raise(h.highest, e), lost := h.lost + SeqSet(e))
    case CursorTask(n) => h.(highest := RaiseTo(h.highest, n))
    case ResetTask(_) => h
  }

  function Ended(h: History, task: Task, outcome: Outcome, queue: seq<Task>): History {
    match task
    case ApplyTask(e) =>
      if outcome.rowsDone then h.(highest := Raise(h.highest, e), applied := h.applied + SeqSet(e))
      else h.(highest := Raise(h.highest, e), lost := h.lost + SeqSet(e))
    case CursorTask(n) => h.(highest := RaiseTo(h.highest, n))
    case ResetTask(_) =>
      if outcome.rowsDone && outcome.cursorDone then h.(delivered := Seqs(queue), applied := {}, lost := {})
      else if outcome.rowsDone then h.(applied := {}, lost := h.lost + h.applied)
      else h
  }

  function Act(y: System, a: Action): System
    requires CanAct(y, a)
  {
    match a
    case Engine(step) =>
      var e := Next(y.engine, step);
      var tasks := Tasks(Made(y.engine, e));
      y.(engine := e, cache := y.cache.(queue := y.cache.queue + tasks), history := y.history.(delivered := y.history.delivered + Seqs(tasks)))
    case Account => y.(cache := ResetCalled(y.cache))
    case Resume =>
      y.(engine := SetCursor(y.engine, Stored(y.cache)), history := y.history.(highest := Stored(y.cache), delivered := {}, applied := {}, lost := {}))
    case BeginTask =>
      var refused := y.cache.resetFailed && !y.cache.queue[0].ResetTask?;
      y.(cache := Begin(y.cache), history := if refused then Refused(y.history, y.cache.queue[0]) else y.history)
    case EndTask(outcome) =>
      y.(cache := End(y.cache, outcome), history := Ended(y.history, y.cache.active.value, outcome, y.cache.queue))
  }

  // ---- the invariant ----

  function Pending(c: Cache): seq<Task> {
    (if c.active.Some? then [c.active.value] else []) + c.queue
  }

  function Above(h: nat, task: Task): nat {
    match task
    case ApplyTask(e) => Raise(h, e)
    case CursorTask(n) => RaiseTo(h, n)
    case ResetTask(_) => h
  }

  predicate InTurn(h: nat, task: Task) {
    match task
    case ApplyTask(e) => e.seqno.Some? ==> e.seqno.value > h
    case CursorTask(n) => n >= h
    case ResetTask(_) => true
  }

  function TopOf(h: nat, tasks: seq<Task>): nat
    decreases |tasks|
  {
    if tasks == [] then h else TopOf(Above(h, tasks[0]), tasks[1..])
  }

  /** The waiting tasks go up from h: events strictly, cursors weakly. */
  predicate Ascending(h: nat, tasks: seq<Task>)
    decreases |tasks|
  {
    tasks == [] || (InTurn(h, tasks[0]) && Ascending(Above(h, tasks[0]), tasks[1..]))
  }

  predicate BelowLost(c: Cache, h: History) {
    forall n :: n in h.lost ==> Stored(c) < n
  }

  /** An unblocked cursor write stays below every loss. */
  predicate Blocks(c: Cache, h: History) {
    forall n :: n in h.lost && n <= MAX_SAFE ==> c.blockedCursorAt.Some? && c.blockedCursorAt.value <= n
  }

  predicate HasReset(tasks: seq<Task>) {
    exists i :: 0 <= i < |tasks| && tasks[i].ResetTask?
  }

  /** The last reset called has the current epoch, and no other; one that has failed with it was the last. */
  predicate Epochs(c: Cache) {
    var tasks := Pending(c);
    && (forall i :: 0 <= i < |tasks| && tasks[i].ResetTask? ==>
          tasks[i].epoch <= c.resetEpoch && (tasks[i].epoch != c.resetEpoch <==> HasReset(tasks[i + 1..])))
    && (c.resetFailed ==> !HasReset(tasks) && c.active == None)
  }

  ghost predicate Inv(y: System) {
    var c, h := y.cache, y.history;
    && Ascending(h.highest, Pending(c)) && TopOf(h.highest, Pending(c)) <= Cursor(y.engine)
    && Epochs(c)
    && Stored(c) <= h.highest && Stored(c) <= MAX_SAFE
    && h.delivered == h.applied + h.lost + Seqs(Pending(c))
  }

  /** What makes a resume safe: a failed reset forbids it, and one that waits will run before it. */
  predicate Sound(c: Cache, h: History) {
    (BelowLost(c, h) && Blocks(c, h)) || c.resetFailed || HasReset(Pending(c))
  }

  // ---- sequences of tasks ----

  lemma {:induction false} AscendingConcat(h: nat, p: seq<Task>, q: seq<Task>)
    ensures TopOf(h, p + q) == TopOf(TopOf(h, p), q)
    ensures Ascending(h, p + q) <==> Ascending(h, p) && Ascending(TopOf(h, p), q)
    ensures TopOf(h, p) >= h
    decreases |p|
  {
    if p == [] {
      assert p + q == q;
    } else {
      AscendingConcat(Above(h, p[0]), p[1..], q);
      assert (p + q)[0] == p[0] && (p + q)[1..] == p[1..] + q;
    }
  }

  lemma TopOfOne(h: nat, task: Task)
    ensures TopOf(h, [task]) == Above(h, task)
    ensures Ascending(h, [task]) <==> InTurn(h, task)
  {
    assert [task][1..] == [];
  }

  lemma {:induction false} TasksInOrder(c: nat, outs: seq<Output>, h: nat)
    requires InOrder(c, outs) && h <= c
    ensures Ascending(h, Tasks(outs)) && TopOf(h, Tasks(outs)) <= After(c, outs)
    decreases |outs|
  {
    if outs != [] {
      var n := |outs| - 1;
      TasksInOrder(c, outs[..n], h);
      AscendingConcat(h, Tasks(outs[..n]), [TaskOf(outs[n])]);
      TopOfOne(TopOf(h, Tasks(outs[..n])), TaskOf(outs[n]));
    }
  }

  lemma SeqsConcat(p: seq<Task>, q: seq<Task>)
    ensures Seqs(p + q) == Seqs(p) + Seqs(q)
  {
    assert forall t :: t in p + q <==> t in p || t in q;
  }

  lemma HasResetConcat(p: seq<Task>, q: seq<Task>)
    ensures HasReset(p + q) <==> HasReset(p) || HasReset(q)
  {
    if HasReset(p) {
      var i :| 0 <= i < |p| && p[i].ResetTask?;
      assert (p + q)[i] == p[i];
    }
    if HasReset(q) {
      var i :| 0 <= i < |q| && q[i].ResetTask?;
      assert (p + q)[|p| + i] == q[i];
    }
  }

  lemma SeqsOf(task: Task)
    ensures Seqs([task]) == if task.ApplyTask? then SeqSet(task.event) else {}
  {
    if task.ApplyTask? {
      assert task in [task];
    }
  }

  /** The head of the waiting tasks and the rest. */
  lemma HeadAndRest(h: nat, task: Task, rest: seq<Task>)
    ensures Ascending(h, [task] + rest) <==> InTurn(h, task) && Ascending(Above(h, task), rest)
    ensures TopOf(h, [task] + rest) == TopOf(Above(h, task), rest)
    ensures Seqs([task] + rest) == (if task.ApplyTask? then SeqSet(task.event) else {}) + Seqs(rest)
    ensures HasReset([task] + rest) <==> task.ResetTask? || HasReset(rest)
  {
    assert ([task] + rest)[0] == task && ([task] + rest)[1..] == rest;
    SeqsConcat([task], rest);
    SeqsOf(task);
    HasResetConcat([task], rest);
    assert HasReset([task]) <==> task.ResetTask? by { assert [task][0] == task; }
  }

  // ---- every action keeps it ----

  lemma EpochsAppend(c: Cache, more: seq<Task>)
    requires Epochs(c) && !HasReset(more)
    ensures Epochs(c.(queue := c.queue + more)) && (HasReset(Pending(c.(queue := c.queue + more))) <==> HasReset(Pending(c)))
  {
    var tasks, tasks' := Pending(c), Pending(c.(queue := c.queue + more));
    assert tasks' == tasks + more;
    HasResetConcat(tasks, more);
    assert forall i :: |tasks| <= i < |tasks'| ==> tasks'[i] == more[i - |tasks|];
    forall i | 0 <= i < |tasks| && tasks'[i].ResetTask?
      ensures tasks'[i].epoch <= c.resetEpoch && (tasks'[i].epoch != c.resetEpoch <==> HasReset(tasks'[i + 1..]))
    {
      TailAppend(tasks, more, i);
    }
    assert forall i :: 0 <= i < |more| ==> !more[i].ResetTask?;
    hide HasReset;
  }

  lemma TailAppend(tasks: seq<Task>, more: seq<Task>, i: nat)
    requires i < |tasks|
    ensures HasReset((tasks + more)[i + 1..]) <==> HasReset(tasks[i + 1..]) || HasReset(more)
  {
    assert (tasks + more)[i + 1..] == tasks[i + 1..] + more;
    HasResetConcat(tasks[i + 1..], more);
  }

  lemma EpochsCalled(c: Cache)
    requires Epochs(c)
    ensures Epochs(ResetCalled(c)) && HasReset(Pending(ResetCalled(c)))
  {
    var last := ResetTask(c.resetEpoch + 1);
    var tasks, tasks' := Pending(c), Pending(ResetCalled(c));
    assert tasks' == tasks + [last];
    assert HasReset([last]) by { assert [last][0].ResetTask?; }
    HasResetConcat(tasks, [last]);
    forall i | 0 <= i < |tasks'| && tasks'[i].ResetTask?
      ensures tasks'[i].epoch <= c.resetEpoch + 1 && (tasks'[i].epoch != c.resetEpoch + 1 <==> HasReset(tasks'[i + 1..]))
    {
      if i < |tasks| {
        assert tasks'[i + 1..] == tasks[i + 1..] + [last];
        HasResetConcat(tasks[i + 1..], [last]);
      } else {
        assert tasks'[i + 1..] == [];
      }
    }
  }

  /** The head of the waiting tasks leaves. */
  lemma EpochsRest(c: Cache, c': Cache, task: Task)
    requires Epochs(c) && Pending(c) == [task] + Pending(c') && c'.resetEpoch == c.resetEpoch
    requires c'.resetFailed ==> c'.active == None && (c.resetFailed || task == ResetTask(c.resetEpoch))
    ensures Epochs(c')
    ensures task.ResetTask? ==> (task.epoch != c.resetEpoch <==> HasReset(Pending(c')))
  {
    var tasks, tasks' := Pending(c), Pending(c');
    HeadAndRest(0, task, tasks');
    assert tasks[1..] == tasks';
    forall i | 0 <= i < |tasks'| && tasks'[i].ResetTask?
      ensures tasks'[i].epoch <= c.resetEpoch && (tasks'[i].epoch != c.resetEpoch <==> HasReset(tasks'[i + 1..]))
    {
      assert tasks[i + 1] == tasks'[i] && tasks[i + 2..] == tasks'[i + 1..];
    }
    if task.ResetTask? {
      assert tasks[0] == task && HasReset(tasks[0 + 1..]) == HasReset(tasks');
    }
  }

  lemma NoResets(outs: seq<Output>)
    ensures !HasReset(Tasks(outs))
  {
    if outs != [] {
      NoResets(outs[..|outs| - 1]);
      HasResetConcat(Tasks(outs[..|outs| - 1]), [TaskOf(outs[|outs| - 1])]);
    }
  }

  lemma EngineKeeps(y: System, step: Step)
    requires Inv(y) && CanAct(y, Engine(step))
    ensures Inv(Act(y, Engine(step)))
    ensures HasReset(Pending(Act(y, Engine(step)).cache)) <==> HasReset(Pending(y.cache))
  {
    hide Next;
    hide TopOf;
    hide Ascending;
    hide Seqs;
    hide Epochs;
    hide HasReset;
    var y' := Act(y, Engine(step));
    StepAppends(y.engine, step);
    var outs := Made(y.engine, y'.engine);
    var top := TopOf(y.history.highest, Pending(y.cache));
    TasksInOrder(Cursor(y.engine), outs, top);
    assert Pending(y'.cache) == Pending(y.cache) + Tasks(outs);
    AscendingConcat(y.history.highest, Pending(y.cache), Tasks(outs));
    SeqsConcat(Pending(y.cache), Tasks(outs));
    NoResets(outs);
    EpochsAppend(y.cache, Tasks(outs));
  }

  lemma AccountKeeps(y: System)
    requires Inv(y)
    ensures Inv(Act(y, Account)) && HasReset(Pending(Act(y, Account).cache))
  {
    hide TopOf;
    hide Ascending;
    hide Seqs;
    hide Epochs;
    hide HasReset;
    var y' := Act(y, Account);
    var task := ResetTask(y'.cache.resetEpoch);
    assert Pending(y'.cache) == Pending(y.cache) + [task];
    AscendingConcat(y.history.highest, Pending(y.cache), [task]);
    TopOfOne(TopOf(y.history.highest, Pending(y.cache)), task);
    SeqsConcat(Pending(y.cache), [task]);
    SeqsOf(task);
    EpochsCalled(y.cache);
  }

  lemma ResumeKeeps(y: System)
    requires Inv(y) && CanAct(y, Resume)
    ensures Inv(Act(y, Resume))
  {
    assert Pending(y.cache) == [];
  }

  lemma BeginKeeps(y: System)
    requires Inv(y) && CanAct(y, BeginTask)
    ensures Inv(Act(y, BeginTask))
    ensures HasReset(Pending(Act(y, BeginTask).cache)) <==> HasReset(Pending(y.cache))
  {
    hide TopOf;
    hide Ascending;
    hide Seqs;
    hide HasReset;
    var y' := Act(y, BeginTask);
    var task, rest := y.cache.queue[0], y.cache.queue[1..];
    assert Pending(y.cache) == [task] + rest;
    HeadAndRest(y.history.highest, task, rest);
    if y.cache.resetFailed && !task.ResetTask? {
      assert Pending(y'.cache) == rest;
      EpochsRest(y.cache, y'.cache, task);
    } else {
      assert Pending(y'.cache) == [task] + rest;
    }
  }

  /** A task ends. */
  lemma EndKeeps(y: System, outcome: Outcome)
    requires Inv(y) && CanAct(y, EndTask(outcome))
    ensures Inv(Act(y, EndTask(outcome)))
    ensures var c, c' := y.cache, Act(y, EndTask(outcome)).cache;
            && (!c.active.value.ResetTask? ==> (HasReset(Pending(c')) <==> HasReset(Pending(c))))
            && (c.active.value.ResetTask? ==> (HasReset(Pending(c')) <==> c.active.value.epoch != c.resetEpoch))
  {
    hide TopOf;
    hide Ascending;
    hide Seqs;
    hide HasReset;
    var task, rest := y.cache.active.value, y.cache.queue;
    var y' := Act(y, EndTask(outcome));
    assert Pending(y.cache) == [task] + rest && Pending(y'.cache) == rest;
    HeadAndRest(y.history.highest, task, rest);
    assert !y.cache.resetFailed;
    EpochsRest(y.cache, y'.cache, task);
    hide Epochs;
  }

  lemma ActKeeps(y: System, a: Action)
    requires Inv(y) && CanAct(y, a)
    ensures Inv(Act(y, a))
  {
    hide Inv;
    match a
    case Engine(step) => EngineKeeps(y, step);
    case Account => AccountKeeps(y);
    case Resume => ResumeKeeps(y);
    case BeginTask => BeginKeeps(y);
    case EndTask(outcome) => EndKeeps(y, outcome);
  }

  // ---- every run ----

  function Execute(y: System, actions: seq<Action>): Option<System>
    decreases |actions|
  {
    if actions == [] then Some(y)
    else
      var n := |actions| - 1;
      var before := Execute(y, actions[..n]);
      if before.Some? && CanAct(before.value, actions[n]) then Some(Act(before.value, actions[n])) else None
  }

  /** A session seeded from a persisted cursor, over whatever rows the store holds. */
  predicate IsSeeded(y: System, persisted: Option<nat>) {
    && y.cache == Cache([], None, None, 0, false, persisted, y.cache.written)
    && (persisted.Some? ==> persisted.value <= MAX_SAFE)
    && Cursor(y.engine) >= Stored(y.cache)
    && y.history == History(Stored(y.cache), {}, {}, {})
  }

  lemma {:induction false} ExecuteKeeps(y: System, actions: seq<Action>, persisted: Option<nat>)
    requires IsSeeded(y, persisted) && Execute(y, actions).Some?
    ensures Inv(Execute(y, actions).value)
    decreases |actions|
  {
    hide Act;
    hide CanAct;
    if actions != [] {
      var n := |actions| - 1;
      ExecuteKeeps(y, actions[..n], persisted);
      ActKeeps(Execute(y, actions[..n]).value, actions[n]);
    }
  }

  // ---- resuming is safe ----

  lemma EndOfTask(y: System, outcome: Outcome)
    requires Inv(y) && CanAct(y, EndTask(outcome)) && !y.cache.active.value.ResetTask?
    requires BelowLost(y.cache, y.history) && Blocks(y.cache, y.history)
    ensures var y' := Act(y, EndTask(outcome)); BelowLost(y'.cache, y'.history) && Blocks(y'.cache, y'.history)
  {
    hide TopOf;
    hide Ascending;
    hide Seqs;
    hide Epochs;
    var task, rest := y.cache.active.value, y.cache.queue;
    assert Pending(y.cache) == [task] + rest;
    HeadAndRest(y.history.highest, task, rest);
    hide HasReset;
  }

  lemma EndOfReset(y: System, outcome: Outcome)
    requires Inv(y) && CanAct(y, EndTask(outcome)) && y.cache.active.value.ResetTask? && y.cache.active.value.epoch == y.cache.resetEpoch
    ensures var y' := Act(y, EndTask(outcome)); y'.cache.resetFailed || (BelowLost(y'.cache, y'.history) && Blocks(y'.cache, y'.history))
  {
    hide Inv;
  }

  lemma SoundKeeps(y: System, a: Action)
    requires Inv(y) && CanAct(y, a) && Sound(y.cache, y.history)
    ensures Sound(Act(y, a).cache, Act(y, a).history)
  {
    match a {
      case Engine(step) => EngineKeeps(y, step);
      case Account => AccountKeeps(y);
      case Resume =>
      case BeginTask => BeginKeeps(y);
      case EndTask(outcome) =>
        EndKeeps(y, outcome);
        assert !y.cache.resetFailed;
        if !y.cache.active.value.ResetTask? {
          if BelowLost(y.cache, y.history) && Blocks(y.cache, y.history) {
            EndOfTask(y, outcome);
          }
        } else if y.cache.active.value.epoch == y.cache.resetEpoch {
          EndOfReset(y, outcome);
        }
    }
    hide HasReset;
    hide TopOf;
    hide Ascending;
    hide Next;
    hide Tasks;
    hide Seqs;
    hide Epochs;
    hide End;
    hide Ended;
  }

  lemma {:induction false} ExecuteSound(y: System, actions: seq<Action>, persisted: Option<nat>)
    requires IsSeeded(y, persisted) && Execute(y, actions).Some?
    ensures Sound(Execute(y, actions).value.cache, Execute(y, actions).value.history)
    decreases |actions|
  {
    hide Act;
    hide CanAct;
    hide Inv;
    if actions != [] {
      var n := |actions| - 1;
      ExecuteSound(y, actions[..n], persisted);
      ExecuteKeeps(y, actions[..n], persisted);
      SoundKeeps(Execute(y, actions[..n]).value, actions[n]);
    }
  }

  lemma {:induction false} PendingAbove(h: nat, tasks: seq<Task>)
    requires Ascending(h, tasks)
    ensures forall n :: n in Seqs(tasks) ==> n > h
    decreases |tasks|
  {
    hide Seqs;
    if tasks == [] {
      EmptySeqs();
    } else {
      var rest := tasks[1..];
      PendingAbove(Above(h, tasks[0]), rest);
      HeadAndRest(h, tasks[0], rest);
      assert tasks == [tasks[0]] + rest;
    }
  }

  lemma EmptySeqs()
    ensures Seqs([]) == {}
  {
  }

  /** Whatever failed, and however early a failed reset was repeated: whenever the cache lets a session resume, it
      resumes at the persisted cursor, no delivered event at or below that cursor is lost, and each has its row. */
  lemma ResumeIsSafe(y: System, actions: seq<Action>, persisted: Option<nat>)
    requires IsSeeded(y, persisted) && Execute(y, actions).Some? && CanAct(Execute(y, actions).value, Resume)
    ensures var end := Execute(y, actions).value;
            && Act(end, Resume).engine.lastSeq == Some(Stored(end.cache))
            && (forall n :: n in end.history.lost ==> Stored(end.cache) < n)
            && (forall n :: n in end.history.delivered && n <= Stored(end.cache) ==> n in end.history.applied)
  {
    var end := Execute(y, actions).value;
    ExecuteKeeps(y, actions, persisted);
    ExecuteSound(y, actions, persisted);
    assert Pending(end.cache) == [];
    EmptySeqs();
    hide Execute;
    hide Seqs;
  }
}
