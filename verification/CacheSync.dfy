/** The durable cache of clients/core/src/cache.ts: one serial queue of event writes, cursor writes and resets,
    and the persisted cursor.  A task is begun and ended in two steps, so calls may come in between. */
module CacheSync {
  import opened Results
  import opened SyncEngine

  datatype Task = ApplyTask(event: Event) | CursorTask(seqno: int) | ResetTask(epoch: nat)

  /** What a task's store operations did: for a reset, the clearing of the rows and the deletion of the cursor. */
  datatype Outcome = Outcome(rowsDone: bool, cursorDone: bool)

  /** `cursor` is the persisted last_seq, `written` the events whose rows are in the store. */
  datatype Cache = Cache(
    queue: seq<Task>, active: Option<Task>, blockedCursorAt: Option<nat>, resetEpoch: nat, resetFailed: bool,
    cursor: Option<nat>, written: seq<Event>)

  function Stored(c: Cache): nat {
    if c.cursor.Some? then c.cursor.value else 0
  }

  predicate Idle(c: Cache) {
    c.queue == [] && c.active == None
  }

  function Enqueue(c: Cache, task: Task): Cache {
    c.(queue := c.queue + [task])
  }

  function ResetCalled(c: Cache): Cache {
    c.(resetEpoch := c.resetEpoch + 1, resetFailed := false, queue := c.queue + [ResetTask(c.resetEpoch + 1)])
  }

  /** The next task leaves the queue; after a failed reset it is refused instead of begun. */
  function Begin(c: Cache): Cache
    requires c.active == None && c.queue != []
  {
    c.(queue := c.queue[1..], active := if c.resetFailed && !c.queue[0].ResetTask? then None else Some(c.queue[0]))
  }

  function Blocked(at: Option<nat>, e: Event): Option<nat> {
    if e.seqno.None? || e.seqno.value > MAX_SAFE then at
    else if at.None? || e.seqno.value < at.value then e.seqno
    else at
  }

  predicate Writes(c: Cache, n: int) {
    0 <= n <= MAX_SAFE && (c.blockedCursorAt.Some? ==> n < c.blockedCursorAt.value) && n > Stored(c)
  }

  function End(c: Cache, outcome: Outcome): Cache
    requires c.active.Some?
  {
    var done := c.(active := None);
    match c.active.value
    case ApplyTask(e) =>
      if outcome.rowsDone then done.(written := c.written + [e]) else done.(blockedCursorAt := Blocked(c.blockedCursorAt, e))
    case CursorTask(n) =>
      if Writes(c, n) && outcome.cursorDone then done.(cursor := Some(n)) else done
    case ResetTask(epoch) =>
      var cleared := done.(written := if outcome.rowsDone then [] else c.written, cursor := if outcome.cursorDone then None else c.cursor);
      if epoch != c.resetEpoch then cleared
      else if outcome.rowsDone && outcome.cursorDone then cleared.(blockedCursorAt := None)
      else cleared.(resetFailed := true)
  }

  class Store {
    var queue: seq<Task>
    var active: Option<Task>
    var blockedCursorAt: Option<nat>
    var resetEpoch: nat
    var resetFailed: bool
    var cursor: Option<nat>
    var written: seq<Event>

    constructor (persisted: Option<nat>, rows: seq<Event>)
      ensures Model() == Cache([], None, None, 0, false, persisted, rows)
    {
      queue, active, blockedCursorAt, resetEpoch, resetFailed, cursor, written := [], None, None, 0, false, persisted, rows;
    }

    function Model(): Cache
      reads this
    {
      Cache(queue, active, blockedCursorAt, resetEpoch, resetFailed, cursor, written)
    }

    method Apply(e: Event)
      modifies this
      ensures Model() == Enqueue(old(Model()), ApplyTask(e))
    {
      queue := queue + [ApplyTask(e)];
    }

    method SetCursor(lastSeq: int)
      modifies this
      ensures Model() == Enqueue(old(Model()), CursorTask(lastSeq))
    {
      queue := queue + [CursorTask(lastSeq)];
    }

    method Reset()
      modifies this
      ensures Model() == ResetCalled(old(Model()))
    {
      resetEpoch := resetEpoch + 1;
      resetFailed := false;
      queue := queue + [ResetTask(resetEpoch)];
    }

    method BeginTask()
      requires active == None && queue != []
      modifies this
      ensures Model() == Begin(old(Model()))
    {
      var task := queue[0];
      queue := queue[1..];
      if resetFailed && !task.ResetTask? {
        return;
      }
      active := Some(task);
    }

    method EndTask(outcome: Outcome)
      requires active.Some?
      modifies this
      ensures Model() == End(old(Model()), outcome)
    {
      var task := active.value;
      active := None;
      match task
      case ApplyTask(e) =>
        if outcome.rowsDone {
          written := written + [e];
        } else if e.seqno.Some? && e.seqno.value <= MAX_SAFE {
          blockedCursorAt := if blockedCursorAt.None? then e.seqno else if e.seqno.value < blockedCursorAt.value then e.seqno else blockedCursorAt;
        }
      case CursorTask(lastSeq) =>
        if lastSeq < 0 || lastSeq > MAX_SAFE {
          return;
        }
        if blockedCursorAt.Some? && lastSeq >= blockedCursorAt.value {
          return;
        }
        var current := if cursor.Some? then cursor.value else 0;
        if lastSeq > current && outcome.cursorDone {
          cursor := Some(lastSeq);
        }
      case ResetTask(epoch) =>
        if outcome.rowsDone {
          written := [];
        }
        if outcome.cursorDone {
          cursor := None;
        }
        if !outcome.rowsDone || !outcome.cursorDone {
          if epoch == resetEpoch {
            resetFailed := true;
          }
        } else if epoch == resetEpoch {
          blockedCursorAt := None;
        }
    }

    /** The cursor to resume from: known once the queue has drained, unless the last reset failed. */
    method GetCursor() returns (r: Option<nat>)
      requires Idle(Model())
      ensures r == if resetFailed then None else Some(Stored(Model()))
    {
      if resetFailed {
        return None;
      }
      return Some(if cursor.Some? then cursor.value else 0);
    }
  }
}
