/** The send queue of clients/core/src/outbox.ts.  Every stretch of a send or of a retry between two awaits is a
    step; a store operation takes effect when it is answered, or is rejected without effect. */
module OutboxQueue {
  import opened Results

  type Id = string

  datatype Status = Queued | Sending | Sent | Failed

  datatype Item = Item(chat: int, payload: int, status: Status, attempts: nat)

  /** Where a send is: `Reading` and `Rereading` carry what the RAM plane held when the read began. */
  datatype Stage =
    | Waiting
    | Leasing
    | Reading(found: Option<Item>)
    | Writing(item: Item, durable: bool)
    | Requesting
    | Removing
    | Rereading(found: Option<Item>)
    | Failing(item: Item, durable: bool)
    | Finished

  /** One scheduled send, chained behind the send that was the tail of its chat. */
  datatype Send = Send(generation: nat, chat: int, id: Id, prev: Option<nat>, stage: Stage)

  /** Where a retry is: it reads a row, and writes it back as queued. */
  datatype RetryStage = Looking(found: Option<Item>) | Restoring(item: Item, durable: bool) | Over

  datatype Retry = Retry(id: Id, stage: RetryStage)

  /** `exclusive` says whether a send holds a lease on its item from its claim to its end; `log` lists the sends that
      issued a request, in order; `accepted` the items whose request was answered with success and noticed. */
  datatype State = State(
    exclusive: bool, paused: bool, generation: nat, sends: seq<Send>, retries: seq<Retry>, tails: map<int, nat>, holds: set<Id>,
    ram: map<Id, Item>, disk: map<Id, Item>, log: seq<nat>, accepted: set<Id>)

  datatype Event =
    | Enqueue(id: Id, item: Item, durable: bool)
    | Hold(id: Id)
    | Release(id: Id)
    | Cancel(id: Id)
    | Schedule(chat: int, id: Id)
    | Pause
    | Resume
    | Begin(i: nat)
    | Claim(i: nat)
    | ReadBack(i: nat, durable: bool, ok: bool)
    | Wrote(i: nat, ok: bool)
    | Answer(i: nat, ok: bool)
    | Removed(i: nat, ok: bool)
    | Reread(i: nat, durable: bool, ok: bool)
    | FailureWritten(i: nat, ok: bool)
    | RetryCalled(id: Id)
    | RetryRead(k: nat, durable: bool, ok: bool)
    | RetryWrote(k: nat, ok: bool)

  // ---- what the steps compute ----

  function Lookup(m: map<Id, Item>, id: Id): Option<Item> {
    if id in m then Some(m[id]) else None
  }

  /** The part of writeItem before its await. */
  function RamAfter(ram: map<Id, Item>, id: Id, item: Item, durable: bool): map<Id, Item> {
    if durable then ram - {id} else ram[id := item]
  }

  function DiskAfter(disk: map<Id, Item>, id: Id, item: Item, durable: bool): map<Id, Item> {
    if durable then disk[id := item] else disk - {id}
  }

  function At(s: State, i: nat, stage: Stage): State
    requires i < |s.sends|
  {
    s.(sends := s.sends[i := s.sends[i].(stage := stage)])
  }

  /** The guard of every send: the queue runs, and has not been paused since the send was scheduled. */
  predicate Live(s: State, i: nat)
    requires i < |s.sends|
  {
    !s.paused && s.sends[i].generation == s.generation
  }

  predicate Ready(s: State, i: nat)
    requires i < |s.sends|
  {
    var prev := s.sends[i].prev;
    prev.None? || (prev.value < |s.sends| && s.sends[prev.value].stage.Finished?)
  }

  predicate Holding(stage: Stage) {
    stage.Reading? || stage.Writing? || stage.Requesting? || stage.Removing? || stage.Rereading? || stage.Failing?
  }

  /** No other send holds the lease of the item. */
  predicate LeaseFree(s: State, i: nat)
    requires i < |s.sends|
  {
    s.exclusive ==> forall j :: 0 <= j < |s.sends| && j != i && s.sends[j].id == s.sends[i].id ==> !Holding(s.sends[j].stage)
  }

  function Scheduled(s: State, chat: int, id: Id): State {
    if s.paused then s
    else
      var prev := if chat in s.tails then Some(s.tails[chat]) else None;
      s.(sends := s.sends + [Send(s.generation, chat, id, prev, Waiting)], tails := s.tails[chat := |s.sends|])
  }

  function Cancelled(s: State, id: Id): State {
    var item := if id in s.ram then Some(s.ram[id]) else Lookup(s.disk, id);
    if item.None? || !item.value.status.Queued? then s
    else s.(holds := s.holds - {id}, ram := s.ram - {id}, disk := s.disk - {id})
  }

  function Paused(s: State): State {
    if s.paused then s
    else s.(paused := true, generation := s.generation + 1, holds := {}, tails := map[], ram := map[])
  }

  /** A rejected read or write before the request ends the send. */
  function ReadFinished(s: State, i: nat, durable: bool, ok: bool): State
    requires i < |s.sends| && s.sends[i].stage.Reading?
  {
    var c := s.sends[i];
    var item := if c.stage.found.Some? then c.stage.found else if ok then Lookup(s.disk, c.id) else None;
    if !Live(s, i) || item.None? || item.value.status.Sent? || (item.value.status.Queued? && c.id in s.holds) then At(s, i, Finished)
    else
      var sending := item.value.(status := Sending, attempts := item.value.attempts + 1);
      At(s, i, Writing(sending, durable)).(ram := RamAfter(s.ram, c.id, sending, durable))
  }

  function Requested(s: State, i: nat, ok: bool): State
    requires i < |s.sends| && s.sends[i].stage.Writing?
  {
    var c := s.sends[i];
    if !ok then At(s, i, Finished)
    else
      var s := s.(disk := DiskAfter(s.disk, c.id, c.stage.item, c.stage.durable));
      if !Live(s, i) then At(s, i, Finished) else At(s, i, Requesting).(log := s.log + [i])
  }

  function Answered(s: State, i: nat, ok: bool): State
    requires i < |s.sends| && s.sends[i].stage.Requesting?
  {
    var id := s.sends[i].id;
    if !Live(s, i) then At(s, i, Finished)
    else if ok then At(s, i, Removing).(ram := s.ram - {id}, accepted := s.accepted + {id})
    else At(s, i, Rereading(Lookup(s.ram, id)))
  }

  /** A rejected deletion of an accepted item is handled like a failed request. */
  function Deleted(s: State, i: nat, ok: bool): State
    requires i < |s.sends| && s.sends[i].stage.Removing?
  {
    var id := s.sends[i].id;
    if ok then At(s, i, Finished).(disk := s.disk - {id})
    else if !Live(s, i) then At(s, i, Finished)
    else At(s, i, Rereading(Lookup(s.ram, id)))
  }

  function FailureNoted(s: State, i: nat, durable: bool, ok: bool): State
    requires i < |s.sends| && s.sends[i].stage.Rereading?
  {
    var c := s.sends[i];
    var item := if c.stage.found.Some? then c.stage.found else if ok then Lookup(s.disk, c.id) else None;
    if item.None? then At(s, i, Finished)
    else
      var failed := item.value.(status := Failed);
      At(s, i, Failing(failed, durable)).(ram := RamAfter(s.ram, c.id, failed, durable))
  }

  function FailureStored(s: State, i: nat, ok: bool): State
    requires i < |s.sends| && s.sends[i].stage.Failing?
  {
    var c := s.sends[i];
    At(s, i, Finished).(disk := if ok then DiskAfter(s.disk, c.id, c.stage.item, c.stage.durable) else s.disk)
  }

  function RetryAt(s: State, k: nat, stage: RetryStage): State
    requires k < |s.retries|
  {
    s.(retries := s.retries[k := s.retries[k].(stage := stage)])
  }

  /** The row a retry has found, unless the store rejected the read. */
  function RetryItem(s: State, k: nat, ok: bool): Option<Item>
    requires k < |s.retries| && s.retries[k].stage.Looking?
  {
    var r := s.retries[k];
    if r.stage.found.Some? then r.stage.found else if ok then Lookup(s.disk, r.id) else None
  }

  function Retried(s: State, k: nat, durable: bool, ok: bool): State
    requires k < |s.retries| && s.retries[k].stage.Looking?
  {
    var r, item := s.retries[k], RetryItem(s, k, ok);
    if item.None? || item.value.status.Sending? then RetryAt(s, k, Over)
    else
      var queued := item.value.(status := Queued);
      RetryAt(s, k, Restoring(queued, durable)).(ram := RamAfter(s.ram, r.id, queued, durable))
  }

  function Restored(s: State, k: nat, ok: bool): State
    requires k < |s.retries| && s.retries[k].stage.Restoring?
  {
    var r := s.retries[k];
    if !ok then RetryAt(s, k, Over)
    else Scheduled(RetryAt(s, k, Over).(disk := DiskAfter(s.disk, r.id, r.stage.item, r.stage.durable)), r.stage.item.chat, r.id)
  }

  /** A step that is not enabled changes nothing. */
  function Step(s: State, e: Event): State {
    match e
    case Enqueue(id, item, durable) =>
      if s.paused then s
      else
        var row := item.(status := Queued, attempts := 0);
        s.(ram := RamAfter(s.ram, id, row, durable), disk := DiskAfter(s.disk, id, row, durable))
    case Hold(id) => if s.paused then s else s.(holds := s.holds + {id})
    case Release(id) => s.(holds := s.holds - {id})
    case Cancel(id) => Cancelled(s, id)
    case Schedule(chat, id) => Scheduled(s, chat, id)
    case Pause => Paused(s)
    case Resume => s.(paused := false)
    case Begin(i) =>
      if i >= |s.sends| || !s.sends[i].stage.Waiting? || !Ready(s, i) then s
      else if Live(s, i) then At(s, i, Leasing) else At(s, i, Finished)
    case Claim(i) =>
      if i >= |s.sends| || !s.sends[i].stage.Leasing? || !LeaseFree(s, i) then s
      else if Live(s, i) then At(s, i, Reading(Lookup(s.ram, s.sends[i].id))) else At(s, i, Finished)
    case ReadBack(i, durable, ok) => if i < |s.sends| && s.sends[i].stage.Reading? then ReadFinished(s, i, durable, ok) else s
    case Wrote(i, ok) => if i < |s.sends| && s.sends[i].stage.Writing? then Requested(s, i, ok) else s
    case Answer(i, ok) => if i < |s.sends| && s.sends[i].stage.Requesting? then Answered(s, i, ok) else s
    case Removed(i, ok) => if i < |s.sends| && s.sends[i].stage.Removing? then Deleted(s, i, ok) else s
    case Reread(i, durable, ok) => if i < |s.sends| && s.sends[i].stage.Rereading? then FailureNoted(s, i, durable, ok) else s
    case FailureWritten(i, ok) => if i < |s.sends| && s.sends[i].stage.Failing? then FailureStored(s, i, ok) else s
    case RetryCalled(id) => if s.paused then s else s.(retries := s.retries + [Retry(id, Looking(Lookup(s.ram, id)))])
    case RetryRead(k, durable, ok) => if k < |s.retries| && s.retries[k].stage.Looking? then Retried(s, k, durable, ok) else s
    case RetryWrote(k, ok) => if k < |s.retries| && s.retries[k].stage.Restoring? then Restored(s, k, ok) else s
  }

  function Run(s: State, events: seq<Event>): State {
    if events == [] then s else Step(Run(s, events[..|events| - 1]), events[|events| - 1])
  }

  function Initial(disk: map<Id, Item>, exclusive: bool): State {
    State(exclusive, false, 0, [], [], map[], {}, map[], disk, [], {})
  }

  // ---- the chain of one chat in one generation ----

  predicate Alike(s: State, i: nat, j: nat) {
    i < |s.sends| && j < |s.sends| && s.sends[i].generation == s.sends[j].generation && s.sends[i].chat == s.sends[j].chat
  }

  /** Each send is chained to the last earlier one of its chat and generation. */
  predicate Linked(s: State) {
    && (forall j :: 0 <= j < |s.sends| && s.sends[j].prev.Some? ==> s.sends[j].prev.value < j && Alike(s, s.sends[j].prev.value, j))
    && (forall i, j :: 0 <= i < j < |s.sends| && Alike(s, i, j) ==> s.sends[j].prev.Some? && i <= s.sends[j].prev.value)
  }

  predicate Tailed(s: State) {
    && (forall i :: 0 <= i < |s.sends| ==> s.sends[i].generation <= s.generation)
    && (s.paused ==> s.tails == map[])
    && (s.paused ==> forall i :: 0 <= i < |s.sends| ==> s.sends[i].generation < s.generation)
    && (forall chat :: chat in s.tails ==>
          s.tails[chat] < |s.sends| && s.sends[s.tails[chat]].generation == s.generation && s.sends[s.tails[chat]].chat == chat)
    && (forall i :: 0 <= i < |s.sends| && s.sends[i].generation == s.generation ==>
          s.sends[i].chat in s.tails && i <= s.tails[s.sends[i].chat])
  }

  /** A send starts only when all earlier ones of its chat and generation are finished. */
  predicate Ordered(s: State) {
    forall i, j :: 0 <= i < j < |s.sends| && Alike(s, i, j) && !s.sends[j].stage.Waiting? ==> s.sends[i].stage.Finished?
  }

  predicate Begun(stage: Stage) {
    stage.Requesting? || stage.Removing? || stage.Rereading? || stage.Failing? || stage.Finished?
  }

  /** The log lists sends that have started their request, each once. */
  predicate Logged(s: State) {
    && (forall n :: 0 <= n < |s.log| ==> s.log[n] < |s.sends| && Begun(s.sends[s.log[n]].stage))
    && (forall m, n :: 0 <= m < n < |s.log| ==> s.log[m] != s.log[n])
    && (forall m, n :: 0 <= m < n < |s.log| && Alike(s, s.log[m], s.log[n]) ==> s.log[m] < s.log[n])
  }

  predicate Inv(s: State) {
    Linked(s) && Tailed(s) && Ordered(s) && Logged(s)
  }

  predicate InFlight(s: State, i: nat) {
    i < |s.sends| && s.sends[i].stage.Requesting?
  }

  // ---- what every step keeps ----

  predicate Active(stage: Stage) {
    !stage.Waiting? && !stage.Finished?
  }

  lemma OneActive(s: State, i: nat, j: nat)
    requires Ordered(s) && Alike(s, i, j) && Active(s.sends[i].stage) && Active(s.sends[j].stage)
    ensures i == j
  {
    assert i < j ==> Alike(s, i, j);
    assert j < i ==> Alike(s, j, i);
  }

  lemma ReadyMeansDone(s: State, j: nat)
    requires Linked(s) && Ordered(s) && j < |s.sends| && Ready(s, j)
    ensures forall i :: 0 <= i < j && Alike(s, i, j) ==> s.sends[i].stage.Finished?
  {
    forall i | 0 <= i < j && Alike(s, i, j)
      ensures s.sends[i].stage.Finished?
    {
      var p := s.sends[j].prev.value;
      assert i < p ==> Alike(s, i, p);
    }
  }

  /** One send moved to another stage; at most its request was logged. */
  predicate Moved(s: State, s': State, i: nat) {
    && i < |s.sends| == |s'.sends|
    && s'.exclusive == s.exclusive && s'.paused == s.paused && s'.generation == s.generation && s'.tails == s.tails
    && s'.retries == s.retries
    && (forall j :: 0 <= j < |s.sends| && j != i ==> s'.sends[j] == s.sends[j])
    && s'.sends[i] == s.sends[i].(stage := s'.sends[i].stage)
    && !s.sends[i].stage.Finished? && !s'.sends[i].stage.Waiting?
    && (s.sends[i].stage.Waiting? ==> Ready(s, i))
    && (if s'.log == s.log then Begun(s.sends[i].stage) ==> Begun(s'.sends[i].stage)
        else s'.log == s.log + [i] && s.sends[i].stage.Writing? && s'.sends[i].stage.Requesting? && Live(s, i))
  }

  lemma MovedKeeps(s: State, s': State, i: nat)
    requires Inv(s) && Moved(s, s', i)
    ensures Inv(s')
  {
    hide Begun;
    MovedLinks(s, s', i);
    MovedOrders(s, s', i);
    MovedLogs(s, s', i);
  }

  lemma MovedLinks(s: State, s': State, i: nat)
    requires Linked(s) && Tailed(s) && Moved(s, s', i)
    ensures Linked(s') && Tailed(s')
  {
    hide Begun;
    assert forall j :: 0 <= j < |s.sends| ==> s'.sends[j] == s.sends[j].(stage := s'.sends[j].stage);
    assert forall j, k :: Alike(s', j, k) == Alike(s, j, k);
  }

  lemma MovedOrders(s: State, s': State, i: nat)
    requires Linked(s) && Ordered(s) && Moved(s, s', i)
    ensures Ordered(s')
  {
    hide Begun;
    if s.sends[i].stage.Waiting? {
      ReadyMeansDone(s, i);
    }
    hide Linked;
    forall j, k | 0 <= j < k < |s'.sends| && Alike(s', j, k) && !s'.sends[k].stage.Waiting?
      ensures s'.sends[j].stage.Finished?
    {
      assert Alike(s, j, k);
    }
  }

  lemma MovedLogs(s: State, s': State, i: nat)
    requires Ordered(s) && Logged(s) && Moved(s, s', i)
    ensures Logged(s')
  {
    assert forall j, k :: Alike(s', j, k) ==> Alike(s, j, k);
    if s'.log != s.log {
      forall m | 0 <= m < |s.log|
        ensures s.log[m] != i && (Alike(s, s.log[m], i) ==> s.log[m] < i)
      {
        assert Begun(s.sends[s.log[m]].stage);
        assert Alike(s, s.log[m], i) ==> Alike(s, i, s.log[m]);
      }
    }
  }

  /** The send an event moves. */
  function Mover(e: Event): Option<nat> {
    match e
    case Begin(i) => Some(i)
    case Claim(i) => Some(i)
    case ReadBack(i, _, _) => Some(i)
    case Wrote(i, _) => Some(i)
    case Answer(i, _) => Some(i)
    case Removed(i, _) => Some(i)
    case Reread(i, _, _) => Some(i)
    case FailureWritten(i, _) => Some(i)
    case _ => None
  }

  lemma ReadMoves(s: State, i: nat, durable: bool, ok: bool)
    requires i < |s.sends| && s.sends[i].stage.Reading?
    ensures Moved(s, ReadFinished(s, i, durable, ok), i)
  {
    hide RamAfter;
    hide Lookup;
    hide Ready;
    hide Live;
  }

  lemma FailureMoves(s: State, i: nat, durable: bool, ok: bool)
    requires i < |s.sends| && s.sends[i].stage.Rereading?
    ensures Moved(s, FailureNoted(s, i, durable, ok), i)
  {
    hide RamAfter;
    hide Lookup;
    hide Ready;
    hide Live;
  }

  lemma RequestMoves(s: State, i: nat, ok: bool)
    requires i < |s.sends| && s.sends[i].stage.Writing?
    ensures Moved(s, Requested(s, i, ok), i)
  {
    hide DiskAfter;
    hide Ready;
  }

  lemma AnswerMoves(s: State, i: nat, ok: bool)
    requires i < |s.sends| && s.sends[i].stage.Requesting?
    ensures Moved(s, Answered(s, i, ok), i)
  {
    hide Lookup;
    hide Ready;
    hide Live;
  }

  lemma DeletionMoves(s: State, i: nat, ok: bool)
    requires i < |s.sends| && s.sends[i].stage.Removing?
    ensures Moved(s, Deleted(s, i, ok), i)
  {
    hide Lookup;
    hide Ready;
  }

  lemma PlainMoves(s: State, i: nat, stage: Stage)
    requires i < |s.sends| && !s.sends[i].stage.Finished? && !stage.Waiting?
    requires s.sends[i].stage.Waiting? ==> Ready(s, i)
    requires Begun(s.sends[i].stage) ==> Begun(stage)
    ensures forall disk :: Moved(s, At(s, i, stage).(disk := disk), i)
  {
    hide Ready;
  }

  lemma StepMoves(s: State, e: Event)
    requires Mover(e).Some?
    ensures Step(s, e) == s || Moved(s, Step(s, e), Mover(e).value)
  {
    var i := Mover(e).value;
    if i < |s.sends| && Step(s, e) != s {
      match e {
        case Begin(_) => PlainMoves(s, i, if Live(s, i) then Leasing else Finished);
        case Claim(_) => PlainMoves(s, i, if Live(s, i) then Reading(Lookup(s.ram, s.sends[i].id)) else Finished);
        case ReadBack(_, durable, ok) => ReadMoves(s, i, durable, ok);
        case Wrote(_, ok) => RequestMoves(s, i, ok);
        case Answer(_, ok) => AnswerMoves(s, i, ok);
        case Removed(_, ok) => DeletionMoves(s, i, ok);
        case Reread(_, durable, ok) => FailureMoves(s, i, durable, ok);
        case FailureWritten(_, _) => PlainMoves(s, i, Finished);
      }
      hide Moved;
      hide At;
      hide ReadFinished;
      hide Requested;
      hide Answered;
      hide FailureNoted;
      hide Deleted;
      hide LeaseFree;
      hide Ready;
      hide Live;
    }
  }

  lemma ScheduledKeeps(s: State, chat: int, id: Id)
    requires Inv(s) && !s.paused
    ensures Inv(Scheduled(s, chat, id))
  {
    var s' := Scheduled(s, chat, id);
    var n := |s.sends|;
    assert forall j, k :: 0 <= j < n && 0 <= k < n ==> Alike(s', j, k) == Alike(s, j, k);
    assert Tailed(s');
    assert Linked(s') by {
      assert forall j :: 0 <= j < n && Alike(s', j, n) ==> chat in s.tails && j <= s.tails[chat];
      hide Begun;
    }
    assert Ordered(s') && Logged(s') by {
      hide Linked;
      hide Tailed;
      hide Begun;
    }
    hide Linked;
    hide Tailed;
    hide Ordered;
    hide Logged;
  }

  lemma StepKeeps(s: State, e: Event)
    requires Inv(s)
    ensures Inv(Step(s, e))
  {
    if Mover(e).Some? {
      StepMoves(s, e);
      hide Step;
      hide Inv;
      hide Moved;
      if Step(s, e) != s {
        MovedKeeps(s, Step(s, e), Mover(e).value);
      }
    } else if e.Schedule? && !s.paused {
      ScheduledKeeps(s, e.chat, e.id);
    } else if e.RetryWrote? {
      RetryWroteKeeps(s, e.k, e.ok);
    } else {
      OtherKeeps(s, e);
    }
  }

  lemma SameSends(s: State, s': State)
    requires Inv(s)
    requires s'.sends == s.sends && s'.log == s.log && s'.tails == s.tails && s'.paused == s.paused && s'.generation == s.generation
    ensures Inv(s')
  {
    assert forall j, k :: Alike(s', j, k) == Alike(s, j, k);
  }

  lemma RetryWroteKeeps(s: State, k: nat, ok: bool)
    requires Inv(s)
    ensures Inv(Step(s, RetryWrote(k, ok)))
  {
    if k < |s.retries| && s.retries[k].stage.Restoring? {
      var r := s.retries[k];
      var s' := RetryAt(s, k, Over);
      SameSends(s, s');
      if ok {
        var t := s'.(disk := DiskAfter(s.disk, r.id, r.stage.item, r.stage.durable));
        SameSends(s, t);
        hide Inv;
        if !t.paused {
          ScheduledKeeps(t, r.stage.item.chat, r.id);
        }
      }
    }
  }

  lemma PauseKeeps(s: State)
    requires Inv(s)
    ensures Inv(Paused(s)) && Inv(s.(paused := false))
  {
    assert forall j, k :: Alike(Paused(s), j, k) == Alike(s, j, k);
    assert forall j, k :: Alike(s.(paused := false), j, k) == Alike(s, j, k);
  }

  /** Steps that touch no send. */
  predicate Aside(e: Event) {
    e.Enqueue? || e.Hold? || e.Release? || e.Cancel? || e.RetryCalled? || e.RetryRead?
  }

  predicate SameQueue(s: State, s': State) {
    && s'.sends == s.sends && s'.log == s.log && s'.tails == s.tails && s'.paused == s.paused
    && s'.generation == s.generation && s'.exclusive == s.exclusive && s'.accepted == s.accepted
  }

  lemma RetrySame(s: State, k: nat, durable: bool, ok: bool)
    requires k < |s.retries| && s.retries[k].stage.Looking?
    ensures SameQueue(s, Retried(s, k, durable, ok))
  {
    hide RamAfter;
    hide RetryItem;
  }

  lemma CancelSame(s: State, id: Id)
    ensures SameQueue(s, Cancelled(s, id))
  {
    hide Lookup;
  }

  lemma AsideSame(s: State, e: Event)
    requires Aside(e)
    ensures SameQueue(s, Step(s, e))
  {
    if e.Cancel? {
      CancelSame(s, e.id);
    } else if e.RetryRead? && e.k < |s.retries| && s.retries[e.k].stage.Looking? {
      RetrySame(s, e.k, e.durable, e.ok);
    }
    hide Cancelled;
    hide Retried;
    hide RamAfter;
    hide DiskAfter;
    hide Lookup;
  }

  lemma OtherKeeps(s: State, e: Event)
    requires Inv(s) && Mover(e).None? && (e.Schedule? ==> s.paused) && !e.RetryWrote?
    ensures Inv(Step(s, e))
  {
    if Aside(e) {
      AsideSame(s, e);
      hide Step;
      SameSends(s, Step(s, e));
    } else {
      PauseKeeps(s);
      hide Inv;
      hide Paused;
    }
  }

  lemma {:induction false} RunKeeps(s: State, events: seq<Event>)
    requires Inv(s)
    ensures Inv(Run(s, events))
    decreases |events|
  {
    hide Inv;
    hide Step;
    if events != [] {
      RunKeeps(s, events[..|events| - 1]);
      StepKeeps(Run(s, events[..|events| - 1]), events[|events| - 1]);
    }
  }

  // ---- order ----

  /** Whatever the interleaving: of the sends of one chat scheduled since the last pause, at most one is on the wire,
      each is on the wire at most once, and they went out in the order in which they were scheduled. */
  lemma RequestsInOrder(disk: map<Id, Item>, exclusive: bool, events: seq<Event>)
    ensures var s := Run(Initial(disk, exclusive), events);
            && (forall i, j :: InFlight(s, i) && InFlight(s, j) && Alike(s, i, j) ==> i == j)
            && (forall m, n :: 0 <= m < n < |s.log| ==> s.log[m] != s.log[n])
            && (forall m, n :: 0 <= m < n < |s.log| && Alike(s, s.log[m], s.log[n]) ==> s.log[m] < s.log[n])
  {
    var s := Run(Initial(disk, exclusive), events);
    RunKeeps(Initial(disk, exclusive), events);
    hide Run;
    forall i, j | InFlight(s, i) && InFlight(s, j) && Alike(s, i, j)
      ensures i == j
    {
      OneActive(s, i, j);
    }
  }

  // ---- pause ----

  lemma OnlyWrites(s: State, e: Event)
    requires Mover(e).Some? && Step(s, e) != s && Mover(e).value < |s.sends| && s.sends[Mover(e).value].stage.Writing?
    ensures e.Wrote?
  {
    hide ReadFinished;
    hide Requested;
    hide Answered;
    hide FailureNoted;
    hide FailureStored;
    hide Deleted;
    hide LeaseFree;
    hide Ready;
    hide Live;
  }

  lemma OtherSilent(s: State, e: Event)
    requires Mover(e).None?
    ensures Step(s, e).log == s.log
  {
    if Aside(e) {
      AsideSame(s, e);
      hide Step;
    }
    hide DiskAfter;
  }

  /** A request goes out only while the queue runs and has not been paused since its send was scheduled. */
  lemma IssuedLive(s: State, e: Event)
    ensures Step(s, e).log == s.log ||
      (e.Wrote? && e.i < |s.sends| && s.sends[e.i].stage.Writing? && Live(s, e.i) &&
       Step(s, e).log == s.log + [e.i] && InFlight(Step(s, e), e.i))
  {
    if Mover(e).None? {
      OtherSilent(s, e);
    } else if Step(s, e) != s {
      var i := Mover(e).value;
      StepMoves(s, e);
      if i < |s.sends| && s.sends[i].stage.Writing? {
        OnlyWrites(s, e);
      }
      hide Step;
      hide Ready;
      hide Begun;
    }
  }

  /** Steps only add sends, keep what was scheduled, and never turn the generation back. */
  predicate Extends(s: State, s': State) {
    && s.generation <= s'.generation && |s.sends| <= |s'.sends|
    && (forall i :: 0 <= i < |s.sends| ==>
          s'.sends[i].generation == s.sends[i].generation && s'.sends[i].id == s.sends[i].id && s'.sends[i].chat == s.sends[i].chat)
    && |s.log| <= |s'.log| && s'.log[..|s.log|] == s.log
  }

  lemma ScheduledExtends(s: State, t: State, chat: int, id: Id)
    requires SameQueue(s, t)
    ensures Extends(s, Scheduled(t, chat, id)) && Scheduled(t, chat, id).log == s.log
    ensures Scheduled(t, chat, id).paused == s.paused
  {
  }

  lemma RestoredExtends(s: State, k: nat, ok: bool)
    requires k < |s.retries| && s.retries[k].stage.Restoring?
    ensures Extends(s, Restored(s, k, ok)) && Restored(s, k, ok).log == s.log && Restored(s, k, ok).paused == s.paused
  {
    var r := s.retries[k];
    var t := RetryAt(s, k, Over).(disk := DiskAfter(s.disk, r.id, r.stage.item, r.stage.durable));
    ScheduledExtends(s, t, r.stage.item.chat, r.id);
    hide Scheduled;
    hide DiskAfter;
  }

  lemma PausedExtends(s: State)
    ensures Extends(s, Paused(s)) && Extends(s, s.(paused := false))
  {
  }

  lemma StepExtends(s: State, e: Event)
    ensures Extends(s, Step(s, e))
  {
    if Mover(e).Some? {
      StepMoves(s, e);
      hide Step;
      hide Begun;
      hide Ready;
      hide Live;
    } else if Aside(e) {
      AsideSame(s, e);
      hide Step;
    } else {
      if e.Schedule? {
        ScheduledExtends(s, s, e.chat, e.id);
      } else if e.RetryWrote? && e.k < |s.retries| && s.retries[e.k].stage.Restoring? {
        RestoredExtends(s, e.k, e.ok);
      }
      PausedExtends(s);
      hide Extends;
      hide Scheduled;
      hide Restored;
      hide Paused;
      assert Extends(s, s) by { ExtendsSelf(s); }
    }
  }

  lemma ExtendsSelf(s: State)
    ensures Extends(s, s)
  {
  }

  lemma ExtendsTrans(s: State, t: State, u: State)
    requires Extends(s, t) && Extends(t, u)
    ensures Extends(s, u)
  {
    assert u.log[..|s.log|] == u.log[..|t.log|][..|s.log|];
  }

  lemma {:induction false} RunExtends(s: State, events: seq<Event>)
    ensures Extends(s, Run(s, events))
    decreases |events|
  {
    if events != [] {
      var t := Run(s, events[..|events| - 1]);
      RunExtends(s, events[..|events| - 1]);
      StepExtends(t, events[|events| - 1]);
      ExtendsTrans(s, t, Step(t, events[|events| - 1]));
    }
  }

  /** After a pause no send scheduled before it ever issues a request, whatever is resumed and scheduled later. */
  lemma {:induction false} PauseSilences(s: State, events: seq<Event>)
    requires Inv(s) && !s.paused
    ensures var s' := Run(Paused(s), events);
            |s.log| <= |s'.log| && forall n :: |s.log| <= n < |s'.log| ==> s'.log[n] >= |s.sends|
    decreases |events|
  {
    var p := Paused(s);
    if events != [] {
      var t := Run(p, events[..|events| - 1]);
      var e := events[|events| - 1];
      PauseSilences(s, events[..|events| - 1]);
      RunExtends(p, events[..|events| - 1]);
      IssuedLive(t, e);
      hide Step;
      hide Inv;
      if Step(t, e).log != t.log {
        GenerationsPast(s);
      }
    }
  }

  lemma GenerationsPast(s: State)
    requires Inv(s)
    ensures forall i :: 0 <= i < |s.sends| ==> s.sends[i].generation <= s.generation
  {
  }

  /** While paused nothing goes out. */
  lemma {:induction false} PausedSilent(s: State, events: seq<Event>)
    requires s.paused && forall i :: 0 <= i < |events| ==> !events[i].Resume?
    ensures Run(s, events).paused && Run(s, events).log == s.log
    decreases |events|
  {
    if events != [] {
      var t := Run(s, events[..|events| - 1]);
      var e := events[|events| - 1];
      PausedSilent(s, events[..|events| - 1]);
      IssuedLive(t, e);
      StaysPaused(t, e);
      hide Step;
    }
  }

  lemma StaysPaused(s: State, e: Event)
    requires s.paused && !e.Resume?
    ensures Step(s, e).paused
  {
    if Mover(e).Some? {
      StepMoves(s, e);
      hide Step;
      hide Begun;
      hide Ready;
      hide Live;
    } else if Aside(e) {
      AsideSame(s, e);
      hide Step;
    } else if e.RetryWrote? && e.k < |s.retries| && s.retries[e.k].stage.Restoring? {
      RestoredExtends(s, e.k, e.ok);
      hide Restored;
    }
  }
}
