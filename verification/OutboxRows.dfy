/** What every row of the outbox of clients/core/src/outbox.ts obeys, wherever it is: in RAM, on disk, or carried by a
    send or a retry between its read and its write. */
module OutboxRows {
  import opened Results
  import opened OutboxQueue

  /** Speaks of an item by its name, its chat and whether it is marked as sent. */
  type Rule = (Id, int, bool) -> bool

  /** No send and no retry marks an item as sent, or moves it to another chat. */
  ghost predicate Steady(rule: Rule) {
    forall id, chat :: rule(id, chat, true) ==> rule(id, chat, false)
  }

  function ChatRule(chatOf: Id -> int): Rule {
    (id, chat, sent) => chat == chatOf(id)
  }

  function UnsentRule(): Rule {
    (id, chat, sent) => !sent
  }

  predicate Obeys(rule: Rule, id: Id, item: Item) {
    rule(id, item.chat, item.status.Sent?)
  }

  predicate MayObey(rule: Rule, id: Id, found: Option<Item>) {
    found.Some? ==> Obeys(rule, id, found.value)
  }

  predicate StageObeys(rule: Rule, id: Id, stage: Stage) {
    match stage
    case Reading(found) => MayObey(rule, id, found)
    case Writing(item, _) => Obeys(rule, id, item)
    case Rereading(found) => MayObey(rule, id, found)
    case Failing(item, _) => Obeys(rule, id, item)
    case _ => true
  }

  predicate RetryObeys(rule: Rule, r: Retry) {
    match r.stage
    case Looking(found) => MayObey(rule, r.id, found)
    case Restoring(item, _) => Obeys(rule, r.id, item)
    case Over => true
  }

  predicate PlaneObeys(rule: Rule, plane: map<Id, Item>) {
    forall id :: id in plane ==> Obeys(rule, id, plane[id])
  }

  predicate SendsObey(rule: Rule, sends: seq<Send>) {
    forall i :: 0 <= i < |sends| ==> StageObeys(rule, sends[i].id, sends[i].stage)
  }

  predicate RetriesObey(rule: Rule, retries: seq<Retry>) {
    forall k :: 0 <= k < |retries| ==> RetryObeys(rule, retries[k])
  }

  predicate Everywhere(rule: Rule, s: State) {
    PlaneObeys(rule, s.ram) && PlaneObeys(rule, s.disk) && SendsObey(rule, s.sends) && RetriesObey(rule, s.retries)
  }

  /** What an event adds by itself obeys the rule. */
  predicate AddsObeying(rule: Rule, e: Event) {
    e.Enqueue? ==> rule(e.id, e.item.chat, false)
  }

  // ---- the planes ----

  lemma LookupObeys(rule: Rule, plane: map<Id, Item>, id: Id)
    requires PlaneObeys(rule, plane)
    ensures MayObey(rule, id, Lookup(plane, id))
  {
  }

  lemma WriteObeys(rule: Rule, ram: map<Id, Item>, disk: map<Id, Item>, id: Id, item: Item, durable: bool)
    requires Obeys(rule, id, item)
    ensures PlaneObeys(rule, ram) ==> PlaneObeys(rule, RamAfter(ram, id, item, durable))
    ensures PlaneObeys(rule, disk) ==> PlaneObeys(rule, DiskAfter(disk, id, item, durable))
  {
  }

  lemma LessObeys(rule: Rule, plane: map<Id, Item>, id: Id)
    requires PlaneObeys(rule, plane)
    ensures PlaneObeys(rule, plane - {id})
  {
  }

  lemma MarkObeys(rule: Rule, id: Id, item: Item, status: Status, attempts: nat)
    requires Steady(rule) && Obeys(rule, id, item) && !status.Sent?
    ensures Obeys(rule, id, item.(status := status)) && Obeys(rule, id, item.(status := status, attempts := attempts))
  {
    assert item.status.Sent? ==> rule(id, item.chat, true);
  }

  // ---- one send or one retry ----

  /** A step of send i alone. */
  predicate ObeysAt(rule: Rule, s': State, i: nat)
    requires i < |s'.sends|
  {
    StageObeys(rule, s'.sends[i].id, s'.sends[i].stage) && PlaneObeys(rule, s'.ram) && PlaneObeys(rule, s'.disk)
  }

  lemma MovedObeys(rule: Rule, s: State, s': State, i: nat)
    requires Everywhere(rule, s) && Moved(s, s', i) && ObeysAt(rule, s', i)
    ensures Everywhere(rule, s')
  {
    hide Begun;
    hide Ready;
    hide Live;
    hide PlaneObeys;
    hide StageObeys;
    hide RetryObeys;
  }

  lemma ReadObeys(rule: Rule, s: State, i: nat, durable: bool, ok: bool)
    requires Steady(rule) && Everywhere(rule, s) && i < |s.sends| && s.sends[i].stage.Reading?
    ensures ObeysAt(rule, ReadFinished(s, i, durable, ok), i)
  {
    var c := s.sends[i];
    assert StageObeys(rule, c.id, c.stage);
    LookupObeys(rule, s.disk, c.id);
    var item := if c.stage.found.Some? then c.stage.found else if ok then Lookup(s.disk, c.id) else None;
    if item.Some? {
      var sending := item.value.(status := Sending, attempts := item.value.attempts + 1);
      MarkObeys(rule, c.id, item.value, Sending, item.value.attempts + 1);
      WriteObeys(rule, s.ram, s.disk, c.id, sending, durable);
    }
    hide PlaneObeys;
    hide Obeys;
    hide Steady;
    hide SendsObey;
    hide RetriesObey;
    hide RamAfter;
    hide DiskAfter;
    hide Lookup;
    hide Live;
  }

  lemma RequestObeys(rule: Rule, s: State, i: nat, ok: bool)
    requires Everywhere(rule, s) && i < |s.sends| && s.sends[i].stage.Writing?
    ensures ObeysAt(rule, Requested(s, i, ok), i)
  {
    var c := s.sends[i];
    assert StageObeys(rule, c.id, c.stage);
    WriteObeys(rule, s.ram, s.disk, c.id, c.stage.item, c.stage.durable);
    hide PlaneObeys;
    hide Obeys;
    hide SendsObey;
    hide RetriesObey;
    hide DiskAfter;
    hide Live;
  }

  lemma AnswerObeys(rule: Rule, s: State, i: nat, ok: bool)
    requires Everywhere(rule, s) && i < |s.sends| && s.sends[i].stage.Requesting?
    ensures ObeysAt(rule, Answered(s, i, ok), i)
  {
    LookupObeys(rule, s.ram, s.sends[i].id);
    LessObeys(rule, s.ram, s.sends[i].id);
    hide PlaneObeys;
    hide Obeys;
    hide SendsObey;
    hide RetriesObey;
    hide Lookup;
    hide Live;
  }

  lemma DeleteObeys(rule: Rule, s: State, i: nat, ok: bool)
    requires Everywhere(rule, s) && i < |s.sends| && s.sends[i].stage.Removing?
    ensures ObeysAt(rule, Deleted(s, i, ok), i)
  {
    LookupObeys(rule, s.ram, s.sends[i].id);
    LessObeys(rule, s.disk, s.sends[i].id);
    hide PlaneObeys;
    hide Obeys;
    hide SendsObey;
    hide RetriesObey;
    hide Lookup;
    hide Live;
  }

  lemma NoteObeys(rule: Rule, s: State, i: nat, durable: bool, ok: bool)
    requires Steady(rule) && Everywhere(rule, s) && i < |s.sends| && s.sends[i].stage.Rereading?
    ensures ObeysAt(rule, FailureNoted(s, i, durable, ok), i)
  {
    var c := s.sends[i];
    assert StageObeys(rule, c.id, c.stage);
    LookupObeys(rule, s.disk, c.id);
    var item := if c.stage.found.Some? then c.stage.found else if ok then Lookup(s.disk, c.id) else None;
    if item.Some? {
      MarkObeys(rule, c.id, item.value, Failed, 0);
      WriteObeys(rule, s.ram, s.disk, c.id, item.value.(status := Failed), durable);
    }
    hide PlaneObeys;
    hide Obeys;
    hide Steady;
    hide SendsObey;
    hide RetriesObey;
    hide RamAfter;
    hide DiskAfter;
    hide Lookup;
  }

  lemma StoreObeys(rule: Rule, s: State, i: nat, ok: bool)
    requires Everywhere(rule, s) && i < |s.sends| && s.sends[i].stage.Failing?
    ensures ObeysAt(rule, FailureStored(s, i, ok), i)
  {
    var c := s.sends[i];
    assert StageObeys(rule, c.id, c.stage);
    WriteObeys(rule, s.ram, s.disk, c.id, c.stage.item, c.stage.durable);
    hide PlaneObeys;
    hide Obeys;
    hide SendsObey;
    hide RetriesObey;
    hide DiskAfter;
  }

  lemma AtObeys(rule: Rule, s: State, i: nat, stage: Stage)
    requires Everywhere(rule, s) && i < |s.sends| && StageObeys(rule, s.sends[i].id, stage)
    ensures ObeysAt(rule, At(s, i, stage), i)
  {
    hide PlaneObeys;
    hide StageObeys;
    hide SendsObey;
    hide RetriesObey;
  }

  lemma BeginObeys(rule: Rule, s: State, i: nat)
    requires Everywhere(rule, s) && i < |s.sends|
    ensures ObeysAt(rule, At(s, i, Leasing), i) && ObeysAt(rule, At(s, i, Finished), i)
    ensures ObeysAt(rule, At(s, i, Reading(Lookup(s.ram, s.sends[i].id))), i)
  {
    LookupObeys(rule, s.ram, s.sends[i].id);
    AtObeys(rule, s, i, Leasing);
    AtObeys(rule, s, i, Finished);
    AtObeys(rule, s, i, Reading(Lookup(s.ram, s.sends[i].id)));
  }

  lemma MoverObeys(rule: Rule, s: State, e: Event)
    requires Steady(rule) && Everywhere(rule, s) && Mover(e).Some? && Step(s, e) != s
    requires Mover(e).value < |s.sends| == |Step(s, e).sends|
    ensures ObeysAt(rule, Step(s, e), Mover(e).value)
  {
    match e {
      case Begin(i) => BeginObeys(rule, s, i);
      case Claim(i) => BeginObeys(rule, s, i);
      case ReadBack(i, durable, ok) => ReadObeys(rule, s, i, durable, ok);
      case Wrote(i, ok) => RequestObeys(rule, s, i, ok);
      case Answer(i, ok) => AnswerObeys(rule, s, i, ok);
      case Removed(i, ok) => DeleteObeys(rule, s, i, ok);
      case Reread(i, durable, ok) => NoteObeys(rule, s, i, durable, ok);
      case FailureWritten(i, ok) => StoreObeys(rule, s, i, ok);
    }
    hide ObeysAt;
    hide Everywhere;
    hide Steady;
    hide At;
    hide ReadFinished;
    hide Requested;
    hide Answered;
    hide Deleted;
    hide FailureNoted;
    hide FailureStored;
    hide Lookup;
    hide Live;
    hide Ready;
    hide LeaseFree;
  }

  lemma RetryObeysRead(rule: Rule, s: State, k: nat, durable: bool, ok: bool)
    requires Steady(rule) && Everywhere(rule, s) && k < |s.retries| && s.retries[k].stage.Looking?
    ensures Everywhere(rule, Retried(s, k, durable, ok))
  {
    var r, item := s.retries[k], RetryItem(s, k, ok);
    assert RetryObeys(rule, r);
    LookupObeys(rule, s.disk, r.id);
    if item.Some? {
      MarkObeys(rule, r.id, item.value, Queued, 0);
      WriteObeys(rule, s.ram, s.disk, r.id, item.value.(status := Queued), durable);
    }
    hide PlaneObeys;
    hide Obeys;
    hide Steady;
    hide SendsObey;
    hide RamAfter;
    hide DiskAfter;
    hide Lookup;
  }

  lemma RetryObeysWrite(rule: Rule, s: State, k: nat, ok: bool)
    requires Everywhere(rule, s) && k < |s.retries| && s.retries[k].stage.Restoring?
    ensures Everywhere(rule, Restored(s, k, ok))
  {
    var r := s.retries[k];
    assert RetryObeys(rule, r);
    WriteObeys(rule, s.ram, s.disk, r.id, r.stage.item, r.stage.durable);
    var t := RetryAt(s, k, Over);
    assert Everywhere(rule, t);
    if ok {
      ScheduledObeys(rule, t.(disk := DiskAfter(s.disk, r.id, r.stage.item, r.stage.durable)), r.stage.item.chat, r.id);
    }
    hide PlaneObeys;
    hide Obeys;
    hide SendsObey;
    hide RetriesObey;
    hide DiskAfter;
    hide Scheduled;
  }

  lemma ScheduledObeys(rule: Rule, s: State, chat: int, id: Id)
    requires Everywhere(rule, s)
    ensures Everywhere(rule, Scheduled(s, chat, id))
  {
    hide PlaneObeys;
    hide RetriesObey;
  }

  // ---- every step ----

  lemma OtherObeys(rule: Rule, s: State, e: Event)
    requires Everywhere(rule, s) && AddsObeying(rule, e)
    requires e.Enqueue? || e.Hold? || e.Release? || e.Cancel? || e.Pause? || e.Resume? || e.RetryCalled?
    ensures Everywhere(rule, Step(s, e))
  {
    match e {
      case Enqueue(id, item, durable) => WriteObeys(rule, s.ram, s.disk, id, item.(status := Queued, attempts := 0), durable);
      case Cancel(id) =>
        LessObeys(rule, s.ram, id);
        LessObeys(rule, s.disk, id);
      case RetryCalled(id) =>
        LookupObeys(rule, s.ram, id);
        assert RetryObeys(rule, Retry(id, Looking(Lookup(s.ram, id))));
      case _ =>
    }
    hide Lookup;
    hide RamAfter;
    hide DiskAfter;
    hide SendsObey;
    hide RetryObeys;
  }

  lemma StepObeys(rule: Rule, s: State, e: Event)
    requires Steady(rule) && Everywhere(rule, s) && AddsObeying(rule, e)
    ensures Everywhere(rule, Step(s, e))
  {
    if Mover(e).Some? {
      if Step(s, e) != s {
        StepMoves(s, e);
        hide Everywhere;
        hide ObeysAt;
        assert Mover(e).value < |s.sends| == |Step(s, e).sends|;
        MoverObeys(rule, s, e);
        hide Step;
        hide Moved;
        MovedObeys(rule, s, Step(s, e), Mover(e).value);
      }
    } else if e.RetryRead? {
      if e.k < |s.retries| && s.retries[e.k].stage.Looking? {
        RetryObeysRead(rule, s, e.k, e.durable, e.ok);
        hide Everywhere;
        hide Retried;
      }
    } else if e.RetryWrote? {
      if e.k < |s.retries| && s.retries[e.k].stage.Restoring? {
        RetryObeysWrite(rule, s, e.k, e.ok);
        hide Everywhere;
        hide Restored;
      }
    } else if e.Schedule? {
      ScheduledObeys(rule, s, e.chat, e.id);
    } else {
      OtherObeys(rule, s, e);
    }
  }

  lemma {:induction false} RunObeys(rule: Rule, s: State, events: seq<Event>)
    requires Steady(rule) && Everywhere(rule, s) && forall i :: 0 <= i < |events| ==> AddsObeying(rule, events[i])
    ensures Everywhere(rule, Run(s, events))
    decreases |events|
  {
    hide Everywhere;
    hide Step;
    hide Steady;
    hide AddsObeying;
    if events != [] {
      RunObeys(rule, s, events[..|events| - 1]);
      StepObeys(rule, Run(s, events[..|events| - 1]), events[|events| - 1]);
    }
  }

  /** Whatever is added, no row is ever marked as sent. */
  lemma RunUnsent(s: State, events: seq<Event>)
    requires Everywhere(UnsentRule(), s)
    ensures Everywhere(UnsentRule(), Run(s, events))
  {
    RunObeys(UnsentRule(), s, events);
  }

  lemma StepUnsent(s: State, e: Event)
    requires Everywhere(UnsentRule(), s)
    ensures Everywhere(UnsentRule(), Step(s, e))
  {
    StepObeys(UnsentRule(), s, e);
    hide Step;
    hide Everywhere;
  }
}
