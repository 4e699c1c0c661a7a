/** Runs of the outbox of clients/core/src/outbox.ts in which one accepted item is requested twice: its deletion is
    rejected, a retry races with it, or, without the lease, a pause comes before its deletion or before a late write.
    And one in which a locked app gets a row into RAM. */
module OutboxRuns {
  import opened Results
  import opened OutboxQueue
  import opened OutboxRows
  import opened OutboxOnce
  import opened OutboxAgain
  import opened OutboxOpen
  import opened OutboxLocked

  const ROW := Item(1, 0, Queued, 0)
  const ROWS: map<Id, Item> := map["a" := ROW]

  /** There is one chat. */
  function InOne(id: Id): int {
    1
  }

  function Attempt(n: nat): Item {
    Item(1, 0, Status.Sending, n)
  }

  function Sent(generation: nat, prev: Option<nat>, stage: Stage): Send {
    Send(generation, 1, "a", prev, stage)
  }

  function Snap(exclusive: bool, generation: nat, sends: seq<Send>, retries: seq<Retry>, disk: map<Id, Item>, log: seq<nat>,
                accepted: set<Id>): State
  {
    State(exclusive, false, generation, sends, retries, if sends == [] then map[] else map[1 := |sends| - 1], {}, map[], disk, log, accepted)
  }

  lemma TwoSteps(s: State, a: Event, m: State, b: Event, t: State)
    requires m == Step(s, a) && t == Step(m, b)
    ensures Run(s, [a, b]) == t
  {
    RunOne(s, a);
    RunMore(s, [a], b);
    hide Step;
    hide Run;
    assert [a] + [b] == [a, b];
  }

  lemma Onwards(s: State, some: seq<Event>, t: State, more: seq<Event>, u: State)
    requires Run(s, some) == t && Run(t, more) == u
    ensures Run(s, some + more) == u
  {
    RunConcat(s, some, more);
  }

  // ---- a rejected deletion ----

  const STARTED := [Schedule(1, "a"), Begin(0)]
  const CLAIMED := STARTED + [Claim(0), ReadBack(0, true, true)]
  const REQUESTED := CLAIMED + [Wrote(0, true)]
  const ACCEPTED := REQUESTED + [Answer(0, true)]

  function WhenStarted(exclusive: bool): State {
    Snap(exclusive, 0, [Sent(0, None, Leasing)], [], ROWS, [], {})
  }

  function WhenClaimed(exclusive: bool): State {
    Snap(exclusive, 0, [Sent(0, None, Writing(Attempt(1), true))], [], ROWS, [], {})
  }

  function WhenRequested(exclusive: bool): State {
    Snap(exclusive, 0, [Sent(0, None, Requesting)], [], map["a" := Attempt(1)], [0], {})
  }

  function WhenAccepted(exclusive: bool): State {
    Snap(exclusive, 0, [Sent(0, None, Removing)], [], map["a" := Attempt(1)], [0], {"a"})
  }

  lemma RunStarted(exclusive: bool)
    ensures Run(Initial(ROWS, exclusive), STARTED) == WhenStarted(exclusive)
  {
    var s, t := Initial(ROWS, exclusive), WhenStarted(exclusive);
    TwoSteps(s, Schedule(1, "a"), Step(s, Schedule(1, "a")), Begin(0), t);
  }

  lemma RunClaimed(exclusive: bool)
    ensures Run(Initial(ROWS, exclusive), CLAIMED) == WhenClaimed(exclusive)
  {
    RunStarted(exclusive);
    var s, t := WhenStarted(exclusive), WhenClaimed(exclusive);
    TwoSteps(s, Claim(0), Step(s, Claim(0)), ReadBack(0, true, true), t);
    hide *;
    Onwards(Initial(ROWS, exclusive), STARTED, s, [Claim(0), ReadBack(0, true, true)], t);
  }

  lemma RunRequested(exclusive: bool)
    ensures Run(Initial(ROWS, exclusive), REQUESTED) == WhenRequested(exclusive)
  {
    RunClaimed(exclusive);
    var s, t := WhenClaimed(exclusive), WhenRequested(exclusive);
    RunOne(s, Wrote(0, true));
    hide *;
    Onwards(Initial(ROWS, exclusive), CLAIMED, s, [Wrote(0, true)], t);
  }

  lemma RunAccepted(exclusive: bool)
    ensures Run(Initial(ROWS, exclusive), ACCEPTED) == WhenAccepted(exclusive)
  {
    RunRequested(exclusive);
    var s, t := WhenRequested(exclusive), WhenAccepted(exclusive);
    RunOne(s, Answer(0, true));
    hide *;
    Onwards(Initial(ROWS, exclusive), REQUESTED, s, [Answer(0, true)], t);
  }

  /** With a lease or without one, and without a pause: the store rejects the deletion of the accepted row, which is then
      marked as failed and may be requested again. */
  lemma RejectedDeletion(exclusive: bool)
    ensures "a" in Run(Initial(ROWS, exclusive), ACCEPTED).accepted
    ensures CanRepeat(Run(Initial(ROWS, exclusive), ACCEPTED + [Removed(0, false)]), "a", InOne)
  {
    RunAccepted(exclusive);
    RunKeeps(Initial(ROWS, exclusive), ACCEPTED);
    RunMore(Initial(ROWS, exclusive), ACCEPTED, Removed(0, false));
    WaitsForRemoval(exclusive, WhenAccepted(exclusive));
    hide *;
    RevivedRepeats(WhenAccepted(exclusive), Removed(0, false), "a", InOne);
  }

  lemma WaitsForRemoval(exclusive: bool, s: State)
    requires s == WhenAccepted(exclusive)
    ensures OneHolder(s) && Settled(s, "a") && Everywhere(UnsentRule(), s) && Revives(s, Removed(0, false), "a") && "a" in s.accepted
  {
    assert Removes(s, 0, "a");
  }

  /** Without the lease the accepted row needs no failure: until its deletion lands, a pause and a new send repeat the
      request.  Without a pause nothing does. */
  lemma PauseRepeats()
    ensures "a" in Run(Initial(ROWS, false), ACCEPTED).accepted
    ensures CanGently(Run(Initial(ROWS, false), ACCEPTED), "a", InOne)
    ensures !CanRepeat(Run(Initial(ROWS, false), ACCEPTED), "a", InOne)
  {
    RunAccepted(false);
    OpenIff(ROWS, false, ACCEPTED, "a", InOne);
    assert !Spent(WhenAccepted(false), "a");
    RunKeeps(Initial(ROWS, false), ACCEPTED);
    WaitsForRemoval(false, WhenAccepted(false));
    AcceptedHome(WhenAccepted(false));
    hide *;
    SettledSilent(WhenAccepted(false), "a", InOne);
  }

  lemma AcceptedHome(s: State)
    requires s == WhenAccepted(false) && Inv(s) && OneHolder(s)
    ensures Base(s, InOne)
  {
    var rule := ChatRule(InOne);
    assert Obeys(rule, "a", Attempt(1));
    assert PlaneObeys(rule, s.disk) && SendsObey(rule, s.sends);
    hide Inv;
    hide OneHolder;
    hide PlaneObeys;
    hide SendsObey;
  }

  // ---- a locked app ----

  function WhenFailed(exclusive: bool): State {
    Snap(exclusive, 0, [Sent(0, None, Rereading(None))], [], map["a" := Attempt(1)], [0], {})
  }

  lemma RunFailed(exclusive: bool)
    ensures Run(Initial(ROWS, exclusive), REQUESTED + [Answer(0, false)]) == WhenFailed(exclusive)
  {
    RunRequested(exclusive);
    var s, t := WhenRequested(exclusive), WhenFailed(exclusive);
    RunOne(s, Answer(0, false));
    hide *;
    Onwards(Initial(ROWS, exclusive), REQUESTED, s, [Answer(0, false)], t);
  }

  /** Every row belongs in RAM only. */
  predicate InRam(id: Id) {
    true
  }

  /** A pause between the failure of a request and the reading of its row: the row reaches RAM while the app is locked. */
  lemma LockedWithRow(exclusive: bool)
    ensures var s := Run(Initial(ROWS, exclusive), REQUESTED + [Answer(0, false)]);
            !s.paused && CanFill(Paused(s), InRam)
  {
    RunFailed(exclusive);
    var s := WhenFailed(exclusive);
    assert SendFills(Paused(s), 0, "a");
    assert InRam("a") && Open(Paused(s), "a");
    hide *;
    LockedIff(s, InRam);
  }

  // ---- a racing retry ----

  const ENTERED := [Schedule(1, "a"), RetryCalled("a")]
  const RACED := ENTERED + [RetryRead(0, true, true), Begin(0)]
  const RAN := RACED + [Claim(0), ReadBack(0, true, true)]
  const POSTED := RAN + [Wrote(0, true)]
  const ANSWERED := POSTED + [Answer(0, true)]
  const DELETED := ANSWERED + [Removed(0, true)]

  function WhenEntered(): State {
    Snap(true, 0, [Sent(0, None, Waiting)], [Retry("a", Looking(None))], ROWS, [], {})
  }

  function WhenRaced(): State {
    Snap(true, 0, [Sent(0, None, Leasing)], [Retry("a", Restoring(ROW, true))], ROWS, [], {})
  }

  function WhenRan(): State {
    Snap(true, 0, [Sent(0, None, Writing(Attempt(1), true))], [Retry("a", Restoring(ROW, true))], ROWS, [], {})
  }

  function WhenPosted(): State {
    Snap(true, 0, [Sent(0, None, Requesting)], [Retry("a", Restoring(ROW, true))], map["a" := Attempt(1)], [0], {})
  }

  function WhenAnswered(): State {
    Snap(true, 0, [Sent(0, None, Removing)], [Retry("a", Restoring(ROW, true))], map["a" := Attempt(1)], [0], {"a"})
  }

  function WhenDeleted(): State {
    Snap(true, 0, [Sent(0, None, Finished)], [Retry("a", Restoring(ROW, true))], map[], [0], {"a"})
  }

  lemma RunEntered()
    ensures Run(Initial(ROWS, true), ENTERED) == WhenEntered()
  {
    var s, t := Initial(ROWS, true), WhenEntered();
    TwoSteps(s, Schedule(1, "a"), Step(s, Schedule(1, "a")), RetryCalled("a"), t);
  }

  lemma RunRaced()
    ensures Run(Initial(ROWS, true), RACED) == WhenRaced()
  {
    RunEntered();
    var s, t := WhenEntered(), WhenRaced();
    TwoSteps(s, RetryRead(0, true, true), Step(s, RetryRead(0, true, true)), Begin(0), t);
    hide *;
    Onwards(Initial(ROWS, true), ENTERED, s, [RetryRead(0, true, true), Begin(0)], t);
  }

  lemma RunRan()
    ensures Run(Initial(ROWS, true), RAN) == WhenRan()
  {
    RunRaced();
    var s, t := WhenRaced(), WhenRan();
    TwoSteps(s, Claim(0), Step(s, Claim(0)), ReadBack(0, true, true), t);
    hide *;
    Onwards(Initial(ROWS, true), RACED, s, [Claim(0), ReadBack(0, true, true)], t);
  }

  lemma RunPosted()
    ensures Run(Initial(ROWS, true), POSTED) == WhenPosted()
  {
    RunRan();
    var s, t := WhenRan(), WhenPosted();
    RunOne(s, Wrote(0, true));
    hide *;
    Onwards(Initial(ROWS, true), RAN, s, [Wrote(0, true)], t);
  }

  lemma RunAnswered()
    ensures Run(Initial(ROWS, true), ANSWERED) == WhenAnswered()
  {
    RunPosted();
    var s, t := WhenPosted(), WhenAnswered();
    RunOne(s, Answer(0, true));
    hide *;
    Onwards(Initial(ROWS, true), POSTED, s, [Answer(0, true)], t);
  }

  lemma RunDeleted()
    ensures Run(Initial(ROWS, true), DELETED) == WhenDeleted()
  {
    RunAnswered();
    var s, t := WhenAnswered(), WhenDeleted();
    RunOne(s, Removed(0, true));
    hide *;
    Onwards(Initial(ROWS, true), ANSWERED, s, [Removed(0, true)], t);
  }

  /** Under the lease: a retry reads the queued row before the send is accepted, and writes it back after its
      deletion. */
  lemma RacingRetry()
    ensures "a" in Run(Initial(ROWS, true), DELETED).accepted
    ensures CanRepeat(Run(Initial(ROWS, true), DELETED + [RetryWrote(0, true)]), "a", InOne)
  {
    RunDeleted();
    RunKeeps(Initial(ROWS, true), DELETED);
    RunMore(Initial(ROWS, true), DELETED, RetryWrote(0, true));
    WaitsForRetry(WhenDeleted());
    hide *;
    RevivedRepeats(WhenDeleted(), RetryWrote(0, true), "a", InOne);
  }

  lemma WaitsForRetry(s: State)
    requires s == WhenDeleted()
    ensures OneHolder(s) && Settled(s, "a") && Everywhere(UnsentRule(), s) && Revives(s, RetryWrote(0, true), "a") && "a" in s.accepted
  {
  }

  // ---- no lease ----

  const BEGUN := [Schedule(1, "a"), Begin(0)]
  const CAUGHT := BEGUN + [Claim(0), ReadBack(0, true, true)]
  const RESUMED := CAUGHT + [Pause, Resume]
  const SECOND := RESUMED + [Schedule(1, "a"), Begin(1)]
  const BOTH := SECOND + [Claim(1), ReadBack(1, true, true)]
  const WIRED := BOTH + [Wrote(1, true)]
  const TAKEN := WIRED + [Answer(1, true)]
  const GONE := TAKEN + [Removed(1, true)]
  const LATE := GONE + [Wrote(0, true)]
  const THIRD := LATE + [Schedule(1, "a"), Begin(2)]
  const FOUND := THIRD + [Claim(2), ReadBack(2, true, true)]
  const DOUBLED := FOUND + [Wrote(2, true)]

  function WhenBegun(): State {
    Snap(false, 0, [Sent(0, None, Leasing)], [], ROWS, [], {})
  }

  function WhenCaught(): State {
    Snap(false, 0, [Sent(0, None, Writing(Attempt(1), true))], [], ROWS, [], {})
  }

  function WhenResumed(): State {
    Snap(false, 1, [Sent(0, None, Writing(Attempt(1), true))], [], ROWS, [], {}).(tails := map[])
  }

  function WhenSecond(): State {
    Snap(false, 1, [Sent(0, None, Writing(Attempt(1), true)), Sent(1, None, Leasing)], [], ROWS, [], {})
  }

  function WhenBoth(): State {
    Snap(false, 1, [Sent(0, None, Writing(Attempt(1), true)), Sent(1, None, Writing(Attempt(1), true))], [], ROWS, [], {})
  }

  function WhenWired(): State {
    Snap(false, 1, [Sent(0, None, Writing(Attempt(1), true)), Sent(1, None, Requesting)], [], map["a" := Attempt(1)], [1], {})
  }

  function WhenTaken(): State {
    Snap(false, 1, [Sent(0, None, Writing(Attempt(1), true)), Sent(1, None, Removing)], [], map["a" := Attempt(1)], [1], {"a"})
  }

  function WhenGone(): State {
    Snap(false, 1, [Sent(0, None, Writing(Attempt(1), true)), Sent(1, None, Finished)], [], map[], [1], {"a"})
  }

  function WhenLate(): State {
    Snap(false, 1, [Sent(0, None, Finished), Sent(1, None, Finished)], [], map["a" := Attempt(1)], [1], {"a"})
  }

  function WhenThird(): State {
    Snap(false, 1, [Sent(0, None, Finished), Sent(1, None, Finished), Sent(1, Some(1), Leasing)], [], map["a" := Attempt(1)], [1], {"a"})
  }

  function WhenFound(): State {
    Snap(false, 1, [Sent(0, None, Finished), Sent(1, None, Finished), Sent(1, Some(1), Writing(Attempt(2), true))], [], map["a" := Attempt(1)], [1], {"a"})
  }

  function WhenDoubled(): State {
    Snap(false, 1, [Sent(0, None, Finished), Sent(1, None, Finished), Sent(1, Some(1), Requesting)], [], map["a" := Attempt(2)], [1, 2], {"a"})
  }

  lemma RunBegun()
    ensures Run(Initial(ROWS, false), BEGUN) == WhenBegun()
  {
    var s, t := Initial(ROWS, false), WhenBegun();
    TwoSteps(s, Schedule(1, "a"), Step(s, Schedule(1, "a")), Begin(0), t);
  }

  lemma RunCaught()
    ensures Run(Initial(ROWS, false), CAUGHT) == WhenCaught()
  {
    RunBegun();
    var s, t := WhenBegun(), WhenCaught();
    TwoSteps(s, Claim(0), Step(s, Claim(0)), ReadBack(0, true, true), t);
    hide *;
    Onwards(Initial(ROWS, false), BEGUN, s, [Claim(0), ReadBack(0, true, true)], t);
  }

  lemma RunResumed()
    ensures Run(Initial(ROWS, false), RESUMED) == WhenResumed()
  {
    RunCaught();
    var s, t := WhenCaught(), WhenResumed();
    TwoSteps(s, Pause, Step(s, Pause), Resume, t);
    hide *;
    Onwards(Initial(ROWS, false), CAUGHT, s, [Pause, Resume], t);
  }

  lemma RunSecond()
    ensures Run(Initial(ROWS, false), SECOND) == WhenSecond()
  {
    RunResumed();
    var s, t := WhenResumed(), WhenSecond();
    TwoSteps(s, Schedule(1, "a"), Step(s, Schedule(1, "a")), Begin(1), t);
    hide *;
    Onwards(Initial(ROWS, false), RESUMED, s, [Schedule(1, "a"), Begin(1)], t);
  }

  lemma RunBoth()
    ensures Run(Initial(ROWS, false), BOTH) == WhenBoth()
  {
    RunSecond();
    var s, t := WhenSecond(), WhenBoth();
    TwoSteps(s, Claim(1), s.(sends := [Sent(0, None, Writing(Attempt(1), true)), Sent(1, None, Reading(None))]), ReadBack(1, true, true), t);
    hide *;
    Onwards(Initial(ROWS, false), SECOND, s, [Claim(1), ReadBack(1, true, true)], t);
  }

  lemma RunWired()
    ensures Run(Initial(ROWS, false), WIRED) == WhenWired()
  {
    RunBoth();
    var s, t := WhenBoth(), WhenWired();
    RunOne(s, Wrote(1, true));
    hide *;
    Onwards(Initial(ROWS, false), BOTH, s, [Wrote(1, true)], t);
  }

  lemma RunTaken()
    ensures Run(Initial(ROWS, false), TAKEN) == WhenTaken()
  {
    RunWired();
    var s, t := WhenWired(), WhenTaken();
    assert t.sends == s.sends[1 := Sent(1, None, Removing)];
    RunOne(s, Answer(1, true));
    hide *;
    Onwards(Initial(ROWS, false), WIRED, s, [Answer(1, true)], t);
  }

  lemma RunGone()
    ensures Run(Initial(ROWS, false), GONE) == WhenGone()
  {
    RunTaken();
    var s, t := WhenTaken(), WhenGone();
    RunOne(s, Removed(1, true));
    hide *;
    Onwards(Initial(ROWS, false), TAKEN, s, [Removed(1, true)], t);
  }

  lemma RunLate()
    ensures Run(Initial(ROWS, false), LATE) == WhenLate()
  {
    RunGone();
    var s, t := WhenGone(), WhenLate();
    RunOne(s, Wrote(0, true));
    hide *;
    Onwards(Initial(ROWS, false), GONE, s, [Wrote(0, true)], t);
  }

  lemma RunThird()
    ensures Run(Initial(ROWS, false), THIRD) == WhenThird()
  {
    RunLate();
    var s, t := WhenLate(), WhenThird();
    TwoSteps(s, Schedule(1, "a"), Step(s, Schedule(1, "a")), Begin(2), t);
    hide *;
    Onwards(Initial(ROWS, false), LATE, s, [Schedule(1, "a"), Begin(2)], t);
  }

  lemma RunFound()
    ensures Run(Initial(ROWS, false), FOUND) == WhenFound()
  {
    RunThird();
    var s, t := WhenThird(), WhenFound();
    TwoSteps(s, Claim(2), s.(sends := [Sent(0, None, Finished), Sent(1, None, Finished), Sent(1, Some(1), Reading(None))]), ReadBack(2, true, true), t);
    hide *;
    Onwards(Initial(ROWS, false), THIRD, s, [Claim(2), ReadBack(2, true, true)], t);
  }

  lemma RunDoubled()
    ensures Run(Initial(ROWS, false), DOUBLED) == WhenDoubled()
  {
    RunFound();
    var s, t := WhenFound(), WhenDoubled();
    RunOne(s, Wrote(2, true));
    hide *;
    Onwards(Initial(ROWS, false), FOUND, s, [Wrote(2, true)], t);
  }

  /** Without the lease, one pause and a store that answers a write late are enough. */
  lemma LateWrite()
    ensures "a" in Run(Initial(ROWS, false), TAKEN).accepted
    ensures Repeats(Run(Initial(ROWS, false), TAKEN), Run(Initial(ROWS, false), DOUBLED), "a")
  {
    RunTaken();
    RunDoubled();
    hide Run;
  }
}
