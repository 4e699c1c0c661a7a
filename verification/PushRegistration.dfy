/** Push registration of clients/core/src/push.ts.  One reconcile runs at a time; every stretch of it between
    two requests is a step, and a request takes effect when its answer comes. */
module PushRegistration {
  import opened Results

  datatype Token = Token(platform: string, endpoint: string, keys: Option<(string, string)>)

  /** Where the reconcile is: waiting for a subscribe, for an unsubscribe and what comes after it, or returned
      with its `finally` still to run. */
  datatype Phase =
    | Quiet
    | Subscribing(revision: nat, target: Token)
    | Losing(revision: nat, endpoint: string)
    | Undoing(revision: nat, endpoint: string)
    | Abandoning(endpoint: string)
    | Replacing(revision: nat, endpoint: string)
    | Returned

  /** How far stop() is. */
  datatype Stopping = NotCalled | Waiting | Clearing(endpoint: string) | Done

  /** `server` is the set of endpoints the server has; `failed` says whether the last subscribe failed. */
  datatype State = State(
    current: Option<Token>, desired: Option<Token>, desiredRevision: nat, completedRevision: nat,
    phase: Phase, stopping: Stopping, server: set<string>, failed: bool)

  predicate Stopped(s: State) {
    s.stopping != NotCalled
  }

  function Endpoints(t: Option<Token>): set<string> {
    if t.Some? then {t.value.endpoint} else {}
  }

  // ---- what the steps compute ----

  /** The reconcile loop from its guard to the next request, or to its return. */
  function Continue(s: State): State {
    if Stopped(s) then s.(phase := Returned)
    else if s.current == s.desired then s.(completedRevision := s.desiredRevision, phase := Returned)
    else if s.desired.None? then
      s.(current := None, phase := Losing(s.desiredRevision, s.current.value.endpoint))
    else s.(phase := Subscribing(s.desiredRevision, s.desired.value))
  }

  /** After the last request of a round. */
  function Complete(s: State, revision: nat): State {
    var s := s.(completedRevision := revision);
    if revision == s.desiredRevision then s.(phase := Returned) else Continue(s)
  }

  function Subscribed(s: State, ok: bool): State
    requires s.phase.Subscribing?
  {
    var target, revision := s.phase.target, s.phase.revision;
    if !ok then s.(failed := true, completedRevision := revision, phase := Returned)
    else
      var s := s.(failed := false, server := s.server + {target.endpoint});
      if Stopped(s) then s.(phase := Abandoning(target.endpoint))
      else if revision != s.desiredRevision || Some(target) != s.desired then
        s.(current := if s.current.Some? && s.current.value.endpoint == target.endpoint then None else s.current,
           phase := Undoing(revision, target.endpoint))
      else if s.current.Some? && s.current.value.endpoint != target.endpoint then
        s.(current := Some(target), phase := Replacing(revision, s.current.value.endpoint))
      else Complete(s.(current := Some(target)), revision)
  }

  predicate Unsubscribing(s: State) {
    s.phase.Losing? || s.phase.Undoing? || s.phase.Abandoning? || s.phase.Replacing?
  }

  function Unsubscribed(s: State): State
    requires Unsubscribing(s)
  {
    var s' := s.(server := s.server - {s.phase.endpoint});
    match s.phase
    case Losing(revision, _) => Complete(s', revision)
    case Undoing(revision, _) => Continue(s'.(completedRevision := revision))
    case Abandoning(_) => s'.(phase := Returned)
    case Replacing(revision, _) => Complete(s', revision)
  }

  /** The `finally` of a reconcile: another one if a newer wish has come. */
  function Settled(s: State): State
    requires s.phase.Returned?
  {
    if !Stopped(s) && s.completedRevision < s.desiredRevision then Continue(s) else s.(phase := Quiet)
  }

  function Wished(s: State, token: Option<Token>): State {
    if Stopped(s) then s
    else if s.desired == token && (s.current == token || s.completedRevision < s.desiredRevision) then s
    else
      var s := s.(desired := token, desiredRevision := s.desiredRevision + 1);
      if s.phase.Quiet? then Continue(s) else s
  }

  function StopCalled(s: State): State {
    if Stopped(s) then s
    else ClearUp(s.(stopping := Waiting, desired := None, desiredRevision := s.desiredRevision + 1))
  }

  /** stop() goes on once no reconcile runs. */
  function ClearUp(s: State): State {
    if s.stopping != Waiting || !s.phase.Quiet? then s
    else if s.current.Some? then s.(stopping := Clearing(s.current.value.endpoint), current := None)
    else s.(stopping := Done)
  }

  function Cleared(s: State): State
    requires s.stopping.Clearing?
  {
    s.(server := s.server - {s.stopping.endpoint}, stopping := Done)
  }

  // ---- the steps on the variables ----

  class Registration {
    var current: Option<Token>
    var desired: Option<Token>
    var desiredRevision: nat
    var completedRevision: nat
    var phase: Phase
    var stopping: Stopping
    var server: set<string>
    var failed: bool

    constructor ()
      ensures Model() == State(None, None, 0, 0, Quiet, NotCalled, {}, false)
    {
      current, desired, desiredRevision, completedRevision := None, None, 0, 0;
      phase, stopping, server, failed := Quiet, NotCalled, {}, false;
    }

    function Model(): State
      reads this
    {
      State(current, desired, desiredRevision, completedRevision, phase, stopping, server, failed)
    }

    method Reconcile()
      modifies this`current, this`completedRevision, this`phase
      ensures Model() == Continue(old(Model()))
    {
      if stopping != NotCalled {
        phase := Returned;
        return;
      }
      var revision := desiredRevision;
      var target := desired;
      if current == target {
        completedRevision := revision;
        phase := Returned;
        return;
      }
      if target.None? {
        var previous := current;
        current := None;
        phase := Losing(revision, previous.value.endpoint);
        return;
      }
      phase := Subscribing(revision, target.value);
    }

    method EndRound(revision: nat)
      modifies this`current, this`completedRevision, this`phase
      ensures Model() == Complete(old(Model()), revision)
    {
      completedRevision := revision;
      if revision == desiredRevision {
        phase := Returned;
        return;
      }
      Reconcile();
    }

    method OnSubscribed(ok: bool)
      requires phase.Subscribing?
      modifies this
      ensures Model() == Subscribed(old(Model()), ok)
    {
      var revision, target, previous := phase.revision, phase.target, current;
      failed := !ok;
      if !ok {
        completedRevision := revision;
        phase := Returned;
        return;
      }
      server := server + {target.endpoint};
      if stopping != NotCalled {
        phase := Abandoning(target.endpoint);
        return;
      }
      if revision != desiredRevision || Some(target) != desired {
        if previous.Some? && previous.value.endpoint == target.endpoint {
          current := None;
        }
        phase := Undoing(revision, target.endpoint);
        return;
      }
      current := Some(target);
      if previous.Some? && previous.value.endpoint != target.endpoint {
        phase := Replacing(revision, previous.value.endpoint);
        return;
      }
      EndRound(revision);
    }

    method OnUnsubscribed()
      requires Unsubscribing(Model())
      modifies this
      ensures Model() == Unsubscribed(old(Model()))
    {
      server := server - {phase.endpoint};
      match phase
      case Losing(revision, _) => EndRound(revision);
      case Undoing(revision, _) =>
        completedRevision := revision;
        Reconcile();
      case Abandoning(_) => phase := Returned;
      case Replacing(revision, _) => EndRound(revision);
    }

    method OnSettled()
      requires phase.Returned?
      modifies this
      ensures Model() == Settled(old(Model()))
    {
      if stopping == NotCalled && completedRevision < desiredRevision {
        Reconcile();
      } else {
        phase := Quiet;
      }
    }

    method SetDesired(token: Option<Token>)
      modifies this
      ensures Model() == Wished(old(Model()), token)
    {
      if stopping != NotCalled {
        return;
      }
      if desired == token {
        if current == token {
          return;
        }
        if completedRevision < desiredRevision {
          return;
        }
      }
      desired := token;
      desiredRevision := desiredRevision + 1;
      if phase.Quiet? {
        Reconcile();
      }
    }

    method Stop()
      modifies this
      ensures Model() == StopCalled(old(Model()))
    {
      if stopping != NotCalled {
        return;
      }
      stopping := Waiting;
      desired := None;
      desiredRevision := desiredRevision + 1;
      FinishStop();
    }

    method FinishStop()
      modifies this`current, this`stopping
      ensures Model() == ClearUp(old(Model()))
    {
      if stopping != Waiting || !phase.Quiet? {
        return;
      }
      if current.Some? {
        var endpoint := current.value.endpoint;
        current := None;
        stopping := Clearing(endpoint);
      } else {
        stopping := Done;
      }
    }

    method OnCleared()
      requires stopping.Clearing?
      modifies this
      ensures Model() == Cleared(old(Model()))
    {
      server := server - {stopping.endpoint};
      stopping := Done;
    }
  }

  // ---- every run ----

  datatype Step = Wish(token: Option<Token>) | SubscribeAnswer(ok: bool) | UnsubscribeAnswer | Finally | StopCall | StopGoesOn | StopAnswer

  predicate Enabled(s: State, step: Step) {
    match step
    case SubscribeAnswer(_) => s.phase.Subscribing?
    case UnsubscribeAnswer => Unsubscribing(s)
    case Finally => s.phase.Returned?
    case StopAnswer => s.stopping.Clearing?
    case _ => true
  }

  function Next(s: State, step: Step): State
    requires Enabled(s, step)
  {
    match step
    case Wish(token) => Wished(s, token)
    case SubscribeAnswer(ok) => Subscribed(s, ok)
    case UnsubscribeAnswer => Unsubscribed(s)
    case Finally => Settled(s)
    case StopCall => StopCalled(s)
    case StopGoesOn => ClearUp(s)
    case StopAnswer => Cleared(s)
  }

  /** What the server has, in each phase. */
  predicate ServerIs(s: State) {
    var mine := Endpoints(s.current);
    match s.phase
    case Quiet => ServerSettled(s)
    case Returned => ServerSettled(s)
    case Subscribing(_, _) => s.server == mine
    case Losing(_, endpoint) => s.server == {endpoint} && s.current == None
    case Undoing(_, endpoint) => s.server == mine + {endpoint} && endpoint !in mine
    case Abandoning(endpoint) => s.server == mine + {endpoint}
    case Replacing(_, endpoint) => s.server == mine + {endpoint} && endpoint !in mine && s.current.Some?
  }

  predicate ServerSettled(s: State) {
    match s.stopping
    case NotCalled => s.server == Endpoints(s.current)
    case Waiting => s.server <= Endpoints(s.current)
    case Clearing(endpoint) => s.server <= {endpoint} && s.current == None
    case Done => s.server == {} && s.current == None
  }

  predicate Revisions(s: State) {
    && s.completedRevision <= s.desiredRevision
    && (s.phase.Subscribing? || s.phase.Losing? || s.phase.Undoing? || s.phase.Replacing? ==> s.phase.revision <= s.desiredRevision)
    && (s.phase.Subscribing? && !Stopped(s) && s.phase.revision == s.desiredRevision ==> s.desired == Some(s.phase.target))
    && (s.phase.Losing? && !Stopped(s) && s.phase.revision == s.desiredRevision ==> s.desired == None)
    && (s.phase.Replacing? && !Stopped(s) && s.phase.revision == s.desiredRevision ==> s.desired == s.current)
    && (s.phase.Quiet? && !Stopped(s) ==> s.completedRevision == s.desiredRevision)
    && ((s.phase.Quiet? || s.phase.Returned?) && !Stopped(s) && s.completedRevision == s.desiredRevision ==>
          s.current == s.desired || s.failed)
  }

  predicate Inv(s: State) {
    && ServerIs(s) && Revisions(s)
    && (s.stopping.Clearing? || s.stopping.Done? ==> s.phase.Quiet?)
    && (s.phase.Abandoning? ==> Stopped(s))
  }

  lemma ContinueKeeps(s: State)
    requires s.server == Endpoints(s.current) || (Stopped(s) && s.server <= Endpoints(s.current))
    requires s.completedRevision <= s.desiredRevision && (s.stopping == NotCalled || s.stopping == Waiting)
    ensures Inv(Continue(s))
  {
  }

  lemma CompleteKeeps(s: State, revision: nat)
    requires s.server == Endpoints(s.current) || (Stopped(s) && s.server <= Endpoints(s.current))
    requires revision <= s.desiredRevision && (s.stopping == NotCalled || s.stopping == Waiting)
    requires revision == s.desiredRevision && !Stopped(s) ==> s.current == s.desired
    ensures Inv(Complete(s, revision))
  {
    ContinueKeeps(s.(completedRevision := revision));
    hide Continue;
  }

  lemma SubscribedKeeps(s: State, ok: bool)
    requires Inv(s) && s.phase.Subscribing?
    ensures Inv(Subscribed(s, ok))
  {
    var target, revision := s.phase.target, s.phase.revision;
    if ok && !Stopped(s) && revision == s.desiredRevision && Some(target) == s.desired
       && !(s.current.Some? && s.current.value.endpoint != target.endpoint) {
      CompleteKeeps(s.(failed := false, server := s.server + {target.endpoint}, current := Some(target)), revision);
    }
    hide Complete;
  }

  lemma UnsubscribedKeeps(s: State)
    requires Inv(s) && Unsubscribing(s)
    ensures Inv(Unsubscribed(s))
  {
    var s' := s.(server := s.server - {s.phase.endpoint});
    match s.phase
    case Losing(revision, _) => CompleteKeeps(s', revision);
    case Undoing(revision, _) => ContinueKeeps(s'.(completedRevision := revision));
    case Abandoning(_) =>
    case Replacing(revision, _) => CompleteKeeps(s', revision);
  }

  lemma StepKeeps(s: State, step: Step)
    requires Inv(s) && Enabled(s, step)
    ensures Inv(Next(s, step))
  {
    match step
    case Wish(token) =>
      if !Stopped(s) && s.phase.Quiet? {
        ContinueKeeps(s.(desired := token, desiredRevision := s.desiredRevision + 1));
      }
      hide Continue;
    case SubscribeAnswer(ok) => SubscribedKeeps(s, ok);
    case UnsubscribeAnswer => UnsubscribedKeeps(s);
    case Finally => ContinueKeeps(s); hide Continue;
    case StopCall =>
    case StopGoesOn =>
    case StopAnswer =>
  }

  function Run(s: State, steps: seq<Step>): Option<State>
    decreases |steps|
  {
    if steps == [] then Some(s)
    else
      var n := |steps| - 1;
      var before := Run(s, steps[..n]);
      if before.Some? && Enabled(before.value, steps[n]) then Some(Next(before.value, steps[n])) else None
  }

  const INITIAL: State := State(None, None, 0, 0, Quiet, NotCalled, {}, false)

  lemma {:induction false} RunKeeps(steps: seq<Step>)
    requires Run(INITIAL, steps).Some?
    ensures Inv(Run(INITIAL, steps).value)
    decreases |steps|
  {
    if steps != [] {
      var n := |steps| - 1;
      RunKeeps(steps[..n]);
      StepKeeps(Run(INITIAL, steps[..n]).value, steps[n]);
    }
  }

  /** In every run: whenever no reconcile runs and stop() has not been called, the server has exactly the current
      token's endpoint, and the current token is the desired one unless the last subscribe failed; and once the
      first stop() has resolved, the server has nothing. */
  lemma ServerAgrees(steps: seq<Step>)
    requires Run(INITIAL, steps).Some?
    ensures var s := Run(INITIAL, steps).value;
            && (s.phase.Quiet? && !Stopped(s) ==> s.server == Endpoints(s.current) && (s.current == s.desired || s.failed))
            && (s.stopping.Done? ==> s.server == {} && s.current == None)
            && |s.server| <= 2
  {
    RunKeeps(steps);
    hide Run;
    var s := Run(INITIAL, steps).value;
    AtMostTwo(s.current, if Unsubscribing(s) then s.phase.endpoint else if s.stopping.Clearing? then s.stopping.endpoint else "", s.server);
  }

  lemma AtMostTwo(t: Option<Token>, endpoint: string, server: set<string>)
    ensures server <= Endpoints(t) + {endpoint} ==> |server| <= 2
  {
    if server <= Endpoints(t) + {endpoint} {
      var all := Endpoints(t) + {endpoint};
      assert all == server + (all - server);
      assert |all| <= 2;
    }
  }

  // ---- a second stop() ----

  /** The server has nothing, and never will again. */
  ghost predicate ClearedForGood(s: State) {
    forall steps :: Run(s, steps).Some? ==> Run(s, steps).value.server == {}
  }

  predicate NothingComes(s: State) {
    s.server == {} && !s.phase.Subscribing?
  }

  lemma NothingStepComes(s: State, step: Step)
    requires Stopped(s) && NothingComes(s) && Enabled(s, step)
    ensures Stopped(Next(s, step)) && NothingComes(Next(s, step))
  {
  }

  lemma {:induction false} NothingEverComes(s: State, steps: seq<Step>)
    requires Stopped(s) && NothingComes(s) && Run(s, steps).Some?
    ensures Stopped(Run(s, steps).value) && NothingComes(Run(s, steps).value)
    decreases |steps|
  {
    hide NothingComes;
    if steps != [] {
      var n := |steps| - 1;
      NothingEverComes(s, steps[..n]);
      NothingStepComes(Run(s, steps[..n]).value, steps[n]);
      hide Next;
    }
  }

  /** When the first stop() resolves, the server is cleared for good.  A second one resolves at once: the server is
      cleared for good then exactly if it has nothing and no subscribe is on its way. */
  lemma SecondStop(steps: seq<Step>)
    requires Run(INITIAL, steps).Some? && Stopped(Run(INITIAL, steps).value)
    ensures var s := Run(INITIAL, steps).value;
            && StopCalled(s) == s && (s.stopping.Done? ==> ClearedForGood(s))
            && (ClearedForGood(s) <==> s.server == {} && !s.phase.Subscribing?)
  {
    RunKeeps(steps);
    var s := Run(INITIAL, steps).value;
    if NothingComes(s) {
      forall more | Run(s, more).Some?
        ensures Run(s, more).value.server == {}
      {
        NothingEverComes(s, more);
      }
    } else {
      assert Run(s, []) == Some(s);
      assert [SubscribeAnswer(true)][..0] == [];
      assert s.phase.Subscribing? ==> Run(s, [SubscribeAnswer(true)]) == Some(Subscribed(s, true));
      assert s.phase.Subscribing? ==> s.phase.target.endpoint in Subscribed(s, true).server;
    }
  }

  /** It may resolve too early: the first one waits for its unsubscribe, and the server still has the endpoint. */
  lemma EarlySecondStop(a: Token)
    ensures Run(INITIAL, [Wish(Some(a)), SubscribeAnswer(true), Finally, StopCall]).Some?
    ensures var s := Run(INITIAL, [Wish(Some(a)), SubscribeAnswer(true), Finally, StopCall]).value;
            StopCalled(s) == s && s.stopping.Clearing? && s.server == {a.endpoint}
  {
    var w := State(None, Some(a), 1, 0, Subscribing(1, a), NotCalled, {}, false);
    var r := State(Some(a), Some(a), 1, 1, Returned, NotCalled, {a.endpoint}, false);
    assert Next(w, SubscribeAnswer(true)) == r;
    RunStep(INITIAL, [], Wish(Some(a)));
    RunStep(INITIAL, [Wish(Some(a))], SubscribeAnswer(true));
    RunStep(INITIAL, [Wish(Some(a)), SubscribeAnswer(true)], Finally);
    RunStep(INITIAL, [Wish(Some(a)), SubscribeAnswer(true), Finally], StopCall);
    hide Run;
    assert [] + [Wish(Some(a))] == [Wish(Some(a))];
    assert [Wish(Some(a))] + [SubscribeAnswer(true)] == [Wish(Some(a)), SubscribeAnswer(true)];
    assert [Wish(Some(a)), SubscribeAnswer(true)] + [Finally] == [Wish(Some(a)), SubscribeAnswer(true), Finally];
    assert [Wish(Some(a)), SubscribeAnswer(true), Finally] + [StopCall] == [Wish(Some(a)), SubscribeAnswer(true), Finally, StopCall];
  }

  lemma RunStep(s: State, steps: seq<Step>, step: Step)
    ensures steps == [] ==> Run(s, steps) == Some(s)
    ensures Run(s, steps).Some? && Enabled(Run(s, steps).value, step) ==> Run(s, steps + [step]) == Some(Next(Run(s, steps).value, step))
  {
    assert (steps + [step])[..|steps|] == steps;
    hide Next;
  }

  /** Between a stop() that overtook a subscribe with new keys and its own clearing up, the current token may
      name an endpoint that the server no longer has. */
  lemma StoppedMayTrail(a: Token, b: Token)
    requires a.endpoint == b.endpoint && a != b
    ensures var s := State(Some(a), Some(b), 2, 1, Subscribing(2, b), NotCalled, {a.endpoint}, false);
            var s' := Unsubscribed(Subscribed(StopCalled(s), true));
            Inv(s) && s'.phase.Returned? && s'.current == Some(a) && s'.server == {}
  {
  }
}
