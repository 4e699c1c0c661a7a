/** The two replicas of the account catalogue, clients/core/src/telegram_accounts.ts.  A save goes to one of
    them, by the parity of its revision; a start takes the newest readable one and repairs the other. */
module CatalogVault {
  import opened Results
  import opened StoreCodec
  import opened AccountCatalog

  /** What a vault key holds: nothing, bytes that are no document, or a document. */
  datatype Replica = Absent | Torn | Doc(json: Json)

  /** How a write ends: acknowledged, or reported as failed (or cut off by a crash) with the old bytes, with
      unreadable bytes, or with the new bytes in place. */
  datatype Write = Done | Lost | Cut | Late

  datatype CatalogError = Conflict | Corrupt | WriteFailed | Unavailable

  /** `saved` is the last catalogue whose save was acknowledged or that a start took; `landed` is a later one whose
      save was reported as failed although its bytes arrived. */
  datatype State = State(a: Replica, b: Replica, memory: Option<Catalog>, saved: Catalog, landed: Option<Catalog>)

  // ---- what the steps compute ----

  function After(was: Replica, c: Catalog, w: Write): Replica {
    match w
    case Done => Doc(EncodeCatalog(c))
    case Lost => was
    case Cut => Torn
    case Late => Doc(EncodeCatalog(c))
  }

  function Read(r: Replica): Option<Catalog> {
    if r.Doc? then ParseCatalog(r.json) else None
  }

  predicate OnA(revision: int) {
    revision % 2 == 0
  }

  /** What a start makes of the replicas: the newest readable catalogue, or none if nothing was ever written. */
  function Recovered(a: Replica, b: Replica): Result<Option<Catalog>, CatalogError> {
    var x, y := Read(a), Read(b);
    if x.None? && y.None? then (if a.Absent? && b.Absent? then Ok(None) else Err(Corrupt))
    else if y.None? || (x.Some? && x.value.revision > y.value.revision) then Ok(x)
    else if x.None? || y.value.revision > x.value.revision then Ok(y)
    else if EncodeCatalog(x.value) == EncodeCatalog(y.value) then Ok(x)
    else Err(Conflict)
  }

  function Repaired(r: Replica, c: Catalog, w: Write): Replica {
    if Read(r).Some? && EncodeCatalog(Read(r).value) == EncodeCatalog(c) then r else After(r, c, w)
  }

  const FIRST := Catalog(1, Some("primary"), [Account("primary", None)])

  /** ensureCatalog, with the outcome of each write it may make. */
  function Started(s: State, wa: Write, wb: Write): State {
    if s.memory.Some? then s
    else
      var found := Recovered(s.a, s.b);
      if found.Err? then s
      else if found.value.None? then
        if !wa.Done? then s.(a := After(s.a, FIRST, wa))
        else if !wb.Done? then s.(a := After(s.a, FIRST, wa), b := After(s.b, FIRST, wb))
        else State(After(s.a, FIRST, wa), After(s.b, FIRST, wb), Some(FIRST), FIRST, None)
      else
        var c := found.value.value;
        State(Repaired(s.a, c, wa), Repaired(s.b, c, wb), Some(c), c, None)
  }

  /** saveCatalog. */
  function Saved(s: State, next: Catalog, w: Write): State {
    var s := if OnA(next.revision) then s.(a := After(s.a, next, w)) else s.(b := After(s.b, next, w));
    match w
    case Done => s.(memory := Some(next), saved := next, landed := None)
    case Lost => s
    case Cut => s.(landed := None)
    case Late => s.(landed := Some(next))
  }

  /** An operation, a start, the end of the process; an added account may fail to activate. */
  datatype Op = Start(wa: Write, wb: Write) | Crash | Save(edit: Edit, w: Write) | AddUndone(slot: string, w: Write, undo: Write)

  function Step(s: State, op: Op): State {
    match op
    case Start(wa, wb) => Started(s, wa, wb)
    case Crash => s.(memory := None)
    case Save(edit, w) =>
      if s.memory.None? || Edited(s.memory.value, edit).None? then s
      else Saved(s, Edited(s.memory.value, edit).value, w)
    case AddUndone(slot, w, undo) =>
      if s.memory.None? || Edited(s.memory.value, Add(slot)).None? then s
      else
        var next := Edited(s.memory.value, Add(slot)).value;
        var back := RolledBack(next, s.memory.value.active);
        if w.Done? && back.Some? then Saved(Saved(s, next, w), back.value, undo) else Saved(s, next, w)
  }

  predicate SlotsAllowed(op: Op) {
    (op.Save? && op.edit.Add? ==> ValidSlot(op.edit.slot)) && (op.AddUndone? ==> ValidSlot(op.slot))
  }

  function Run(s: State, ops: seq<Op>): State {
    if ops == [] then s else Step(Run(s, ops[..|ops| - 1]), ops[|ops| - 1])
  }

  // ---- what every step keeps ----

  /** The replica that a save of this revision went to, and the one the next save goes to. */
  function Home(s: State): Replica {
    if OnA(s.saved.revision) then s.a else s.b
  }

  function Away(s: State): Replica {
    if OnA(s.saved.revision) then s.b else s.a
  }

  predicate Holds(r: Replica, c: Catalog) {
    Read(r) == Some(c)
  }

  predicate Behind(r: Replica, c: Catalog) {
    Read(r).None? || Read(r).value.revision < c.revision || Read(r).value == c
  }

  predicate Inv(s: State) {
    && ValidCatalog(s.saved)
    && Holds(Home(s), s.saved)
    && (s.memory.Some? ==> s.memory.value == s.saved)
    && (if s.landed.Some? then s.landed.value.revision == s.saved.revision + 1 && Holds(Away(s), s.landed.value)
        else Behind(Away(s), s.saved))
  }

  function Expected(s: State): Catalog {
    if s.landed.Some? then s.landed.value else s.saved
  }

  lemma ReadsBack(c: Catalog)
    requires ValidCatalog(c)
    ensures Read(Doc(EncodeCatalog(c))) == Some(c)
  {
    Reparses(c);
  }

  lemma TornUnread()
    ensures Read(Torn).None?
  {
  }

  lemma ReadValid(r: Replica)
    ensures Read(r).Some? ==> ValidCatalog(Read(r).value)
  {
  }

  lemma InvRecovers(s: State)
    requires Inv(s)
    ensures Recovered(s.a, s.b) == Ok(Some(Expected(s)))
  {
    hide EncodeCatalog;
    hide ValidCatalog;
    hide Read;
  }

  lemma RepairedReads(r: Replica, c: Catalog, w: Write)
    requires ValidCatalog(c)
    ensures Holds(r, c) ==> Repaired(r, c, w) == r
    ensures Behind(r, c) ==> Behind(Repaired(r, c, w), c)
  {
    ReadsBack(c);
    ReadValid(r);
  }

  lemma StartKeeps(s: State, wa: Write, wb: Write)
    requires Inv(s) && s.memory.None?
    ensures Inv(Started(s, wa, wb)) && Started(s, wa, wb).saved == Expected(s) && Started(s, wa, wb).landed.None?
  {
    hide Read;
    hide ValidCatalog;
    hide EncodeCatalog;
    hide Recovered;
    hide Repaired;
    var c := Expected(s);
    InvRecovers(s);
    ReadValid(s.a);
    ReadValid(s.b);
    RepairedReads(s.a, c, wa);
    RepairedReads(s.b, c, wb);
  }

  lemma SaveKeeps(s: State, next: Catalog, w: Write)
    requires Inv(s) && s.memory.Some? && ValidCatalog(next) && next.revision == s.saved.revision + 1
    ensures Inv(Saved(s, next, w))
    ensures Saved(s, next, w).saved == if w.Done? then next else s.saved
    ensures w.Late? ==> Saved(s, next, w).landed == Some(next)
    ensures w.Cut? || w.Done? ==> Saved(s, next, w).landed == None
    ensures w.Lost? ==> Saved(s, next, w) == s
  {
    hide Read;
    hide ValidCatalog;
    hide EncodeCatalog;
    ReadsBack(next);
    TornUnread();
  }

  lemma StepKeeps(s: State, op: Op)
    requires Inv(s) && SlotsAllowed(op)
    ensures Inv(Step(s, op))
  {
    match op {
      case Start(wa, wb) =>
        if s.memory.None? {
          StartKeeps(s, wa, wb);
        }
      case Crash =>
      case Save(edit, w) =>
        if s.memory.Some? && Edited(s.memory.value, edit).Some? {
          EditedValid(s.memory.value, edit);
          hide Edited;
          SaveKeeps(s, Edited(s.memory.value, edit).value, w);
        }
      case AddUndone(slot, w, undo) =>
        if s.memory.Some? && Edited(s.memory.value, Add(slot)).Some? {
          var next := Edited(s.memory.value, Add(slot)).value;
          EditedValid(s.memory.value, Add(slot));
          RolledBackValid(s.memory.value, slot);
          hide Edited;
          hide Inv;
          SaveKeeps(s, next, w);
          var back := RolledBack(next, s.memory.value.active);
          if w.Done? && back.Some? {
            SaveKeeps(Saved(s, next, w), back.value, undo);
          }
        }
    }
  }

  /** Whatever is saved, torn, cut off or restarted, a start finds exactly the last catalogue saved, or the one being
      saved if its bytes landed; it never finds a conflict or a corrupt catalogue. */
  lemma {:induction false} RunRecovers(s: State, ops: seq<Op>)
    requires Inv(s) && forall i :: 0 <= i < |ops| ==> SlotsAllowed(ops[i])
    ensures Inv(Run(s, ops))
    ensures Recovered(Run(s, ops).a, Run(s, ops).b) == Ok(Some(Expected(Run(s, ops))))
    decreases |ops|
  {
    hide Inv;
    hide Step;
    hide SlotsAllowed;
    hide Expected;
    if ops == [] {
      InvRecovers(s);
    } else {
      var n := |ops| - 1;
      RunRecovers(s, ops[..n]);
      assert SlotsAllowed(ops[n]);
      StepKeeps(Run(s, ops[..n]), ops[n]);
      InvRecovers(Run(s, ops));
    }
  }

  /** An acknowledged save outlives any number of crashes and starts, whatever their repairs do. */
  lemma {:induction false} AcknowledgedSurvives(s: State, next: Catalog, ops: seq<Op>)
    requires Inv(s) && s.memory.Some? && ValidCatalog(next) && next.revision == s.saved.revision + 1
    requires forall i :: 0 <= i < |ops| ==> ops[i].Start? || ops[i].Crash?
    ensures Recovered(Run(Saved(s, next, Done), ops).a, Run(Saved(s, next, Done), ops).b) == Ok(Some(next))
  {
    SaveKeeps(s, next, Done);
    QuietRun(Saved(s, next, Done), ops);
    InvRecovers(Run(Saved(s, next, Done), ops));
  }

  lemma {:induction false} QuietRun(s: State, ops: seq<Op>)
    requires Inv(s) && s.landed.None?
    requires forall i :: 0 <= i < |ops| ==> ops[i].Start? || ops[i].Crash?
    ensures Inv(Run(s, ops)) && Run(s, ops).saved == s.saved && Run(s, ops).landed.None?
    decreases |ops|
  {
    if ops != [] {
      var n := |ops| - 1;
      QuietRun(s, ops[..n]);
      var t := Run(s, ops[..n]);
      if ops[n].Start? && t.memory.None? {
        StartKeeps(t, ops[n].wa, ops[n].wb);
      }
    }
  }

  // ---- the first start ----

  lemma FirstValid()
    ensures ValidCatalog(FIRST)
  {
    assert FIRST.accounts[0].slot == "primary";
  }

  /** Once both first writes are acknowledged, the invariant holds. */
  lemma FirstStart(s: State)
    requires s.a.Absent? && s.b.Absent? && s.memory.None?
    ensures Inv(Started(s, Done, Done))
  {
    FirstValid();
    ReadsBack(FIRST);
  }

  /** A torn save is survived exactly when the other key holds the catalogue in memory. */
  lemma TornSaveSurvived(s: State, next: Catalog)
    requires s.memory.Some? && ValidCatalog(s.memory.value) && next.revision == s.memory.value.revision + 1
    ensures var s' := Saved(s, next, Cut);
            Recovered(s'.a, s'.b) == Ok(s.memory) <==>
            Holds(if OnA(s.memory.value.revision) then s.a else s.b, s.memory.value)
  {
    TornUnread();
    hide Read;
    hide ValidCatalog;
    hide EncodeCatalog;
  }

  /** If the first start is cut off between its writes and the repair then fails too, the next torn save loses the
      catalogue. */
  lemma CutFirstStart(s: State, slot: string)
    requires s.a.Absent? && s.b.Absent? && s.memory.None? && ValidSlot(slot) && slot != "primary"
    ensures var s' := Step(Step(Step(s, Start(Done, Lost)), Start(Done, Lost)), Save(Add(slot), Cut));
            Recovered(s'.a, s'.b) == Err(Corrupt)
  {
    FirstCut(s);
    RepairLost(Step(s, Start(Done, Lost)));
    CutLoses(Step(Step(s, Start(Done, Lost)), Start(Done, Lost)), slot);
    hide Step;
    TornUnread();
    AbsentUnread();
    hide Read;
  }

  lemma AbsentUnread()
    ensures Read(Absent).None?
  {
  }

  lemma CutLoses(s: State, slot: string)
    requires s.memory == Some(FIRST) && slot != "primary"
    ensures Step(s, Save(Add(slot), Cut)) == s.(a := Torn, landed := None)
  {
    hide EncodeCatalog;
    assert Edited(FIRST, Add(slot)).Some? && Edited(FIRST, Add(slot)).value.revision == 2;
  }

  lemma FirstCut(s: State)
    requires s.a.Absent? && s.b.Absent? && s.memory.None?
    ensures Step(s, Start(Done, Lost)) == s.(a := Doc(EncodeCatalog(FIRST)))
  {
    hide EncodeCatalog;
  }

  lemma RepairLost(s: State)
    requires s.a == Doc(EncodeCatalog(FIRST)) && s.b.Absent? && s.memory.None?
    ensures Step(s, Start(Done, Lost)) == State(s.a, Absent, Some(FIRST), FIRST, None)
    ensures Read(s.b).None?
  {
    FirstValid();
    ReadsBack(FIRST);
    hide EncodeCatalog;
    hide ParseCatalog;
  }
}
