/** The controller of clients/core/src/telegram_accounts.ts as far as its catalogue goes.  Its operations run one at
    a time; activating a runtime, releasing a session and every vault write may fail. */
module AccountsController {
  import opened Results
  import opened AccountCatalog
  import opened CatalogVault

  type Draw = bytes: seq<Octet> | |bytes| == 18 witness seq(18, i => 0)

  /** The k-th draw is the first one that is free. */
  predicate FirstFree(accounts: seq<Account>, draws: seq<Draw>, k: nat) {
    k < |draws| && !HasSlot(accounts, SlotOf(draws[k])) && forall j :: 0 <= j < k ==> HasSlot(accounts, SlotOf(draws[j]))
  }

  predicate NoneFree(accounts: seq<Account>, draws: seq<Draw>) {
    forall j :: 0 <= j < |draws| ==> HasSlot(accounts, SlotOf(draws[j]))
  }

  /** A random slot, drawn again up to three times while it is taken. */
  method ChooseSlot(accounts: seq<Account>, draws: seq<Draw>) returns (slot: Option<string>, ghost k: nat)
    requires |draws| == 4
    ensures slot.Some? ==> FirstFree(accounts, draws, k) && slot.value == SlotOf(draws[k])
    ensures slot.None? <==> NoneFree(accounts, draws)
  {
    hide SlotOf;
    hide HasSlot;
    var s := SlotOf(draws[0]);
    var attempt := 0;
    while HasSlot(accounts, s) && attempt < 3
      invariant attempt <= 3 && s == SlotOf(draws[attempt])
      invariant forall j :: 0 <= j < attempt ==> HasSlot(accounts, SlotOf(draws[j]))
    {
      attempt := attempt + 1;
      s := SlotOf(draws[attempt]);
    }
    k := attempt;
    return if HasSlot(accounts, s) then None else Some(s), attempt;
  }

  function AddOp(slot: string, activated: bool, w: Write, undo: Write): Op {
    if activated then Save(Add(slot), w) else AddUndone(slot, w, undo)
  }

  class Controller {
    var a: Replica
    var b: Replica
    var catalog: Option<Catalog>
    ghost var saved: Catalog
    ghost var landed: Option<Catalog>

    /** A new process over what the vault holds. */
    constructor (s: State)
      ensures Now() == s.(memory := None)
    {
      a, b, catalog, saved, landed := s.a, s.b, None, s.saved, s.landed;
    }

    ghost function Now(): State
      reads this
    {
      State(a, b, catalog, saved, landed)
    }

    method WriteKey(onA: bool, c: Catalog, w: Write) returns (ok: bool)
      modifies this`a, this`b
      ensures a == if onA then After(old(a), c, w) else old(a)
      ensures b == if onA then old(b) else After(old(b), c, w)
      ensures ok <==> w.Done?
    {
      if onA {
        a := After(a, c, w);
      } else {
        b := After(b, c, w);
      }
      return w.Done?;
    }

    method EnsureCatalog(wa: Write, wb: Write) returns (r: Result<Catalog, CatalogError>)
      modifies this
      ensures Now() == Started(old(Now()), wa, wb)
      ensures r.Ok? <==> catalog.Some?
      ensures r.Ok? ==> Some(r.value) == catalog
    {
      hide Read;
      hide EncodeCatalog;
      hide After;
      if catalog.Some? {
        return Ok(catalog.value);
      }
      var x, y := Read(a), Read(b);
      var found: Option<Catalog> := None;
      if x.Some? || y.Some? {
        var newest := if y.None? || (x.Some? && x.value.revision >= y.value.revision) then x.value.revision else y.value.revision;
        var valid := (if x.Some? && x.value.revision == newest then [x.value] else [])
          + if y.Some? && y.value.revision == newest then [y.value] else [];
        if |valid| == 2 && EncodeCatalog(valid[0]) != EncodeCatalog(valid[1]) {
          return Err(Conflict);
        }
        found := Some(valid[0]);
      }
      if found.None? && !(a.Absent? && b.Absent?) {
        return Err(Corrupt);
      }
      if found.None? {
        var ok := WriteKey(true, FIRST, wa);
        if !ok {
          return Err(WriteFailed);
        }
        ok := WriteKey(false, FIRST, wb);
        if !ok {
          return Err(WriteFailed);
        }
        found := Some(FIRST);
      } else {
        if x.None? || EncodeCatalog(x.value) != EncodeCatalog(found.value) {
          var _ := WriteKey(true, found.value, wa);
        }
        if y.None? || EncodeCatalog(y.value) != EncodeCatalog(found.value) {
          var _ := WriteKey(false, found.value, wb);
        }
      }
      catalog, saved, landed := found, found.value, None;
      return Ok(found.value);
    }

    method SaveCatalog(next: Catalog, w: Write) returns (ok: bool)
      modifies this
      ensures Now() == Saved(old(Now()), next, w)
      ensures ok <==> w.Done?
      ensures catalog == if ok then Some(next) else old(catalog)
    {
      ok := WriteKey(OnA(next.revision), next, w);
      if ok {
        catalog, saved, landed := Some(next), next, None;
      } else {
        landed := if w.Late? then Some(next) else if w.Cut? then None else landed;
      }
    }

    /** An added account that cannot be activated stays listed, and the old selection is saved again. */
    method AddAccount(draws: seq<Draw>, activated: bool, w: Write, undo: Write) returns (r: Option<string>)
      requires |draws| == 4
      modifies this
      ensures old(catalog).None? || NoneFree(old(catalog).value.accounts, draws) ==> r.None? && Now() == old(Now())
      ensures old(catalog).Some? ==> forall k: nat :: FirstFree(old(catalog).value.accounts, draws, k) ==>
        Now() == Step(old(Now()), AddOp(SlotOf(draws[k]), activated, w, undo))
      ensures r.Some? ==> catalog.Some? && catalog.value.active == r && HasSlot(catalog.value.accounts, r.value)
    {
      hide SlotOf;
      hide Saved;
      if catalog.None? || |catalog.value.accounts| >= MAX_ACCOUNTS {
        return None;
      }
      var previous := catalog.value.active;
      var slot, k := ChooseSlot(catalog.value.accounts, draws);
      if slot.None? {
        return None;
      }
      assert forall j: nat :: FirstFree(catalog.value.accounts, draws, j) ==> j == k;
      var next := Edited(catalog.value, Add(slot.value));
      if next.None? {
        return None;
      }
      assert next.value.accounts[|catalog.value.accounts|].slot == slot.value;
      var ok := SaveCatalog(next.value, w);
      if !ok {
        return None;
      }
      if !activated {
        var back := RolledBack(next.value, previous);
        if back.Some? {
          var _ := SaveCatalog(back.value, undo);
        }
        return None;
      }
      return slot;
    }

    method SelectAccount(slot: string, activated: bool, w: Write) returns (ok: bool)
      modifies this
      ensures Now() == if activated then Step(old(Now()), Save(Select(slot), w)) else old(Now())
      ensures ok ==> catalog.Some? && catalog.value.active == Some(slot) && HasSlot(catalog.value.accounts, slot)
    {
      if catalog.None? || !HasSlot(catalog.value.accounts, slot) || !activated {
        return false;
      }
      if catalog.value.active == Some(slot) {
        return true;
      }
      var next := Edited(catalog.value, Select(slot));
      if next.None? {
        return false;
      }
      ok := SaveCatalog(next.value, w);
    }

    method RemoveActive(released: bool, w: Write) returns (ok: bool)
      modifies this
      ensures Now() == if released then Step(old(Now()), Save(Remove, w)) else old(Now())
    {
      if catalog.None? || catalog.value.active.None? || !released {
        return false;
      }
      var next := Edited(catalog.value, Remove);
      if next.None? {
        return false;
      }
      ok := SaveCatalog(next.value, w);
    }

    /** A login reported its provider account; a second local login of the same account is wiped and dropped. */
    method Identified(slot: string, id: string, wiped: bool, w: Write)
      modifies this
      ensures old(catalog).Some? && !wiped && Duplicate(old(catalog).value.accounts, slot, id) < |old(catalog).value.accounts| ==>
        Now() == old(Now())
      ensures old(catalog).None? || wiped || Duplicate(old(catalog).value.accounts, slot, id) == |old(catalog).value.accounts| ==>
        Now() == Step(old(Now()), Save(Identify(slot, id), w))
    {
      if catalog.None? || !ValidId(id) {
        return;
      }
      if Duplicate(catalog.value.accounts, slot, id) < |catalog.value.accounts| && !wiped {
        return;
      }
      var next := Edited(catalog.value, Identify(slot, id));
      if next.Some? {
        var _ := SaveCatalog(next.value, w);
      }
    }
  }
}
