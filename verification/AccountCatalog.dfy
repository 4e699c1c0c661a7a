/** The catalogue of local Telegram accounts, clients/core/src/telegram_accounts.ts: its document, the validation
    that reads it back, and the edits made to it. */
module AccountCatalog {
  import opened Results
  import opened StoreCodec

  const MAX_ACCOUNTS := 8
  const MAX_SAFE_INTEGER := 9007199254740991

  datatype Account = Account(slot: string, id: Option<string>)

  datatype Catalog = Catalog(revision: int, active: Option<string>, accounts: seq<Account>)

  // ---- names ----

  predicate IsHex(ch: char) {
    '0' <= ch <= '9' || 'a' <= ch <= 'f'
  }

  predicate ValidSlot(s: string) {
    s == "primary" || (|s| == 41 && s[..5] == "slot." && forall i :: 5 <= i < |s| ==> IsHex(s[i]))
  }

  predicate ValidId(s: string) {
    1 <= |s| <= 21 && '1' <= s[0] <= '9' && forall i :: 1 <= i < |s| ==> '0' <= s[i] <= '9'
  }

  function HexDigit(n: nat): (ch: char)
    requires n < 16
    ensures IsHex(ch)
  {
    "0123456789abcdef"[n]
  }

  type Octet = n: nat | n < 256

  function Hex(bytes: seq<Octet>): (s: string)
    ensures |s| == 2 * |bytes| && forall i :: 0 <= i < |s| ==> IsHex(s[i])
  {
    if bytes == [] then "" else Hex(bytes[..|bytes| - 1]) + [HexDigit(bytes[|bytes| - 1] / 16), HexDigit(bytes[|bytes| - 1] % 16)]
  }

  function SlotOf(bytes: seq<Octet>): (s: string)
    requires |bytes| == 18
    ensures ValidSlot(s)
  {
    "slot." + Hex(bytes)
  }

  // ---- a valid catalogue ----

  predicate Clash(a: Account, b: Account) {
    a.slot == b.slot || (a.id.Some? && a.id == b.id)
  }

  predicate Unique(accounts: seq<Account>) {
    forall i, j :: 0 <= i < j < |accounts| ==> !Clash(accounts[i], accounts[j])
  }

  predicate HasSlot(accounts: seq<Account>, slot: string) {
    exists i :: 0 <= i < |accounts| && accounts[i].slot == slot
  }

  predicate ValidAccount(a: Account) {
    ValidSlot(a.slot) && (a.id.Some? ==> ValidId(a.id.value))
  }

  predicate ValidCatalog(c: Catalog) {
    && 1 <= c.revision <= MAX_SAFE_INTEGER
    && |c.accounts| <= MAX_ACCOUNTS
    && (forall i :: 0 <= i < |c.accounts| ==> ValidAccount(c.accounts[i]))
    && Unique(c.accounts)
    && (c.active.Some? ==> HasSlot(c.accounts, c.active.value))
  }

  // ---- the document ----

  function EncodeAccount(a: Account): Json {
    JObj([Member("slot", JStr(a.slot))] + if a.id.Some? then [Member("accountId", JStr(a.id.value))] else [])
  }

  function EncodeAccounts(accounts: seq<Account>): (items: seq<Json>)
    ensures |items| == |accounts|
  {
    seq(|accounts|, i requires 0 <= i < |accounts| => EncodeAccount(accounts[i]))
  }

  function EncodeCatalog(c: Catalog): Json {
    JObj([
      Member("version", JNum(1.0)),
      Member("revision", JNum(c.revision as real)),
      Member("activeSlot", if c.active.Some? then JStr(c.active.value) else JNull),
      Member("accounts", JArr(EncodeAccounts(c.accounts)))])
  }

  function Property(members: seq<Member>, key: string): Option<Json> {
    var i := Find(members, key);
    if i < |members| then Some(members[i].value) else None
  }

  /** One account of the document; None when the validation refuses it on its own. */
  function ReadAccount(item: Json): Option<Account> {
    if !item.JObj? then None
    else
      var slot, id := Property(item.fields, "slot"), Property(item.fields, "accountId");
      if slot.None? || !slot.value.JStr? || !ValidSlot(slot.value.s) then None
      else if id.None? then Some(Account(slot.value.s, None))
      else if !id.value.JStr? || !ValidId(id.value.s) then None
      else Some(Account(slot.value.s, Some(id.value.s)))
  }

  predicate AllRead(items: seq<Json>) {
    forall i :: 0 <= i < |items| ==> ReadAccount(items[i]).Some?
  }

  function Accounts(items: seq<Json>): (accounts: seq<Account>)
    requires AllRead(items)
    ensures |accounts| == |items|
  {
    seq(|items|, i requires 0 <= i < |items| => ReadAccount(items[i]).value)
  }

  function SafeRevision(j: Json): Option<int> {
    if j.JNum? && j.n == j.n.Floor as real && 1 <= j.n.Floor <= MAX_SAFE_INTEGER then Some(j.n.Floor) else None
  }

  function ParseCatalog(j: Json): (r: Option<Catalog>)
    ensures r.Some? ==> ValidCatalog(r.value)
  {
    if !j.JObj? then None
    else
      var version, revision := Property(j.fields, "version"), Property(j.fields, "revision");
      var active, items := Property(j.fields, "activeSlot"), Property(j.fields, "accounts");
      if version != Some(JNum(1.0)) || revision.None? || SafeRevision(revision.value).None? then None
      else if active.None? || (!active.value.JNull? && !(active.value.JStr? && ValidSlot(active.value.s))) then None
      else if items.None? || !items.value.JArr? || |items.value.items| > MAX_ACCOUNTS || !AllRead(items.value.items) then None
      else
        var accounts := Accounts(items.value.items);
        if !Unique(accounts) || (active.value.JStr? && !HasSlot(accounts, active.value.s)) then None
        else
          assert forall i :: 0 <= i < |accounts| ==> accounts[i] == ReadAccount(items.value.items[i]).value && ValidAccount(accounts[i]);
          Some(Catalog(SafeRevision(revision.value).value, if active.value.JStr? then Some(active.value.s) else None, accounts))
  }

  /** A catalogue that is written reads back as itself. */
  lemma Reparses(c: Catalog)
    requires ValidCatalog(c)
    ensures ParseCatalog(EncodeCatalog(c)) == Some(c)
  {
    var fields := EncodeCatalog(c).fields;
    assert Property(fields, "version") == Some(JNum(1.0));
    FourthMember(fields);
    assert SafeRevision(JNum(c.revision as real)) == Some(c.revision);
    assert c.active.Some? ==> ValidSlot(c.active.value) by {
      if c.active.Some? {
        var i :| 0 <= i < |c.accounts| && c.accounts[i].slot == c.active.value;
        assert ValidAccount(c.accounts[i]);
      }
    }
    AccountsReread(c.accounts);
    assert Accounts(EncodeAccounts(c.accounts)) == c.accounts;
  }

  lemma FourthMember(fields: seq<Member>)
    requires |fields| == 4 && fields[0].key == "version" && fields[1].key == "revision"
    requires fields[2].key == "activeSlot" && fields[3].key == "accounts"
    ensures Property(fields, "version") == Some(fields[0].value) && Property(fields, "revision") == Some(fields[1].value)
    ensures Property(fields, "activeSlot") == Some(fields[2].value) && Property(fields, "accounts") == Some(fields[3].value)
  {
    assert Find(fields, "version") == 0 && Find(fields, "revision") == 1;
    assert Find(fields, "activeSlot") == 2 && Find(fields, "accounts") == 3;
  }

  lemma AccountsReread(accounts: seq<Account>)
    requires forall i :: 0 <= i < |accounts| ==> ValidAccount(accounts[i])
    ensures AllRead(EncodeAccounts(accounts))
    ensures forall i :: 0 <= i < |accounts| ==> ReadAccount(EncodeAccounts(accounts)[i]) == Some(accounts[i])
  {
    forall i | 0 <= i < |accounts|
      ensures ReadAccount(EncodeAccounts(accounts)[i]) == Some(accounts[i])
    {
      AccountReread(accounts[i]);
    }
  }

  lemma AccountReread(a: Account)
    requires ValidAccount(a)
    ensures ReadAccount(EncodeAccount(a)) == Some(a)
  {
    var fields := EncodeAccount(a).fields;
    assert fields[0].key == "slot" && Find(fields, "slot") == 0;
    if a.id.Some? {
      assert fields[1].key == "accountId" && Find(fields, "accountId") == 1;
    } else {
      assert Find(fields, "accountId") == 1;
    }
  }

  lemma EncodingDiffers(c: Catalog, d: Catalog)
    requires ValidCatalog(c) && ValidCatalog(d) && EncodeCatalog(c) == EncodeCatalog(d)
    ensures c == d
  {
    Reparses(c);
    Reparses(d);
  }

  /** The validation loop: slots and identifiers met so far are kept in two sets. */
  method ParseAccounts(items: seq<Json>) returns (r: Option<seq<Account>>)
    ensures r.Some? <==> AllRead(items) && Unique(Accounts(items))
    ensures r.Some? ==> r.value == Accounts(items)
  {
    var accounts: seq<Account> := [];
    var slots: set<string> := {};
    var ids: set<string> := {};
    for n := 0 to |items|
      invariant |accounts| == n && forall i :: 0 <= i < n ==> ReadAccount(items[i]) == Some(accounts[i])
      invariant Unique(accounts)
      invariant forall s :: s in slots <==> exists i :: 0 <= i < n && accounts[i].slot == s
      invariant forall s :: s in ids <==> exists i :: 0 <= i < n && accounts[i].id == Some(s)
    {
      var account := ReadAccount(items[n]);
      if account.None? {
        return None;
      }
      var a := account.value;
      if a.slot in slots || (a.id.Some? && a.id.value in ids) {
        ghost var i :| 0 <= i < n && Clash(accounts[i], a);
        if AllRead(items) {
          assert Clash(Accounts(items)[i], Accounts(items)[n]);
        }
        return None;
      }
      slots := slots + {a.slot};
      if a.id.Some? {
        ids := ids + {a.id.value};
      }
      accounts := accounts + [a];
    }
    assert AllRead(items) && accounts == Accounts(items);
    return Some(accounts);
  }

  // ---- edits ----

  function NextRevision(c: Catalog): Option<int> {
    if c.revision >= MAX_SAFE_INTEGER then None else Some(c.revision + 1)
  }

  function WithoutSlot(accounts: seq<Account>, slot: string): (rest: seq<Account>)
    ensures forall i :: 0 <= i < |rest| ==> rest[i] in accounts && rest[i].slot != slot
    ensures forall a :: a in accounts && a.slot != slot ==> a in rest
    ensures |rest| <= |accounts|
  {
    if accounts == [] then []
    else
      var last := accounts[|accounts| - 1];
      WithoutSlot(accounts[..|accounts| - 1], slot) + (if last.slot == slot then [] else [last])
  }

  function WithId(accounts: seq<Account>, slot: string, id: string): (marked: seq<Account>)
    ensures |marked| == |accounts|
  {
    seq(|accounts|, i requires 0 <= i < |accounts| =>
      if accounts[i].slot == slot then accounts[i].(id := Some(id)) else accounts[i])
  }

  /** The other account that already carries this identifier. */
  function Duplicate(accounts: seq<Account>, slot: string, id: string): (i: nat)
    ensures i <= |accounts| && (i < |accounts| ==> accounts[i].slot != slot && accounts[i].id == Some(id))
    ensures forall j :: 0 <= j < i ==> accounts[j].slot == slot || accounts[j].id != Some(id)
  {
    if accounts == [] || (accounts[0].slot != slot && accounts[0].id == Some(id)) then 0
    else 1 + Duplicate(accounts[1..], slot, id)
  }

  datatype Edit = Add(slot: string) | Select(slot: string) | Remove | Identify(slot: string, id: string)

  /** The catalogue an operation saves; None when it saves nothing. */
  function Edited(c: Catalog, e: Edit): Option<Catalog> {
    var revision := NextRevision(c);
    match e
    case Add(slot) =>
      if |c.accounts| >= MAX_ACCOUNTS || HasSlot(c.accounts, slot) || revision.None? then None
      else Some(Catalog(revision.value, Some(slot), c.accounts + [Account(slot, None)]))
    case Select(slot) =>
      if !HasSlot(c.accounts, slot) || c.active == Some(slot) || revision.None? then None
      else Some(c.(revision := revision.value, active := Some(slot)))
    case Remove =>
      if c.active.None? || revision.None? then None
      else
        var rest := WithoutSlot(c.accounts, c.active.value);
        Some(Catalog(revision.value, if rest == [] then None else Some(rest[0].slot), rest))
    case Identify(slot, id) =>
      if !ValidId(id) || !HasSlot(c.accounts, slot) || Account(slot, Some(id)) in c.accounts || revision.None? then None
      else
        var d := Duplicate(c.accounts, slot, id);
        if d < |c.accounts| then Some(Catalog(revision.value, Some(c.accounts[d].slot), WithoutSlot(c.accounts, slot)))
        else Some(Catalog(revision.value, c.active, WithId(c.accounts, slot, id)))
  }

  /** What is saved when a new account cannot be activated: it stays listed, the old selection returns. */
  function RolledBack(next: Catalog, previous: Option<string>): Option<Catalog> {
    var revision := NextRevision(next);
    if revision.None? then None else Some(next.(revision := revision.value, active := previous))
  }

  lemma {:induction false} WithoutUnique(accounts: seq<Account>, slot: string)
    requires Unique(accounts)
    ensures Unique(WithoutSlot(accounts, slot))
    decreases |accounts|
  {
    if accounts != [] {
      var n := |accounts| - 1;
      NoClashLeft(accounts, slot);
      hide Unique;
      hide Clear;
      WithoutUnique(accounts[..n], slot);
      UniqueOneMore(WithoutSlot(accounts[..n], slot), accounts[n]);
    }
  }

  predicate Clear(accounts: seq<Account>, a: Account) {
    forall i :: 0 <= i < |accounts| ==> !Clash(accounts[i], a)
  }

  lemma NoClashLeft(accounts: seq<Account>, slot: string)
    requires accounts != [] && Unique(accounts)
    ensures Unique(accounts[..|accounts| - 1])
    ensures Clear(WithoutSlot(accounts[..|accounts| - 1], slot), accounts[|accounts| - 1])
  {
    var n := |accounts| - 1;
    var rest := WithoutSlot(accounts[..n], slot);
    forall i | 0 <= i < |rest|
      ensures !Clash(rest[i], accounts[n])
    {
      assert rest[i] in accounts[..n];
      var j :| 0 <= j < n && accounts[..n][j] == rest[i];
      assert !Clash(accounts[j], accounts[n]);
    }
  }

  lemma UniqueOneMore(accounts: seq<Account>, a: Account)
    requires Unique(accounts) && Clear(accounts, a)
    ensures Unique(accounts + [a])
  {
  }

  /** Whatever an operation saves is a valid catalogue of the next revision. */
  lemma EditedValid(c: Catalog, e: Edit)
    requires ValidCatalog(c) && (e.Add? ==> ValidSlot(e.slot))
    ensures Edited(c, e).Some? ==> ValidCatalog(Edited(c, e).value) && Edited(c, e).value.revision == c.revision + 1
  {
    if Edited(c, e).Some? {
      var next := Edited(c, e).value;
      match e {
        case Add(slot) =>
          assert next.accounts[|c.accounts|].slot == slot;
          UniqueAdded(c.accounts, slot);
        case Select(slot) =>
        case Remove =>
          KeptValid(c, c.active.value);
          if next.accounts != [] {
            assert next.accounts[0].slot == next.active.value;
          }
        case Identify(slot, id) =>
          var d := Duplicate(c.accounts, slot, id);
          if d < |c.accounts| {
            KeptValid(c, slot);
            assert c.accounts[d] in next.accounts;
          } else {
            IdentifiedValid(c, slot, id);
          }
      }
    }
  }

  lemma UniqueAdded(accounts: seq<Account>, slot: string)
    requires Unique(accounts) && !HasSlot(accounts, slot)
    ensures Unique(accounts + [Account(slot, None)])
  {
  }

  lemma KeptValid(c: Catalog, slot: string)
    requires ValidCatalog(c)
    ensures Unique(WithoutSlot(c.accounts, slot))
    ensures forall i :: 0 <= i < |WithoutSlot(c.accounts, slot)| ==> ValidAccount(WithoutSlot(c.accounts, slot)[i])
  {
    WithoutUnique(c.accounts, slot);
    var rest := WithoutSlot(c.accounts, slot);
    forall i | 0 <= i < |rest|
      ensures ValidAccount(rest[i])
    {
      assert rest[i] in c.accounts;
    }
  }

  lemma IdentifiedValid(c: Catalog, slot: string, id: string)
    requires ValidCatalog(c) && ValidId(id) && Duplicate(c.accounts, slot, id) == |c.accounts|
    ensures var marked := WithId(c.accounts, slot, id);
            Unique(marked) && (c.active.Some? ==> HasSlot(marked, c.active.value)) &&
            forall i :: 0 <= i < |marked| ==> ValidAccount(marked[i])
  {
    var marked := WithId(c.accounts, slot, id);
    assert forall i :: 0 <= i < |marked| ==> marked[i].slot == c.accounts[i].slot;
    forall i, j | 0 <= i < j < |marked|
      ensures !Clash(marked[i], marked[j])
    {
      assert !Clash(c.accounts[i], c.accounts[j]);
    }
    if c.active.Some? {
      var i :| 0 <= i < |c.accounts| && c.accounts[i].slot == c.active.value;
      assert marked[i].slot == c.active.value;
    }
  }

  lemma RolledBackValid(c: Catalog, slot: string)
    requires ValidCatalog(c) && ValidSlot(slot) && Edited(c, Add(slot)).Some?
    ensures var back := RolledBack(Edited(c, Add(slot)).value, c.active);
            back.Some? ==> ValidCatalog(back.value) && back.value.revision == c.revision + 2
  {
    EditedValid(c, Add(slot));
    if c.active.Some? {
      var i :| 0 <= i < |c.accounts| && c.accounts[i].slot == c.active.value;
      assert (c.accounts + [Account(slot, None)])[i].slot == c.active.value;
    }
  }

  /** No account is lost by an edit except the one it removes: slots and identifiers of the others stay. */
  lemma OthersKept(c: Catalog, e: Edit, a: Account)
    requires Edited(c, e).Some? && a in c.accounts
    requires e.Remove? ==> Some(a.slot) != c.active
    requires e.Identify? ==> a.slot != e.slot
    ensures a in Edited(c, e).value.accounts
  {
    if e.Identify? && Duplicate(c.accounts, e.slot, e.id) == |c.accounts| {
      var i :| 0 <= i < |c.accounts| && c.accounts[i] == a;
      assert WithId(c.accounts, e.slot, e.id)[i] == a;
    }
  }
}
