/** The pass itself: the loops of prune() in clients/core/src/retention.ts over the cached collections. */
module Pruning {
  import opened Results
  import opened Retention

  // ---- messages ----

  ghost predicate DropsFile(p: Policy, messages: map<Key, Row>, done: set<Key>, f: int) {
    exists k :: k in done && k in messages && DropsMessage(p, messages[k]) && f in FileIds(messages[k])
  }

  ghost predicate KeepsFile(p: Policy, messages: map<Key, Row>, done: set<Key>, f: int) {
    exists k :: k in done && k in messages && MessageChat(messages[k]).Some? && !DropsMessage(p, messages[k]) && f in FileIds(messages[k])
  }

  ghost predicate RemainsIn(p: Policy, messages: map<Key, Row>, done: set<Key>, chat: int, r: Row) {
    exists k :: k in done && k in messages && messages[k] == r && Remains(p, r, chat)
  }

  function RemainingOf(remaining: map<int, seq<Row>>, chat: int): seq<Row> {
    if chat in remaining then remaining[chat] else []
  }

  datatype MessageScan = MessageScan(
    deleted: set<Key>, removedIds: set<int>, removedFiles: set<int>, retainedFiles: set<int>, remaining: map<int, seq<Row>>)

  ghost predicate Scanned(p: Policy, messages: map<Key, Row>, done: set<Key>, t: MessageScan) {
    && (forall k :: k in t.deleted <==> k in done && k in messages && DropsMessage(p, messages[k]))
    && (forall n :: n in t.removedIds <==> Num(n) in t.deleted)
    && (forall f :: f in t.removedFiles <==> DropsFile(p, messages, done, f))
    && (forall f :: f in t.retainedFiles <==> KeepsFile(p, messages, done, f))
    && (forall chat, r :: r in RemainingOf(t.remaining, chat) <==> RemainsIn(p, messages, done, chat, r))
  }

  function ScanMessage(p: Policy, key: Key, r: Row, t: MessageScan): MessageScan {
    var chat := MessageChat(r);
    if chat.None? then t
    else if !Targets(p, chat.value) then t.(retainedFiles := t.retainedFiles + FileIds(r))
    else if !KeepsAt(p, chat.value, Timestamp(r)) then
      t.(deleted := t.deleted + {key}, removedIds := t.removedIds + (if key.Num? then {key.n} else {}), removedFiles := t.removedFiles + FileIds(r))
    else
      t.(remaining := t.remaining[chat.value := RemainingOf(t.remaining, chat.value) + [r]], retainedFiles := t.retainedFiles + FileIds(r))
  }

  lemma ScanFiles(p: Policy, messages: map<Key, Row>, done: set<Key>, key: Key, f: int)
    requires key in messages && key !in done
    ensures DropsFile(p, messages, done + {key}, f) <==>
      DropsFile(p, messages, done, f) || (DropsMessage(p, messages[key]) && f in FileIds(messages[key]))
    ensures KeepsFile(p, messages, done + {key}, f) <==>
      KeepsFile(p, messages, done, f) || (MessageChat(messages[key]).Some? && !DropsMessage(p, messages[key]) && f in FileIds(messages[key]))
  {
    hide DropsMessage;
    hide FileIds;
    hide MessageChat;
  }

  lemma ScanRemaining(p: Policy, messages: map<Key, Row>, done: set<Key>, key: Key, chat: int, r: Row)
    requires key in messages && key !in done
    ensures RemainsIn(p, messages, done + {key}, chat, r) <==>
      RemainsIn(p, messages, done, chat, r) || (r == messages[key] && Remains(p, r, chat))
  {
    hide Remains;
  }

  lemma ScanStep(p: Policy, messages: map<Key, Row>, done: set<Key>, key: Key, t: MessageScan)
    requires key in messages && key !in done && Scanned(p, messages, done, t)
    ensures Scanned(p, messages, done + {key}, ScanMessage(p, key, messages[key], t))
  {
    var r := messages[key];
    forall f
      ensures DropsFile(p, messages, done + {key}, f) <==> DropsFile(p, messages, done, f) || (DropsMessage(p, r) && f in FileIds(r))
      ensures KeepsFile(p, messages, done + {key}, f) <==>
        KeepsFile(p, messages, done, f) || (MessageChat(r).Some? && !DropsMessage(p, r) && f in FileIds(r))
    {
      ScanFiles(p, messages, done, key, f);
    }
    forall chat, r'
      ensures RemainsIn(p, messages, done + {key}, chat, r') <==> RemainsIn(p, messages, done, chat, r') || (r' == r && Remains(p, r', chat))
    {
      ScanRemaining(p, messages, done, key, chat, r');
    }
    hide DropsFile;
    hide KeepsFile;
    hide RemainsIn;
    hide FileIds;
    hide KeepsAt;
  }

  method ScanMessages(p: Policy, messages: map<Key, Row>) returns (t: MessageScan)
    ensures Scanned(p, messages, messages.Keys, t)
  {
    hide Scanned;
    t := MessageScan({}, {}, {}, {}, map[]);
    ScanNothing(p, messages);
    var left := messages.Keys;
    ghost var done: set<Key> := {};
    while left != {}
      invariant done + left == messages.Keys && done !! left
      invariant Scanned(p, messages, done, t)
      decreases |left|
    {
      var key :| key in left;
      left := left - {key};
      ScanStep(p, messages, done, key, t);
      done := done + {key};
      t := ScanMessage(p, key, messages[key], t);
    }
    assert done == messages.Keys;
  }

  lemma ScanNothing(p: Policy, messages: map<Key, Row>)
    ensures Scanned(p, messages, {}, MessageScan({}, {}, {}, {}, map[]))
  {
  }

  // ---- chats ----

  /** A row with the highest id among those that have one. */
  method NewestMessage(rows: seq<Row>) returns (newest: Option<Row>)
    ensures newest.None? <==> forall r :: r in rows ==> r.id.None?
    ensures newest.Some? ==> newest.value in rows && newest.value.id.Some?
    ensures newest.Some? ==> forall r :: r in rows && r.id.Some? ==> r.id.value <= newest.value.id.value
  {
    newest := None;
    for k := 0 to |rows|
      invariant newest.None? <==> forall r :: r in rows[..k] ==> r.id.None?
      invariant newest.Some? ==> newest.value in rows && newest.value.id.Some?
      invariant newest.Some? ==> forall r :: r in rows[..k] && r.id.Some? ==> r.id.value <= newest.value.id.value
    {
      var row := rows[k];
      assert rows[..k + 1] == rows[..k] + [row];
      if row.id.Some? {
        if newest.None? || row.id.value > newest.value.id.value {
          newest := Some(row);
        }
      }
    }
    assert rows[..|rows|] == rows;
  }

  /** The fate of one chat row: None when it goes. */
  method ScanChat(p: Policy, messages: map<Key, Row>, t: MessageScan, key: Key, r: Row) returns (next: Option<Row>)
    requires Scanned(p, messages, messages.Keys, t)
    ensures next.None? <==> DropsChat(p, messages, key, r)
    ensures next.Some? ==> NextChat(p, messages, key, r, next.value)
  {
    hide DropsFile;
    hide KeepsFile;
    hide FileIds;
    hide ActivityTimestamp;
    hide Timestamp;
    var chat := ChatOf(key, r);
    if chat.None? || !Targets(p, chat.value) {
      return Some(r);
    }
    if EffectiveMode(p, chat.value).CloudOnly? {
      return None;
    }
    var remaining := RemainingOf(t.remaining, chat.value);
    RemainingAre(p, messages, t, chat.value);
    var expired := Before(p, chat.value, ActivityTimestamp(r));
    if expired && remaining == [] {
      return None;
    }
    assert HasRemaining(p, messages, chat.value) || !expired;
    RemovedAre(p, messages, t);
    if r.lastId.Some? && r.lastId.value in t.removedIds {
      var repointed := Repoint(p, messages, chat.value, r, remaining, expired);
      next := Some(repointed);
    } else {
      next := Some(r);
    }
  }

  lemma RemainingAre(p: Policy, messages: map<Key, Row>, t: MessageScan, chat: int)
    requires Scanned(p, messages, messages.Keys, t)
    ensures forall r :: r in RemainingOf(t.remaining, chat) <==> exists k :: k in messages && messages[k] == r && Remains(p, r, chat)
    ensures RemainingOf(t.remaining, chat) == [] <==> !HasRemaining(p, messages, chat)
  {
    hide Remains;
    hide DropsFile;
    hide KeepsFile;
    forall r ensures r in RemainingOf(t.remaining, chat) <==> exists k :: k in messages && messages[k] == r && Remains(p, r, chat) {
      assert r in RemainingOf(t.remaining, chat) <==> RemainsIn(p, messages, messages.Keys, chat, r);
    }
    if RemainingOf(t.remaining, chat) != [] {
      assert RemainingOf(t.remaining, chat)[0] in RemainingOf(t.remaining, chat);
    }
  }

  lemma RemovedAre(p: Policy, messages: map<Key, Row>, t: MessageScan)
    requires Scanned(p, messages, messages.Keys, t)
    ensures t.removedIds == RemovedIds(p, messages)
  {
    hide DropsMessage;
    hide DropsFile;
    hide KeepsFile;
    hide RemainsIn;
    forall n ensures n in t.removedIds <==> n in RemovedIds(p, messages) {
      assert n in t.removedIds <==> Num(n) in t.deleted;
      if Num(n) in t.deleted { assert Num(n).n in RemovedIds(p, messages); }
    }
  }

  method Repoint(p: Policy, messages: map<Key, Row>, chat: int, r: Row, remaining: seq<Row>, expired: bool) returns (next: Row)
    requires forall m :: m in remaining <==> exists k :: k in messages && messages[k] == m && Remains(p, m, chat)
    requires expired == Before(p, chat, ActivityTimestamp(r))
    ensures Repointed(p, messages, chat, r, next)
  {
    hide Remains;
    hide Before;
    hide ActivityTimestamp;
    hide Timestamp;
    var newest := NewestMessage(remaining);
    forall k | k in messages && Remains(p, messages[k], chat) ensures messages[k] in remaining { }
    if newest.Some? {
      next := r.(lastId := newest.value.id, last := newest, updatedAt := Some(Timestamp(newest.value)));
      var k :| k in messages && messages[k] == newest.value && Remains(p, newest.value, chat);
      if expired {
        next := next.(draft := None);
      }
      assert next == r.(lastId := messages[k].id, last := Some(messages[k]), updatedAt := Some(Timestamp(messages[k])),
        draft := if expired then None else r.draft);
    } else {
      next := r.(lastId := None, last := None);
      if expired {
        next := next.(draft := None);
      }
    }
  }

  datatype ChatScan = ChatScan(chats: map<Key, Row>, removedFiles: set<int>, retainedFiles: set<int>)

  ghost predicate ChatDropsFile(p: Policy, s: Store, done: set<Key>, f: int) {
    exists k :: k in done && k in s.chats && DropsChat(p, s.messages, k, s.chats[k]) && f in FileIds(s.chats[k])
  }

  ghost predicate InRows(rows: map<Key, Row>, f: int) {
    exists k :: k in rows && f in FileIds(rows[k])
  }

  ghost predicate ChatsScanned(p: Policy, s: Store, done: set<Key>, u: ChatScan) {
    && (forall k :: k in u.chats <==> k in done && k in s.chats && !DropsChat(p, s.messages, k, s.chats[k]))
    && (forall k :: k in u.chats ==> NextChat(p, s.messages, k, s.chats[k], u.chats[k]))
    && (forall f :: f in u.removedFiles <==> ChatDropsFile(p, s, done, f))
    && (forall f :: f in u.retainedFiles <==> InRows(u.chats, f))
  }

  lemma ChatStep(p: Policy, s: Store, done: set<Key>, key: Key, next: Option<Row>, u: ChatScan)
    requires key in s.chats && key !in done && ChatsScanned(p, s, done, u)
    requires next.None? <==> DropsChat(p, s.messages, key, s.chats[key])
    requires next.Some? ==> NextChat(p, s.messages, key, s.chats[key], next.value)
    ensures ChatsScanned(p, s, done + {key},
      if next.None? then u.(removedFiles := u.removedFiles + FileIds(s.chats[key]))
      else u.(chats := u.chats[key := next.value], retainedFiles := u.retainedFiles + FileIds(next.value)))
  {
    hide DropsChat;
    hide NextChat;
    hide FileIds;
    var r := s.chats[key];
    forall f
      ensures ChatDropsFile(p, s, done + {key}, f) <==> ChatDropsFile(p, s, done, f) || (DropsChat(p, s.messages, key, r) && f in FileIds(r))
    {
    }
    if next.Some? {
      assert key !in u.chats;
      forall f
        ensures InRows(u.chats[key := next.value], f) <==> InRows(u.chats, f) || f in FileIds(next.value)
      {
        RowsPlus(u.chats, key, next.value, f);
      }
    }
    hide ChatDropsFile;
    hide InRows;
  }

  lemma RowsPlus(rows: map<Key, Row>, key: Key, r: Row, f: int)
    requires key !in rows
    ensures InRows(rows[key := r], f) <==> InRows(rows, f) || f in FileIds(r)
  {
    hide FileIds;
    var rows' := rows[key := r];
    assert rows'[key] == r;
    if InRows(rows, f) {
      var k :| k in rows && f in FileIds(rows[k]);
      assert k in rows' && rows'[k] == rows[k];
    }
  }

  method ScanChats(p: Policy, s: Store, t: MessageScan) returns (u: ChatScan)
    requires Scanned(p, s.messages, s.messages.Keys, t)
    ensures ChatsScanned(p, s, s.chats.Keys, u)
  {
    hide Scanned;
    NoChats(p, s);
    hide ChatsScanned;
    hide DropsChat;
    hide NextChat;
    u := ChatScan(map[], {}, {});
    var left := s.chats.Keys;
    ghost var done: set<Key> := {};
    while left != {}
      invariant done + left == s.chats.Keys && done !! left
      invariant ChatsScanned(p, s, done, u)
      decreases |left|
    {
      var key :| key in left;
      left := left - {key};
      var next := ScanChat(p, s.messages, t, key, s.chats[key]);
      ChatStep(p, s, done, key, next, u);
      done := done + {key};
      u := if next.None? then u.(removedFiles := u.removedFiles + FileIds(s.chats[key]))
           else u.(chats := u.chats[key := next.value], retainedFiles := u.retainedFiles + FileIds(next.value));
    }
    assert done == s.chats.Keys;
  }

  lemma NoChats(p: Policy, s: Store)
    ensures ChatsScanned(p, s, {}, ChatScan(map[], {}, {}))
  {
  }

  // ---- media ----

  datatype MediaScan = MediaScan(owners: map<int, seq<int>>, removedFiles: set<int>, retainedFiles: set<int>)

  function VerdictOf(p: Policy, s: Store, file: int): Verdict
    requires Num(file) in s.media
  {
    MediaVerdict(p, Owners(s, file), s.media[Num(file)])
  }

  predicate Seen(s: Store, done: set<Key>, f: int) {
    Num(f) in done && Num(f) in s.media && IsBlob(Num(f))
  }

  ghost predicate OwnersScanned(p: Policy, s: Store, done: set<Key>, owners: map<int, seq<int>>) {
    && (forall f :: f in owners <==> f in s.owners && !(Seen(s, done, f) && VerdictOf(p, s, f).owners == []))
    && (forall f :: f in owners ==> owners[f] == if Seen(s, done, f) then VerdictOf(p, s, f).owners else s.owners[f])
  }

  ghost predicate MediaScanned(p: Policy, s: Store, done: set<Key>, v: MediaScan) {
    && OwnersScanned(p, s, done, v.owners)
    && (forall f :: f in v.removedFiles <==> Seen(s, done, f) && VerdictOf(p, s, f).remove)
    && (forall f :: f in v.retainedFiles <==> Seen(s, done, f) && VerdictOf(p, s, f).retain)
  }

  function ScanBlob(p: Policy, s: Store, file: int, v: MediaScan): MediaScan
    requires Num(file) in s.media
  {
    var verdict := VerdictOf(p, s, file);
    MediaScan(
      if file !in v.owners then v.owners else if verdict.owners == [] then v.owners - {file} else v.owners[file := verdict.owners],
      v.removedFiles + (if verdict.remove then {file} else {}),
      v.retainedFiles + (if verdict.retain then {file} else {}))
  }

  /** The index has no empty lists of owners. */
  predicate ProperIndex(s: Store) {
    forall f :: f in s.owners ==> s.owners[f] != []
  }

  method ScanMedia(p: Policy, s: Store) returns (v: MediaScan)
    requires ProperIndex(s)
    ensures MediaScanned(p, s, s.media.Keys, v)
  {
    NoMedia(p, s);
    hide MediaScanned;
    v := MediaScan(s.owners, {}, {});
    var left := s.media.Keys;
    ghost var done: set<Key> := {};
    while left != {}
      invariant done + left == s.media.Keys && done !! left
      invariant MediaScanned(p, s, done, v)
      decreases |left|
    {
      var key :| key in left;
      left := left - {key};
      MediaStep(p, s, done, key, v);
      if IsBlob(key) {
        v := ScanBlob(p, s, key.n, v);
      }
      done := done + {key};
    }
    assert done == s.media.Keys;
  }

  lemma NoMedia(p: Policy, s: Store)
    ensures MediaScanned(p, s, {}, MediaScan(s.owners, {}, {}))
  {
  }

  lemma MediaStep(p: Policy, s: Store, done: set<Key>, key: Key, v: MediaScan)
    requires ProperIndex(s) && MediaScanned(p, s, done, v) && key in s.media && key !in done
    ensures MediaScanned(p, s, done + {key}, if IsBlob(key) then ScanBlob(p, s, key.n, v) else v)
  {
    hide VerdictOf;
    assert forall f :: Seen(s, done + {key}, f) <==> Seen(s, done, f) || (IsBlob(key) && f == key.n);
    if IsBlob(key) {
      OwnersAfter(p, s, key.n);
      OwnersStep(p, s, done, key.n, v);
    }
    hide Seen;
  }

  lemma OwnersStep(p: Policy, s: Store, done: set<Key>, file: int, v: MediaScan)
    requires OwnersScanned(p, s, done, v.owners) && Num(file) in s.media && IsBlob(Num(file)) && Num(file) !in done
    requires file !in s.owners ==> VerdictOf(p, s, file).owners == []
    requires forall f :: Seen(s, done + {Num(file)}, f) <==> Seen(s, done, f) || f == file
    ensures OwnersScanned(p, s, done + {Num(file)}, ScanBlob(p, s, file, v).owners)
  {
    hide VerdictOf;
    assert !Seen(s, done, file);
  }

  lemma OwnersAfter(p: Policy, s: Store, file: int)
    requires Num(file) in s.media
    ensures file !in s.owners ==> VerdictOf(p, s, file).owners == []
  {
  }

  function Keyed(files: set<int>): (keys: set<Key>)
    ensures forall f :: f in files <==> Num(f) in keys
    ensures forall k :: k in keys <==> k.Num? && k.n in files
  {
    var keys := set f | f in files :: Num(f);
    assert forall k: Key :: k.Num? && k.n in files ==> Num(k.n) in keys;
    keys
  }

  /** Claims whose blob is missing. */
  method DropStale(s: Store, index: map<int, seq<int>>) returns (owners: map<int, seq<int>>)
    ensures forall f :: f in owners <==> f in index && Num(f) in s.media && IsBlob(Num(f))
    ensures forall f :: f in owners ==> owners[f] == index[f]
  {
    owners := index;
    var left := Keyed(index.Keys);
    while left != {}
      invariant left <= Keyed(index.Keys)
      invariant forall f :: f in owners <==> f in index && (Num(f) in left || (Num(f) in s.media && IsBlob(Num(f))))
      invariant forall f :: f in owners ==> owners[f] == index[f]
      decreases |left|
    {
      var key :| key in left;
      left := left - {key};
      if !(key in s.media && IsBlob(key)) {
        owners := owners - {key.n};
      }
    }
  }

  // ---- the batch ----

  class LocalCache {
    var messages: map<Key, Row>
    var chats: map<Key, Row>
    var media: map<Key, int>
    var files: set<Key>
    var owners: map<int, seq<int>>

    constructor (s: Store)
      ensures Model() == s
    {
      messages, chats, media, files, owners := s.messages, s.chats, s.media, s.files, s.owners;
    }

    function Model(): Store
      reads this
    {
      Store(messages, chats, media, files, owners)
    }

    method Prune(p: Policy)
      requires ProperIndex(Model())
      modifies this
      ensures Pruned(p, old(Model()), Model()) && ProperIndex(Model())
    {
      ghost var s := Model();
      var t := ScanMessages(p, messages);
      var u := ScanChats(p, Model(), t);
      var v := ScanMedia(p, Model());
      var index := DropStale(Model(), v.owners);
      var removed := t.removedFiles + u.removedFiles + v.removedFiles;
      var retained := t.retainedFiles + u.retainedFiles + v.retainedFiles;
      RemovedTotal(p, s, t, u, v);
      RetainedTotal(p, s, t, u, v);
      messages := messages - t.deleted;
      chats := u.chats;
      DeleteFiles(removed - retained, index);
      PrunedIs(p, s, Model(), t, u, v, index);
    }

    /** Deletes record, blob and claim of every file. */
    method DeleteFiles(gone: set<int>, index: map<int, seq<int>>)
      modifies this`media, this`files, this`owners
      ensures forall k :: k in media <==> k in old(media) && !(k.Num? && k.n in gone)
      ensures forall k :: k in media ==> media[k] == old(media[k])
      ensures forall k :: k in files <==> k in old(files) && !(k.Num? && k.n in gone)
      ensures forall f :: f in owners <==> f in index && f !in gone
      ensures forall f :: f in owners ==> owners[f] == index[f]
    {
      owners := index;
      var left := Keyed(gone);
      while left != {}
        invariant left <= Keyed(gone)
        invariant forall k :: k in media <==> k in old(media) && !(k in Keyed(gone) && k !in left)
        invariant forall k :: k in media ==> media[k] == old(media[k])
        invariant forall k :: k in files <==> k in old(files) && !(k in Keyed(gone) && k !in left)
        invariant forall f :: f in owners <==> f in index && !(f in gone && Num(f) !in left)
        invariant forall f :: f in owners ==> owners[f] == index[f]
        decreases |left|
      {
        var key :| key in left;
        left := left - {key};
        files := files - {key};
        media := media - {key};
        owners := owners - {key.n};
      }
    }
  }

  lemma RemovedTotal(p: Policy, s: Store, t: MessageScan, u: ChatScan, v: MediaScan)
    requires Scanned(p, s.messages, s.messages.Keys, t) && ChatsScanned(p, s, s.chats.Keys, u) && MediaScanned(p, s, s.media.Keys, v)
    ensures t.removedFiles + u.removedFiles + v.removedFiles == FilesRemoved(p, s)
  {
    hide DropsMessage;
    hide DropsChat;
    hide FileIds;
    hide MediaVerdict;
    hide NextChat;
    var first := set k, f | k in s.messages && DropsMessage(p, s.messages[k]) && f in FileIds(s.messages[k]) :: f;
    var second := set k, f | k in s.chats && DropsChat(p, s.messages, k, s.chats[k]) && f in FileIds(s.chats[k]) :: f;
    forall f ensures f in t.removedFiles <==> f in first {
      assert f in t.removedFiles <==> DropsFile(p, s.messages, s.messages.Keys, f);
    }
    forall f ensures f in u.removedFiles <==> f in second {
      assert f in u.removedFiles <==> ChatDropsFile(p, s, s.chats.Keys, f);
    }
    var blobs := set k | k in s.media && IsBlob(k) && MediaVerdict(p, Owners(s, k.n), s.media[k]).remove :: k.n;
    forall f ensures f in v.removedFiles <==> f in blobs {
      if f in v.removedFiles { assert Num(f).n in blobs; }
    }
  }

  lemma RetainedTotal(p: Policy, s: Store, t: MessageScan, u: ChatScan, v: MediaScan)
    requires Scanned(p, s.messages, s.messages.Keys, t) && ChatsScanned(p, s, s.chats.Keys, u) && MediaScanned(p, s, s.media.Keys, v)
    ensures t.retainedFiles + u.retainedFiles + v.retainedFiles == FilesRetained(p, s, u.chats)
  {
    hide DropsMessage;
    hide DropsChat;
    hide FileIds;
    hide MediaVerdict;
    hide MessageChat;
    hide NextChat;
    var first := set k, f | k in s.messages && MessageChat(s.messages[k]).Some? && !DropsMessage(p, s.messages[k]) && f in FileIds(s.messages[k]) :: f;
    var second := set k, f | k in u.chats && f in FileIds(u.chats[k]) :: f;
    forall f ensures f in t.retainedFiles <==> f in first {
      assert f in t.retainedFiles <==> KeepsFile(p, s.messages, s.messages.Keys, f);
    }
    forall f ensures f in u.retainedFiles <==> f in second {
      assert f in u.retainedFiles <==> InRows(u.chats, f);
    }
    var blobs := set k | k in s.media && IsBlob(k) && MediaVerdict(p, Owners(s, k.n), s.media[k]).retain :: k.n;
    forall f ensures f in v.retainedFiles <==> f in blobs {
      if f in v.retainedFiles { assert Num(f).n in blobs; }
    }
  }

  lemma PrunedIs(p: Policy, s: Store, s': Store, t: MessageScan, u: ChatScan, v: MediaScan, index: map<int, seq<int>>)
    requires Scanned(p, s.messages, s.messages.Keys, t) && ChatsScanned(p, s, s.chats.Keys, u) && MediaScanned(p, s, s.media.Keys, v)
    requires ProperIndex(s)
    requires forall f :: f in index <==> f in v.owners && Num(f) in s.media && IsBlob(Num(f))
    requires forall f :: f in index ==> index[f] == v.owners[f]
    requires s'.messages == s.messages - t.deleted && s'.chats == u.chats
    requires var gone := FilesRemoved(p, s) - FilesRetained(p, s, u.chats);
             && (forall k :: k in s'.media <==> k in s.media && !(k.Num? && k.n in gone))
             && (forall k :: k in s'.media ==> s'.media[k] == s.media[k])
             && (forall k :: k in s'.files <==> k in s.files && !(k.Num? && k.n in gone))
             && (forall f :: f in s'.owners <==> f in index && f !in gone)
             && (forall f :: f in s'.owners ==> s'.owners[f] == index[f])
    ensures Pruned(p, s, s') && ProperIndex(s')
  {
    hide FilesRemoved;
    hide FilesRetained;
    hide DropsMessage;
    hide DropsChat;
    hide NextChat;
    hide MediaVerdict;
    hide DropsFile;
    hide KeepsFile;
    hide RemainsIn;
    hide ChatDropsFile;
    hide InRows;
  }
}
