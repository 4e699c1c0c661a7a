/** Retention pruning of clients/core/src/retention.ts: one pass over messages, chats, media rows and the
    ownership index, whose changes are written in one batch. */
module Retention {
  import opened Results

  datatype Key = Num(n: int) | Name(s: string)

  /** A cached row; `own` are the file ids it names directly, `parts` its files and attachments. */
  datatype Row = Row(
    chatId: Option<int>, id: Option<int>, createdAt: Option<nat>, updatedAt: Option<nat>, cachedAt: Option<nat>,
    own: set<int>, parts: seq<Row>, lastId: Option<int>, last: Option<Row>, draft: Option<string>)

  datatype Mode = Forever | Limited(seconds: nat) | CloudOnly

  /** The three collections, the file rows, and the ownership index from file ids to chats. */
  datatype Store = Store(messages: map<Key, Row>, chats: map<Key, Row>, media: map<Key, int>, files: set<Key>, owners: map<int, seq<int>>)

  /** The policy, the time, and the chat to prune if only one is. */
  datatype Policy = Policy(overall: Mode, chats: map<int, Mode>, now: int, only: Option<int>)

  predicate IsPolicy(p: Policy) {
    !p.overall.CloudOnly?
  }

  function EffectiveMode(p: Policy, chat: int): Mode {
    if chat in p.chats then p.chats[chat] else p.overall
  }

  predicate Targets(p: Policy, chat: int) {
    p.only.None? || p.only.value == chat
  }

  // ---- rows ----

  function FileIds(r: Row): set<int>
    decreases r, 1
  {
    r.own + PartFiles(r.parts) + (if r.last.Some? then FileIds(r.last.value) else {})
  }

  function PartFiles(rows: seq<Row>): set<int>
    decreases rows, 0
  {
    if rows == [] then {} else FileIds(rows[0]) + PartFiles(rows[1..])
  }

  function FirstOf(a: Option<nat>, b: Option<nat>, c: Option<nat>): nat {
    if a.Some? then a.value else if b.Some? then b.value else if c.Some? then c.value else 0
  }

  function Timestamp(r: Row): nat {
    FirstOf(r.createdAt, r.updatedAt, r.cachedAt)
  }

  function ActivityTimestamp(r: Row): nat {
    if r.updatedAt.Some? then r.updatedAt.value
    else if r.last.Some? && Timestamp(r.last.value) > 0 then Timestamp(r.last.value)
    else FirstOf(r.createdAt, r.cachedAt, None)
  }

  function MessageChat(r: Row): Option<int> {
    if r.chatId.Some? then r.chatId else r.id
  }

  function ChatOf(key: Key, r: Row): Option<int> {
    if r.chatId.Some? then r.chatId else if key.Num? then Some(key.n) else r.id
  }

  predicate Before(p: Policy, chat: int, at: int) {
    match EffectiveMode(p, chat)
    case Forever => false
    case Limited(s) => at < p.now - s
    case CloudOnly => false
  }

  predicate KeepsAt(p: Policy, chat: int, at: int) {
    !EffectiveMode(p, chat).CloudOnly? && !Before(p, chat, at)
  }

  // ---- what happens to each row ----

  predicate DropsMessage(p: Policy, r: Row) {
    MessageChat(r).Some? && Targets(p, MessageChat(r).value) && !KeepsAt(p, MessageChat(r).value, Timestamp(r))
  }

  predicate Remains(p: Policy, r: Row, chat: int) {
    MessageChat(r) == Some(chat) && Targets(p, chat) && KeepsAt(p, chat, Timestamp(r))
  }

  ghost predicate HasRemaining(p: Policy, messages: map<Key, Row>, chat: int) {
    exists k :: k in messages && Remains(p, messages[k], chat)
  }

  function RemovedIds(p: Policy, messages: map<Key, Row>): set<int> {
    set k | k in messages && k.Num? && DropsMessage(p, messages[k]) :: k.n
  }

  predicate InScope(p: Policy, key: Key, r: Row) {
    ChatOf(key, r).Some? && Targets(p, ChatOf(key, r).value)
  }

  ghost predicate DropsChat(p: Policy, messages: map<Key, Row>, key: Key, r: Row) {
    InScope(p, key, r) &&
    var chat := ChatOf(key, r).value;
    EffectiveMode(p, chat).CloudOnly? || (Before(p, chat, ActivityTimestamp(r)) && !HasRemaining(p, messages, chat))
  }

  /** A chat that pointed at a removed message points at the newest remaining one, or at none. */
  ghost predicate Repointed(p: Policy, messages: map<Key, Row>, chat: int, r: Row, next: Row) {
    var draft := if Before(p, chat, ActivityTimestamp(r)) then None else r.draft;
    if exists k :: k in messages && Remains(p, messages[k], chat) && messages[k].id.Some?
    then
      exists k :: k in messages && Remains(p, messages[k], chat) && messages[k].id.Some?
        && (forall j :: j in messages && Remains(p, messages[j], chat) && messages[j].id.Some? ==> messages[j].id.value <= messages[k].id.value)
        && next == r.(lastId := messages[k].id, last := Some(messages[k]), updatedAt := Some(Timestamp(messages[k])), draft := draft)
    else next == r.(lastId := None, last := None, draft := draft)
  }

  ghost predicate NextChat(p: Policy, messages: map<Key, Row>, key: Key, r: Row, next: Row) {
    if InScope(p, key, r) && r.lastId.Some? && r.lastId.value in RemovedIds(p, messages)
    then Repointed(p, messages, ChatOf(key, r).value, r, next)
    else next == r
  }

  /** What the media pass decides for a blob. */
  datatype Verdict = Verdict(owners: seq<int>, retain: bool, remove: bool)

  function Owners(s: Store, file: int): seq<int> {
    if file in s.owners then s.owners[file] else []
  }

  function Keeping(p: Policy, owners: seq<int>, at: int): seq<int> {
    if owners == [] then []
    else Keeping(p, owners[..|owners| - 1], at) + (if KeepsAt(p, owners[|owners| - 1], at) then [owners[|owners| - 1]] else [])
  }

  function Without(owners: seq<int>, chat: int): seq<int> {
    if owners == [] then []
    else Without(owners[..|owners| - 1], chat) + (if owners[|owners| - 1] != chat then [owners[|owners| - 1]] else [])
  }

  function MediaVerdict(p: Policy, owners: seq<int>, at: int): Verdict {
    if p.only.Some? then
      var chat := p.only.value;
      if owners == [] then Verdict([], false, EffectiveMode(p, chat).CloudOnly?)
      else if chat !in owners || KeepsAt(p, chat, at) then Verdict(owners, true, false)
      else
        var next := Without(owners, chat);
        Verdict(next, next != [], next == [])
    else if owners == [] then
      var aged := p.overall.Limited? && at < p.now - p.overall.seconds;
      Verdict([], !aged, aged)
    else
      var next := Keeping(p, owners, at);
      Verdict(next, next != [], next == [])
  }

  predicate IsBlob(key: Key) {
    key.Num? && key.n > 0
  }

  // ---- the two sets of files ----

  ghost function FilesRemoved(p: Policy, s: Store): set<int> {
    (set k, f | k in s.messages && DropsMessage(p, s.messages[k]) && f in FileIds(s.messages[k]) :: f) +
    (set k, f | k in s.chats && DropsChat(p, s.messages, k, s.chats[k]) && f in FileIds(s.chats[k]) :: f) +
    (set k | k in s.media && IsBlob(k) && MediaVerdict(p, Owners(s, k.n), s.media[k]).remove :: k.n)
  }

  ghost function FilesRetained(p: Policy, s: Store, chats: map<Key, Row>): set<int> {
    (set k, f | k in s.messages && MessageChat(s.messages[k]).Some? && !DropsMessage(p, s.messages[k]) && f in FileIds(s.messages[k]) :: f) +
    (set k, f | k in chats && f in FileIds(chats[k]) :: f) +
    (set k | k in s.media && IsBlob(k) && MediaVerdict(p, Owners(s, k.n), s.media[k]).retain :: k.n)
  }

  ghost function Deleted(p: Policy, s: Store, chats: map<Key, Row>): set<int> {
    FilesRemoved(p, s) - FilesRetained(p, s, chats)
  }

  predicate Owned(p: Policy, s: Store, file: int) {
    Num(file) in s.media && (IsBlob(Num(file)) ==> MediaVerdict(p, Owners(s, file), s.media[Num(file)]).owners != []) && IsBlob(Num(file))
  }

  /** The store after a prune. */
  ghost predicate Pruned(p: Policy, s: Store, s': Store) {
    && (forall k :: k in s'.messages <==> k in s.messages && !DropsMessage(p, s.messages[k]))
    && (forall k :: k in s'.messages ==> s'.messages[k] == s.messages[k])
    && (forall k :: k in s'.chats <==> k in s.chats && !DropsChat(p, s.messages, k, s.chats[k]))
    && (forall k :: k in s'.chats ==> NextChat(p, s.messages, k, s.chats[k], s'.chats[k]))
    && (var gone := Deleted(p, s, s'.chats);
        && (forall k :: k in s'.media <==> k in s.media && !(k.Num? && k.n in gone))
        && (forall k :: k in s'.media ==> s'.media[k] == s.media[k])
        && (forall k :: k in s'.files <==> k in s.files && !(k.Num? && k.n in gone))
        && (forall f :: f in s'.owners <==> f in s.owners && Owned(p, s, f) && f !in gone)
        && (forall f :: f in s'.owners ==> s'.owners[f] == MediaVerdict(p, Owners(s, f), s.media[Num(f)]).owners))
  }

  // ---- what a prune guarantees ----

  /** After a full prune no message of a cloud-only chat, and none from before its chat's cutoff, is left. */
  lemma NoExpiredMessages(p: Policy, s: Store, s': Store, k: Key)
    requires Pruned(p, s, s') && p.only.None? && k in s'.messages && MessageChat(s'.messages[k]).Some?
    ensures var chat := MessageChat(s'.messages[k]).value;
            && EffectiveMode(p, chat) != CloudOnly
            && (EffectiveMode(p, chat).Limited? ==> Timestamp(s'.messages[k]) >= p.now - EffectiveMode(p, chat).seconds)
  {
  }

  /** No chat row of a cloud-only chat is left. */
  lemma NoCloudOnlyChats(p: Policy, s: Store, s': Store, k: Key)
    requires Pruned(p, s, s') && p.only.None? && k in s'.chats && ChatOf(k, s.chats[k]).Some?
    ensures EffectiveMode(p, ChatOf(k, s.chats[k]).value) != CloudOnly
  {
  }

  /** A row that goes reaches the file, or the age of its own blob removes it. */
  ghost predicate Collected(p: Policy, s: Store, f: int) {
    || (exists k :: k in s.messages && DropsMessage(p, s.messages[k]) && f in FileIds(s.messages[k]))
    || (exists k :: k in s.chats && DropsChat(p, s.messages, k, s.chats[k]) && f in FileIds(s.chats[k]))
    || (Num(f) in s.media && IsBlob(Num(f)) && MediaVerdict(p, Owners(s, f), s.media[Num(f)]).remove)
  }

  /** A row that is left reaches the file: a chat row, or a message row that names its chat or itself. */
  ghost predicate Reached(s: Store, f: int) {
    || (exists k :: k in s.messages && MessageChat(s.messages[k]).Some? && f in FileIds(s.messages[k]))
    || (exists k :: k in s.chats && f in FileIds(s.chats[k]))
  }

  predicate BlobStays(p: Policy, s: Store, f: int) {
    Num(f) in s.media && IsBlob(Num(f)) && MediaVerdict(p, Owners(s, f), s.media[Num(f)]).retain
  }

  /** A file loses its blob and its record exactly when it is collected, no row that is left reaches it under a name,
      and the age of its blob does not hold it. */
  lemma FileLostIff(p: Policy, s: Store, s': Store, f: int)
    requires Pruned(p, s, s')
    ensures var lost := Collected(p, s, f) && !Reached(s', f) && !BlobStays(p, s, f);
            && (Num(f) in s'.media <==> Num(f) in s.media && !lost)
            && (Num(f) in s'.files <==> Num(f) in s.files && !lost)
  {
    CollectedIs(p, s, f);
    ReachedIs(p, s, s', f);
    hide Collected;
    hide Reached;
    hide BlobStays;
    hide FilesRemoved;
    hide FilesRetained;
  }

  lemma CollectedIs(p: Policy, s: Store, f: int)
    ensures f in FilesRemoved(p, s) <==> Collected(p, s, f)
  {
    hide DropsMessage;
    hide DropsChat;
    hide FileIds;
    hide MediaVerdict;
  }

  lemma ReachedIs(p: Policy, s: Store, s': Store, f: int)
    requires Pruned(p, s, s')
    ensures f in FilesRetained(p, s, s'.chats) <==> Reached(s', f) || BlobStays(p, s, f)
  {
    assert forall k :: k in s'.messages <==> k in s.messages && !DropsMessage(p, s.messages[k]);
    assert forall k :: k in s'.messages ==> s'.messages[k] == s.messages[k];
    hide Pruned;
    hide DropsMessage;
    hide FileIds;
    hide MediaVerdict;
    hide MessageChat;
  }

  /** So every file that a row which is left reaches under a name keeps its blob and its record. */
  lemma ReachableFilesStay(p: Policy, s: Store, s': Store, f: int)
    requires Pruned(p, s, s') && Reached(s', f)
    ensures Num(f) in s.media ==> Num(f) in s'.media
    ensures Num(f) in s.files ==> Num(f) in s'.files
  {
    FileLostIff(p, s, s', f);
    hide Pruned;
  }

  /** The exception: the files of a message row that names neither chat nor id are not protected, although the
      row stays. */
  lemma UnnamedRowLosesFile(f: int, now: nat)
    requires f > 0
    ensures var unnamed := Row(None, None, Some(now), None, None, {f}, [], None, None, None);
            var expired := Row(Some(1), Some(7), Some(now), None, None, {f}, [], None, None, None);
            var s := Store(map[Num(7) := expired, Num(8) := unnamed], map[], map[], {Num(f)}, map[]);
            var p := Policy(Forever, map[1 := CloudOnly], now, None);
            forall s' :: Pruned(p, s, s') ==> Num(8) in s'.messages && f in FileIds(s'.messages[Num(8)]) && Num(f) !in s'.files
  {
    var unnamed := Row(None, None, Some(now), None, None, {f}, [], None, None, None);
    var expired := Row(Some(1), Some(7), Some(now), None, None, {f}, [], None, None, None);
    var s := Store(map[Num(7) := expired, Num(8) := unnamed], map[], map[], {Num(f)}, map[]);
    var p := Policy(Forever, map[1 := CloudOnly], now, None);
    forall s' | Pruned(p, s, s')
      ensures Num(8) in s'.messages && f in FileIds(s'.messages[Num(8)]) && Num(f) !in s'.files
    {
      assert DropsMessage(p, s.messages[Num(7)]) && f in FileIds(s.messages[Num(7)]);
      assert f in FilesRemoved(p, s);
      assert f !in FilesRetained(p, s, s'.chats);
    }
  }

  /** Message rows are stored under their own id. */
  predicate KeyedById(messages: map<Key, Row>) {
    forall k :: k in messages && messages[k].id.Some? ==> k == Num(messages[k].id.value)
  }

  predicate Dangling(s: Store, s': Store, k: Key)
    requires k in s'.chats
  {
    var last := s'.chats[k].lastId;
    last.Some? && Num(last.value) in s.messages && Num(last.value) !in s'.messages
  }

  /** A surviving chat points at a message that this prune removed exactly when it did so before and the pass over the
      chats has skipped it, because its row names no chat or not the one to prune. */
  lemma DanglingIff(p: Policy, s: Store, s': Store, k: Key)
    requires Pruned(p, s, s') && KeyedById(s.messages) && k in s'.chats
    ensures Dangling(s, s', k) <==>
      s.chats[k].lastId.Some? && s.chats[k].lastId.value in RemovedIds(p, s.messages) && !InScope(p, k, s.chats[k])
  {
    var r, next := s.chats[k], s'.chats[k];
    assert NextChat(p, s.messages, k, r, next);
    if next.lastId.Some? {
      RemovedIs(p, s, s', next.lastId.value);
    }
    if r.lastId.Some? && r.lastId.value in RemovedIds(p, s.messages) && InScope(p, k, r) {
      RepointedStays(p, s, s', ChatOf(k, r).value, r, next);
    }
    hide Pruned;
    hide RemovedIds;
    hide Repointed;
    hide InScope;
  }

  lemma RemovedIs(p: Policy, s: Store, s': Store, n: int)
    requires Pruned(p, s, s')
    ensures n in RemovedIds(p, s.messages) <==> Num(n) in s.messages && Num(n) !in s'.messages
  {
    hide DropsMessage;
  }

  lemma RepointedStays(p: Policy, s: Store, s': Store, chat: int, r: Row, next: Row)
    requires Pruned(p, s, s') && KeyedById(s.messages) && Repointed(p, s.messages, chat, r, next)
    ensures next.lastId.Some? ==> Num(next.lastId.value) in s'.messages
  {
    if next.lastId.Some? {
      var j :| j in s.messages && Remains(p, s.messages[j], chat) && s.messages[j].id == next.lastId;
      assert j == Num(next.lastId.value);
    }
  }

  /** So none does after a full prune, if its row names a chat. */
  lemma NoDanglingPointer(p: Policy, s: Store, s': Store, k: Key)
    requires Pruned(p, s, s') && p.only.None? && KeyedById(s.messages)
    requires k in s'.chats && ChatOf(k, s.chats[k]).Some?
    ensures !Dangling(s, s', k)
  {
    DanglingIff(p, s, s', k);
    hide Pruned;
  }

  /** Every entry of the ownership index has its blob, and somebody to own it. */
  lemma IndexHasBlobs(p: Policy, s: Store, s': Store, f: int)
    requires Pruned(p, s, s') && f in s'.owners
    ensures Num(f) in s'.media && s'.owners[f] != []
  {
  }

  /** Pruning one chat leaves the messages and the chat rows of every other chat as they are. */
  lemma OtherChatsUntouched(p: Policy, s: Store, s': Store, k: Key)
    requires Pruned(p, s, s') && p.only.Some?
    ensures k in s.messages && MessageChat(s.messages[k]) != p.only ==> k in s'.messages && s'.messages[k] == s.messages[k]
    ensures k in s.chats && ChatOf(k, s.chats[k]) != p.only ==> k in s'.chats && s'.chats[k] == s.chats[k]
  {
    if k in s.chats && ChatOf(k, s.chats[k]) != p.only {
      assert !InScope(p, k, s.chats[k]);
      assert k in s'.chats ==> NextChat(p, s.messages, k, s.chats[k], s'.chats[k]);
    }
  }
}
