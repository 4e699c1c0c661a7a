/** What clients/core/src/media_cache.ts keeps: the envelope that hides the content type inside the sealed bytes,
    and the eviction of the least recently used blobs. */
module MediaCacheStore {
  import opened Results
  import opened MediaCrypto

  // ---- the sealed envelope ----

  const MAX_MIME: nat := 0xffff

  datatype EnvelopeError = MimeTooLong | NoPrefix | PrefixTooLong

  function Envelope(mime: Bytes, data: Bytes): Bytes
    requires |mime| <= MAX_MIME
  {
    [|mime| / 256, |mime| % 256] + mime + data
  }

  function MimeLength(envelope: Bytes): int
    requires |envelope| >= 2
  {
    var high: int := envelope[0];
    high * 256 + envelope[1]
  }

  function OpenedEnvelope(envelope: Bytes): Result<(Bytes, Bytes), EnvelopeError> {
    if |envelope| < 2 then Err(NoPrefix)
    else if 2 + MimeLength(envelope) > |envelope| then Err(PrefixTooLong)
    else Ok((envelope[2..2 + MimeLength(envelope)], envelope[2 + MimeLength(envelope)..]))
  }

  /** An envelope opens to a content type and a payload exactly when it was made from them. */
  lemma EnvelopeOpens(envelope: Bytes, mime: Bytes, data: Bytes)
    ensures OpenedEnvelope(envelope) == Ok((mime, data)) <==> |mime| <= MAX_MIME && envelope == Envelope(mime, data)
  {
    if |mime| <= MAX_MIME && envelope == Envelope(mime, data) {
      assert MimeLength(envelope) == |mime|;
      assert envelope[2..2 + |mime|] == mime && envelope[2 + |mime|..] == data;
    }
    if OpenedEnvelope(envelope) == Ok((mime, data)) {
      assert |mime| == MimeLength(envelope);
      assert envelope == [envelope[0], envelope[1]] + mime + data;
    }
  }

  method SealEnvelope(mime: Bytes, data: Bytes) returns (r: Result<Bytes, EnvelopeError>)
    ensures r == if |mime| > MAX_MIME then Err(MimeTooLong) else Ok(Envelope(mime, data))
  {
    if |mime| > MAX_MIME {
      return Err(MimeTooLong);
    }
    var out := new Byte[2 + |mime| + |data|](i => 0);
    out[0], out[1] := |mime| / 256, |mime| % 256;
    assert out[..][..2] == [|mime| / 256, |mime| % 256];
    SetBytes(out, mime, 2);
    assert out[..][..2 + |mime|] == [|mime| / 256, |mime| % 256] + mime;
    SetBytes(out, data, 2 + |mime|);
    assert out[..] == Envelope(mime, data);
    return Ok(out[..]);
  }

  method OpenEnvelope(envelope: Bytes) returns (r: Result<(Bytes, Bytes), EnvelopeError>)
    ensures r == OpenedEnvelope(envelope)
  {
    if |envelope| < 2 {
      return Err(NoPrefix);
    }
    var high: int := envelope[0];
    var mimeLen := high * 256 + envelope[1];
    if 2 + mimeLen > |envelope| {
      return Err(PrefixTooLong);
    }
    return Ok((envelope[2..2 + mimeLen], envelope[2 + mimeLen..]));
  }

  /** A stored container is served as a content type and a payload exactly when it is, byte for byte, the container
      of an envelope of them that was sealed under this key for this file. */
  lemma ServedIffSealed(gcm: Gcm, log: set<Call>, ops: set<Sealing>, key: Bytes, fileId: string, box: Bytes, mime: Bytes, data: Bytes)
    requires Ideal(gcm, log) && Wrote(log, ops) && forall op :: op in ops ==> Logged(op, log)
    ensures (var plain := Decrypted(gcm, key, fileId, box); plain.Ok? && OpenedEnvelope(plain.value) == Ok((mime, data))) <==>
      |mime| <= MAX_MIME &&
      exists op :: op in ops && op.key == key && op.fileId == fileId && op.plain == Envelope(mime, data) && box == Container(gcm, op)
  {
    hide Decrypted;
    hide Container;
    hide Ideal;
    hide Logged;
    hide Envelope;
    hide OpenedEnvelope;
    hide IsSealing;
    hide ChunkCall;
    var plain := Decrypted(gcm, key, fileId, box);
    if plain.Ok? {
      EnvelopeOpens(plain.value, mime, data);
    }
    if |mime| <= MAX_MIME {
      AcceptedIffWritten(gcm, log, ops, key, fileId, box);
      assert plain == Ok(Envelope(mime, data)) <==>
        exists op :: op in ops && op.key == key && op.fileId == fileId && op.plain == Envelope(mime, data) && box == Container(gcm, op);
    }
  }

  // ---- the order of eviction ----

  datatype Row = Row(id: int, size: nat, at: int)

  function Total(rows: seq<Row>): nat {
    if rows == [] then 0 else rows[0].size + Total(rows[1..])
  }

  /** The rows of one age, in their order. */
  function OfAge(rows: seq<Row>, at: int): seq<Row> {
    if rows == [] then [] else (if rows[0].at == at then [rows[0]] else []) + OfAge(rows[1..], at)
  }

  predicate OldestFirst(rows: seq<Row>) {
    forall i, j :: 0 <= i < j < |rows| ==> rows[i].at <= rows[j].at
  }

  /** A stable sort: ordered, and the rows of every age are the same ones in the same order. */
  ghost predicate Sorts(sorted: seq<Row>, rows: seq<Row>) {
    OldestFirst(sorted) && forall at :: OfAge(sorted, at) == OfAge(rows, at)
  }

  lemma {:induction false} OfAgeConcat(a: seq<Row>, b: seq<Row>, at: int)
    ensures OfAge(a + b, at) == OfAge(a, at) + OfAge(b, at)
    decreases |a|
  {
    if a == [] {
      assert a + b == b;
    } else {
      assert (a + b)[0] == a[0] && (a + b)[1..] == a[1..] + b;
      OfAgeConcat(a[1..], b, at);
    }
  }

  lemma {:induction false} TotalConcat(a: seq<Row>, b: seq<Row>)
    ensures Total(a + b) == Total(a) + Total(b)
    decreases |a|
  {
    if a == [] {
      assert a + b == b;
    } else {
      assert (a + b)[0] == a[0] && (a + b)[1..] == a[1..] + b;
      TotalConcat(a[1..], b);
    }
  }

  lemma {:induction false} NoneOfAge(rows: seq<Row>, at: int)
    requires forall i :: 0 <= i < |rows| ==> rows[i].at != at
    ensures OfAge(rows, at) == []
    decreases |rows|
  {
    if rows != [] {
      NoneOfAge(rows[1..], at);
    }
  }

  /** Inserting a row behind the rows of its age and the older ones. */
  lemma InsertSorts(sorted: seq<Row>, rows: seq<Row>, row: Row, k: nat)
    requires Sorts(sorted, rows) && k <= |sorted|
    requires forall i :: 0 <= i < k ==> sorted[i].at <= row.at
    requires forall i :: k <= i < |sorted| ==> sorted[i].at > row.at
    ensures Sorts(sorted[..k] + [row] + sorted[k..], rows + [row])
  {
    assert sorted == sorted[..k] + sorted[k..];
    InsertOldest(sorted[..k], row, sorted[k..]);
    hide OldestFirst;
    hide OfAge;
    forall at
      ensures OfAge(sorted[..k] + [row] + sorted[k..], at) == OfAge(rows + [row], at)
    {
      assert OfAge(sorted, at) == OfAge(rows, at);
      InsertOfAge(sorted[..k], row, sorted[k..], rows, at);
    }
  }

  lemma InsertOldest(a: seq<Row>, row: Row, b: seq<Row>)
    requires OldestFirst(a + b)
    requires forall i :: 0 <= i < |a| ==> a[i].at <= row.at
    requires forall i :: 0 <= i < |b| ==> b[i].at > row.at
    ensures OldestFirst(a + [row] + b)
  {
    var was, out := a + b, a + [row] + b;
    forall i, j | 0 <= i < j < |out|
      ensures out[i].at <= out[j].at
    {
      var i' := if i > |a| then i - 1 else i;
      var j' := if j > |a| then j - 1 else j;
      if i != |a| && j != |a| {
        assert out[i] == was[i'] && out[j] == was[j'];
      }
    }
  }

  lemma OneOfAge(row: Row, at: int)
    ensures OfAge([row], at) == if row.at == at then [row] else []
  {
    assert [row][..0] == [];
  }

  lemma InsertOfAge(a: seq<Row>, row: Row, b: seq<Row>, rows: seq<Row>, at: int)
    requires OfAge(a + b, at) == OfAge(rows, at) && forall i :: 0 <= i < |b| ==> b[i].at > row.at
    ensures OfAge(a + [row] + b, at) == OfAge(rows + [row], at)
  {
    hide *;
    OneOfAge(row, at);
    OfAgeConcat(a + [row], b, at);
    OfAgeConcat(a, [row], at);
    OfAgeConcat(a, b, at);
    OfAgeConcat(rows, [row], at);
    if at == row.at {
      NoneOfAge(b, at);
    }
  }

  lemma InsertTotal(a: seq<Row>, row: Row, b: seq<Row>)
    ensures Total(a + [row] + b) == Total(a + b) + row.size
  {
    TotalConcat(a + [row], b);
    TotalConcat(a, [row]);
    TotalConcat(a, b);
  }

  lemma AppendTotal(rows: seq<Row>, row: Row)
    ensures Total(rows + [row]) == Total(rows) + row.size
  {
    TotalConcat(rows, [row]);
  }

  lemma SortsNothing()
    ensures Sorts([], []) && Total([]) == 0
  {
  }

  lemma SortsOrdered(sorted: seq<Row>, rows: seq<Row>)
    requires Sorts(sorted, rows)
    ensures OldestFirst(sorted)
  {
  }

  lemma InsertKeeps(sorted: seq<Row>, rows: seq<Row>, row: Row, k: nat)
    requires Sorts(sorted, rows) && |sorted| == |rows| && Total(sorted) == Total(rows) && k <= |sorted|
    requires forall i :: 0 <= i < k ==> sorted[i].at <= row.at
    requires forall i :: k <= i < |sorted| ==> sorted[i].at > row.at
    ensures var out := sorted[..k] + [row] + sorted[k..];
            Sorts(out, rows + [row]) && |out| == |rows| + 1 && Total(out) == Total(rows + [row])
  {
    hide *;
    InsertSorts(sorted, rows, row, k);
    assert sorted == sorted[..k] + sorted[k..];
    InsertTotal(sorted[..k], row, sorted[k..]);
    AppendTotal(rows, row);
  }

  /** Sort the rows, the oldest first. */
  method SortByAge(rows: seq<Row>) returns (sorted: seq<Row>)
    ensures Sorts(sorted, rows) && |sorted| == |rows| && Total(sorted) == Total(rows)
  {
    sorted := [];
    SortsNothing();
    hide Total;
    hide Sorts;
    for n := 0 to |rows|
      invariant Sorts(sorted, rows[..n]) && |sorted| == n && Total(sorted) == Total(rows[..n])
    {
      SortsOrdered(sorted, rows[..n]);
      var k := PlaceOf(sorted, rows[n]);
      InsertKeeps(sorted, rows[..n], rows[n], k);
      assert rows[..n + 1] == rows[..n] + [rows[n]];
      sorted := sorted[..k] + [rows[n]] + sorted[k..];
    }
    assert rows[..|rows|] == rows;
  }

  /** Behind the rows that are no younger. */
  method PlaceOf(sorted: seq<Row>, row: Row) returns (k: nat)
    requires OldestFirst(sorted)
    ensures k <= |sorted|
    ensures forall i :: 0 <= i < k ==> sorted[i].at <= row.at
    ensures forall i :: k <= i < |sorted| ==> sorted[i].at > row.at
  {
    k := |sorted|;
    while k > 0 && sorted[k - 1].at > row.at
      invariant k <= |sorted| && forall i :: k <= i < |sorted| ==> sorted[i].at > row.at
    {
      k := k - 1;
    }
  }

  // ---- how many go ----

  /** The least number of oldest rows whose removal meets the budget, or all of them. */
  ghost predicate LeastPrefix(rows: seq<Row>, limit: int, k: nat) {
    && k <= |rows|
    && (Total(rows[k..]) <= limit || k == |rows|)
    && forall j :: 0 <= j < k ==> Total(rows[j..]) > limit
  }

  lemma {:induction false} TotalShrinks(rows: seq<Row>, j: nat, k: nat)
    requires j <= k <= |rows|
    ensures Total(rows[k..]) <= Total(rows[j..])
  {
    TotalConcat(rows[j..k], rows[k..]);
    assert rows[j..] == rows[j..k] + rows[k..];
  }

  /** A newest blob over the budget is kept when it is alone; beside any other it goes too, and all others with it. */
  lemma OversizedGoes(rows: seq<Row>, limit: int, k: nat)
    requires rows != [] && rows[|rows| - 1].size > limit && LeastPrefix(rows, limit, k)
    ensures k == |rows|
  {
    if k < |rows| {
      TotalShrinks(rows, k, |rows| - 1);
    }
  }

  method SumSizes(rows: seq<Row>) returns (total: nat)
    ensures total == Total(rows)
  {
    total := 0;
    for i := 0 to |rows|
      invariant total == Total(rows[..i])
    {
      AppendTotal(rows[..i], rows[i]);
      assert rows[..i + 1] == rows[..i] + [rows[i]];
      total := total + rows[i].size;
    }
    assert rows[..|rows|] == rows;
  }

  class Media {
    var store: map<int, Row>
    var limitBytes: int

    constructor (limit: int)
      ensures store == map[] && limitBytes == limit
    {
      store, limitBytes := map[], limit;
    }

    /** Drop the oldest blobs until the rest fits; a single one is never dropped. */
    method EvictToLimit(scan: seq<Row>) returns (ghost sorted: seq<Row>, ghost evicted: nat)
      requires forall i, j :: 0 <= i < j < |scan| ==> scan[i].id != scan[j].id
      requires forall i :: 0 <= i < |scan| ==> scan[i].id in store && store[scan[i].id] == scan[i]
      requires forall id :: id in store ==> exists i :: 0 <= i < |scan| && scan[i].id == id
      modifies this`store
      ensures Sorts(sorted, scan) && evicted <= |sorted|
      ensures if |scan| <= 1 then evicted == 0 else LeastPrefix(sorted, limitBytes, evicted)
      ensures forall id :: id in store <==>
        id in old(store) && forall i :: 0 <= i < evicted ==> sorted[i].id != id
      ensures forall id :: id in store ==> store[id] == old(store)[id]
    {
      hide Sorts;
      var total := SumSizes(scan);
      var all := SortByAge(scan);
      sorted := all;
      evicted := 0;
      assert all[0..] == all;
      if total <= limitBytes {
        return;
      }
      var k := 0;
      while k < |all|
        invariant k <= |all| && total == Total(all[k..]) && evicted == k
        invariant |all| <= 1 ==> k == 0
        invariant forall j :: 0 <= j < k ==> Total(all[j..]) > limitBytes
        invariant forall id :: id in store <==> id in old(store) && forall i :: 0 <= i < k ==> all[i].id != id
        invariant forall id :: id in store ==> store[id] == old(store)[id]
      {
        if total <= limitBytes {
          break;
        }
        if |all| <= 1 {
          break;
        }
        store := store - {all[k].id};
        total := total - all[k].size;
        assert all[k..][1..] == all[k + 1..];
        k := k + 1;
        evicted := k;
      }
    }
  }
}
