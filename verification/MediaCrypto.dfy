/** The encrypted media container of clients/core/src/media_crypto.ts, over an ideal authenticated cipher:
    what is written is read back, and nothing is accepted but what was written, byte for byte. */
module MediaCrypto {
  import opened Decimals
  import opened Results

  type Byte = x: int | 0 <= x < 256
  type Bytes = seq<Byte>

  const CHUNK: nat := 1048576
  const TAG: nat := 16
  const HEADER: nat := 13
  const VERSION: Byte := 1
  const KEY_BYTES: nat := 32
  const MAX_CHUNKS: nat := 1048576

  datatype MediaError = BadKey | TooLarge | TooShort | BadVersion | BadCount | BadLength | NotAuthentic(chunk: nat)

  /** One use of the cipher. */
  datatype Call = Call(key: Bytes, nonce: Bytes, aad: string, plain: Bytes)

  /** The cipher as the environment offers it. */
  datatype Gcm = Gcm(seal: Call -> Bytes, open: (Bytes, Bytes, string, Bytes) -> Option<Bytes>)

  ghost predicate Lawful(gcm: Gcm) {
    forall c :: |gcm.seal(c)| == |c.plain| + TAG
  }

  /** Opening succeeds for the logged calls, and for nothing else. */
  ghost predicate Ideal(gcm: Gcm, log: set<Call>) {
    && Lawful(gcm)
    && (forall c :: c in log ==> gcm.open(c.key, c.nonce, c.aad, gcm.seal(c)) == Some(c.plain))
    && (forall k, n, a, x :: gcm.open(k, n, a, x).Some? ==>
          var c := Call(k, n, a, gcm.open(k, n, a, x).value); c in log && gcm.seal(c) == x)
  }

  // ---- nonces and labels ----

  function U32(n: nat): (bs: Bytes)
    requires n < 0x1_0000_0000
    ensures |bs| == 4
  {
    [n / 0x100_0000, n / 0x1_0000 % 256, n / 256 % 256, n % 256]
  }

  function FromU32(bs: Bytes): nat
    requires |bs| == 4
  {
    var a: int, b: int, c: int := bs[0], bs[1], bs[2];
    a * 0x100_0000 + b * 0x1_0000 + c * 256 + bs[3]
  }

  lemma U32RoundTrip(n: nat)
    requires n < 0x1_0000_0000
    ensures FromU32(U32(n)) == n
  {
    var a := n / 256;
    var b := a / 256;
    assert n / 0x1_0000 == b && n / 0x100_0000 == b / 256;
  }

  lemma FromU32RoundTrip(bs: Bytes)
    requires |bs| == 4
    ensures FromU32(bs) < 0x1_0000_0000 && U32(FromU32(bs)) == bs
  {
    var n := FromU32(bs);
    var a: int, b: int, c: int := bs[0], bs[1], bs[2];
    assert n / 256 == a * 0x1_0000 + b * 256 + c;
    assert n / 0x1_0000 == a * 256 + b;
  }

  function ChunkNonce(prefix: Bytes, i: nat): (nonce: Bytes)
    requires |prefix| == 8 && i < MAX_CHUNKS
    ensures |nonce| == 12
  {
    prefix + U32(i)
  }

  function ChunkAad(fileId: string, i: nat, total: nat): string {
    "gc-media-v1|" + fileId + "|" + Decimal(i) + "|" + Decimal(total)
  }

  lemma LaterBar(a: string, d: string, a': string, d': string)
    requires a + "|" + d == a' + "|" + d' && |a| < |a'|
    ensures '|' in d
  {
    var s := a + "|" + d;
    assert s[|a'|] == '|' && s[|a'|] == d[|a'| - |a| - 1];
  }

  /** The part after the last bar is determined, if it has no bar itself. */
  lemma LastBar(a: string, d: string, a': string, d': string)
    requires a + "|" + d == a' + "|" + d'
    requires '|' !in d && '|' !in d'
    ensures a == a' && d == d'
  {
    var s := a + "|" + d;
    if |a| < |a'| {
      LaterBar(a, d, a', d');
    } else if |a'| < |a| {
      LaterBar(a', d', a, d);
    } else {
      assert a == s[..|a|] && a' == s[..|a|] && d == s[|a| + 1..] && d' == s[|a| + 1..];
    }
  }

  /** The label determines file, index and count, whatever characters the file id has. */
  lemma AadInjective(fileId: string, i: nat, total: nat, fileId': string, i': nat, total': nat)
    requires ChunkAad(fileId, i, total) == ChunkAad(fileId', i', total')
    ensures fileId == fileId' && i == i' && total == total'
  {
    var a, a' := "gc-media-v1|" + fileId, "gc-media-v1|" + fileId';
    LastBar(a + "|" + Decimal(i), Decimal(total), a' + "|" + Decimal(i'), Decimal(total'));
    LastBar(a, Decimal(i), a', Decimal(i'));
    assert fileId == a[12..] && fileId' == a'[12..];
    DecimalInjective(i, i');
    DecimalInjective(total, total');
  }

  // ---- the container ----

  /** How many chunks a plaintext takes: at least one. */
  function ChunkCount(length: nat): (total: nat)
    ensures total >= 1 && (total - 1) * CHUNK <= length <= total * CHUNK
    ensures total > 1 ==> (total - 1) * CHUNK < length
  {
    if length == 0 then 1 else (length + CHUNK - 1) / CHUNK
  }

  /** One encryption. */
  datatype Sealing = Sealing(key: Bytes, fileId: string, plain: Bytes, prefix: Bytes)

  predicate IsSealing(op: Sealing) {
    |op.key| == KEY_BYTES && |op.prefix| == 8 && ChunkCount(|op.plain|) <= MAX_CHUNKS
  }

  function Piece(plain: Bytes, i: nat): Bytes
    requires i < ChunkCount(|plain|)
  {
    plain[i * CHUNK..if i == ChunkCount(|plain|) - 1 then |plain| else (i + 1) * CHUNK]
  }

  function ChunkCall(op: Sealing, i: nat): Call
    requires IsSealing(op) && i < ChunkCount(|op.plain|)
  {
    Call(op.key, ChunkNonce(op.prefix, i), ChunkAad(op.fileId, i, ChunkCount(|op.plain|)), Piece(op.plain, i))
  }

  /** The first n chunks of an encryption, one after another. */
  function Body(gcm: Gcm, op: Sealing, n: nat): Bytes
    requires IsSealing(op) && n <= ChunkCount(|op.plain|)
  {
    if n == 0 then [] else Body(gcm, op, n - 1) + gcm.seal(ChunkCall(op, n - 1))
  }

  function Header(op: Sealing): (bs: Bytes)
    requires IsSealing(op)
    ensures |bs| == HEADER
  {
    [VERSION] + op.prefix + U32(ChunkCount(|op.plain|))
  }

  function Container(gcm: Gcm, op: Sealing): Bytes
    requires IsSealing(op)
  {
    Header(op) + Body(gcm, op, ChunkCount(|op.plain|))
  }

  lemma PieceLength(plain: Bytes, i: nat)
    requires i < ChunkCount(|plain|)
    ensures |Piece(plain, i)| == if i == ChunkCount(|plain|) - 1 then |plain| - i * CHUNK else CHUNK
  {
  }

  lemma {:induction false} BodyLength(gcm: Gcm, op: Sealing, n: nat)
    requires IsSealing(op) && n <= ChunkCount(|op.plain|) && Lawful(gcm)
    ensures |Body(gcm, op, n)| == (if n == ChunkCount(|op.plain|) then |op.plain| else n * CHUNK) + n * TAG
    decreases n
  {
    if n > 0 {
      BodyLength(gcm, op, n - 1);
      PieceLength(op.plain, n - 1);
    }
  }

  lemma SealLength(gcm: Gcm, op: Sealing, i: nat)
    requires IsSealing(op) && i < ChunkCount(|op.plain|) && Lawful(gcm)
    ensures |gcm.seal(ChunkCall(op, i))| == |Piece(op.plain, i)| + TAG
  {
  }

  lemma InFront(p: Bytes, q: Bytes, at: nat, len: nat)
    requires at + len <= |p|
    ensures (p + q)[at..at + len] == p[at..at + len]
  {
  }

  lemma AtEnd(p: Bytes, q: Bytes)
    ensures (p + q)[|p|..|p| + |q|] == q
  {
  }

  /** Chunk i stands at its place in the body. */
  lemma {:induction false} BodyChunk(gcm: Gcm, op: Sealing, n: nat, i: nat)
    requires IsSealing(op) && i < n <= ChunkCount(|op.plain|) && Lawful(gcm)
    ensures var at, len := i * (CHUNK + TAG), |Piece(op.plain, i)| + TAG;
            at + len <= |Body(gcm, op, n)| && Body(gcm, op, n)[at..at + len] == gcm.seal(ChunkCall(op, i))
    decreases n
  {
    hide ChunkCall;
    hide ChunkCount;
    var at, len := i * (CHUNK + TAG), |Piece(op.plain, i)| + TAG;
    BodyLength(gcm, op, n - 1);
    PieceLength(op.plain, i);
    SealLength(gcm, op, i);
    if i < n - 1 {
      BodyChunk(gcm, op, n - 1, i);
      InFront(Body(gcm, op, n - 1), gcm.seal(ChunkCall(op, n - 1)), at, len);
    } else {
      AtEnd(Body(gcm, op, n - 1), gcm.seal(ChunkCall(op, n - 1)));
    }
  }

  /** Copies bytes into a buffer. */
  method SetBytes(out: array<Byte>, bs: Bytes, at: nat)
    requires at + |bs| <= out.Length
    modifies out
    ensures out[..] == old(out[..])[..at] + bs + old(out[..])[at + |bs|..]
  {
    for k := 0 to |bs|
      invariant forall j :: 0 <= j < out.Length ==> out[j] == if at <= j < at + k then bs[j - at] else old(out[j])
    {
      out[at + k] := bs[k];
    }
  }

  method WriteHeader(out: array<Byte>, op: Sealing)
    requires IsSealing(op) && out.Length >= HEADER
    modifies out
    ensures out[..HEADER] == Header(op)
  {
    hide U32;
    hide ChunkCount;
    out[0] := VERSION;
    SetBytes(out, op.prefix, 1);
    SetBytes(out, U32(ChunkCount(|op.plain|)), 9);
  }

  method WriteChunk(out: array<Byte>, gcm: Gcm, op: Sealing, i: nat, inOff: nat, outOff: nat) returns (next: nat)
    requires IsSealing(op) && i < ChunkCount(|op.plain|) && Lawful(gcm) && inOff == i * CHUNK
    requires out.Length == HEADER + |op.plain| + ChunkCount(|op.plain|) * TAG
    requires outOff == HEADER + |Body(gcm, op, i)| <= out.Length && out[..outOff] == Header(op) + Body(gcm, op, i)
    modifies out
    ensures next == HEADER + |Body(gcm, op, i + 1)| <= out.Length
    ensures out[..next] == Header(op) + Body(gcm, op, i + 1)
  {
    hide ChunkAad;
    hide ChunkNonce;
    hide ChunkCount;
    hide Header;
    var total := ChunkCount(|op.plain|);
    var end := if i == total - 1 then |op.plain| else inOff + CHUNK;
    BodyLength(gcm, op, i);
    BodyLength(gcm, op, i + 1);
    var ct := gcm.seal(Call(op.key, ChunkNonce(op.prefix, i), ChunkAad(op.fileId, i, total), op.plain[inOff..end]));
    SetBytes(out, ct, outOff);
    next := outOff + |ct|;
  }

  lemma ContainerIs(gcm: Gcm, op: Sealing)
    requires IsSealing(op)
    ensures Container(gcm, op) == Header(op) + Body(gcm, op, ChunkCount(|op.plain|))
  {
  }

  method EncryptMediaBlob(gcm: Gcm, op: Sealing) returns (r: Result<array<Byte>, MediaError>)
    requires Lawful(gcm) && |op.prefix| == 8
    ensures |op.key| != KEY_BYTES ==> r == Err(BadKey)
    ensures |op.key| == KEY_BYTES && ChunkCount(|op.plain|) > MAX_CHUNKS ==> r == Err(TooLarge)
    ensures IsSealing(op) ==> r.Ok? && fresh(r.value) && r.value[..] == Container(gcm, op)
  {
    if |op.key| != KEY_BYTES {
      return Err(BadKey);
    }
    var total := ChunkCount(|op.plain|);
    if total > MAX_CHUNKS {
      return Err(TooLarge);
    }
    hide ChunkCount;
    hide Header;
    hide Container;
    var out := new Byte[HEADER + |op.plain| + total * TAG](_ => 0);
    WriteHeader(out, op);
    assert Body(gcm, op, 0) == [];
    hide Body;
    var inOff, outOff := 0, HEADER;
    for i := 0 to total
      invariant inOff == if i == total then |op.plain| else i * CHUNK
      invariant outOff == HEADER + |Body(gcm, op, i)| <= out.Length
      invariant out[..outOff] == Header(op) + Body(gcm, op, i)
    {
      outOff := WriteChunk(out, gcm, op, i, inOff, outOff);
      inOff := if i == total - 1 then |op.plain| else inOff + CHUNK;
    }
    BodyLength(gcm, op, total);
    assert out[..outOff] == out[..];
    ContainerIs(gcm, op);
    return Ok(out);
  }

  // ---- opening ----

  function LastLength(box: Bytes, total: nat): int {
    |box| - HEADER - (total - 1) * (CHUNK + TAG)
  }

  /** Where chunk i of a box with this many chunks lies. */
  function ChunkAt(box: Bytes, total: nat, i: nat): Bytes
    requires i < total && TAG <= LastLength(box, total) <= CHUNK + TAG
  {
    var off := HEADER + i * (CHUNK + TAG);
    box[off..off + if i == total - 1 then LastLength(box, total) else CHUNK + TAG]
  }

  /** The first n chunks, opened one after another up to the first that fails. */
  function Opened(gcm: Gcm, key: Bytes, fileId: string, box: Bytes, total: nat, n: nat): Result<Bytes, MediaError>
    requires n <= total <= MAX_CHUNKS && |box| >= HEADER && TAG <= LastLength(box, total) <= CHUNK + TAG
  {
    if n == 0 then Ok([])
    else
      var before := Opened(gcm, key, fileId, box, total, n - 1);
      if before.Err? then before
      else
        var plain := gcm.open(key, ChunkNonce(box[1..9], n - 1), ChunkAad(fileId, n - 1, total), ChunkAt(box, total, n - 1));
        if plain.None? then Err(NotAuthentic(n - 1)) else Ok(before.value + plain.value)
  }

  function Decrypted(gcm: Gcm, key: Bytes, fileId: string, box: Bytes): Result<Bytes, MediaError> {
    if |key| != KEY_BYTES then Err(BadKey)
    else if |box| < HEADER + TAG then Err(TooShort)
    else if box[0] != VERSION then Err(BadVersion)
    else
      var total := FromU32(box[9..13]);
      if total < 1 || total > MAX_CHUNKS then Err(BadCount)
      else if LastLength(box, total) < TAG || LastLength(box, total) > CHUNK + TAG then Err(BadLength)
      else Opened(gcm, key, fileId, box, total, total)
  }

  lemma OpenedChunk(gcm: Gcm, log: set<Call>, key: Bytes, fileId: string, box: Bytes, total: nat, i: nat)
    requires Ideal(gcm, log) && i < total <= MAX_CHUNKS && |box| >= HEADER && TAG <= LastLength(box, total) <= CHUNK + TAG
    ensures var plain := gcm.open(key, ChunkNonce(box[1..9], i), ChunkAad(fileId, i, total), ChunkAt(box, total, i));
            plain.Some? ==> |plain.value| + TAG == |ChunkAt(box, total, i)|
  {
    hide ChunkAad;
    hide ChunkNonce;
    var plain := gcm.open(key, ChunkNonce(box[1..9], i), ChunkAad(fileId, i, total), ChunkAt(box, total, i));
    if plain.Some? {
      var c := Call(key, ChunkNonce(box[1..9], i), ChunkAad(fileId, i, total), plain.value);
      assert |gcm.seal(c)| == |c.plain| + TAG;
    }
  }

  method DecryptMediaBlob(gcm: Gcm, ghost log: set<Call>, key: Bytes, fileId: string, box: Bytes) returns (r: Result<Bytes, MediaError>)
    requires Ideal(gcm, log)
    ensures r == Decrypted(gcm, key, fileId, box)
  {
    hide ChunkAad;
    hide ChunkNonce;
    hide Ideal;
    if |key| != KEY_BYTES {
      return Err(BadKey);
    }
    if |box| < HEADER + TAG {
      return Err(TooShort);
    }
    if box[0] != VERSION {
      return Err(BadVersion);
    }
    var prefix := box[1..9];
    var total := FromU32(box[9..13]);
    if total < 1 || total > MAX_CHUNKS {
      return Err(BadCount);
    }
    var body := |box| - HEADER;
    var fullChunk := CHUNK + TAG;
    var lastLen := body - (total - 1) * fullChunk;
    if lastLen < TAG || lastLen > fullChunk {
      return Err(BadLength);
    }
    var out := new Byte[body - total * TAG](_ => 0);
    var outOff := 0;
    for i := 0 to total
      invariant outOff == if i == total then out.Length else i * CHUNK
      invariant Opened(gcm, key, fileId, box, total, i) == Ok(out[..outOff])
    {
      var off := HEADER + i * fullChunk;
      var len := if i == total - 1 then lastLen else fullChunk;
      OpenedChunk(gcm, log, key, fileId, box, total, i);
      var pt := gcm.open(key, ChunkNonce(prefix, i), ChunkAad(fileId, i, total), box[off..off + len]);
      if pt.None? {
        FailedChunk(gcm, key, fileId, box, total, i, total);
        return Err(NotAuthentic(i));
      }
      SetBytes(out, pt.value, outOff);
      outOff := outOff + |pt.value|;
    }
    assert out[..outOff] == out[..];
    return Ok(out[..]);
  }

  lemma {:induction false} FailedChunk(gcm: Gcm, key: Bytes, fileId: string, box: Bytes, total: nat, i: nat, n: nat)
    requires i < n <= total <= MAX_CHUNKS && |box| >= HEADER && TAG <= LastLength(box, total) <= CHUNK + TAG
    requires Opened(gcm, key, fileId, box, total, i).Ok?
    requires gcm.open(key, ChunkNonce(box[1..9], i), ChunkAad(fileId, i, total), ChunkAt(box, total, i)).None?
    ensures Opened(gcm, key, fileId, box, total, n) == Err(NotAuthentic(i))
    decreases n
  {
    hide ChunkAad;
    hide ChunkNonce;
    hide ChunkAt;
    if i < n - 1 {
      FailedChunk(gcm, key, fileId, box, total, i, n - 1);
    }
  }

  // ---- what is written is read ----

  /** The cipher calls of an encryption. */
  ghost predicate Logged(op: Sealing, log: set<Call>)
    requires IsSealing(op)
  {
    forall i :: 0 <= i < ChunkCount(|op.plain|) ==> ChunkCall(op, i) in log
  }

  lemma ContainerParts(gcm: Gcm, op: Sealing)
    requires IsSealing(op) && Lawful(gcm)
    ensures var box, total := Container(gcm, op), ChunkCount(|op.plain|);
            && |box| >= HEADER + TAG && box[0] == VERSION && box[1..9] == op.prefix && FromU32(box[9..13]) == total
            && |box| == HEADER + |op.plain| + total * TAG
            && TAG <= LastLength(box, total) <= CHUNK + TAG
  {
    var box, total := Container(gcm, op), ChunkCount(|op.plain|);
    BodyLength(gcm, op, total);
    U32RoundTrip(total);
    hide U32;
    hide FromU32;
    hide ChunkCount;
    hide Body;
    assert box[9..13] == U32(total) && box[1..9] == op.prefix;
  }

  lemma ContainerChunk(gcm: Gcm, op: Sealing, i: nat)
    requires IsSealing(op) && i < ChunkCount(|op.plain|) && Lawful(gcm)
    ensures var box, total := Container(gcm, op), ChunkCount(|op.plain|);
            TAG <= LastLength(box, total) <= CHUNK + TAG && ChunkAt(box, total, i) == gcm.seal(ChunkCall(op, i))
  {
    var total := ChunkCount(|op.plain|);
    ContainerParts(gcm, op);
    BodyChunk(gcm, op, total, i);
    PieceLength(op.plain, i);
    hide ChunkCall;
    hide ChunkCount;
    hide Body;
    hide Header;
    var at, len := i * (CHUNK + TAG), |Piece(op.plain, i)| + TAG;
    ContainerIs(gcm, op);
    assert Container(gcm, op)[HEADER + at..HEADER + at + len] == Body(gcm, op, total)[at..at + len];
    hide Container;
  }

  lemma {:induction false} OpensTo(gcm: Gcm, log: set<Call>, op: Sealing, n: nat)
    requires Ideal(gcm, log) && IsSealing(op) && Logged(op, log) && n <= ChunkCount(|op.plain|)
    requires TAG <= LastLength(Container(gcm, op), ChunkCount(|op.plain|)) <= CHUNK + TAG
    ensures Opened(gcm, op.key, op.fileId, Container(gcm, op), ChunkCount(|op.plain|), n)
         == Ok(op.plain[..if n == ChunkCount(|op.plain|) then |op.plain| else n * CHUNK])
    decreases n
  {
    hide ChunkAad;
    hide ChunkNonce;
    hide Container;
    hide ChunkCount;
    if n > 0 {
      OpensTo(gcm, log, op, n - 1);
      ContainerParts(gcm, op);
      ContainerChunk(gcm, op, n - 1);
      assert ChunkCall(op, n - 1) in log;
      assert op.plain[..(n - 1) * CHUNK] + Piece(op.plain, n - 1) == op.plain[..if n == ChunkCount(|op.plain|) then |op.plain| else n * CHUNK];
    }
  }

  /** Decrypting the container of any plaintext, of length 0 and of whole chunks too, returns it. */
  lemma RoundTrip(gcm: Gcm, log: set<Call>, op: Sealing)
    requires Ideal(gcm, log) && IsSealing(op) && Logged(op, log)
    ensures Decrypted(gcm, op.key, op.fileId, Container(gcm, op)) == Ok(op.plain)
  {
    hide Container;
    hide Opened;
    ContainerParts(gcm, op);
    OpensTo(gcm, log, op, ChunkCount(|op.plain|));
    assert op.plain[..|op.plain|] == op.plain;
  }

  // ---- nothing else is accepted ----

  /** The log holds the calls of these encryptions and no others, and encryptions under one key have different
      prefixes. */
  ghost predicate Wrote(log: set<Call>, ops: set<Sealing>) {
    && (forall op :: op in ops ==> IsSealing(op))
    && (forall c :: c in log ==> exists op, i :: op in ops && IsSealing(op) && 0 <= i < ChunkCount(|op.plain|) && c == ChunkCall(op, i))
    && (forall p, q :: p in ops && q in ops && p.key == q.key && p.prefix == q.prefix ==> p == q)
  }

  predicate Framed(box: Bytes, total: nat) {
    && 1 <= total <= MAX_CHUNKS && |box| >= HEADER + TAG && box[0] == VERSION && FromU32(box[9..13]) == total
    && TAG <= LastLength(box, total) <= CHUNK + TAG
  }

  /** Chunk i of the box is chunk i of this encryption. */
  predicate Matches(gcm: Gcm, op: Sealing, key: Bytes, fileId: string, box: Bytes, total: nat, i: nat)
    requires Framed(box, total) && i < total
  {
    && op.key == key && op.fileId == fileId && op.prefix == box[1..9] && ChunkCount(|op.plain|) == total
    && IsSealing(op) && ChunkAt(box, total, i) == gcm.seal(ChunkCall(op, i))
  }

  /** A chunk that opens was written by one of the encryptions, as the same chunk of as many. */
  lemma ChunkWasWritten(gcm: Gcm, log: set<Call>, ops: set<Sealing>, key: Bytes, fileId: string, box: Bytes, total: nat, i: nat)
    returns (op: Sealing)
    requires Ideal(gcm, log) && Wrote(log, ops) && Framed(box, total) && i < total
    requires gcm.open(key, ChunkNonce(box[1..9], i), ChunkAad(fileId, i, total), ChunkAt(box, total, i)).Some?
    ensures op in ops && Matches(gcm, op, key, fileId, box, total, i)
  {
    var nonce, aad := ChunkNonce(box[1..9], i), ChunkAad(fileId, i, total);
    var plain := gcm.open(key, nonce, aad, ChunkAt(box, total, i)).value;
    var c := Call(key, nonce, aad, plain);
    assert c in log && gcm.seal(c) == ChunkAt(box, total, i);
    var o, j :| o in ops && IsSealing(o) && 0 <= j < ChunkCount(|o.plain|) && c == ChunkCall(o, j);
    op := o;
    AadInjective(fileId, i, total, op.fileId, j, ChunkCount(|op.plain|));
    hide ChunkAad;
    hide ChunkCount;
    hide U32;
    assert nonce[..8] == box[1..9] && ChunkNonce(op.prefix, j)[..8] == op.prefix;
  }

  lemma {:induction false} OpenedChunks(gcm: Gcm, key: Bytes, fileId: string, box: Bytes, total: nat, n: nat, i: nat)
    requires Framed(box, total) && i < n <= total && Opened(gcm, key, fileId, box, total, n).Ok?
    ensures gcm.open(key, ChunkNonce(box[1..9], i), ChunkAad(fileId, i, total), ChunkAt(box, total, i)).Some?
    decreases n
  {
    hide ChunkAad;
    hide ChunkNonce;
    hide ChunkAt;
    if i < n - 1 {
      OpenedChunks(gcm, key, fileId, box, total, n - 1, i);
    }
  }

  lemma JoinSlices(box: Bytes, a: nat, b: nat, c: nat)
    requires a <= b <= c <= |box|
    ensures box[a..b] + box[b..c] == box[a..c]
  {
  }

  /** The last chunk fixes the length of the plaintext. */
  lemma LengthMatches(gcm: Gcm, op: Sealing, key: Bytes, fileId: string, box: Bytes, total: nat)
    requires Lawful(gcm) && Framed(box, total) && Matches(gcm, op, key, fileId, box, total, total - 1)
    ensures |box| == HEADER + |op.plain| + total * TAG
  {
    hide ChunkCall;
    hide ChunkCount;
    SealLength(gcm, op, total - 1);
    PieceLength(op.plain, total - 1);
  }

  predicate BodyUpTo(gcm: Gcm, op: Sealing, box: Bytes, n: nat)
    requires IsSealing(op) && n <= ChunkCount(|op.plain|)
  {
    HEADER + |Body(gcm, op, n)| <= |box| && box[HEADER..HEADER + |Body(gcm, op, n)|] == Body(gcm, op, n)
  }

  lemma BodyStep(gcm: Gcm, op: Sealing, key: Bytes, fileId: string, box: Bytes, total: nat, n: nat)
    requires Lawful(gcm) && Framed(box, total) && n < total && |box| == HEADER + |op.plain| + total * TAG
    requires Matches(gcm, op, key, fileId, box, total, n) && BodyUpTo(gcm, op, box, n)
    ensures BodyUpTo(gcm, op, box, n + 1)
  {
    BodyLength(gcm, op, n);
    SealLength(gcm, op, n);
    PieceLength(op.plain, n);
    hide ChunkCall;
    hide ChunkCount;
    hide FromU32;
    var front, chunk := Body(gcm, op, n), ChunkAt(box, total, n);
    assert Body(gcm, op, n + 1) == front + chunk;
    JoinSlices(box, HEADER, HEADER + |front|, HEADER + |front| + |chunk|);
  }

  /** The body of the box is the body of the encryption, chunk by chunk. */
  lemma {:induction false} BodyMatches(gcm: Gcm, op: Sealing, key: Bytes, fileId: string, box: Bytes, total: nat, n: nat)
    requires Lawful(gcm) && Framed(box, total) && n <= total && IsSealing(op) && ChunkCount(|op.plain|) == total
    requires |box| == HEADER + |op.plain| + total * TAG
    requires forall i :: 0 <= i < total ==> Matches(gcm, op, key, fileId, box, total, i)
    ensures BodyUpTo(gcm, op, box, n)
    decreases n
  {
    hide Matches;
    hide ChunkCount;
    if n > 0 {
      BodyMatches(gcm, op, key, fileId, box, total, n - 1);
      BodyStep(gcm, op, key, fileId, box, total, n - 1);
    }
  }

  lemma BoxIsContainer(gcm: Gcm, op: Sealing, key: Bytes, fileId: string, box: Bytes, total: nat)
    requires Lawful(gcm) && Framed(box, total) && IsSealing(op) && ChunkCount(|op.plain|) == total
    requires forall i :: 0 <= i < total ==> Matches(gcm, op, key, fileId, box, total, i)
    ensures box == Container(gcm, op)
  {
    LengthMatches(gcm, op, key, fileId, box, total);
    BodyMatches(gcm, op, key, fileId, box, total, total);
    BodyLength(gcm, op, total);
    assert Matches(gcm, op, key, fileId, box, total, 0);
    FromU32RoundTrip(box[9..13]);
    hide U32;
    hide FromU32;
    hide Body;
    assert box == [box[0]] + box[1..9] + box[9..13] + box[HEADER..];
  }

  /** A box is accepted only if it is, byte for byte, the container of one of the encryptions made under this key
      for this file; so truncated, extended, reordered, mixed and edited boxes are all refused. */
  lemma OnlyContainersOpen(gcm: Gcm, log: set<Call>, ops: set<Sealing>, key: Bytes, fileId: string, box: Bytes) returns (op: Sealing)
    requires Ideal(gcm, log) && Wrote(log, ops)
    requires Decrypted(gcm, key, fileId, box).Ok?
    ensures op in ops && IsSealing(op) && op.key == key && op.fileId == fileId && box == Container(gcm, op)
  {
    hide ChunkAad;
    hide ChunkNonce;
    hide ChunkAt;
    var total := FromU32(box[9..13]);
    hide FromU32;
    OpenedChunks(gcm, key, fileId, box, total, total, 0);
    op := ChunkWasWritten(gcm, log, ops, key, fileId, box, total, 0);
    forall i | 0 <= i < total
      ensures Matches(gcm, op, key, fileId, box, total, i)
    {
      OpenedChunks(gcm, key, fileId, box, total, total, i);
      var o := ChunkWasWritten(gcm, log, ops, key, fileId, box, total, i);
      assert o == op;
    }
    BoxIsContainer(gcm, op, key, fileId, box, total);
  }

  /** With every encryption logged, acceptance and its result are known exactly. */
  lemma AcceptedIffWritten(gcm: Gcm, log: set<Call>, ops: set<Sealing>, key: Bytes, fileId: string, box: Bytes)
    requires Ideal(gcm, log) && Wrote(log, ops) && forall op :: op in ops ==> Logged(op, log)
    ensures forall plain :: Decrypted(gcm, key, fileId, box) == Ok(plain) <==>
      exists op :: op in ops && op.key == key && op.fileId == fileId && op.plain == plain && box == Container(gcm, op)
  {
    hide Decrypted;
    hide Container;
    hide Ideal;
    forall op | op in ops
      ensures Decrypted(gcm, op.key, op.fileId, Container(gcm, op)) == Ok(op.plain)
    {
      RoundTrip(gcm, log, op);
    }
    if Decrypted(gcm, key, fileId, box).Ok? {
      var op := OnlyContainersOpen(gcm, log, ops, key, fileId, box);
    }
  }
}
