/**
 The v3 backup archive: a 36-byte header, then frames of a big-endian length and an
 authenticated ciphertext, closed by an authenticated frame of length zero. Each frame is bound
 to the whole header, its position and its length. Encryption is an ideal AEAD.
 */
module BackupStream {
  import opened PeriodKeys

  type Byte = x: int | 0 <= x < 256

  const MAX32 := 0xFFFF_FFFF
  const CHUNK := 1048576
  const MIN_CHUNK := 4096
  const MAX_CHUNK := 16777216
  const OVERHEAD := 16
  const HEADER := 36

  /** "PKRRBK03" */
  const MAGIC: seq<Byte> := [80, 75, 82, 82, 66, 75, 48, 51]

  // ---------- ideal authenticated encryption ----------

  datatype Aead = Aead(
    seal: (seq<Byte>, seq<Byte>, seq<Byte>) -> seq<Byte>,
    open: (seq<Byte>, seq<Byte>, seq<Byte>) -> Option<seq<Byte>>)

  /** Opening inverts sealing, and a ciphertext that opens is the one sealing gives. */
  ghost predicate Tidy(a: Aead) {
    && (forall n, p, d :: |a.seal(n, p, d)| == |p| + OVERHEAD)
    && (forall n, p, d :: a.open(n, a.seal(n, p, d), d) == Some(p))
    && (forall n, c, d :: a.open(n, c, d).Some? ==> c == a.seal(n, a.open(n, c, d).value, d))
  }

  // ---------- fields ----------

  function Be32(n: nat): (r: seq<Byte>)
    requires n <= MAX32
    ensures |r| == 4
  {
    [n / 0x100_0000, n / 0x1_0000 % 0x100, n / 0x100 % 0x100, n % 0x100]
  }

  function FromBe32(s: seq<Byte>): (n: nat)
    requires |s| == 4
    ensures n <= MAX32
  {
    var a: int, b: int, c: int, d: int := s[0], s[1], s[2], s[3];
    a * 0x100_0000 + b * 0x1_0000 + c * 0x100 + d
  }

  lemma Be32RoundTrip(n: nat)
    requires n <= MAX32
    ensures FromBe32(Be32(n)) == n
  {
    var q, r := n / 0x100, n % 0x100;
    var q', r' := q / 0x100, q % 0x100;
    assert n / 0x1_0000 == q' && n / 0x100_0000 == q' / 0x100;
  }

  lemma Be32Exact(s: seq<Byte>)
    requires |s| == 4
    ensures Be32(FromBe32(s)) == s
  {
    var n := FromBe32(s);
    var a: int, b: int, c: int, d: int := s[0], s[1], s[2], s[3];
    assert n / 0x100 == a * 0x1_0000 + b * 0x100 + c;
    assert n / 0x1_0000 == a * 0x100 + b;
    assert n / 0x100_0000 == a;
  }

  function Nonce(prefix: seq<Byte>, counter: nat): seq<Byte>
    requires counter <= MAX32
  {
    prefix + Be32(counter)
  }

  function Aad(header: seq<Byte>, counter: nat, size: nat): seq<Byte>
    requires counter <= MAX32 && size <= MAX32
  {
    header + Be32(counter) + Be32(size)
  }

  /** Header, position and length can be read back off the authenticated data. */
  lemma AadInjective(h: seq<Byte>, c: nat, n: nat, h': seq<Byte>, c': nat, n': nat)
    requires c <= MAX32 && n <= MAX32 && c' <= MAX32 && n' <= MAX32
    requires Aad(h, c, n) == Aad(h', c', n')
    ensures h == h' && c == c' && n == n'
  {
    var a, b := Aad(h, c, n), Aad(h', c', n');
    var k := |h|;
    assert |h'| == k;
    assert a[..k] == h && a[k..k + 4] == Be32(c) && a[k + 4..] == Be32(n);
    assert b[..k] == h' && b[k..k + 4] == Be32(c') && b[k + 4..] == Be32(n');
    Be32RoundTrip(c);
    Be32RoundTrip(c');
    Be32RoundTrip(n);
    Be32RoundTrip(n');
  }

  /** Within one archive no nonce is used twice (section 8 of NIST SP 800-38D). */
  lemma NoncesAreUnique(prefix: seq<Byte>, i: nat, j: nat)
    requires i <= MAX32 && j <= MAX32 && Nonce(prefix, i) == Nonce(prefix, j)
    ensures i == j
  {
    var k := |prefix|;
    assert Nonce(prefix, i)[k..] == Be32(i) && Nonce(prefix, j)[k..] == Be32(j);
    Be32RoundTrip(i);
    Be32RoundTrip(j);
  }

  // ---------- what is written ----------

  function Header(salt: seq<Byte>, prefix: seq<Byte>): (h: seq<Byte>)
    requires |salt| == 16 && |prefix| == 8
    ensures |h| == HEADER
  {
    MAGIC + salt + prefix + Be32(CHUNK)
  }

  lemma HeaderFields(salt: seq<Byte>, prefix: seq<Byte>)
    requires |salt| == 16 && |prefix| == 8
    ensures var h := Header(salt, prefix);
      h[..8] == MAGIC && h[8..24] == salt && h[24..32] == prefix && FromBe32(h[32..]) == CHUNK
  {
    assert Header(salt, prefix)[32..] == Be32(CHUNK);
    Be32RoundTrip(CHUNK);
  }

  function Frame(a: Aead, header: seq<Byte>, prefix: seq<Byte>, counter: nat, payload: seq<Byte>): seq<Byte>
    requires counter <= MAX32 && |payload| <= MAX32
  {
    Be32(|payload|) + a.seal(Nonce(prefix, counter), payload, Aad(header, counter, |payload|))
  }

  function Take(data: seq<Byte>): seq<Byte> {
    if |data| <= CHUNK then data else data[..CHUNK]
  }

  /** The frames of `data` from position `counter` on; None when there would be too many. */
  function Frames(a: Aead, header: seq<Byte>, prefix: seq<Byte>, data: seq<Byte>, counter: nat): Option<seq<Byte>>
    requires counter <= MAX32
    decreases |data|
  {
    if counter == MAX32 then None
    else if data == [] then Some(Frame(a, header, prefix, counter, []))
    else
      match Frames(a, header, prefix, data[|Take(data)|..], counter + 1)
      case None => None
      case Some(rest) => Some(Frame(a, header, prefix, counter, Take(data)) + rest)
  }

  /** The whole archive. */
  function Encode(a: Aead, salt: seq<Byte>, prefix: seq<Byte>, data: seq<Byte>): Option<seq<Byte>>
    requires |salt| == 16 && |prefix| == 8
  {
    match Frames(a, Header(salt, prefix), prefix, data, 0)
    case None => None
    case Some(frames) => Some(Header(salt, prefix) + frames)
  }

  /** Number of frames that carry `n` bytes. */
  function FrameCount(n: nat): nat {
    (n + CHUNK - 1) / CHUNK
  }

  lemma {:induction false} FramesExist(a: Aead, header: seq<Byte>, prefix: seq<Byte>, data: seq<Byte>, counter: nat)
    requires counter <= MAX32
    ensures Frames(a, header, prefix, data, counter).Some? <==> counter + FrameCount(|data|) < MAX32
    decreases |data|
  {
    if counter < MAX32 && data != [] {
      FramesExist(a, header, prefix, data[|Take(data)|..], counter + 1);
    }
  }

  // ---------- what is read ----------

  datatype StreamError =
    | TooShort | BadMagic | BadChunkSize | NoTerminator | FrameTooLarge | TruncatedFrame | NotAuthentic | Trailing
    | TooManyChunks | ReadFailed | WriteFailed

  /** Accepted plaintext, or the error and what had been handed out before it. */
  datatype Decoded = Good(plain: seq<Byte>) | Bad(error: StreamError, plain: seq<Byte>)

  function Prepend(p: seq<Byte>, d: Decoded): Decoded {
    match d
    case Good(rest) => Good(p + rest)
    case Bad(e, rest) => Bad(e, p + rest)
  }

  /** The decoder's 32-bit frame counter wraps around. */
  function Next(counter: nat): (r: nat)
    requires counter <= MAX32
    ensures r <= MAX32
  {
    (counter + 1) % (MAX32 + 1)
  }

  /** Decodes the frames in `rest`, whose input really ends there. */
  function DecodeFrames(a: Aead, header: seq<Byte>, prefix: seq<Byte>, limit: nat, rest: seq<Byte>, counter: nat): Decoded
    requires counter <= MAX32
    decreases |rest|
  {
    if |rest| < 4 then Bad(NoTerminator, [])
    else
      var size := FromBe32(rest[..4]);
      if size > limit then Bad(FrameTooLarge, [])
      else if |rest| < 4 + size + OVERHEAD then Bad(TruncatedFrame, [])
      else
        match a.open(Nonce(prefix, counter), rest[4..4 + size + OVERHEAD], Aad(header, counter, size))
        case None => Bad(NotAuthentic, [])
        case Some(plain) =>
          var after := rest[4 + size + OVERHEAD..];
          if size == 0 then (if after == [] then Good([]) else Bad(Trailing, []))
          else Prepend(plain, DecodeFrames(a, header, prefix, limit, after, Next(counter)))
  }

  /** Decodes a complete input; `keyed` derives the cipher from the salt. */
  function Decode(keyed: seq<Byte> -> Aead, input: seq<Byte>): Decoded {
    if |input| < HEADER then Bad(TooShort, [])
    else
      var header := input[..HEADER];
      if header[..8] != MAGIC then Bad(BadMagic, [])
      else
        var limit := FromBe32(header[32..]);
        if limit < MIN_CHUNK || limit > MAX_CHUNK then Bad(BadChunkSize, [])
        else DecodeFrames(keyed(header[8..24]), header, header[24..32], limit, input[HEADER..], 0)
  }

  // ---------- one frame ----------

  lemma FrameLayout(a: Aead, header: seq<Byte>, prefix: seq<Byte>, counter: nat, payload: seq<Byte>, after: seq<Byte>)
    requires Tidy(a) && counter <= MAX32 && |payload| <= MAX32
    ensures var rest := Frame(a, header, prefix, counter, payload) + after;
      var n := 4 + |payload| + OVERHEAD;
      && |Frame(a, header, prefix, counter, payload)| == n
      && |rest| >= n && FromBe32(rest[..4]) == |payload| && rest[n..] == after
      && rest[4..n] == a.seal(Nonce(prefix, counter), payload, Aad(header, counter, |payload|))
  {
    var f := Frame(a, header, prefix, counter, payload);
    var rest := f + after;
    Be32RoundTrip(|payload|);
    assert rest[..4] == Be32(|payload|);
    assert rest[4..4 + |payload| + OVERHEAD] == f[4..];
  }

  /** The decoder takes one written frame off its input. */
  lemma FrameOpens(
    a: Aead, header: seq<Byte>, prefix: seq<Byte>, counter: nat, payload: seq<Byte>, after: seq<Byte>, limit: nat)
    requires Tidy(a) && counter < MAX32 && |payload| <= limit <= MAX32
    ensures DecodeFrames(a, header, prefix, limit, Frame(a, header, prefix, counter, payload) + after, counter)
         == if payload == [] then (if after == [] then Good([]) else Bad(Trailing, []))
            else Prepend(payload, DecodeFrames(a, header, prefix, limit, after, counter + 1))
  {
    hide Frame, Nonce, Aad, FromBe32, Be32, DecodeFrames;
    FrameLayout(a, header, prefix, counter, payload, after);
    OpensTo(a, Nonce(prefix, counter), payload, Aad(header, counter, |payload|));
    DecodeStep(a, header, prefix, limit, Frame(a, header, prefix, counter, payload) + after, counter, |payload|, payload);
  }

  lemma DecodeStep(
    a: Aead, header: seq<Byte>, prefix: seq<Byte>, limit: nat, rest: seq<Byte>, counter: nat, size: nat, plain: seq<Byte>)
    requires counter < MAX32 && size <= limit <= MAX32 && |rest| >= 4 + size + OVERHEAD && FromBe32(rest[..4]) == size
    requires a.open(Nonce(prefix, counter), rest[4..4 + size + OVERHEAD], Aad(header, counter, size)) == Some(plain)
    ensures var after := rest[4 + size + OVERHEAD..];
      DecodeFrames(a, header, prefix, limit, rest, counter)
         == if size == 0 then (if after == [] then Good([]) else Bad(Trailing, []))
            else Prepend(plain, DecodeFrames(a, header, prefix, limit, after, counter + 1))
  {
    hide Nonce, Aad, FromBe32;
  }

  lemma OpensTo(a: Aead, nonce: seq<Byte>, payload: seq<Byte>, aad: seq<Byte>)
    requires Tidy(a)
    ensures a.open(nonce, a.seal(nonce, payload, aad), aad) == Some(payload)
  {
  }

  lemma TakeRest(data: seq<Byte>)
    ensures Take(data) + data[|Take(data)|..] == data
    ensures |Take(data)| <= CHUNK && (data != [] ==> Take(data) != [])
  {
  }

  // ---------- round trip, truncation, trailing data ----------

  lemma {:induction false} FramesRoundTrip(
    a: Aead, header: seq<Byte>, prefix: seq<Byte>, data: seq<Byte>, counter: nat, extra: seq<Byte>)
    requires Tidy(a) && counter <= MAX32 && Frames(a, header, prefix, data, counter).Some?
    ensures DecodeFrames(a, header, prefix, CHUNK, Frames(a, header, prefix, data, counter).value + extra, counter)
         == if extra == [] then Good(data) else Bad(Trailing, data)
    decreases |data|
  {
    hide Frame, DecodeFrames;
    if data == [] {
      FrameOpens(a, header, prefix, counter, [], extra, CHUNK);
    } else {
      var head, tail := Take(data), data[|Take(data)|..];
      TakeRest(data);
      hide Take;
      FramesRoundTrip(a, header, prefix, tail, counter + 1, extra);
      var rest := Frames(a, header, prefix, tail, counter + 1).value;
      FrameOpens(a, header, prefix, counter, head, rest + extra, CHUNK);
      assert Frames(a, header, prefix, data, counter).value + extra
          == Frame(a, header, prefix, counter, head) + (rest + extra);
    }
  }

  lemma InputParts(keyed: seq<Byte> -> Aead, salt: seq<Byte>, prefix: seq<Byte>, rest: seq<Byte>)
    requires |salt| == 16 && |prefix| == 8
    ensures Decode(keyed, Header(salt, prefix) + rest)
         == DecodeFrames(keyed(salt), Header(salt, prefix), prefix, CHUNK, rest, 0)
  {
    var input := Header(salt, prefix) + rest;
    assert input[..HEADER] == Header(salt, prefix) && input[HEADER..] == rest;
    HeaderFields(salt, prefix);
    hide Header, DecodeFrames, FromBe32;
  }

  /** Decoding inverts encoding, for every plaintext the format can carry. */
  lemma RoundTrip(keyed: seq<Byte> -> Aead, salt: seq<Byte>, prefix: seq<Byte>, data: seq<Byte>)
    requires |salt| == 16 && |prefix| == 8 && Tidy(keyed(salt)) && FrameCount(|data|) < MAX32
    ensures Encode(keyed(salt), salt, prefix, data).Some?
    ensures Decode(keyed, Encode(keyed(salt), salt, prefix, data).value) == Good(data)
  {
    var a, header := keyed(salt), Header(salt, prefix);
    FramesExist(a, header, prefix, data, 0);
    var frames := Frames(a, header, prefix, data, 0).value;
    FramesRoundTrip(a, header, prefix, data, 0, []);
    assert frames + [] == frames;
    InputParts(keyed, salt, prefix, frames);
  }

  /** Anything appended to an archive is noticed. */
  lemma TrailingDataIsRejected(keyed: seq<Byte> -> Aead, salt: seq<Byte>, prefix: seq<Byte>, data: seq<Byte>, extra: seq<Byte>)
    requires |salt| == 16 && |prefix| == 8 && Tidy(keyed(salt)) && extra != []
    requires Encode(keyed(salt), salt, prefix, data).Some?
    ensures Decode(keyed, Encode(keyed(salt), salt, prefix, data).value + extra) == Bad(Trailing, data)
  {
    var a, header := keyed(salt), Header(salt, prefix);
    var frames := Frames(a, header, prefix, data, 0).value;
    FramesRoundTrip(a, header, prefix, data, 0, extra);
    assert header + frames + extra == header + (frames + extra);
    InputParts(keyed, salt, prefix, frames + extra);
  }

  lemma CutFrameFails(a: Aead, header: seq<Byte>, prefix: seq<Byte>, counter: nat, payload: seq<Byte>, k: nat)
    requires Tidy(a) && counter <= MAX32 && |payload| <= CHUNK && k < |Frame(a, header, prefix, counter, payload)|
    ensures var d := DecodeFrames(a, header, prefix, CHUNK, Frame(a, header, prefix, counter, payload)[..k], counter);
      d == Bad(NoTerminator, []) || d == Bad(TruncatedFrame, [])
  {
    var f := Frame(a, header, prefix, counter, payload);
    FrameLayout(a, header, prefix, counter, payload, []);
    assert f + [] == f;
    if k >= 4 { assert f[..k][..4] == f[..4]; }
  }

  lemma {:induction false} CutFramesFail(a: Aead, header: seq<Byte>, prefix: seq<Byte>, data: seq<Byte>, counter: nat, k: nat)
    requires Tidy(a) && counter <= MAX32 && Frames(a, header, prefix, data, counter).Some?
    requires k < |Frames(a, header, prefix, data, counter).value|
    ensures var d := DecodeFrames(a, header, prefix, CHUNK, Frames(a, header, prefix, data, counter).value[..k], counter);
      d.Bad? && d.plain <= data && (d.error == NoTerminator || d.error == TruncatedFrame)
    decreases |data|
  {
    hide Frame, DecodeFrames;
    var whole := Frames(a, header, prefix, data, counter).value;
    if data == [] {
      CutFrameFails(a, header, prefix, counter, [], k);
    } else {
      var head, tail := Take(data), data[|Take(data)|..];
      TakeRest(data);
      hide Take;
      var f, rest := Frame(a, header, prefix, counter, head), Frames(a, header, prefix, tail, counter + 1).value;
      if k < |f| {
        assert whole[..k] == f[..k];
        CutFrameFails(a, header, prefix, counter, head, k);
      } else {
        assert whole[..k] == f + rest[..k - |f|];
        CutFramesFail(a, header, prefix, tail, counter + 1, k - |f|);
        FrameOpens(a, header, prefix, counter, head, rest[..k - |f|], CHUNK);
      }
    }
  }

  /** Every truncation is noticed, at a frame boundary too, and what came out is a prefix of the plaintext. */
  lemma TruncationIsRejected(keyed: seq<Byte> -> Aead, salt: seq<Byte>, prefix: seq<Byte>, data: seq<Byte>, k: nat)
    requires |salt| == 16 && |prefix| == 8 && Tidy(keyed(salt)) && Encode(keyed(salt), salt, prefix, data).Some?
    requires k < |Encode(keyed(salt), salt, prefix, data).value|
    ensures var d := Decode(keyed, Encode(keyed(salt), salt, prefix, data).value[..k]); d.Bad? && d.plain <= data
  {
    var a, header := keyed(salt), Header(salt, prefix);
    var frames := Frames(a, header, prefix, data, 0).value;
    if k >= HEADER {
      assert (header + frames)[..k] == header + frames[..k - HEADER];
      CutFramesFail(a, header, prefix, data, 0, k - HEADER);
      InputParts(keyed, salt, prefix, frames[..k - HEADER]);
    }
  }

  // ---------- authenticity ----------

  /** An archive somebody wrote under the key. */
  datatype Archive = Archive(salt: seq<Byte>, prefix: seq<Byte>, data: seq<Byte>)

  predicate Writable(r: Archive) {
    |r.salt| == 16 && |r.prefix| == 8 && FrameCount(|r.data|) < MAX32
  }

  /** The payload of frame `i`: a full chunk, the rest, or the empty terminator. */
  function Payload(data: seq<Byte>, i: nat): seq<Byte>
    decreases i
  {
    if i == 0 then Take(data) else Payload(data[|Take(data)|..], i - 1)
  }

  /** The encryption of frame `i` of archive `r`: its nonce, its bound data, its ciphertext. */
  ghost predicate SealedAs(a: Aead, r: Archive, i: nat, nonce: seq<Byte>, aad: seq<Byte>, cipher: seq<Byte>)
    requires Writable(r)
  {
    && i <= FrameCount(|r.data|)
    && |Payload(r.data, i)| <= MAX32
    && nonce == Nonce(r.prefix, i) && aad == Aad(Header(r.salt, r.prefix), i, |Payload(r.data, i)|)
    && cipher == a.seal(nonce, Payload(r.data, i), aad)
  }

  /** Some archive sealed exactly this; if not, opening it is a forgery. */
  ghost predicate WasSealed(archives: seq<Archive>, salt: seq<Byte>, a: Aead, nonce: seq<Byte>, aad: seq<Byte>, cipher: seq<Byte>) {
    exists k, i: nat :: 0 <= k < |archives| && Writable(archives[k]) && archives[k].salt == salt
      && SealedAs(a, archives[k], i, nonce, aad, cipher)
  }

  /** Everything the decoder opens while reading `rest` was sealed by one of the archives. */
  ghost predicate NoForgery(
    archives: seq<Archive>, salt: seq<Byte>, a: Aead, header: seq<Byte>, prefix: seq<Byte>, limit: nat, rest: seq<Byte>, counter: nat)
    requires counter <= MAX32
    decreases |rest|
  {
    if |rest| < 4 then true
    else
      var size := FromBe32(rest[..4]);
      if size > limit || |rest| < 4 + size + OVERHEAD then true
      else
        var nonce, aad, cipher := Nonce(prefix, counter), Aad(header, counter, size), rest[4..4 + size + OVERHEAD];
        a.open(nonce, cipher, aad).Some? ==>
          && WasSealed(archives, salt, a, nonce, aad, cipher)
          && NoForgery(archives, salt, a, header, prefix, limit, rest[4 + size + OVERHEAD..], Next(counter))
  }

  /** Salt and nonce prefix are drawn at random: no two archives share both. */
  predicate DistinctHeaders(archives: seq<Archive>) {
    forall j, k :: 0 <= j < k < |archives| && Writable(archives[j]) && Writable(archives[k]) ==>
      Header(archives[j].salt, archives[j].prefix) != Header(archives[k].salt, archives[k].prefix)
  }

  function Skip(data: seq<Byte>, i: nat): seq<Byte>
    decreases i
  {
    if i == 0 then data else Skip(data[|Take(data)|..], i - 1)
  }

  lemma {:induction false} SkipAndPayload(data: seq<Byte>, i: nat)
    ensures Payload(data, i) == Take(Skip(data, i))
    ensures Skip(data, i + 1) == Skip(data, i)[|Take(Skip(data, i))|..]
    ensures i <= FrameCount(|data|) ==> FrameCount(|Skip(data, i)|) == FrameCount(|data|) - i
    decreases i
  {
    if i > 0 {
      SkipAndPayload(data[|Take(data)|..], i - 1);
      if data != [] { OneFrameLess(data); }
    }
  }

  lemma OneFrameLess(data: seq<Byte>)
    requires data != []
    ensures FrameCount(|data[|Take(data)|..]|) == FrameCount(|data|) - 1
  {
  }

  /** What the decoder hands out from frame `i` on, if nothing was forged, comes from the archive's plaintext. */
  ghost predicate FollowsArchive(a: Aead, r: Archive, rest: seq<Byte>, i: nat, d: Decoded)
    requires Writable(r) && i <= MAX32
  {
    && d.plain <= Skip(r.data, i)
    && (d.Good? ==> i <= FrameCount(|r.data|) && d.plain == Skip(r.data, i)
                    && Frames(a, Header(r.salt, r.prefix), r.prefix, Skip(r.data, i), i) == Some(rest))
  }

  /** An opened frame with the header of `r` is frame `counter` of `r`, bytes and all. */
  lemma OpenedFrameIsTheArchives(archives: seq<Archive>, k: nat, a: Aead, rest: seq<Byte>, counter: nat)
    requires DistinctHeaders(archives) && k < |archives| && Writable(archives[k]) && Tidy(a) && counter <= MAX32
    requires |rest| >= 4 && FromBe32(rest[..4]) <= CHUNK && |rest| >= 4 + FromBe32(rest[..4]) + OVERHEAD
    requires var r, size := archives[k], FromBe32(rest[..4]);
      WasSealed(archives, r.salt, a, Nonce(r.prefix, counter), Aad(Header(r.salt, r.prefix), counter, size),
                rest[4..4 + size + OVERHEAD])
    ensures var r, size := archives[k], FromBe32(rest[..4]);
      && counter <= FrameCount(|r.data|) && |Payload(r.data, counter)| == size
      && rest == Frame(a, Header(r.salt, r.prefix), r.prefix, counter, Payload(r.data, counter)) + rest[4 + size + OVERHEAD..]
  {
    var r, size := archives[k], FromBe32(rest[..4]);
    var nonce, aad := Nonce(r.prefix, counter), Aad(Header(r.salt, r.prefix), counter, size);
    var cipher := rest[4..4 + size + OVERHEAD];
    var j, i: nat :| 0 <= j < |archives| && Writable(archives[j]) && archives[j].salt == r.salt
                     && SealedAs(a, archives[j], i, nonce, aad, cipher);
    var s := archives[j];
    FramesFit(s, i);
    AadInjective(Header(r.salt, r.prefix), counter, size, Header(s.salt, s.prefix), i, |Payload(s.data, i)|);
    assert j == k;
    Be32Exact(rest[..4]);
    assert rest == rest[..4] + cipher + rest[4 + size + OVERHEAD..];
  }

  lemma FramesFit(r: Archive, i: nat)
    requires Writable(r) && i <= FrameCount(|r.data|)
    ensures i < MAX32 && |Payload(r.data, i)| <= CHUNK
  {
    SkipAndPayload(r.data, i);
  }

  lemma {:induction false} NoForgeryFollows(archives: seq<Archive>, k: nat, a: Aead, rest: seq<Byte>, counter: nat)
    requires DistinctHeaders(archives) && k < |archives| && Writable(archives[k]) && Tidy(a) && counter <= MAX32
    requires NoForgery(archives, archives[k].salt, a, Header(archives[k].salt, archives[k].prefix), archives[k].prefix, CHUNK, rest, counter)
    ensures var r := archives[k];
      FollowsArchive(a, r, rest, counter, DecodeFrames(a, Header(r.salt, r.prefix), r.prefix, CHUNK, rest, counter))
    decreases |rest|
  {
    hide Frame, Header, Take, Skip, Payload, Nonce, Aad, FromBe32, WasSealed, Tidy, FollowsArchive, DistinctHeaders;
    var r := archives[k];
    var header := Header(r.salt, r.prefix);
    if FirstFrameOpens(a, header, r.prefix, CHUNK, rest, counter) {
      var after := rest[4 + FromBe32(rest[..4]) + OVERHEAD..];
      OpenedFrameIsTheArchives(archives, k, a, rest, counter);
      FramesFit(r, counter);
      var payload := Payload(r.data, counter);
      hide DecodeFrames;
      FrameOpens(a, header, r.prefix, counter, payload, after, CHUNK);
      SkipAndPayload(r.data, counter);
      TakeRest(Skip(r.data, counter));
      if payload != [] {
        NoForgeryFollows(archives, k, a, after, counter + 1);
        hide NoForgery;
        StepFollows(a, r, rest, after, counter);
      } else {
        hide NoForgery;
        LastFollows(a, r, rest, after, counter);
      }
    } else {
      NothingFollows(a, r, rest, counter, DecodeFrames(a, header, r.prefix, CHUNK, rest, counter));
    }
  }

  /** Whether the decoder gets past its first frame. */
  predicate FirstFrameOpens(a: Aead, header: seq<Byte>, prefix: seq<Byte>, limit: nat, rest: seq<Byte>, counter: nat)
    requires counter <= MAX32 && limit <= MAX32
  {
    && |rest| >= 4 && FromBe32(rest[..4]) <= limit && |rest| >= 4 + FromBe32(rest[..4]) + OVERHEAD
    && a.open(Nonce(prefix, counter), rest[4..4 + FromBe32(rest[..4]) + OVERHEAD], Aad(header, counter, FromBe32(rest[..4]))).Some?
  }

  lemma NothingFollows(a: Aead, r: Archive, rest: seq<Byte>, counter: nat, d: Decoded)
    requires Writable(r) && counter <= MAX32 && d.Bad? && d.plain == []
    ensures FollowsArchive(a, r, rest, counter, d)
  {
  }

  lemma LastFollows(a: Aead, r: Archive, rest: seq<Byte>, after: seq<Byte>, counter: nat)
    requires Writable(r) && counter < MAX32 && counter <= FrameCount(|r.data|) && Skip(r.data, counter) == []
    requires rest == Frame(a, Header(r.salt, r.prefix), r.prefix, counter, []) + after
    ensures FollowsArchive(a, r, rest, counter, if after == [] then Good([]) else Bad(Trailing, []))
  {
    hide Header, Skip;
    var f := Frame(a, Header(r.salt, r.prefix), r.prefix, counter, []);
    hide Frame;
    assert f + [] == f;
  }

  lemma StepFollows(a: Aead, r: Archive, rest: seq<Byte>, after: seq<Byte>, counter: nat)
    requires Writable(r) && counter < MAX32 && counter <= FrameCount(|r.data|) && Skip(r.data, counter) != []
    requires var left, header := Skip(r.data, counter), Header(r.salt, r.prefix);
      && Payload(r.data, counter) == Take(left) && Skip(r.data, counter + 1) == left[|Take(left)|..]
      && rest == Frame(a, header, r.prefix, counter, Take(left)) + after
    requires FollowsArchive(a, r, after, counter + 1,
                            DecodeFrames(a, Header(r.salt, r.prefix), r.prefix, CHUNK, after, counter + 1))
    ensures FollowsArchive(a, r, rest, counter,
              Prepend(Payload(r.data, counter), DecodeFrames(a, Header(r.salt, r.prefix), r.prefix, CHUNK, after, counter + 1)))
  {
    hide Frame, DecodeFrames, Header, Skip, Payload;
    TakeRest(Skip(r.data, counter));
    hide Take;
  }

  ghost predicate NoForgeryIn(archives: seq<Archive>, keyed: seq<Byte> -> Aead, input: seq<Byte>) {
    |input| >= HEADER ==>
      NoForgery(archives, input[8..24], keyed(input[8..24]), input[..HEADER], input[24..32], FromBe32(input[32..HEADER]),
                input[HEADER..], 0)
  }

  /** If the decoder opens anything at all, the header is that of an archive that was written. */
  lemma OpenedHeaderIsKnown(archives: seq<Archive>, salt: seq<Byte>, a: Aead, header: seq<Byte>, prefix: seq<Byte>, limit: nat, rest: seq<Byte>)
    returns (k: nat)
    requires NoForgery(archives, salt, a, header, prefix, limit, rest, 0) && limit <= MAX32
    requires var d := DecodeFrames(a, header, prefix, limit, rest, 0); d.Good? || d.plain != []
    ensures k < |archives| && Writable(archives[k]) && archives[k].salt == salt
    ensures Header(archives[k].salt, archives[k].prefix) == header
  {
    var size := FromBe32(rest[..4]);
    var nonce, aad, cipher := Nonce(prefix, 0), Aad(header, 0, size), rest[4..4 + size + OVERHEAD];
    assert WasSealed(archives, salt, a, nonce, aad, cipher);
    var j, i: nat :| 0 <= j < |archives| && Writable(archives[j]) && archives[j].salt == salt
                     && SealedAs(a, archives[j], i, nonce, aad, cipher);
    k := j;
    var s := archives[k];
    FramesFit(s, i);
    AadInjective(header, 0, size, Header(s.salt, s.prefix), i, |Payload(s.data, i)|);
  }

  /** `input` is, byte for byte, one of the archives that were written, and carries `plain`. */
  ghost predicate IsWritten(archives: seq<Archive>, keyed: seq<Byte> -> Aead, input: seq<Byte>, plain: seq<Byte>) {
    exists k :: 0 <= k < |archives| && Writable(archives[k]) && archives[k].data == plain
      && Encode(keyed(archives[k].salt), archives[k].salt, archives[k].prefix, plain) == Some(input)
  }

  /**
   Nothing but an archive that was written is accepted: no truncation, reordering, dropping,
   duplication, splicing or trailing data, unless some frame was forged. On rejection the bytes
   handed out are a prefix of one archive's plaintext.
   */
  lemma OnlyWrittenArchivesAreAccepted(archives: seq<Archive>, keyed: seq<Byte> -> Aead, input: seq<Byte>)
    requires DistinctHeaders(archives) && (forall salt :: Tidy(keyed(salt))) && NoForgeryIn(archives, keyed, input)
    ensures var d := Decode(keyed, input);
      d.Good? ==> IsWritten(archives, keyed, input, d.plain)
    ensures var d := Decode(keyed, input);
      d.plain != [] ==> exists k :: 0 <= k < |archives| && d.plain <= archives[k].data
  {
    var d := Decode(keyed, input);
    if d.Good? || d.plain != [] {
      var header, rest := input[..HEADER], input[HEADER..];
      var salt, prefix, limit := header[8..24], header[24..32], FromBe32(header[32..]);
      assert input[8..24] == salt && input[24..32] == prefix && input[32..HEADER] == header[32..];
      var k := OpenedHeaderIsKnown(archives, salt, keyed(salt), header, prefix, limit, rest);
      var r := archives[k];
      HeaderFields(r.salt, r.prefix);
      assert r.prefix == prefix && limit == CHUNK;
      NoForgeryFollows(archives, k, keyed(salt), rest, 0);
      assert input == header + rest;
      assert Skip(r.data, 0) == r.data;
      hide DecodeFrames, NoForgery, Frames, Header;
      if d.Good? {
        assert archives[k].data == d.plain && Encode(keyed(r.salt), r.salt, r.prefix, d.plain) == Some(input);
      }
    }
  }
}
