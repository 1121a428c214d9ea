/**
 Which inputs the decoder accepts, and with which error it rejects the others, said on the format
 alone: a header with any frame size in range, sealed frames no larger than that in their order, a
 sealed empty frame, and the end.
 */
module BackupFormat {
  import opened PeriodKeys
  import opened BackupStream

  /** A header with its own frame size. */
  predicate IsHeader(h: seq<Byte>, salt: seq<Byte>, prefix: seq<Byte>, limit: nat) {
    && |h| == 36 && |salt| == 16 && |prefix| == 8 && limit <= MAX32
    && h[..8] == [80, 75, 82, 82, 66, 75, 48, 51] && h[8..24] == salt && h[24..32] == prefix
    && h[32..] == Be32(limit)
  }

  /** Frame sizes from 4 KiB to 16 MiB. */
  predicate InRange(limit: nat) {
    4096 <= limit <= 16777216
  }

  predicate Fits(payloads: seq<seq<Byte>>, limit: nat) {
    limit <= MAX32 && forall k :: 0 <= k < |payloads| ==> 0 < |payloads[k]| <= limit
  }

  /** One sealed frame at a position; positions are counted modulo 2^32. */
  function FrameAt(a: Aead, header: seq<Byte>, prefix: seq<Byte>, position: nat, payload: seq<Byte>): seq<Byte>
    requires |payload| <= MAX32
  {
    var n := position % 0x1_0000_0000;
    Be32(|payload|) + a.seal(prefix + Be32(n), payload, header + Be32(n) + Be32(|payload|))
  }

  /** The frames of the payloads from a position on. */
  function FramesFrom(a: Aead, header: seq<Byte>, prefix: seq<Byte>, payloads: seq<seq<Byte>>, position: nat): seq<Byte>
    requires Fits(payloads, MAX32)
    decreases |payloads|
  {
    if payloads == [] then []
    else FrameAt(a, header, prefix, position, payloads[0]) + FramesFrom(a, header, prefix, payloads[1..], position + 1)
  }

  function Joined(payloads: seq<seq<Byte>>): seq<Byte> {
    if payloads == [] then [] else payloads[0] + Joined(payloads[1..])
  }

  /** No plaintext seals to this. */
  ghost predicate SealsNothing(a: Aead, nonce: seq<Byte>, cipher: seq<Byte>, aad: seq<Byte>) {
    forall plain :: a.seal(nonce, plain, aad) != cipher
  }

  /** What the decoder makes of the input behind the last good frame, at its position. */
  ghost predicate EndsWith(a: Aead, header: seq<Byte>, prefix: seq<Byte>, limit: nat, after: seq<Byte>, position: nat, d: Decoded) {
    var n := position % 0x1_0000_0000;
    if |after| < 4 then d.Bad? && d.error == NoTerminator
    else
      var size := FromBe32(after[..4]);
      if size > limit then d.Bad? && d.error == FrameTooLarge
      else if |after| < size + 20 then d.Bad? && d.error == TruncatedFrame
      else if SealsNothing(a, prefix + Be32(n), after[4..size + 20], header + Be32(n) + Be32(size))
      then d.Bad? && d.error == NotAuthentic
      else size == 0 && (if |after| == 20 then d.Good? else d.Bad? && d.error == Trailing)
  }

  lemma OpensIff(a: Aead, nonce: seq<Byte>, cipher: seq<Byte>, aad: seq<Byte>)
    requires Tidy(a)
    ensures a.open(nonce, cipher, aad).None? <==> SealsNothing(a, nonce, cipher, aad)
    ensures a.open(nonce, cipher, aad).Some? ==> cipher == a.seal(nonce, a.open(nonce, cipher, aad).value, aad)
    ensures a.open(nonce, cipher, aad).Some? ==> |cipher| == |a.open(nonce, cipher, aad).value| + 16
  {
    if !SealsNothing(a, nonce, cipher, aad) {
      var plain :| a.seal(nonce, plain, aad) == cipher;
      assert a.open(nonce, a.seal(nonce, plain, aad), aad) == Some(plain);
    }
  }

  lemma PositionWraps(position: nat)
    ensures Next(position % 0x1_0000_0000) == (position + 1) % 0x1_0000_0000
  {
  }

  /**
   The decoder takes good frames off its input as long as there are any, hands out exactly their
   payloads, and judges what is left.
   */
  lemma {:induction false} DecodesFrames(
    a: Aead, header: seq<Byte>, prefix: seq<Byte>, limit: nat, rest: seq<Byte>, position: nat)
    returns (payloads: seq<seq<Byte>>, after: seq<Byte>)
    requires Tidy(a) && limit <= MAX32
    ensures Fits(payloads, limit) && rest == FramesFrom(a, header, prefix, payloads, position) + after
    ensures var d := DecodeFrames(a, header, prefix, limit, rest, position % 0x1_0000_0000);
      d.plain == Joined(payloads) && EndsWith(a, header, prefix, limit, after, position + |payloads|, d)
    decreases |rest|
  {
    hide FromBe32, Be32, EndsWith, SealsNothing, DecodeFrames, FrameAt, Fits;
    payloads, after := [], rest;
    assert [] + rest == rest && Fits([], limit) by { NoPayloads(limit); }
    var step := FirstStep(a, header, prefix, limit, rest, position);
    if step.Some? {
      PositionWraps(position);
      var p, tail := step.value, rest[|step.value| + 20..];
      var more;
      more, after := DecodesFrames(a, header, prefix, limit, tail, position + 1);
      payloads := OneMore(a, header, prefix, limit, p, more, after, position);
      EndsAlike(a, header, prefix, limit, after, position + |payloads|, p,
                DecodeFrames(a, header, prefix, limit, tail, (position + 1) % 0x1_0000_0000));
    }
  }

  lemma NoPayloads(limit: nat)
    requires limit <= MAX32
    ensures Fits([], limit)
  {
  }

  lemma OneMore(
    a: Aead, header: seq<Byte>, prefix: seq<Byte>, limit: nat, p: seq<Byte>, more: seq<seq<Byte>>, after: seq<Byte>, position: nat)
    returns (payloads: seq<seq<Byte>>)
    requires 0 < |p| <= limit && Fits(more, limit)
    ensures |payloads| == 1 + |more| && Fits(payloads, limit) && Joined(payloads) == p + Joined(more)
    ensures FrameAt(a, header, prefix, position, p) + (FramesFrom(a, header, prefix, more, position + 1) + after)
         == FramesFrom(a, header, prefix, payloads, position) + after
  {
    hide FrameAt;
    payloads := [p] + more;
    assert payloads[1..] == more;
  }

  /** Handing out more before it does not change the verdict. */
  lemma EndsAlike(
    a: Aead, header: seq<Byte>, prefix: seq<Byte>, limit: nat, after: seq<Byte>, position: nat, p: seq<Byte>, d: Decoded)
    requires EndsWith(a, header, prefix, limit, after, position, d)
    ensures EndsWith(a, header, prefix, limit, after, position, Prepend(p, d))
  {
    hide SealsNothing, FromBe32, Be32;
  }

  /** Either the input starts with a good frame, or the decoder ends here. */
  lemma FirstStep(a: Aead, header: seq<Byte>, prefix: seq<Byte>, limit: nat, rest: seq<Byte>, position: nat)
    returns (payload: Option<seq<Byte>>)
    requires Tidy(a) && limit <= MAX32
    ensures var n := position % 0x1_0000_0000;
      var d := DecodeFrames(a, header, prefix, limit, rest, n);
      match payload
      case None => d.plain == [] && EndsWith(a, header, prefix, limit, rest, position, d)
      case Some(p) =>
        && 0 < |p| <= limit && |rest| >= |p| + 20
        && rest == FrameAt(a, header, prefix, position, p) + rest[|p| + 20..]
        && d == Prepend(p, DecodeFrames(a, header, prefix, limit, rest[|p| + 20..], Next(n)))
  {
    var n := position % 0x1_0000_0000;
    payload := None;
    if |rest| >= 4 {
      var size := FromBe32(rest[..4]);
      Be32Exact(rest[..4]);
      if size <= limit && |rest| >= size + 20 {
        var cipher := rest[4..size + 20];
        OpensIff(a, Nonce(prefix, n), cipher, Aad(header, n, size));
        var found := a.open(Nonce(prefix, n), cipher, Aad(header, n, size));
        if found.Some? && size != 0 {
          payload := found;
          assert rest[..size + 20] == FrameAt(a, header, prefix, position, found.value) by {
            assert rest[..size + 20] == rest[..4] + cipher;
          }
        }
      }
    }
    hide FromBe32, Be32, SealsNothing, FrameAt;
  }

  /** The header's verdict, before any frame. */
  predicate BadHeader(input: seq<Byte>, error: StreamError) {
    || (|input| < 36 && error == TooShort)
    || (|input| >= 36 && input[..8] != [80, 75, 82, 82, 66, 75, 48, 51] && error == BadMagic)
    || (|input| >= 36 && input[..8] == [80, 75, 82, 82, 66, 75, 48, 51] && !InRange(FromBe32(input[32..36])) && error == BadChunkSize)
  }

  lemma HeaderParts(input: seq<Byte>)
    requires |input| >= 36
    ensures input[..36][..8] == input[..8] && input[..36][8..24] == input[8..24]
    ensures input[..36][24..32] == input[24..32] && input[..36][32..] == input[32..36]
  {
  }

  /**
   Every input is rejected for its header, or has a header followed by good frames and then what the
   decoder judges it by. What it hands out is exactly what those frames hold.
   */
  lemma EveryInputIsJudged(keyed: seq<Byte> -> Aead, input: seq<Byte>)
    returns (salt: seq<Byte>, prefix: seq<Byte>, limit: nat, payloads: seq<seq<Byte>>, after: seq<Byte>)
    requires forall s :: Tidy(keyed(s))
    ensures var d := Decode(keyed, input);
      if |input| < 36 || input[..8] != [80, 75, 82, 82, 66, 75, 48, 51] || !InRange(FromBe32(input[32..36])) then
        d.Bad? && d.plain == [] && BadHeader(input, d.error)
      else
        && IsHeader(input[..36], salt, prefix, limit) && InRange(limit) && Fits(payloads, limit)
        && input[36..] == FramesFrom(keyed(salt), input[..36], prefix, payloads, 0) + after
        && d.plain == Joined(payloads) && EndsWith(keyed(salt), input[..36], prefix, limit, after, |payloads|, d)
  {
    hide FromBe32, Be32, EndsWith, DecodeFrames, FramesFrom, Joined;
    salt, prefix, limit, payloads, after := [], [], 0, [], [];
    if |input| >= 36 {
      HeaderParts(input);
      Be32Exact(input[32..36]);
      limit := FromBe32(input[32..36]);
      salt, prefix := input[8..24], input[24..32];
      if InRange(limit) {
        payloads, after := DecodesFrames(keyed(salt), input[..36], prefix, limit, input[36..], 0);
      }
    }
  }

  // ---------- and the other way round ----------

  /** A whole archive of the format. */
  predicate IsArchive(
    keyed: seq<Byte> -> Aead, input: seq<Byte>, salt: seq<Byte>, prefix: seq<Byte>, limit: nat, payloads: seq<seq<Byte>>)
  {
    && |input| >= 36 && IsHeader(input[..36], salt, prefix, limit) && InRange(limit) && Fits(payloads, limit)
    && input[36..] == FramesFrom(keyed(salt), input[..36], prefix, payloads, 0)
                      + FrameAt(keyed(salt), input[..36], prefix, |payloads|, [])
  }

  lemma FrameTaken(
    a: Aead, header: seq<Byte>, prefix: seq<Byte>, limit: nat, payload: seq<Byte>, after: seq<Byte>, position: nat)
    requires Tidy(a) && |payload| <= limit <= MAX32
    ensures var n := position % 0x1_0000_0000;
      DecodeFrames(a, header, prefix, limit, FrameAt(a, header, prefix, position, payload) + after, n)
        == if payload == [] then (if after == [] then Good([]) else Bad(Trailing, []))
           else Prepend(payload, DecodeFrames(a, header, prefix, limit, after, Next(n)))
  {
    var n := position % 0x1_0000_0000;
    FrameLayout(a, header, prefix, n, payload, after);
    assert FrameAt(a, header, prefix, position, payload) == Frame(a, header, prefix, n, payload);
    OpensTo(a, Nonce(prefix, n), payload, Aad(header, n, |payload|));
    hide Frame, FrameAt, Nonce, Aad, FromBe32, Be32;
  }

  lemma {:induction false} FramesTaken(
    a: Aead, header: seq<Byte>, prefix: seq<Byte>, limit: nat, payloads: seq<seq<Byte>>, position: nat)
    requires Tidy(a) && Fits(payloads, limit)
    ensures DecodeFrames(a, header, prefix, limit,
              FramesFrom(a, header, prefix, payloads, position) + FrameAt(a, header, prefix, position + |payloads|, []),
              position % 0x1_0000_0000) == Good(Joined(payloads))
    decreases |payloads|
  {
    hide DecodeFrames, FrameAt;
    var last := FrameAt(a, header, prefix, position + |payloads|, []);
    if payloads == [] {
      FrameTaken(a, header, prefix, limit, [], [], position);
      assert [] + last == last + [];
    } else {
      FramesTaken(a, header, prefix, limit, payloads[1..], position + 1);
      PositionWraps(position);
      var more := FramesFrom(a, header, prefix, payloads[1..], position + 1);
      FrameTaken(a, header, prefix, limit, payloads[0], more + last, position);
      assert FramesFrom(a, header, prefix, payloads, position) + last
          == FrameAt(a, header, prefix, position, payloads[0]) + (more + last);
    }
  }

  /** Accepted is exactly what is an archive of the format, whatever its frame size, with exactly its payloads. */
  lemma AcceptedIffArchive(keyed: seq<Byte> -> Aead, input: seq<Byte>, plain: seq<Byte>)
    requires forall s :: Tidy(keyed(s))
    ensures Decode(keyed, input) == Good(plain)
      <==> exists salt, prefix, limit, payloads :: IsArchive(keyed, input, salt, prefix, limit, payloads) && plain == Joined(payloads)
  {
    hide DecodeFrames, FramesFrom, FrameAt, FromBe32, Be32;
    if Decode(keyed, input) == Good(plain) {
      var salt, prefix, limit, payloads, after := EveryInputIsJudged(keyed, input);
      TerminatorIs(keyed(salt), input[..36], prefix, limit, after, |payloads|, Decode(keyed, input));
      assert IsArchive(keyed, input, salt, prefix, limit, payloads);
    }
    if exists salt, prefix, limit, payloads :: IsArchive(keyed, input, salt, prefix, limit, payloads) && plain == Joined(payloads) {
      var salt, prefix, limit, payloads :| IsArchive(keyed, input, salt, prefix, limit, payloads) && plain == Joined(payloads);
      HeaderParts(input);
      Be32RoundTrip(limit);
      FramesTaken(keyed(salt), input[..36], prefix, limit, payloads, 0);
    }
  }

  /** An accepted rest is the sealed empty frame. */
  lemma TerminatorIs(a: Aead, header: seq<Byte>, prefix: seq<Byte>, limit: nat, after: seq<Byte>, position: nat, d: Decoded)
    requires Tidy(a) && d.Good? && EndsWith(a, header, prefix, limit, after, position, d)
    ensures after == FrameAt(a, header, prefix, position, [])
  {
    var n := position % 0x1_0000_0000;
    var size := FromBe32(after[..4]);
    Be32Exact(after[..4]);
    assert |after| == 20 && size == 0;
    var plain :| a.seal(prefix + Be32(n), plain, header + Be32(n) + Be32(size)) == after[4..20];
    assert |plain| + 16 == 16;
    assert plain == [];
    assert after == after[..4] + after[4..20];
  }
}
