/**
 The archive writer and reader over real pipes: a source that delivers its bytes in any pieces,
 may stall and may break off, and a sink that may take a write in part or fail.
 */
module BackupPipes {
  import opened PeriodKeys
  import opened BackupStream

  datatype End = Eof | Broken

  datatype ReadErr = NoErr | AtEof | Failed

  /** How many bytes a full read got: all, none because the input ended, some, or a failure. */
  datatype Fill = All | Nothing | Short | Failure

  class Source {
    var rest: seq<Byte>
    const end: End
    /** How often the source may still return no byte and no error. */
    var stalls: nat
    /** Whether the last read did so. */
    var idle: bool

    constructor (data: seq<Byte>, end: End, stalls: nat)
      ensures rest == data && this.end == end
    {
      rest, this.end, this.stalls, idle := data, end, stalls, false;
    }

    /** One read of up to `n` bytes: any piece, possibly none, possibly together with the final error. */
    method Read(n: nat) returns (got: seq<Byte>, err: ReadErr)
      requires n > 0
      modifies this
      ensures |got| <= n && old(rest) == got + rest
      ensures err == AtEof ==> rest == [] && end.Eof?
      ensures err == Failed ==> rest == [] && end.Broken?
      ensures stalls <= old(stalls) && (err == NoErr && got == [] ==> stalls < old(stalls))
      ensures idle <==> got == [] && err == NoErr
    {
      var least := if rest != [] && stalls == 0 then 1 else 0;
      var k :| least <= k <= n && k <= |rest|;
      var stop: bool := *;
      got, err := rest[..k], NoErr;
      rest := rest[k..];
      if rest == [] && (stop || (k == 0 && stalls == 0)) {
        err := if end.Eof? then AtEof else Failed;
      } else if k == 0 {
        stalls := stalls - 1;
      }
      idle := k == 0 && err == NoErr;
    }
  }

  class Sink {
    /** Whether every write takes something and says how much. */
    const healthy: bool
    var written: seq<Byte>

    constructor (healthy: bool)
      ensures written == [] && this.healthy == healthy
    {
      this.healthy, written := healthy, [];
    }

    /** One write: takes a leading part of `p`; unless the sink is healthy it may report any count and any failure. */
    method Write(p: seq<Byte>) returns (n: int, failed: bool)
      modifies this
      ensures written == old(written) + p[..if n < 0 then 0 else if n > |p| then |p| else n]
      ensures healthy && p != [] ==> !failed && 0 < n <= |p|
    {
      n, failed := *, *;
      if healthy {
        failed := false;
        if n <= 0 || n > |p| { n := |p|; }
      }
      written := written + p[..if n < 0 then 0 else if n > |p| then |p| else n];
    }
  }

  /** Writes all of `p`, however the sink splits it; on failure a leading part is out. */
  method WriteBackupBytes(dst: Sink, p: seq<Byte>) returns (ok: bool)
    modifies dst
    ensures ok ==> dst.written == old(dst.written) + p
    ensures dst.healthy ==> ok
    ensures old(dst.written) <= dst.written <= old(dst.written) + p
  {
    var left := p;
    while |left| > 0
      invariant dst.written + left == old(dst.written) + p && old(dst.written) <= dst.written
    {
      ghost var before := dst.written;
      var n, failed := dst.Write(left);
      ghost var k := if n < 0 then 0 else if n > |left| then |left| else n;
      assert dst.written + left[k..] == before + left;
      if failed { return false; }
      if n <= 0 || n > |left| { return false; }
      left := left[n..];
    }
    return true;
  }

  /** Reads exactly `n` bytes if there are that many, however the source splits them. */
  method ReadFull(src: Source, n: nat) returns (got: seq<Byte>, fill: Fill)
    requires n > 0
    modifies src
    ensures old(src.rest) == got + src.rest
    ensures fill.All? ==> |got| == n
    ensures !fill.All? ==> |got| < n && src.rest == []
    ensures !fill.All? ==> (fill.Failure? <==> src.end.Broken?) && (fill.Nothing? <==> src.end.Eof? && got == [])
    ensures src.stalls <= old(src.stalls)
  {
    got := [];
    var err := NoErr;
    while |got| < n && err == NoErr
      invariant old(src.rest) == got + src.rest && |got| <= n && src.stalls <= old(src.stalls)
      invariant err == AtEof ==> src.rest == [] && src.end.Eof?
      invariant err == Failed ==> src.rest == [] && src.end.Broken?
      decreases if err == NoErr then 1 else 0, |src.rest|, src.stalls
    {
      ghost var before := src.rest;
      var piece;
      piece, err := src.Read(n - |got|);
      got := got + piece;
      if piece == [] { assert src.rest == before; }
    }
    if |got| >= n {
      fill := All;
    } else if err == AtEof {
      fill := if |got| == 0 then Nothing else Short;
    } else {
      fill := Failure;
    }
  }

  // ---------- writing ----------

  method WriteFrame(dst: Sink, a: Aead, header: seq<Byte>, prefix: seq<Byte>, counter: nat, payload: seq<Byte>)
    returns (err: Option<StreamError>)
    requires counter <= MAX32 && |payload| <= MAX32
    modifies dst
    ensures err.None? ==> counter < MAX32 && dst.written == old(dst.written) + Frame(a, header, prefix, counter, payload)
    ensures err.Some? ==> err.value == (if counter == MAX32 then TooManyChunks else WriteFailed)
    ensures old(dst.written) <= dst.written <= old(dst.written) + Frame(a, header, prefix, counter, payload)
    ensures counter == MAX32 ==> dst.written == old(dst.written)
    ensures dst.healthy && counter < MAX32 ==> err.None?
  {
    if counter == MAX32 { return Some(TooManyChunks); }
    var size := Be32(|payload|);
    var sealed := a.seal(Nonce(prefix, counter), payload, Aad(header, counter, |payload|));
    ghost var frame := Frame(a, header, prefix, counter, payload);
    assert frame == size + sealed;
    hide Frame;
    var ok := WriteBackupBytes(dst, size);
    assert old(dst.written) + size + sealed == old(dst.written) + frame;
    if !ok { return Some(WriteFailed); }
    ok := WriteBackupBytes(dst, sealed);
    if !ok { return Some(WriteFailed); }
    return None;
  }

  function Append(head: seq<Byte>, tail: Option<seq<Byte>>): Option<seq<Byte>> {
    match tail
    case None => None
    case Some(t) => Some(head + t)
  }

  lemma AppendAppend(a: seq<Byte>, b: seq<Byte>, tail: Option<seq<Byte>>)
    ensures Append(a, Append(b, tail)) == Append(a + b, tail)
  {
    if tail.Some? { assert a + (b + tail.value) == a + b + tail.value; }
  }

  lemma FramesUnfold(a: Aead, header: seq<Byte>, prefix: seq<Byte>, data: seq<Byte>, counter: nat, head: seq<Byte>, tail: seq<Byte>)
    requires counter < MAX32 && data == head + tail && 0 < |head| <= CHUNK && (tail != [] ==> |head| == CHUNK)
    ensures Frames(a, header, prefix, data, counter)
         == Append(Frame(a, header, prefix, counter, head), Frames(a, header, prefix, tail, counter + 1))
  {
    hide Frame;
    assert Take(data) == head && data[|head|..] == tail;
  }

  /**
   Encrypts everything the source delivers. Success means the sink holds the whole archive; a
   broken source leaves an archive without its terminator, which no reader accepts.
   */
  method EncryptStream(dst: Sink, src: Source, keyed: seq<Byte> -> Aead, salt: seq<Byte>, prefix: seq<Byte>)
    returns (err: Option<StreamError>)
    requires |salt| == 16 && |prefix| == 8
    modifies dst, src
    ensures err.None? ==> src.end.Eof?
    ensures err.None? ==> Append(old(dst.written), Encode(keyed(salt), salt, prefix, old(src.rest))) == Some(dst.written)
    ensures err == Some(TooManyChunks) ==> Encode(keyed(salt), salt, prefix, old(src.rest)).None?
    ensures err == Some(ReadFailed) ==> src.end.Broken?
    ensures err.Some? ==> err.value == TooManyChunks || err.value == ReadFailed || err.value == WriteFailed
    ensures dst.healthy && src.end.Eof? && Encode(keyed(salt), salt, prefix, old(src.rest)).Some? ==> err.None?
    ensures var whole := Append(old(dst.written), Encode(keyed(salt), salt, prefix, old(src.rest)));
      whole.Some? ==> dst.written <= whole.value && (err == Some(ReadFailed) ==> dst.written < whole.value)
  {
    hide Frames, Header;
    var header := Header(salt, prefix);
    ghost var goal := Frames(keyed(salt), header, prefix, src.rest, 0);
    AppendAppend(old(dst.written), header, goal);
    var ok := WriteBackupBytes(dst, header);
    if !ok {
      if goal.Some? { WithinWhole(dst.written, old(dst.written), header, goal.value); }
      return Some(WriteFailed);
    }
    err := EncryptFrames(dst, src, keyed(salt), header, prefix);
  }

  lemma WithinWhole(out: seq<Byte>, before: seq<Byte>, header: seq<Byte>, frames: seq<Byte>)
    requires out <= before + header
    ensures out <= before + header + frames
  {
  }

  /** The frame loop: reads a chunk, writes its frame, and closes with the empty frame. */
  method EncryptFrames(dst: Sink, src: Source, a: Aead, header: seq<Byte>, prefix: seq<Byte>)
    returns (err: Option<StreamError>)
    modifies dst, src
    ensures var goal := Append(old(dst.written), Frames(a, header, prefix, old(src.rest), 0));
      && (err.None? ==> src.end.Eof? && goal == Some(dst.written))
      && (err == Some(TooManyChunks) ==> goal.None?)
      && (err == Some(ReadFailed) ==> src.end.Broken?)
      && (err.Some? ==> err.value == TooManyChunks || err.value == ReadFailed || err.value == WriteFailed)
      && (goal.Some? ==> dst.written <= goal.value && (err == Some(ReadFailed) ==> dst.written < goal.value))
      && (dst.healthy ==> err != Some(WriteFailed))
  {
    hide Frame, Frames, Append;
    ghost var goal := Append(old(dst.written), Frames(a, header, prefix, src.rest, 0));
    var counter: nat := 0;
    while true
      invariant counter <= MAX32
      invariant goal == Append(dst.written, Frames(a, header, prefix, src.rest, counter))
      decreases |src.rest|
    {
      ghost var left, out := src.rest, dst.written;
      var plain, fill := ReadFull(src, CHUNK);
      if |plain| > 0 {
        NextFrame(out, a, header, prefix, left, counter, plain, src.rest);
        err := WriteFrame(dst, a, header, prefix, counter, plain);
        if err.Some? {
          Interrupted(goal, dst.written, out, a, header, prefix, plain, src.rest, counter);
          return;
        }
        counter := counter + 1;
      }
      if !fill.All? { LastFrame(dst.written, a, header, prefix, counter); }
      if fill.Nothing? || fill.Short? {
        err := WriteFrame(dst, a, header, prefix, counter, []);
        return;
      }
      if fill.Failure? { return Some(ReadFailed); }
    }
  }

  lemma NextFrame(out: seq<Byte>, a: Aead, header: seq<Byte>, prefix: seq<Byte>, data: seq<Byte>, counter: nat, head: seq<Byte>, tail: seq<Byte>)
    requires counter <= MAX32 && data == head + tail && 0 < |head| <= CHUNK && (tail != [] ==> |head| == CHUNK)
    ensures Append(out, Frames(a, header, prefix, data, counter))
         == if counter == MAX32 then None
            else Append(out + Frame(a, header, prefix, counter, head), Frames(a, header, prefix, tail, counter + 1))
  {
    hide Frame;
    if counter < MAX32 {
      FramesUnfold(a, header, prefix, data, counter, head, tail);
      hide Frames;
      AppendAppend(out, Frame(a, header, prefix, counter, head), Frames(a, header, prefix, tail, counter + 1));
    }
  }

  /** A frame written in part is still a leading part of the archive. */
  lemma Interrupted(
    goal: Option<seq<Byte>>, written: seq<Byte>, out: seq<Byte>, a: Aead, header: seq<Byte>, prefix: seq<Byte>,
    head: seq<Byte>, tail: seq<Byte>, counter: nat)
    requires counter <= MAX32 && |head| <= CHUNK && written <= out + Frame(a, header, prefix, counter, head)
    requires goal == if counter == MAX32 then None
      else Append(out + Frame(a, header, prefix, counter, head), Frames(a, header, prefix, tail, counter + 1))
    ensures goal.Some? ==> written <= goal.value
  {
    hide Frame, Frames;
  }

  lemma LastFrame(out: seq<Byte>, a: Aead, header: seq<Byte>, prefix: seq<Byte>, counter: nat)
    requires counter <= MAX32
    ensures Append(out, Frames(a, header, prefix, [], counter))
         == if counter == MAX32 then None else Some(out + Frame(a, header, prefix, counter, []))
    ensures out < out + Frame(a, header, prefix, counter, [])
  {
  }

  // ---------- reading ----------

  lemma PrependPrepend(a: seq<Byte>, b: seq<Byte>, d: Decoded)
    ensures Prepend(a, Prepend(b, d)) == Prepend(a + b, d)
  {
    assert a + (b + d.plain) == a + b + d.plain;
  }

  /**
   Reads one archive. Accepting means the source held exactly an archive and then ended; a
   failure other than the sink's hands out exactly what the decoder may hand out. From a source
   that reports its end and never returns empty-handed every archive is accepted.
   */
  method DecryptV3(dst: Sink, src: Source, keyed: seq<Byte> -> Aead) returns (err: Option<StreamError>)
    modifies dst, src
    ensures var d := Decode(keyed, old(src.rest));
      && (err.None? ==> d.Good? && src.end.Eof? && !src.idle && dst.written == old(dst.written) + d.plain)
      && (err == Some(WriteFailed) ==> old(dst.written) <= dst.written <= old(dst.written) + d.plain)
      && (err.Some? && err.value != WriteFailed ==>
            && dst.written == old(dst.written) + d.plain
            && (if d.Bad? then err.value == d.error else err.value == Trailing && (src.end.Broken? || src.idle)))
      && (old(src.stalls) == 0 && src.end.Eof? && d.Good? ==> err.None? || err == Some(WriteFailed))
      && (dst.healthy ==> err != Some(WriteFailed))
  {
    hide DecodeFrames;
    ghost var input := src.rest;
    var header, fill := ReadFull(src, HEADER);
    if !fill.All? { return Some(TooShort); }
    assert input[..HEADER] == header && input[HEADER..] == src.rest;
    if header[..8] != MAGIC { return Some(BadMagic); }
    var limit := FromBe32(header[32..]);
    if limit < MIN_CHUNK || limit > MAX_CHUNK { return Some(BadChunkSize); }
    var a, prefix := keyed(header[8..24]), header[24..32];
    assert Decode(keyed, input) == DecodeFrames(a, header, prefix, limit, src.rest, 0);
    err := DecryptFrames(dst, src, a, header, prefix, limit);
  }

  method DecryptFrames(dst: Sink, src: Source, a: Aead, header: seq<Byte>, prefix: seq<Byte>, limit: nat)
    returns (err: Option<StreamError>)
    requires limit <= MAX32
    modifies dst, src
    ensures var d := DecodeFrames(a, header, prefix, limit, old(src.rest), 0);
      && (err.None? ==> d.Good? && src.end.Eof? && !src.idle && dst.written == old(dst.written) + d.plain)
      && (err == Some(WriteFailed) ==> old(dst.written) <= dst.written <= old(dst.written) + d.plain)
      && (err.Some? && err.value != WriteFailed ==>
            && dst.written == old(dst.written) + d.plain
            && (if d.Bad? then err.value == d.error else err.value == Trailing && (src.end.Broken? || src.idle)))
      && (old(src.stalls) == 0 && src.end.Eof? && d.Good? ==> err.None? || err == Some(WriteFailed))
      && (dst.healthy ==> err != Some(WriteFailed))
  {
    hide DecodeFrames, FromBe32, Nonce, Aad;
    var counter: nat := 0;
    ghost var out: seq<Byte> := [];
    ghost var goal := DecodeFrames(a, header, prefix, limit, src.rest, 0);
    assert goal == Prepend([], goal) by { assert [] + goal.plain == goal.plain; }
    while true
      invariant counter <= MAX32 && dst.written == old(dst.written) + out && src.stalls <= old(src.stalls)
      invariant goal == Prepend(out, DecodeFrames(a, header, prefix, limit, src.rest, counter))
      decreases |src.rest|
    {
      ghost var rest := src.rest;
      var sizeBytes, fill := ReadFull(src, 4);
      ReadsSize(a, header, prefix, limit, rest, counter);
      if !fill.All? {
        assert out + [] == out;
        return Some(NoTerminator);
      }
      assert rest[..4] == sizeBytes;
      var size := FromBe32(sizeBytes);
      if size > limit {
        assert out + [] == out;
        return Some(FrameTooLarge);
      }
      ghost var mid := src.rest;
      var cipher, filled := ReadFull(src, size + OVERHEAD);
      if !filled.All? {
        assert out + [] == out;
        return Some(TruncatedFrame);
      }
      assert rest[4..4 + size + OVERHEAD] == cipher && rest[4 + size + OVERHEAD..] == src.rest;
      var found := a.open(Nonce(prefix, counter), cipher, Aad(header, counter, size));
      if found.None? {
        assert out + [] == out;
        return Some(NotAuthentic);
      }
      ghost var after := src.rest;
      assert size != 0 ==> goal == Prepend(out + found.value, DecodeFrames(a, header, prefix, limit, after, Next(counter))) by {
        PrependPrepend(out, found.value, DecodeFrames(a, header, prefix, limit, after, Next(counter)));
      }
      counter := Next(counter);
      if size == 0 {
        var extra, readErr := src.Read(1);
        assert out + [] == out;
        if |extra| != 0 || readErr != AtEof { return Some(Trailing); }
        return None;
      }
      var ok := WriteBackupBytes(dst, found.value);
      out := out + found.value;
      assert old(dst.written) + out == old(dst.written) + out[..|out| - |found.value|] + found.value;
      if !ok {
        WithinOutput(old(dst.written), dst.written, out, DecodeFrames(a, header, prefix, limit, after, counter));
        return Some(WriteFailed);
      }
    }
  }

  lemma WithinOutput(before: seq<Byte>, written: seq<Byte>, out: seq<Byte>, d: Decoded)
    requires before <= written <= before + out
    ensures before <= written <= before + Prepend(out, d).plain
  {
    assert before + (out + d.plain) == before + out + d.plain;
  }

  /** One step of the decoder, by what its reads find. */
  lemma ReadsSize(a: Aead, header: seq<Byte>, prefix: seq<Byte>, limit: nat, rest: seq<Byte>, counter: nat)
    requires counter <= MAX32 && limit <= MAX32
    ensures var d := DecodeFrames(a, header, prefix, limit, rest, counter);
      if |rest| < 4 then d == Bad(NoTerminator, [])
      else
        var size := FromBe32(rest[..4]);
        if size > limit then d == Bad(FrameTooLarge, [])
        else if |rest| < 4 + size + OVERHEAD then d == Bad(TruncatedFrame, [])
        else
          var found := a.open(Nonce(prefix, counter), rest[4..4 + size + OVERHEAD], Aad(header, counter, size));
          var after := rest[4 + size + OVERHEAD..];
          if found.None? then d == Bad(NotAuthentic, [])
          else if size == 0 then d == (if after == [] then Good([]) else Bad(Trailing, []))
          else d == Prepend(found.value, DecodeFrames(a, header, prefix, limit, after, Next(counter)))
  {
  }

  /** An encryption whose source broke off never leaves an acceptable archive behind. */
  lemma InterruptedArchiveIsRejected(
    keyed: seq<Byte> -> Aead, salt: seq<Byte>, prefix: seq<Byte>, data: seq<Byte>, written: seq<Byte>)
    requires |salt| == 16 && |prefix| == 8 && Tidy(keyed(salt)) && Encode(keyed(salt), salt, prefix, data).Some?
    requires written < Encode(keyed(salt), salt, prefix, data).value
    ensures Decode(keyed, written).Bad?
  {
    var whole := Encode(keyed(salt), salt, prefix, data).value;
    assert written == whole[..|written|];
    TruncationIsRejected(keyed, salt, prefix, data, |written|);
  }
}
