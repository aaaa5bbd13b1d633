// The encrypted backup stream (backup/encrypted_backup.py, SodiumStream): a
// magic, a cipher header, and chunks in length-prefixed frames, the last one
// tagged as final. The cipher is a parameter.

module BackupStream {
  import opened ByteFiles
  import opened Options

  const MAGIC: Bytes := [87, 69, 66, 79, 66, 83, 66, 49]
  const CHUNK := 1024 * 1024
  const KEY_BYTES := 32
  const FINAL: Byte := 3
  const MESSAGE: Byte := 0
  const WORD := 0x1_0000_0000

  // A keyed stream cipher. `start` is the reading state for a key and a
  // header, if the header is accepted.
  datatype Cipher<!S> = Cipher(headerBytes: nat, abytes: nat, start: (Bytes, Bytes) -> Option<S>,
                               push: (S, Bytes, Byte) -> (S, Bytes), pull: (S, Bytes) -> Option<(S, Bytes, Byte)>)

  // All that is asked of the cipher: pulling what was pushed gives it back
  // with its tag and the same next state, ciphertexts are longer by `abytes`,
  // and a frame length fits its four bytes.
  ghost predicate PullInvertsPush<S(!new)>(c: Cipher<S>)
  {
    && CHUNK + c.abytes < WORD
    && forall s, m, tag :: PulledBack(c, s, m, tag)
  }

  predicate PulledBack<S(==)>(c: Cipher<S>, s: S, m: Bytes, tag: Byte)
  {
    var (next, sealed) := c.push(s, m, tag);
    |sealed| == |m| + c.abytes && c.pull(s, sealed) == Some((next, m, tag))
  }

  lemma PushGives<S(!new)>(c: Cipher<S>, s: S, m: Bytes, tag: Byte)
    requires PullInvertsPush(c)
    ensures PulledBack(c, s, m, tag)
  {
  }

  // ---------- Lengths in network byte order ----------

  function Length32(n: nat): Bytes
    requires n < WORD
  {
    [(n / 256 / 256 / 256) as Byte, (n / 256 / 256 % 256) as Byte, (n / 256 % 256) as Byte, (n % 256) as Byte]
  }

  function Value32(b: Bytes): nat
    requires |b| == 4
  {
    ((b[0] as nat * 256 + b[1] as nat) * 256 + b[2] as nat) * 256 + b[3] as nat
  }

  lemma Value32OfLength32(n: nat)
    requires n < WORD
    ensures Value32(Length32(n)) == n
  {
    var a, b := n / 256, n / 256 / 256;
    assert n == a * 256 + n % 256 && a == b * 256 + a % 256 && b == b / 256 * 256 + b % 256;
  }

  // The other way round, and with the most significant byte first.
  lemma Length32OfValue32(b: Bytes)
    requires |b| == 4
    ensures Value32(b) < WORD && Length32(Value32(b)) == b
    ensures Value32([1, 2, 3, 4]) == 0x0102_0304
  {
    var x := b[0] as nat * 256 + b[1] as nat;
    var y := x * 256 + b[2] as nat;
    var n := y * 256 + b[3] as nat;
    assert n / 256 == y && n % 256 == b[3] as nat;
    assert y / 256 == x && y % 256 == b[2] as nat;
    assert x / 256 == b[0] as nat && x % 256 == b[1] as nat;
  }

  // ---------- Writing ----------

  function Frame(sealed: Bytes): Bytes
    requires |sealed| < WORD
  {
    Length32(|sealed|) + sealed
  }

  ghost function Sealed<S(!new)>(c: Cipher<S>, s: S, data: Bytes): Bytes
    requires PullInvertsPush(c)
    decreases |data|
  {
    if data == [] then []
    else
      assert PulledBack(c, s, Take(data, CHUNK), Tag(data));
      var (next, sealed) := c.push(s, Take(data, CHUNK), Tag(data));
      Frame(sealed) + Sealed(c, next, Drop(data, CHUNK))
  }

  // The tag of the chunk that comes next.
  function Tag(data: Bytes): Byte { if Drop(data, CHUNK) == [] then FINAL else MESSAGE }

  ghost function Encrypted<S(!new)>(c: Cipher<S>, key: Bytes, header: Bytes, data: Bytes): Bytes
    requires PullInvertsPush(c) && c.start(key, header).Some?
  {
    MAGIC + header + Sealed(c, c.start(key, header).value, data)
  }

  // ---------- Reading ----------

  datatype Verdict = Accepted | BadKeyOrFormat | HeaderTruncated | HeaderRefused | BadFraming | BadLength | Truncated
                   | NotAuthentic | NoFinalChunk

  // What was written before the end or the error, and how it ended.
  datatype Opened = Opened(written: Bytes, verdict: Verdict)

  function Unsealed<S>(c: Cipher<S>, s: S, stream: Bytes, finalSeen: bool): Opened
    decreases |stream|
  {
    var lengthBytes, rest := Take(stream, 4), Drop(stream, 4);
    if lengthBytes == [] then Opened([], if finalSeen then Accepted else NoFinalChunk)
    else if |lengthBytes| != 4 || finalSeen then Opened([], BadFraming)
    else
      var length := Value32(lengthBytes);
      if length < c.abytes || length > CHUNK + c.abytes then Opened([], BadLength)
      else if |Take(rest, length)| != length then Opened([], Truncated)
      else
        match c.pull(s, Take(rest, length))
        case None => Opened([], NotAuthentic)
        case Some((next, plain, tag)) =>
          var more := Unsealed(c, next, Drop(rest, length), tag == FINAL);
          Opened(plain + more.written, more.verdict)
  }

  // How the reading of a frame ends or goes on.
  lemma NextFrame<S>(c: Cipher<S>, s: S, stream: Bytes, finalSeen: bool)
    ensures var o := Unsealed(c, s, stream, finalSeen); var lengthBytes, rest := Take(stream, 4), Drop(stream, 4);
      if lengthBytes == [] then o == Opened([], if finalSeen then Accepted else NoFinalChunk)
      else if |lengthBytes| != 4 || finalSeen then o == Opened([], BadFraming)
      else
        var length := Value32(lengthBytes);
        if length < c.abytes || length > CHUNK + c.abytes then o == Opened([], BadLength)
        else if |Take(rest, length)| != length then o == Opened([], Truncated)
        else
          match c.pull(s, Take(rest, length))
          case None => o == Opened([], NotAuthentic)
          case Some((next, plain, tag)) =>
            var more := Unsealed(c, next, Drop(rest, length), tag == FINAL);
            o == Opened(plain + more.written, more.verdict)
  {
  }

  function Decrypted<S>(c: Cipher<S>, key: Bytes, stream: Bytes): Opened
  {
    var afterMagic := Drop(stream, |MAGIC|);
    var header := Take(afterMagic, c.headerBytes);
    if |key| != KEY_BYTES || Take(stream, |MAGIC|) != MAGIC then Opened([], BadKeyOrFormat)
    else if |header| != c.headerBytes then Opened([], HeaderTruncated)
    else if c.start(key, header).None? then Opened([], HeaderRefused)
    else Unsealed(c, c.start(key, header).value, Drop(afterMagic, c.headerBytes), false)
  }

  // ---------- Frame by frame ----------

  // Reading a whole frame that was written in the same state.
  lemma ReadFrame<S(!new)>(c: Cipher<S>, s: S, m: Bytes, tag: Byte, rest: Bytes)
    requires PullInvertsPush(c) && 0 < |m| <= CHUNK
    ensures var (next, sealed) := c.push(s, m, tag);
      && |sealed| == |m| + c.abytes < WORD
      && var more := Unsealed(c, next, rest, tag == FINAL);
      Unsealed(c, s, Frame(sealed) + rest, false) == Opened(m + more.written, more.verdict)
  {
    assert PulledBack(c, s, m, tag);
    var (next, sealed) := c.push(s, m, tag);
    var stream := Frame(sealed) + rest;
    assert stream[..4] == Length32(|sealed|);
    Value32OfLength32(|sealed|);
    assert stream[4..] == sealed + rest;
    assert (sealed + rest)[..|sealed|] == sealed && (sealed + rest)[|sealed|..] == rest;
  }

  // Reading a frame that was cut short.
  lemma ReadPartOfFrame<S(!new)>(c: Cipher<S>, s: S, m: Bytes, tag: Byte, k: nat)
    requires PullInvertsPush(c) && 0 < |m| <= CHUNK
    ensures var (next, sealed) := c.push(s, m, tag);
      && |sealed| == |m| + c.abytes < WORD
      && (k < |Frame(sealed)| ==> var o := Unsealed(c, s, Frame(sealed)[..k],
                                                    false); !o.verdict.Accepted? && o.written == [])
  {
    assert PulledBack(c, s, m, tag);
    var (next, sealed) := c.push(s, m, tag);
    if 4 <= k < |Frame(sealed)| {
      var stream := Frame(sealed)[..k];
      assert stream[..4] == Length32(|sealed|);
      Value32OfLength32(|sealed|);
      assert |stream[4..]| < |sealed|;
    }
  }

  // ---------- Round trip, cut and extended streams ----------

  lemma {:induction false} SealedOpens<S(!new)>(c: Cipher<S>, s: S, data: Bytes, extra: Bytes)
    requires PullInvertsPush(c) && data != []
    ensures Unsealed(c, s, Sealed(c, s, data) + extra, false) ==
            Opened(data, if extra == [] then Accepted else BadFraming)
    decreases |data|
  {
    hide Unsealed;
    hide Length32;
    var m, more := Take(data, CHUNK), Drop(data, CHUNK);
    assert PulledBack(c, s, m, Tag(data));
    var (next, sealed) := c.push(s, m, Tag(data));
    assert Sealed(c, s, data) + extra == Frame(sealed) + (Sealed(c, next, more) + extra);
    ReadFrame(c, s, m, Tag(data), Sealed(c, next, more) + extra);
    assert data == m + more;
    if more == [] {
      assert Sealed(c, next, more) + extra == extra;
      AfterFinal(c, next, extra);
    } else {
      SealedOpens(c, next, more, extra);
    }
  }

  lemma AfterFinal<S>(c: Cipher<S>, s: S, extra: Bytes)
    ensures Unsealed(c, s, extra, true) == Opened([], if extra == [] then Accepted else BadFraming)
  {
  }

  lemma NothingIsRejected<S>(c: Cipher<S>, s: S)
    ensures Unsealed(c, s, [], false) == Opened([], NoFinalChunk)
  {
  }

  lemma {:induction false} CutSealedIsRejected<S(!new)>(c: Cipher<S>, s: S, data: Bytes, k: nat)
    requires PullInvertsPush(c) && (k < |Sealed(c, s, data)| || (data == [] && k == 0))
    ensures var o := Unsealed(c, s, Sealed(c, s, data)[..k], false); !o.verdict.Accepted? && o.written <= data
    decreases |data|
  {
    hide Unsealed;
    hide Length32;
    if data == [] {
      NothingIsRejected(c, s);
    } else {
      var m, more := Take(data, CHUNK), Drop(data, CHUNK);
      assert PulledBack(c, s, m, Tag(data));
      var (next, sealed) := c.push(s, m, Tag(data));
      var whole, rest := Frame(sealed), Sealed(c, next, more);
      if k < |whole| {
        assert (whole + rest)[..k] == whole[..k];
        ReadPartOfFrame(c, s, m, Tag(data), k);
      } else {
        assert (whole + rest)[..k] == whole + rest[..k - |whole|];
        ReadFrame(c, s, m, Tag(data), rest[..k - |whole|]);
        CutSealedIsRejected(c, next, more, k - |whole|);
        assert data == m + more;
      }
    }
  }

  // ---------- Whole streams ----------

  // What can be decrypted: a key of the right size and a header of the right
  // size that the cipher accepts.
  predicate Usable<S>(c: Cipher<S>, key: Bytes, header: Bytes)
  {
    |key| == KEY_BYTES && |header| == c.headerBytes && c.start(key, header).Some?
  }

  lemma ReadHeader<S>(c: Cipher<S>, key: Bytes, header: Bytes, body: Bytes)
    requires Usable(c, key, header)
    ensures Decrypted(c, key, MAGIC + header + body) == Unsealed(c, c.start(key, header).value, body, false)
  {
    hide Unsealed;
    var stream := MAGIC + header + body;
    assert Take(stream, |MAGIC|) == MAGIC;
    assert Drop(stream, |MAGIC|) == header + body;
    assert Take(header + body, c.headerBytes) == header && Drop(header + body, c.headerBytes) == body;
  }

  // Decrypting what was encrypted gives the input back, for every input but
  // the empty one, which has no final chunk. A stream that goes on after the
  // final chunk is rejected.
  lemma RoundTrip<S(!new)>(c: Cipher<S>, key: Bytes, header: Bytes, data: Bytes)
    requires PullInvertsPush(c) && Usable(c, key, header)
    ensures Decrypted(c, key, Encrypted(c, key, header, data)) ==
            Opened(data, if data == [] then NoFinalChunk else Accepted)
  {
    hide Unsealed;
    hide Decrypted;
    var s := c.start(key, header).value;
    ReadHeader(c, key, header, Sealed(c, s, data));
    if data == [] {
      NothingIsRejected(c, s);
    } else {
      SealedOpens(c, s, data, []);
      assert Sealed(c, s, data) + [] == Sealed(c, s, data);
    }
  }

  lemma AppendedIsRejected<S(!new)>(c: Cipher<S>, key: Bytes, header: Bytes, data: Bytes, extra: Bytes)
    requires PullInvertsPush(c) && Usable(c, key, header) && data != [] && extra != []
    ensures Decrypted(c, key, Encrypted(c, key, header, data) + extra) == Opened(data, BadFraming)
  {
    hide Unsealed;
    hide Decrypted;
    var s := c.start(key, header).value;
    ReadHeader(c, key, header, Sealed(c, s, data) + extra);
    SealedOpens(c, s, data, extra);
    assert Encrypted(c, key, header, data) + extra == MAGIC + header + (Sealed(c, s, data) + extra);
  }

  // Cut anywhere, the stream is rejected, and what was written until then is
  // the beginning of the input.
  lemma CutIsRejected<S(!new)>(c: Cipher<S>, key: Bytes, header: Bytes, data: Bytes, k: nat)
    requires PullInvertsPush(c) && Usable(c, key, header) && k < |Encrypted(c, key, header, data)|
    ensures var o := Decrypted(c, key, Encrypted(c, key, header, data)[..k]);
      !o.verdict.Accepted? && o.written <= data
  {
    hide Unsealed;
    hide Sealed;
    var s := c.start(key, header).value;
    var body := Sealed(c, s, data);
    var stream := (MAGIC + header + body)[..k];
    if k < |MAGIC| + |header| {
      if k >= |MAGIC| {
        assert Drop(stream, |MAGIC|) == stream[|MAGIC|..];
        assert Take(Drop(stream, |MAGIC|), c.headerBytes) == Drop(stream, |MAGIC|);
      }
    } else {
      var n := k - |MAGIC| - |header|;
      assert stream == MAGIC + header + body[..n];
      ReadHeader(c, key, header, body[..n]);
      CutSealedIsRejected(c, s, data, n);
    }
  }

  // Among all streams that agree with the encrypted one as far as both go,
  // exactly the encrypted one is accepted.
  lemma OnlyTheWholeIsAccepted<S(!new)>(c: Cipher<S>, key: Bytes, header: Bytes, data: Bytes, stream: Bytes)
    requires PullInvertsPush(c) && Usable(c, key, header) && data != []
    requires stream <= Encrypted(c, key, header, data) || Encrypted(c, key, header, data) <= stream
    ensures Decrypted(c, key, stream).verdict.Accepted? <==> stream == Encrypted(c, key, header, data)
  {
    hide Decrypted;
    hide Encrypted;
    var whole := Encrypted(c, key, header, data);
    RoundTrip(c, key, header, data);
    if |stream| < |whole| {
      CutIsRejected(c, key, header, data, |stream|);
      assert whole[..|stream|] == stream;
    } else if |stream| > |whole| {
      AppendedIsRejected(c, key, header, data, stream[|whole|..]);
      assert whole + stream[|whole|..] == stream;
    }
  }
}

// Which streams the reader accepts, whoever wrote them.
module AcceptedStreams {
  import opened ByteFiles
  import opened BackupStream
  import opened Options

  // Sealed chunks that pull in order from a state and give this text; the last
  // one is tagged as final, and no other.
  predicate Chain<S>(c: Cipher<S>, s: S, chunks: seq<Bytes>, text: Bytes)
    decreases |chunks|
  {
    chunks != [] && c.abytes <= |chunks[0]| <= CHUNK + c.abytes
    && match c.pull(s, chunks[0])
       case None => false
       case Some((next, plain, tag)) =>
         && (tag == FINAL <==> |chunks| == 1)
         && plain <= text
         && if |chunks| == 1 then text == plain else Chain(c, next, chunks[1..], text[|plain|..])
  }

  predicate Fit(chunks: seq<Bytes>) { forall i :: 0 <= i < |chunks| ==> |chunks[i]| < WORD }

  // Each chunk after its length in four bytes.
  function Framed(chunks: seq<Bytes>): Bytes
    requires Fit(chunks)
  {
    if chunks == [] then []
    else
      assert Fit(chunks[1..]);
      Length32(|chunks[0]|) + chunks[0] + Framed(chunks[1..])
  }

  lemma {:induction false} ChainFits<S>(c: Cipher<S>, s: S, chunks: seq<Bytes>, text: Bytes)
    requires CHUNK + c.abytes < WORD && Chain(c, s, chunks, text)
    ensures Fit(chunks)
    decreases |chunks|
  {
    var (next, plain, tag) := c.pull(s, chunks[0]).value;
    if |chunks| > 1 {
      ChainFits(c, next, chunks[1..], text[|plain|..]);
      forall i | 0 <= i < |chunks| ensures |chunks[i]| < WORD {
        assert i > 0 ==> chunks[i] == chunks[1..][i - 1];
      }
    }
  }

  // The reader accepts a chain, ...
  lemma {:induction false} ChainIsAccepted<S>(c: Cipher<S>, s: S, chunks: seq<Bytes>, text: Bytes)
    requires CHUNK + c.abytes < WORD && Chain(c, s, chunks, text) && Fit(chunks)
    ensures Unsealed(c, s, Framed(chunks), false) == Opened(text, Accepted)
    decreases |chunks|
  {
    hide Unsealed; hide Length32; hide Value32;
    var (next, plain, tag) := c.pull(s, chunks[0]).value;
    var rest := Framed(chunks[1..]);
    var stream := Framed(chunks);
    Value32OfLength32(|chunks[0]|);
    FrontOfFrame(chunks[0], rest);
    assert stream == Frame(chunks[0]) + rest;
    NextFrame(c, s, stream, false);
    var more := Unsealed(c, next, rest, tag == FINAL);
    assert Unsealed(c, s, stream, false) == Opened(plain + more.written, more.verdict);
    if |chunks| == 1 {
      assert rest == [];
      AfterFinal(c, next, rest);
      assert plain + [] == plain;
    } else {
      ChainIsAccepted(c, next, chunks[1..], text[|plain|..]);
      assert plain + text[|plain|..] == text;
    }
  }

  lemma FrontOfFrame(chunk: Bytes, rest: Bytes)
    requires |chunk| < WORD
    ensures var stream := Frame(chunk) + rest;
      && |Length32(|chunk|)| == 4 && Take(stream, 4) == Length32(|chunk|) && Take(Drop(stream, 4), |chunk|) == chunk
      && Drop(Drop(stream, 4), |chunk|) == rest
  {
    var stream := Frame(chunk) + rest;
    assert stream[..4] == Length32(|chunk|);
    assert stream[4..] == chunk + rest;
    assert (chunk + rest)[..|chunk|] == chunk && (chunk + rest)[|chunk|..] == rest;
  }

  // ... and what it accepts is a chain.
  lemma {:induction false} AcceptedIsChain<S>(c: Cipher<S>, s: S, stream: Bytes) returns (chunks: seq<Bytes>)
    requires CHUNK + c.abytes < WORD && Unsealed(c, s, stream, false).verdict.Accepted?
    ensures Chain(c, s, chunks, Unsealed(c, s, stream, false).written) && Fit(chunks) && stream == Framed(chunks)
    decreases |stream|
  {
    hide Unsealed; hide Length32; hide Value32;
    NextFrame(c, s, stream, false);
    var head, rest := Take(stream, 4), Drop(stream, 4);
    var length := Value32(head);
    var chunk, after := Take(rest, length), Drop(rest, length);
    Length32OfValue32(head);
    assert stream == head + chunk + after;
    var (next, plain, tag) := c.pull(s, chunk).value;
    var more := Unsealed(c, next, after, tag == FINAL);
    if tag == FINAL {
      NextFrame(c, next, after, true);
      chunks := [chunk];
      assert after == [] && chunks[1..] == [] && Framed(chunks[1..]) == [];
      assert plain + [] == plain;
    } else {
      var later := AcceptedIsChain(c, next, after);
      chunks := [chunk] + later;
      assert chunks[1..] == later;
      assert (plain + more.written)[|plain|..] == more.written;
    }
  }

  // A stream is accepted exactly if the key has its size, the stream begins
  // with the magic and a header that the cipher accepts, and the rest is a
  // chain of framed chunks; then the text of the chain is what was written.
  lemma AcceptedIff<S>(c: Cipher<S>, key: Bytes, stream: Bytes, text: Bytes)
    requires CHUNK + c.abytes < WORD
    ensures Decrypted(c, key, stream) == Opened(text, Accepted) <==>
      exists header, chunks ::
        && |key| == 32 && |header| == c.headerBytes && c.start(key, header).Some?
        && Chain(c, c.start(key, header).value, chunks, text) && Fit(chunks)
        && stream == [87, 69, 66, 79, 66, 83, 66, 49] + header + Framed(chunks)
  {
    hide Unsealed;
    if Decrypted(c, key, stream) == Opened(text, Accepted) {
      var header, body := Take(Drop(stream, 8), c.headerBytes), Drop(Drop(stream, 8), c.headerBytes);
      assert stream == MAGIC + header + body;
      var chunks := AcceptedIsChain(c, c.start(key, header).value, body);
    }
    if header, chunks :|
      && |key| == 32 && |header| == c.headerBytes && c.start(key, header).Some?
      && Chain(c, c.start(key, header).value, chunks, text) && Fit(chunks)
      && stream == [87, 69, 66, 79, 66, 83, 66, 49] + header + Framed(chunks)
    {
      ReadHeader(c, key, header, Framed(chunks));
      ChainIsAccepted(c, c.start(key, header).value, chunks, text);
    }
  }

  // Why the beginning of a stream is refused.
  lemma BeginningsRefused<S>(c: Cipher<S>, key: Bytes, stream: Bytes)
    ensures var o := Decrypted(c, key, stream);
      var header := Take(Drop(stream, 8), c.headerBytes);
      && (|key| != 32 || Take(stream, 8) != [87, 69, 66, 79, 66, 83, 66, 49] <==> o == Opened([], BadKeyOrFormat))
      && (|key| == 32 && Take(stream, 8) == [87, 69, 66, 79, 66, 83, 66, 49] ==>
            && (|header| < c.headerBytes <==> o == Opened([], HeaderTruncated))
            && (|header| == c.headerBytes && c.start(key, header).None? <==> o == Opened([], HeaderRefused)))
  {
    var afterMagic := Drop(stream, |MAGIC|);
    var header := Take(afterMagic, c.headerBytes);
    if |key| == KEY_BYTES && Take(stream, |MAGIC|) == MAGIC && |header| == c.headerBytes && c.start(key, header).Some? {
      FramesAreNotHeaders(c, c.start(key, header).value, Drop(afterMagic, c.headerBytes), false);
    }
  }

  lemma {:induction false} FramesAreNotHeaders<S>(c: Cipher<S>, s: S, stream: Bytes, finalSeen: bool)
    ensures var v := Unsealed(c, s, stream, finalSeen).verdict;
      !v.BadKeyOrFormat? && !v.HeaderTruncated? && !v.HeaderRefused?
    decreases |stream|
  {
    hide Unsealed; hide Value32;
    NextFrame(c, s, stream, finalSeen);
    var head, rest := Take(stream, 4), Drop(stream, 4);
    if |head| == 4 && !finalSeen {
      var length := Value32(head);
      if |Take(rest, length)| == length && c.pull(s, Take(rest, length)).Some? {
        var (next, plain, tag) := c.pull(s, Take(rest, length)).value;
        FramesAreNotHeaders(c, next, Drop(rest, length), tag == FINAL);
      }
    }
  }

  // How long a stream is: the input, in chunks of a mebibyte but the last one,
  // and what each of them adds.
  lemma {:induction false} SealedLength<S(!new)>(c: Cipher<S>, s: S, data: Bytes) returns (k: nat)
    requires PullInvertsPush(c) && data != []
    ensures |Sealed(c, s, data)| == |data| + k * (4 + c.abytes)
    ensures (k - 1) * 0x10_0000 < |data| <= k * 0x10_0000
    decreases |data|
  {
    var next := SealedUnfolds(c, s, data);
    var more := Drop(data, CHUNK);
    hide Sealed;
    if more == [] {
      k := 1;
    } else {
      var later := SealedLength(c, next, more);
      k := later + 1;
      OneMoreTime(later, 4 + c.abytes);
    }
  }

  lemma OneMoreTime(k: nat, x: nat)
    ensures (k + 1) * x == k * x + x
  {
  }

  lemma SealedUnfolds<S(!new)>(c: Cipher<S>, s: S, data: Bytes) returns (next: S)
    requires PullInvertsPush(c) && data != []
    ensures var more := Drop(data, CHUNK);
      && |Sealed(c, s, data)| == |Take(data, CHUNK)| + 4 + c.abytes + |Sealed(c, next, more)|
      && (more == [] ==> Sealed(c, next, more) == [])
  {
    PushGives(c, s, Take(data, CHUNK), Tag(data));
    next := c.push(s, Take(data, CHUNK), Tag(data)).0;
  }
}

module BackupStreamProgram {
  import opened BackupStream
  import opened ByteFiles
  import opened Options

  // `init` is the outcome of the cipher's initialization: a state and the
  // header that a reader starts from.
  method Encrypt<S(!new)>(c: Cipher<S>, key: Bytes, init: Option<(S, Bytes)>, source: Source,
                          sink: Sink) returns (ok: bool)
    requires PullInvertsPush(c)
    requires init.Some? ==> c.start(key, init.value.1) == Some(init.value.0)
    modifies source, sink
    ensures ok <==> |key| == KEY_BYTES && init.Some?
    ensures sink.data == old(sink.data) + if ok then Encrypted(c, key, init.value.1, old(source.Rest())) else []
  {
    if |key| != KEY_BYTES || init.None? {
      return false;
    }
    var (state, header) := init.value;
    ghost var all := source.Rest();
    sink.Write(MAGIC + header);
    ghost var start := sink.data;
    var current := source.Read(CHUNK);
    ghost var left := all;
    while current != []
      invariant current == Take(left, CHUNK) && source.Rest() == Drop(left, CHUNK)
      invariant sink.data + Sealed(c, state, left) == start + Sealed(c, init.value.0, all)
      decreases |left|
    {
      var following := source.Read(CHUNK);
      var tag := if following == [] then FINAL else MESSAGE;
      PushGives(c, state, current, tag);
      var (next, sealed) := c.push(state, current, tag);
      assert tag == Tag(left);
      assert sink.data + Sealed(c, state, left) == sink.data + Frame(sealed) + Sealed(c, next, Drop(left, CHUNK));
      sink.Write(Length32(|sealed|) + sealed);
      left := Drop(left, CHUNK);
      current, state := following, next;
    }
    assert Sealed(c, state, left) == [];
    assert start + Sealed(c, init.value.0, all) == old(sink.data) + Encrypted(c, key, header, all);
    ok := true;
  }

  method Decrypt<S(!new)>(c: Cipher<S>, key: Bytes, source: Source, sink: Sink) returns (verdict: Verdict)
    modifies source, sink
    ensures var o := Decrypted(c, key, old(source.Rest()));
      verdict == o.verdict && sink.data == old(sink.data) + o.written
  {
    hide Unsealed;
    hide Value32;
    if |key| != KEY_BYTES {
      return BadKeyOrFormat;
    }
    var magic := source.Read(|MAGIC|);
    if magic != MAGIC {
      return BadKeyOrFormat;
    }
    var header := source.Read(c.headerBytes);
    if |header| != c.headerBytes {
      return HeaderTruncated;
    }
    var started := c.start(key, header);
    if started.None? {
      return HeaderRefused;
    }
    verdict := DecryptFrames(c, started.value, source, sink);
  }

  // The loop over the frames.
  method DecryptFrames<S(!new)>(c: Cipher<S>, first: S, source: Source, sink: Sink) returns (verdict: Verdict)
    modifies source, sink
    ensures var o := Unsealed(c, first, old(source.Rest()), false);
      verdict == o.verdict && sink.data == old(sink.data) + o.written
  {
    hide Unsealed;
    hide Value32;
    var state, finalSeen := first, false;
    ghost var left, goal := source.Rest(), Unsealed(c, first, source.Rest(), false);
    var lengthBytes := source.Read(4);
    while lengthBytes != []
      invariant lengthBytes == Take(left, 4) && source.Rest() == Drop(left, 4)
      invariant sink.data + Unsealed(c, state, left, finalSeen).written == old(sink.data) + goal.written
      invariant Unsealed(c, state, left, finalSeen).verdict == goal.verdict
      decreases |left|
    {
      NextFrame(c, state, left, finalSeen);
      if |lengthBytes| != 4 || finalSeen {
        return BadFraming;
      }
      var length := Value32(lengthBytes);
      if length < c.abytes || length > CHUNK + c.abytes {
        return BadLength;
      }
      var sealed := source.Read(length);
      if |sealed| != length {
        return Truncated;
      }
      var pulled := c.pull(state, sealed);
      if pulled.None? {
        return NotAuthentic;
      }
      var (next, plain, tag) := pulled.value;
      sink.Write(plain);
      left := Drop(Drop(left, 4), length);
      state, finalSeen := next, tag == FINAL;
      lengthBytes := source.Read(4);
    }
    NextFrame(c, state, left, finalSeen);
    verdict := if finalSeen then Accepted else NoFinalChunk;
  }
}
