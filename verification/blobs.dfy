/** File transfer: read, chunk, seal, frame - parse, open, append, verify. Encryption and hashing are
    symbolic; what the bytes of a ciphertext look like is a parameter the theorems quantify over. */
module Blobs {
  import opened Wire
  import opened Stores

  const CHUNK := 65536
  const OVERHEAD := 40
  const U32 := 0x1_0000_0000
  const U64 := 0x1_0000_0000_0000_0000

  /** One sealed chunk: key, nonce and plaintext determine it. */
  datatype Box = Box(key: nat, nonce: nat, plain: Bytes)

  /** A byte of a stream: sent in the clear, or a position inside a sealed chunk. */
  datatype Octet = Clear(value: Byte) | Of(box: Box, at: nat)

  type Look = (Box, nat) -> Byte

  /** SHA-256 as a free constructor: different contents have different digests. */
  datatype Digest = Sha256(content: Bytes)

  datatype BlobError = Interrupted | Crypto | HashMismatch

  function Seal(box: Box): (r: seq<Octet>)
    ensures |r| == |box.plain| + OVERHEAD
  {
    seq(|box.plain| + OVERHEAD, i requires 0 <= i => Of(box, i))
  }

  /** Authenticated decryption: only exactly what was sealed under the key opens. */
  function OpenSealed(key: nat, c: seq<Octet>): Result<Bytes, BlobError>
  {
    if c != [] && c[0].Of? && c[0].box.key == key && c == Seal(c[0].box) then Ok(c[0].box.plain) else Err(Crypto)
  }

  function Shown(look: Look, o: Octet): Byte { if o.Clear? then o.value else look(o.box, o.at) }

  /** The four low base-256 digits, least significant first. */
  function Digits(n: nat): (Byte, Byte, Byte, Byte)
  {
    (n % 256, n / 256 % 256, n / 256 / 256 % 256, n / 256 / 256 / 256 % 256)
  }

  function FromDigits(d: (Byte, Byte, Byte, Byte)): nat { d.0 + 256 * (d.1 + 256 * (d.2 + 256 * d.3)) }

  /** `(len as u32).to_le_bytes()`: only the low 32 bits survive. */
  function Header(len: nat): (r: seq<Octet>)
    ensures |r| == 4
  {
    var (b0, b1, b2, b3) := Digits(len);
    [Clear(b0), Clear(b1), Clear(b2), Clear(b3)]
  }

  function HeaderValue(look: Look, h: seq<Octet>): nat
    requires |h| == 4
  {
    FromDigits((Shown(look, h[0]), Shown(look, h[1]), Shown(look, h[2]), Shown(look, h[3])))
  }

  function Framed(c: seq<Octet>): seq<Octet> { Header(|c|) + c }

  datatype Parsed = Chunk(chunk: seq<Octet>, rest: seq<Octet>) | End | Broken

  /** What reading one frame off `w` yields; a stream that ends too early is an error, not an end. */
  function NextOf(look: Look, w: seq<Octet>): (r: Parsed)
    ensures r.Chunk? ==> |r.rest| < |w| && r.rest == w[|w| - |r.rest|..]
  {
    if |w| < 4 then Broken
    else
      var len := HeaderValue(look, w[..4]);
      if len == 0 then End
      else if |w| < 4 + len then Broken
      else Chunk(w[4..4 + len], w[4 + len..])
  }

  /** The receiver: open each chunk and append it, until the terminator. */
  function Collect(look: Look, key: nat, w: seq<Octet>, got: Bytes): Result<Bytes, BlobError>
    decreases |w|
  {
    match NextOf(look, w)
    case Broken => Err(Interrupted)
    case End => Ok(got)
    case Chunk(c, rest) =>
      var p := OpenSealed(key, c);
      if p.Err? then Err(Crypto) else Collect(look, key, rest, got + p.value)
  }

  function Verified(content: Result<Bytes, BlobError>, expected: Digest): Result<Bytes, BlobError>
  {
    if content.Ok? && Sha256(content.value) != expected then Err(HashMismatch) else content
  }

  function Received(look: Look, key: nat, expected: Digest, w: seq<Octet>): Result<Bytes, BlobError>
  {
    Verified(Collect(look, key, w, []), expected)
  }

  /** The file cut into full chunks and a last, shorter one. */
  function Chunks(file: Bytes): seq<Bytes>
  {
    if file == [] then []
    else if |file| <= CHUNK then [file]
    else [file[..CHUNK]] + Chunks(file[CHUNK..])
  }

  function Boxes(key: nat, nonces: nat -> nat, k: nat, plains: seq<Bytes>): (r: seq<Box>)
    ensures |r| == |plains|
    ensures forall i :: 0 <= i < |r| ==> r[i] == Box(key, nonces(k + i), plains[i])
  {
    seq(|plains|, i requires 0 <= i < |plains| => Box(key, nonces(k + i), plains[i]))
  }

  function Frames(boxes: seq<Box>): seq<Octet>
  {
    if boxes == [] then [] else Framed(Seal(boxes[0])) + Frames(boxes[1..])
  }

  function Stream(boxes: seq<Box>): seq<Octet> { Frames(boxes) + Header(0) }

  function Joined(boxes: seq<Box>): Bytes
  {
    if boxes == [] then [] else boxes[0].plain + Joined(boxes[1..])
  }

  /** The stream that `send_file` produces. */
  function SentStream(key: nat, nonces: nat -> nat, file: Bytes): seq<Octet>
  {
    Stream(Boxes(key, nonces, 0, Chunks(file)))
  }

  // ------------------------------------------------------------------ framing

  lemma Low2(n: nat)
    ensures n % 65536 == n % 256 + 256 * (n / 256 % 256)
  {
  }

  lemma Low3(n: nat)
    ensures n % 16777216 == n % 256 + 256 * (n / 256 % 65536)
  {
  }

  lemma Low4(n: nat)
    ensures n % U32 == n % 256 + 256 * (n / 256 % 16777216)
  {
  }

  lemma DigitsRebuild(n: nat)
    ensures FromDigits(Digits(n)) == n % U32
  {
    Low4(n);
    Low3(n / 256);
    Low2(n / 256 / 256);
  }

  lemma HeaderReads(look: Look, len: nat)
    ensures HeaderValue(look, Header(len)) == len % U32
  {
    DigitsRebuild(len);
  }

  /** A chunk survives framing exactly when its length is neither zero nor beyond 32 bits: an empty one
      reads as the terminator, and of a longer one only the low 32 bits of the length are sent. */
  lemma FrameParsesIff(look: Look, c: seq<Octet>, rest: seq<Octet>)
    ensures NextOf(look, Framed(c) + rest) == Chunk(c, rest) <==> 0 < |c| < U32
  {
    HeaderReads(look, |c|);
    var w := Framed(c) + rest;
    assert w[..4] == Header(|c|);
    if 0 < |c| < U32 {
      assert w[4..4 + |c|] == c;
      assert w[4 + |c|..] == rest;
    }
  }

  lemma OpensWhatWasSealed(key: nat, box: Box)
    ensures OpenSealed(key, Seal(box)) == if box.key == key then Ok(box.plain) else Err(Crypto)
  {
    assert Seal(box)[0] == Of(box, 0);
  }

  /** A chunk that fits: what the sender's reader can produce. */
  predicate Fits(plain: Bytes) { 0 < |plain| <= CHUNK }

  predicate AllFit(boxes: seq<Box>) { forall b :: b in boxes ==> Fits(b.plain) }

  predicate Under(boxes: seq<Box>, key: nat) { forall b :: b in boxes ==> b.key == key }

  // ------------------------------------------------------------------ streams

  lemma Associates(a: seq<Octet>, b: seq<Octet>, c: seq<Octet>)
    ensures a + b + c == a + (b + c)
  {
  }

  lemma FramesStep(look: Look, boxes: seq<Box>, tail: seq<Octet>)
    requires boxes != [] && AllFit(boxes)
    ensures NextOf(look, Frames(boxes) + tail) == Chunk(Seal(boxes[0]), Frames(boxes[1..]) + tail)
  {
    var c, rest := Seal(boxes[0]), Frames(boxes[1..]);
    assert Fits(boxes[0].plain);
    FrameParsesIff(look, c, rest + tail);
    Associates(Framed(c), rest, tail);
  }

  lemma CollectStep(look: Look, key: nat, w: seq<Octet>, c: seq<Octet>, rest: seq<Octet>, plain: Bytes, got: Bytes)
    requires NextOf(look, w) == Chunk(c, rest) && OpenSealed(key, c) == Ok(plain)
    ensures Collect(look, key, w, got) == Collect(look, key, rest, got + plain)
  {
  }

  lemma JoinedStep(boxes: seq<Box>, got: Bytes)
    requires boxes != []
    ensures got + Joined(boxes) == got + boxes[0].plain + Joined(boxes[1..])
  {
  }

  /** A run of chunks under the key is appended; then whatever follows is read. */
  lemma {:induction false} CollectsFrames(look: Look, key: nat, boxes: seq<Box>, tail: seq<Octet>, got: Bytes)
    requires AllFit(boxes) && Under(boxes, key)
    ensures Collect(look, key, Frames(boxes) + tail, got) == Collect(look, key, tail, got + Joined(boxes))
  {
    if boxes == [] {
      assert Frames(boxes) + tail == tail;
      assert got + Joined(boxes) == got;
    } else {
      var b, rest := boxes[0], boxes[1..];
      var more: Bytes := got + b.plain;
      FramesStep(look, boxes, tail);
      OpensWhatWasSealed(key, b);
      CollectStep(look, key, Frames(boxes) + tail, Seal(b), Frames(rest) + tail, b.plain, got);
      CollectsFrames(look, key, rest, tail, more);
      JoinedStep(boxes, got);
    }
  }

  lemma TerminatorEnds(look: Look, key: nat, got: Bytes)
    ensures Collect(look, key, Header(0), got) == Ok(got)
  {
    HeaderReads(look, 0);
    assert Header(0)[..4] == Header(0);
  }

  /** Whole chunks dropped, repeated, reordered or taken from another file under the same key: the stream
      is accepted exactly when what they join to is the promised file. */
  lemma AcceptedIffJoins(look: Look, key: nat, boxes: seq<Box>, file: Bytes)
    requires AllFit(boxes) && Under(boxes, key)
    ensures Received(look, key, Sha256(file), Stream(boxes)) == if Joined(boxes) == file then Ok(file) else Err(HashMismatch)
  {
    CollectsFrames(look, key, boxes, Header(0), []);
    TerminatorEnds(look, key, [] + Joined(boxes));
    assert [] + Joined(boxes) == Joined(boxes);
  }

  /** The stream parses as these chunks, then a terminator; what follows it is never read. */
  ghost predicate Carries(look: Look, w: seq<Octet>, boxes: seq<Box>)
    decreases |w|
  {
    match NextOf(look, w)
    case Broken => false
    case End => boxes == []
    case Chunk(c, rest) => boxes != [] && c == Seal(boxes[0]) && Carries(look, rest, boxes[1..])
  }

  lemma {:induction false} CarriedIsCollected(look: Look, key: nat, w: seq<Octet>, boxes: seq<Box>, got: Bytes)
    requires Carries(look, w, boxes) && Under(boxes, key)
    ensures Collect(look, key, w, got) == Ok(got + Joined(boxes))
    decreases |w|
  {
    if boxes == [] {
      assert got + Joined(boxes) == got;
    } else {
      OpensWhatWasSealed(key, boxes[0]);
      CarriedIsCollected(look, key, NextOf(look, w).rest, boxes[1..], got + boxes[0].plain);
      JoinedStep(boxes, got);
    }
  }

  lemma {:induction false} CollectedIsCarried(look: Look, key: nat, w: seq<Octet>, got: Bytes) returns (boxes: seq<Box>)
    requires Collect(look, key, w, got).Ok?
    ensures Carries(look, w, boxes) && Under(boxes, key)
    decreases |w|
  {
    var n := NextOf(look, w);
    if n.End? {
      boxes := [];
    } else {
      var b := n.chunk[0].box;
      var rest := CollectedIsCarried(look, key, n.rest, got + b.plain);
      boxes := [b] + rest;
      assert boxes[1..] == rest;
    }
  }

  /** Any stream at all, well-formed or not: it is accepted exactly when it carries chunks sealed under the
      key that join to the promised file. */
  lemma AcceptedIffSealed(look: Look, key: nat, file: Bytes, w: seq<Octet>)
    ensures Received(look, key, Sha256(file), w).Ok?
      <==> exists boxes :: Carries(look, w, boxes) && Under(boxes, key) && Joined(boxes) == file
  {
    if Received(look, key, Sha256(file), w).Ok? {
      var boxes := CollectedIsCarried(look, key, w, []);
      CarriedIsCollected(look, key, w, boxes, []);
      assert [] + Joined(boxes) == Joined(boxes);
    }
    forall boxes | Carries(look, w, boxes) && Under(boxes, key) && Joined(boxes) == file
      ensures Received(look, key, Sha256(file), w) == Ok(file)
    {
      CarriedIsCollected(look, key, w, boxes, []);
      assert [] + Joined(boxes) == Joined(boxes);
    }
  }

  lemma {:induction false} ChunksFit(file: Bytes)
    ensures forall c :: c in Chunks(file) ==> Fits(c)
    ensures forall i :: 0 <= i < |Chunks(file)| - 1 ==> |Chunks(file)[i]| == CHUNK
  {
    if |file| > CHUNK { ChunksFit(file[CHUNK..]); }
  }

  /** Every chunk the sender frames has a length that fits 32 bits and is never the terminator's. */
  lemma SealedLengthFits(key: nat, nonces: nat -> nat, file: Bytes)
    ensures var bs := Boxes(key, nonces, 0, Chunks(file));
      && AllFit(bs) && Under(bs, key)
      && forall b :: b in bs ==> OVERHEAD < |Seal(b)| <= CHUNK + OVERHEAD && |Seal(b)| % U32 == |Seal(b)|
  {
    ChunksFit(file);
    var bs := Boxes(key, nonces, 0, Chunks(file));
    forall b | b in bs ensures Fits(b.plain) && b.key == key {
      var i :| 0 <= i < |bs| && bs[i] == b;
      assert Chunks(file)[i] in Chunks(file);
    }
  }

  lemma {:induction false} ChunksJoin(key: nat, nonces: nat -> nat, k: nat, file: Bytes)
    ensures Joined(Boxes(key, nonces, k, Chunks(file))) == file
    decreases |file|
  {
    var bs := Boxes(key, nonces, k, Chunks(file));
    if |file| > CHUNK {
      ChunksJoin(key, nonces, k + 1, file[CHUNK..]);
      assert bs[1..] == Boxes(key, nonces, k + 1, Chunks(file[CHUNK..]));
      assert file == file[..CHUNK] + file[CHUNK..];
    } else if file != [] {
      assert bs[1..] == [] && bs[0].plain == file;
    }
  }

  /** Every file arrives as it was sent and passes the digest check. */
  lemma RoundTrip(look: Look, key: nat, nonces: nat -> nat, file: Bytes)
    ensures Received(look, key, Sha256(file), SentStream(key, nonces, file)) == Ok(file)
  {
    SealedLengthFits(key, nonces, file);
    ChunksJoin(key, nonces, 0, file);
    AcceptedIffJoins(look, key, Boxes(key, nonces, 0, Chunks(file)), file);
  }

  /** Under another key only the empty file still arrives: it has no chunk to be refused. */
  lemma WrongKeyIff(look: Look, key: nat, other: nat, nonces: nat -> nat, file: Bytes)
    requires other != key
    ensures Received(look, other, Sha256(file), SentStream(key, nonces, file)) == if file == [] then Ok([]) else Err(Crypto)
  {
    if file == [] {
      RoundTrip(look, other, nonces, file);
      assert SentStream(key, nonces, file) == Header(0) == SentStream(other, nonces, file);
    } else {
      SealedLengthFits(key, nonces, file);
      var bs := Boxes(key, nonces, 0, Chunks(file));
      FramesStep(look, bs, Header(0));
      OpensWhatWasSealed(other, bs[0]);
    }
  }

  /** Part of one frame, or of the terminator, is never a frame or an end. */
  lemma PartialFrameBreaks(look: Look, c: seq<Octet>, n: nat)
    requires |c| < U32 && n < |Framed(c)|
    ensures NextOf(look, Framed(c)[..n]) == Broken
  {
    HeaderReads(look, |c|);
    if n >= 4 { assert Framed(c)[..n][..4] == Header(|c|); }
  }

  /** A stream cut anywhere before its last byte is reported as interrupted - never as the end. */
  lemma {:induction false} TruncatedIsInterrupted(look: Look, key: nat, boxes: seq<Box>, n: nat, got: Bytes)
    requires AllFit(boxes) && Under(boxes, key) && n < |Stream(boxes)|
    ensures Collect(look, key, Stream(boxes)[..n], got) == Err(Interrupted)
  {
    if boxes == [] {
      assert Stream(boxes) == Framed([]);
      PartialFrameBreaks(look, [], n);
    } else {
      var first, rest := Framed(Seal(boxes[0])), boxes[1..];
      assert Stream(boxes) == first + Stream(rest);
      if n < |first| {
        assert Stream(boxes)[..n] == first[..n];
        PartialFrameBreaks(look, Seal(boxes[0]), n);
      } else {
        var m := n - |first|;
        assert Stream(boxes)[..n] == first + Stream(rest)[..m];
        FrameParsesIff(look, Seal(boxes[0]), Stream(rest)[..m]);
        OpensWhatWasSealed(key, boxes[0]);
        TruncatedIsInterrupted(look, key, rest, m, got + boxes[0].plain);
      }
    }
  }

  lemma TruncatedIsRefused(look: Look, key: nat, nonces: nat -> nat, file: Bytes, n: nat)
    requires n < |SentStream(key, nonces, file)|
    ensures Received(look, key, Sha256(file), SentStream(key, nonces, file)[..n]) == Err(Interrupted)
  {
    SealedLengthFits(key, nonces, file);
    TruncatedIsInterrupted(look, key, Boxes(key, nonces, 0, Chunks(file)), n, []);
  }

  // ------------------------------------------------------------------ streams of the operating system

  /** A file being read. Each read returns between one byte and everything that fits, as `grants` decides. */
  class Reader {
    const data: Bytes
    const grants: nat -> nat
    var at: nat
    var calls: nat

    ghost predicate Valid() reads this { at <= |data| }

    constructor (data: Bytes, grants: nat -> nat)
      ensures Valid() && this.data == data && at == 0 && this.grants == grants
    {
      this.data := data;
      this.grants := grants;
      at := 0;
      calls := 0;
    }

    method Read(buf: array<Byte>, from: nat) returns (n: nat)
      requires Valid() && from <= buf.Length
      modifies this, buf
      ensures Valid() && at == old(at) + n && n <= buf.Length - from
      ensures n == 0 <==> old(at) == |data| || from == buf.Length
      ensures buf[..from] == old(buf[..from]) && buf[from..from + n] == data[old(at)..at]
    {
      var most := if |data| - at < buf.Length - from then |data| - at else buf.Length - from;
      n := if most == 0 then 0 else 1 + grants(calls) % most;
      calls := calls + 1;
      forall i | 0 <= i < n { buf[from + i] := data[at + i]; }
      at := at + n;
    }
  }

  /** What is left to read, as far as it fits. */
  function Available(size: nat, at: nat, cap: nat): nat
    requires at <= size
  {
    if size - at < cap then size - at else cap
  }

  /** `read_fill`: whatever the short reads, the buffer is filled or the file is at its end. */
  method ReadFill(r: Reader, buf: array<Byte>) returns (filled: nat)
    requires r.Valid()
    modifies r, buf
    ensures r.Valid() && filled == Available(|r.data|, old(r.at), buf.Length)
    ensures r.at == old(r.at) + filled && buf[..filled] == r.data[old(r.at)..r.at]
  {
    filled := 0;
    while filled < buf.Length
      invariant r.Valid() && filled <= buf.Length
      invariant r.at == old(r.at) + filled && buf[..filled] == r.data[old(r.at)..r.at]
    {
      ghost var was := r.at;
      var n := r.Read(buf, filled);
      if n == 0 { break; }
      assert buf[..filled + n] == buf[..filled] + buf[filled..filled + n];
      assert r.data[old(r.at)..r.at] == r.data[old(r.at)..was] + r.data[was..r.at];
      filled := filled + n;
    }
  }

  /** `hash_file`: digest and size, whatever the short reads. */
  method HashFile(r: Reader) returns (d: Digest, size: nat)
    requires r.Valid() && r.at == 0
    modifies r
    ensures d == Sha256(r.data) && size == |r.data| % U64
  {
    var hashed: Bytes := [];
    var buf := new Byte[CHUNK];
    size := 0;
    while true
      invariant r.Valid() && hashed == r.data[..r.at] && size == r.at % U64
      decreases |r.data| - r.at
    {
      ghost var was := r.at;
      var n := r.Read(buf, 0);
      if n == 0 { break; }
      assert buf[..n] == buf[0..n];
      assert r.data[..r.at] == r.data[..was] + r.data[was..r.at];
      hashed := hashed + buf[..n];
      size := (size + n) % U64;
    }
    assert r.data[..r.at] == r.data;
    return Sha256(hashed), size;
  }

  class EncryptStream {
    const reader: Reader
    const key: nat

    constructor (reader: Reader, key: nat)
      ensures this.reader == reader && this.key == key
    {
      this.reader := reader;
      this.key := key;
    }

    method NextChunk(nonce: nat) returns (c: Option<seq<Octet>>)
      requires reader.Valid()
      modifies reader
      ensures reader.Valid()
      ensures c.None? <==> old(reader.at) == |reader.data|
      ensures c.None? ==> reader.at == old(reader.at)
      ensures c.Some? ==> old(reader.at) < reader.at == old(reader.at) + Available(|reader.data|, old(reader.at), CHUNK)
      ensures c.Some? ==> c.value == Seal(Box(key, nonce, reader.data[old(reader.at)..reader.at]))
    {
      var buf := new Byte[CHUNK];
      var n := ReadFill(reader, buf);
      if n == 0 { return None; }
      return Some(Seal(Box(key, nonce, buf[..n])));
    }
  }

  class DecryptSink {
    const key: nat
    var file: Bytes
    var hashed: Bytes

    ghost predicate Valid() reads this { hashed == file }

    constructor (key: nat)
      ensures Valid() && this.key == key && file == []
    {
      this.key := key;
      file, hashed := [], [];
    }

    method WriteChunk(c: seq<Octet>) returns (r: Result<(), BlobError>)
      requires Valid()
      modifies this
      ensures Valid()
      ensures OpenSealed(key, c).Err? ==> r == Err(Crypto) && file == old(file)
      ensures OpenSealed(key, c).Ok? ==> r == Ok(()) && file == old(file) + OpenSealed(key, c).value
    {
      var plain := OpenSealed(key, c);
      if plain.Err? { return Err(Crypto); }
      hashed := hashed + plain.value;
      file := file + plain.value;
      return Ok(());
    }

    method Finish(expected: Digest) returns (r: Result<Bytes, BlobError>)
      requires Valid()
      ensures r == Verified(Ok(file), expected)
    {
      if Sha256(hashed) != expected { return Err(HashMismatch); }
      return Ok(file);
    }
  }

  class BlobSend {
    var wire: seq<Octet>

    constructor () ensures wire == [] { wire := []; }

    method WriteChunk(c: seq<Octet>)
      modifies this
      ensures wire == old(wire) + Framed(c)
    {
      wire := wire + Header(|c|);
      wire := wire + c;
    }

    method Finish()
      modifies this
      ensures wire == old(wire) + Header(0)
    {
      wire := wire + Header(0);
    }
  }

  class BlobRecv {
    const wire: seq<Octet>
    const look: Look
    var at: nat

    ghost predicate Valid() reads this { at <= |wire| }

    ghost function Left(): seq<Octet> reads this requires Valid() { wire[at..] }

    constructor (wire: seq<Octet>, look: Look)
      ensures Valid() && this.wire == wire && this.look == look && at == 0
    {
      this.wire := wire;
      this.look := look;
      at := 0;
    }

    /** `read_exact`: all of it, or an error at the end of the stream. */
    method ReadExact(n: nat) returns (r: Result<seq<Octet>, BlobError>)
      requires Valid()
      modifies this
      ensures Valid()
      ensures |old(Left())| < n ==> r == Err(Interrupted)
      ensures |old(Left())| >= n ==> r == Ok(old(Left())[..n]) && Left() == old(Left())[n..]
    {
      if |wire| - at < n {
        at := |wire|;
        return Err(Interrupted);
      }
      var got := wire[at..at + n];
      assert wire[at..][..n] == got && wire[at..][n..] == wire[at + n..];
      at := at + n;
      return Ok(got);
    }

    method NextChunk() returns (r: Result<Option<seq<Octet>>, BlobError>)
      requires Valid()
      modifies this
      ensures Valid()
      ensures match NextOf(look, old(Left()))
        case Chunk(c, rest) => r == Ok(Some(c)) && Left() == rest
        case End => r == Ok(None)
        case Broken => r == Err(Interrupted)
    {
      var header := ReadExact(4);
      if header.Err? { return Err(header.error); }
      var len := HeaderValue(look, header.value);
      if len == 0 { return Ok(None); }
      ghost var w := old(Left());
      var chunk := ReadExact(len);
      assert |w| >= 4 + len ==> w[4..][..len] == w[4..4 + len] && w[4..][len..] == w[4 + len..];
      if chunk.Err? { return Err(chunk.error); }
      return Ok(Some(chunk.value));
    }
  }

  // ------------------------------------------------------------------ both ends

  lemma {:induction false} FramesTake(boxes: seq<Box>, k: nat)
    requires k < |boxes|
    ensures Frames(boxes[..k + 1]) == Frames(boxes[..k]) + Framed(Seal(boxes[k]))
  {
    var more, less := boxes[..k + 1], boxes[..k];
    if k == 0 {
      assert more[1..] == [];
    } else {
      FramesTake(boxes[1..], k - 1);
      assert more[1..] == boxes[1..][..k] && less[1..] == boxes[1..][..k - 1];
    }
  }

  /** Where the reader stands after `k` chunks. */
  function Boundary(size: nat, k: nat): nat { if k * CHUNK <= size then k * CHUNK else size }

  /** Reading on from a chunk boundary yields the next chunk of the file, until the file is exhausted. */
  lemma {:induction false} ChunkAt(file: Bytes, k: nat)
    requires k <= |Chunks(file)|
    ensures Boundary(|file|, k) < |file| <==> k < |Chunks(file)|
    ensures k < |Chunks(file)| ==> Chunks(file)[k] == file[Boundary(|file|, k)..Boundary(|file|, k + 1)]
  {
    if k > 0 { ChunkAt(file[if |file| <= CHUNK then |file| else CHUNK..], k - 1); }
  }

  lemma {:induction false} FramesSplit(boxes: seq<Box>, k: nat)
    requires k <= |boxes|
    ensures Frames(boxes) == Frames(boxes[..k]) + Frames(boxes[k..])
    decreases |boxes| - k
  {
    if k < |boxes| {
      FramesSplit(boxes, k + 1);
      FramesTake(boxes, k);
      assert boxes[k..][1..] == boxes[k + 1..];
      Associates(Frames(boxes[..k]), Framed(Seal(boxes[k])), Frames(boxes[k + 1..]));
    } else {
      assert boxes[..k] == boxes;
    }
  }

  /** Every full chunk takes 65536 bytes, 40 more for its seal and 4 for its length. */
  lemma {:induction false} FramesLength(boxes: seq<Box>, k: nat)
    requires k <= |boxes| && forall j :: 0 <= j < k ==> |boxes[j].plain| == 65536
    ensures |Frames(boxes[..k])| == 65580 * k
  {
    if k > 0 {
      FramesLength(boxes, k - 1);
      FramesTake(boxes, k - 1);
    }
  }

  /** The octets of a length below 2^24, least significant first. */
  lemma SmallHeader(n: nat)
    requires n < 0x100_0000
    ensures Header(n) == [Clear(n % 256), Clear(n / 256 % 256), Clear(n / 65536), Clear(0)]
  {
    assert n / 256 / 256 == n / 65536;
  }

  /** The part of the file that chunk `k` carries. */
  function Piece(file: Bytes, k: nat): Bytes
    requires 65536 * k < |file|
  {
    if 65536 * (k + 1) <= |file| then file[65536 * k..65536 * (k + 1)] else file[65536 * k..]
  }

  lemma PieceSent(key: nat, nonces: nat -> nat, file: Bytes, k: nat)
    requires 65536 * k < |file|
    ensures var boxes := Boxes(key, nonces, 0, Chunks(file));
      && k < |boxes| && boxes[k] == Box(key, nonces(k), Piece(file, k))
      && forall j :: 0 <= j < k ==> |boxes[j].plain| == 65536
  {
    if k >= |Chunks(file)| { ChunkAt(file, |Chunks(file)|); }
    ChunkAt(file, k);
    ChunksFit(file);
  }

  /** What is on the wire, octet by octet: at a multiple of 65580 the length of the next sealed chunk in four octets,
      least significant first, then the sealed chunk. */
  lemma StreamLayout(key: nat, nonces: nat -> nat, file: Bytes, k: nat)
    requires 65536 * k < |file|
    ensures var w, at, n := SentStream(key, nonces, file), 65580 * k, |Piece(file, k)| + 40;
      && at + 4 + n <= |w|
      && w[at..at + 4] == [Clear(n % 256), Clear(n / 256 % 256), Clear(n / 65536), Clear(0)]
      && forall i :: 0 <= i < n ==> w[at + 4 + i] == Of(Box(key, nonces(k), Piece(file, k)), i)
  {
    PieceSent(key, nonces, file, k);
    FrameAt(Boxes(key, nonces, 0, Chunks(file)), k);
    SmallHeader(|Piece(file, k)| + 40);
  }

  lemma FrameAt(boxes: seq<Box>, k: nat)
    requires k < |boxes| && forall j :: 0 <= j < k ==> |boxes[j].plain| == 65536
    ensures var w, at, n := Stream(boxes), 65580 * k, |boxes[k].plain| + 40;
      && at + 4 + n <= |w| && w[at..at + 4] == Header(n)
      && forall i :: 0 <= i < n ==> w[at + 4 + i] == Of(boxes[k], i)
  {
    var before, after := Frames(boxes[..k]), Frames(boxes[k + 1..]);
    FramesSplit(boxes, k);
    assert boxes[k..][1..] == boxes[k + 1..];
    FramesLength(boxes, k);
    Associates(before, Framed(Seal(boxes[k])), after);
    Associates(before + Framed(Seal(boxes[k])), after, Header(0));
    FrameWithin(before, boxes[k], after + Header(0), Stream(boxes));
  }

  lemma FrameWithin(before: seq<Octet>, box: Box, after: seq<Octet>, w: seq<Octet>)
    requires w == before + Framed(Seal(box)) + after
    ensures var at, n := |before|, |box.plain| + 40;
      && at + 4 + n <= |w| && w[at..at + 4] == Header(n)
      && forall i :: 0 <= i < n ==> w[at + 4 + i] == Of(box, i)
  {
  }

  /** The sending loop: whatever the short reads, the stream is the one specified. */
  method SendFile(r: Reader, key: nat, nonces: nat -> nat) returns (wire: seq<Octet>)
    requires r.Valid() && r.at == 0
    modifies r
    ensures wire == SentStream(key, nonces, r.data)
  {
    var blob := new BlobSend();
    var enc := new EncryptStream(r, key);
    ghost var boxes := Boxes(key, nonces, 0, Chunks(r.data));
    var k := 0;
    while true
      invariant r.Valid() && k <= |boxes| && r.at == Boundary(|r.data|, k)
      invariant fresh(blob) && blob.wire == Frames(boxes[..k])
      decreases |boxes| - k
    {
      ChunkAt(r.data, k);
      var chunk := enc.NextChunk(nonces(k));
      if chunk.None? { break; }
      assert chunk.value == Seal(boxes[k]);
      blob.WriteChunk(chunk.value);
      FramesTake(boxes, k);
      k := k + 1;
    }
    assert boxes[..k] == boxes;
    blob.Finish();
    return blob.wire;
  }

  /** The receiving loop refines `Received`. */
  method ReceiveFile(blob: BlobRecv, key: nat, expected: Digest) returns (r: Result<Bytes, BlobError>)
    requires blob.Valid() && blob.at == 0
    modifies blob
    ensures r == Received(blob.look, key, expected, blob.wire)
  {
    var sink := new DecryptSink(key);
    assert blob.Left() == blob.wire;
    while true
      invariant blob.Valid() && sink.Valid() && fresh(sink)
      invariant Collect(blob.look, key, blob.Left(), sink.file) == Collect(blob.look, key, blob.wire, [])
      decreases |blob.Left()|
    {
      var next := blob.NextChunk();
      if next.Err? { return Err(Interrupted); }
      if next.value.None? { break; }
      var written := sink.WriteChunk(next.value.value);
      if written.Err? { return Err(Crypto); }
    }
    r := sink.Finish(expected);
  }

  /** Both loops against each other: hashed in one pattern of short reads and sent in another, every file
      is received and accepted as it was. */
  method Transfer(file: Bytes, hashing: nat -> nat, sending: nat -> nat, look: Look, key: nat, nonces: nat -> nat)
    returns (got: Result<Bytes, BlobError>)
    ensures got == Ok(file)
  {
    var first := new Reader(file, hashing);
    var digest, _ := HashFile(first);
    var second := new Reader(file, sending);
    var wire := SendFile(second, key, nonces);
    RoundTrip(look, key, nonces, file);
    var blob := new BlobRecv(wire, look);
    got := ReceiveFile(blob, key, digest);
  }
}
