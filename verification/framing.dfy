/** Length-prefixed frames on the socket between the runtime and the script
  * process: a 4-byte little-endian payload length followed by the payload.
  * The MessagePack codec itself is an abstract encoder/decoder pair. */
module Framing {
  import opened Common

  /** Lengths are written as `u32`. */
  const LengthLimit: nat := 0x1_0000_0000

  /** `WriterFailed` stands for any `io::Error` the underlying writer
    * returns; its kind is the writer's and is not modelled. */
  datatype IoError = UnexpectedEof | InvalidData | WriterFailed

  datatype IoResult<T> = Ok(value: T) | Err(error: IoError)

  /** The serialiser and deserialiser for one message type; either may fail. */
  datatype Codec<!T> = Codec(encode: T -> Option<seq<Byte>>, decode: seq<Byte> -> Option<T>)

  /** Decoding undoes encoding. */
  ghost predicate Inverse<T(!new)>(codec: Codec<T>) {
    forall v :: codec.encode(v).Some? ==> codec.decode(codec.encode(v).value) == Some(v)
  }

  /** `u32::to_le_bytes`. */
  function LeBytes(n: nat): (r: seq<Byte>)
    requires n < LengthLimit
    ensures |r| == 4
  {
    [n % 256, (n / 256) % 256, (n / 65536) % 256, n / 16777216]
  }

  /** `u32::from_le_bytes`. */
  function FromLe(b: seq<Byte>): (r: nat)
    requires |b| == 4
    ensures r < LengthLimit
  {
    b[0] as int + 256 * (b[1] as int) + 65536 * (b[2] as int) + 16777216 * (b[3] as int)
  }

  lemma LeRoundTrip(n: nat)
    requires n < LengthLimit
    ensures FromLe(LeBytes(n)) == n
  {
    var a, b, c, d := n % 256, (n / 256) % 256, (n / 65536) % 256, n / 16777216;
    assert n / 65536 == 256 * d + c by {
      assert n / 65536 / 256 == n / 16777216;
    }
    assert n / 256 == 65536 * d + 256 * c + b by {
      assert n / 256 / 256 == n / 65536;
    }
  }

  lemma FromLeRoundTrip(b: seq<Byte>)
    requires |b| == 4
    ensures LeBytes(FromLe(b)) == b
  {
    var n := FromLe(b);
    var b0, b1, b2, b3: int := b[0], b[1], b[2], b[3];
    assert n == b0 + 256 * (b1 + 256 * (b2 + 256 * b3));
    assert n % 256 == b0 && n / 256 == b1 + 256 * (b2 + 256 * b3);
    assert n / 65536 == (n / 256) / 256;
    assert n / 16777216 == (n / 65536) / 256;
  }

  /** The bytes `write_msgpack_frame` emits for a payload: the length cast to
    * `u32` (which truncates above 4 GiB), then the payload. */
  function Frame(payload: seq<Byte>): (r: seq<Byte>)
    ensures |r| == 4 + |payload|
  {
    LeBytes(|payload| % LengthLimit) + payload
  }

  /** `read_msgpack_frame` on a stream holding `data`, starting at `pos`:
    * the outcome and the position after it. A stream that ends inside the
    * header or the payload is consumed to its end. */
  function ReadFrameAt<T>(data: seq<Byte>, pos: nat, decode: seq<Byte> -> Option<T>): (r: (IoResult<T>, nat))
    requires pos <= |data|
    ensures pos <= r.1 <= |data|
    ensures r.0.Err? && r.0.error == UnexpectedEof ==> r.1 == |data|
    ensures pos + 4 > |data| ==> r.0 == Err(UnexpectedEof)
  {
    if pos + 4 > |data| then (Err(UnexpectedEof), |data|)
    else
      var len := FromLe(data[pos..pos + 4]);
      if pos + 4 + len > |data| then (Err(UnexpectedEof), |data|)
      else match decode(data[pos + 4..pos + 4 + len])
        case None => (Err(InvalidData), pos + 4 + len)
        case Some(v) => (Ok(v), pos + 4 + len)
  }

  /** Reading a frame just written yields the value written, and leaves the
    * stream at the first byte after the frame, whatever surrounds it. */
  lemma FrameRoundTrip<T(!new)>(codec: Codec<T>, v: T, before: seq<Byte>, after: seq<Byte>)
    requires Inverse(codec)
    requires codec.encode(v).Some? && |codec.encode(v).value| < LengthLimit
    ensures var p := codec.encode(v).value;
            ReadFrameAt(before + Frame(p) + after, |before|, codec.decode) == (Ok(v), |before| + 4 + |p|)
  {
    var p := codec.encode(v).value;
    var data := before + Frame(p) + after;
    var pos := |before|;
    assert data[pos..pos + 4] == LeBytes(|p|);
    LeRoundTrip(|p|);
    assert data[pos + 4..pos + 4 + |p|] == p;
  }

  /** A stream cut anywhere before the end of a frame fails with
    * `UnexpectedEof` and is consumed to its end. */
  lemma TruncatedFrameFails<T>(payload: seq<Byte>, k: nat, decode: seq<Byte> -> Option<T>)
    requires |payload| < LengthLimit && k < 4 + |payload|
    ensures ReadFrameAt(Frame(payload)[..k], 0, decode) == (Err(UnexpectedEof), k)
  {
    var data := Frame(payload)[..k];
    if k >= 4 {
      assert data[0..4] == LeBytes(|payload|);
      LeRoundTrip(|payload|);
    }
  }

  /** A payload of 4 GiB or more gets a header naming a shorter length: a
    * reader takes only the first `len mod 2^32` payload bytes as the frame. */
  lemma OversizedPayloadHeader(payload: seq<Byte>)
    requires |payload| >= LengthLimit
    ensures FromLe(Frame(payload)[..4]) == |payload| - LengthLimit * (|payload| / LengthLimit)
            < |payload|
  {
    assert Frame(payload)[..4] == LeBytes(|payload| % LengthLimit);
    LeRoundTrip(|payload| % LengthLimit);
  }

  /** The outcomes of a writer's next calls: `None` for a call that
    * succeeds, `Some(n)` for one that fails after taking at most `n` bytes.
    * Calls past the end of the script succeed. */
  type Faults = seq<Option<nat>>

  /** The first `k` calls of the script succeed. */
  predicate Succeeds(f: Faults, k: nat) {
    forall i :: 0 <= i < k && i < |f| ==> f[i].None?
  }

  /** The script after `k` calls. */
  function Drop(f: Faults, k: nat): (r: Faults)
    ensures |r| == if k <= |f| then |f| - k else 0
  {
    if k <= |f| then f[k..] else []
  }

  /** How many of `n` offered bytes a call with outcome `o` takes. */
  function Taken(o: Option<nat>, n: nat): (r: nat)
    ensures r <= n
    ensures o.None? ==> r == n
  {
    match o
    case None => n
    case Some(m) => if m < n then m else n
  }

  /** A writer with an internal buffer: `write_all` appends to the buffer,
    * `flush` hands the buffer to the peer. Either call can fail, as the
    * environment's fault script says, after passing on part of its bytes. */
  class Sink {
    var delivered: seq<Byte>
    var buffered: seq<Byte>
    var faults: Faults

    constructor (faults: Faults)
      ensures delivered == [] && buffered == [] && this.faults == faults
    {
      delivered := [];
      buffered := [];
      this.faults := faults;
    }

    /** The outcome of the next call. */
    function Next(): Option<nat>
      reads this
    {
      if faults == [] then None else faults[0]
    }

    method WriteAll(bytes: seq<Byte>) returns (r: IoResult<()>)
      modifies this
      ensures faults == Drop(old(faults), 1) && delivered == old(delivered)
      ensures r.Ok? <==> Succeeds(old(faults), 1)
      ensures r.Err? ==> r.error == WriterFailed
      ensures buffered == old(buffered) + bytes[..Taken(old(Next()), |bytes|)]
    {
      var n := Taken(Next(), |bytes|);
      r := if Next().None? then Ok(()) else Err(WriterFailed);
      buffered := buffered + bytes[..n];
      faults := Drop(faults, 1);
    }

    method Flush() returns (r: IoResult<()>)
      modifies this
      ensures faults == Drop(old(faults), 1)
      ensures r.Ok? <==> Succeeds(old(faults), 1)
      ensures r.Err? ==> r.error == WriterFailed
      ensures delivered + buffered == old(delivered) + old(buffered)
      ensures delivered == old(delivered) + old(buffered)[..Taken(old(Next()), |old(buffered)|)]
      ensures r.Ok? ==> buffered == []
    {
      var n := Taken(Next(), |buffered|);
      r := if Next().None? then Ok(()) else Err(WriterFailed);
      delivered := delivered + buffered[..n];
      buffered := buffered[n..];
      faults := Drop(faults, 1);
    }
  }

  /** `write_msgpack_frame`: an encoding failure is `InvalidData` and writes
    * nothing. Otherwise the header is written, then the payload, then the
    * writer is flushed, and the first failing call ends the frame with its
    * error: what reached the writer is then a prefix of the frame, and no
    * payload byte follows a failed header. Without a failure the peer has
    * received everything written so far. */
  method WriteFrame<T>(sink: Sink, codec: Codec<T>, value: T) returns (r: IoResult<()>)
    modifies sink
    ensures codec.encode(value).None? ==>
              && r == Err(InvalidData)
              && sink.delivered == old(sink.delivered) && sink.buffered == old(sink.buffered)
              && sink.faults == old(sink.faults)
    ensures codec.encode(value).Some? ==>
              var frame := Frame(codec.encode(value).value);
              var before := old(sink.delivered) + old(sink.buffered);
              && (r.Ok? <==> Succeeds(old(sink.faults), 3))
              && (r.Ok? ==> sink.buffered == [] && sink.delivered == before + frame
                            && sink.faults == Drop(old(sink.faults), 3))
              && (r.Err? ==> r.error == WriterFailed
                             && before <= sink.delivered + sink.buffered <= before + frame)
              && (!Succeeds(old(sink.faults), 1) ==>
                    sink.delivered + sink.buffered <= before + frame[..4]
                    && sink.faults == Drop(old(sink.faults), 1))
  {
    var payload := codec.encode(value);
    if payload.None? {
      return Err(InvalidData);
    }
    ghost var f0 := sink.faults;
    ghost var before := sink.delivered + sink.buffered;
    var len := |payload.value| % LengthLimit;
    ghost var frame := Frame(payload.value);
    assert frame == LeBytes(len) + payload.value;
    r := sink.WriteAll(LeBytes(len));
    if r.Err? {
      assert sink.delivered + sink.buffered == before + LeBytes(len)[..Taken(if f0 == [] then None else f0[0], 4)];
      return;
    }
    r := sink.WriteAll(payload.value);
    if r.Err? {
      return;
    }
    r := sink.Flush();
  }

  /** A reader over a fixed byte stream and a read position. */
  class Source {
    const data: seq<Byte>
    var pos: nat

    predicate Valid()
      reads this
    {
      pos <= |data|
    }

    constructor (data: seq<Byte>)
      ensures this.data == data && pos == 0 && Valid()
    {
      this.data := data;
      pos := 0;
    }

    /** `read_exact`: fills the buffer from the stream, or reports a stream
      * that ends first (having consumed what was left). */
    method ReadExact(buf: array<Byte>) returns (ok: bool)
      requires Valid()
      modifies this, buf
      ensures Valid()
      ensures ok <==> old(pos) + buf.Length <= |data|
      ensures ok ==> pos == old(pos) + buf.Length && buf[..] == data[old(pos)..pos]
      ensures !ok ==> pos == |data|
    {
      if pos + buf.Length > |data| {
        pos := |data|;
        return false;
      }
      var start := pos;
      var i := 0;
      while i < buf.Length
        modifies buf
        invariant 0 <= i <= buf.Length
        invariant buf[..i] == data[start..start + i]
      {
        buf[i] := data[start + i];
        i := i + 1;
      }
      pos := start + buf.Length;
      return true;
    }
  }

  /** `read_msgpack_frame`: a 4-byte header, then exactly that many payload
    * bytes, then decoding; a decoding failure is `InvalidData`. */
  method ReadFrame<T>(src: Source, codec: Codec<T>) returns (r: IoResult<T>)
    requires src.Valid()
    modifies src
    ensures src.Valid()
    ensures (r, src.pos) == ReadFrameAt(src.data, old(src.pos), codec.decode)
  {
    var header := new Byte[4](_ => 0);
    var ok := src.ReadExact(header);
    if !ok {
      return Err(UnexpectedEof);
    }
    var len := FromLe(header[..]);
    var payload := new Byte[len](_ => 0);
    ok := src.ReadExact(payload);
    if !ok {
      return Err(UnexpectedEof);
    }
    var decoded := codec.decode(payload[..]);
    if decoded.None? {
      return Err(InvalidData);
    }
    return Ok(decoded.value);
  }
}
