/** Length-prefixed framing (the `wire` module of src/transport/message.rs):
    a frame is the payload length as a 4-byte big-endian unsigned integer,
    followed by the payload. The payload is a JSON document, treated here as
    opaque bytes. Frames larger than 16 MiB are refused on both sides. */
module Wire {
  import opened Wrappers
  import opened Primitives

  /** `MAX_MESSAGE_SIZE`: 16 MiB. */
  const MaxMessageSize: nat := 16 * 1024 * 1024

  datatype WireError =
    | MessageTooLarge(size: nat)   // "Message too large"
    | LengthTruncated              // "Failed to read length": the stream ended inside the prefix
    | BodyTruncated                // "Failed to read message": the stream ended inside the body

  /** `u32::to_be_bytes`. */
  function BeU32(n: U32): (b: seq<U8>)
    ensures |b| == 4
    ensures b[0] as int * 0x100_0000 + b[1] as int * 0x1_0000 + b[2] as int * 0x100 + b[3] as int == n
  {
    assert n == (n / 0x100) * 0x100 + n % 0x100;
    assert n / 0x100 == (n / 0x1_0000) * 0x100 + (n / 0x100) % 0x100;
    assert n / 0x1_0000 == (n / 0x100_0000) * 0x100 + (n / 0x1_0000) % 0x100;
    [n / 0x100_0000, (n / 0x1_0000) % 0x100, (n / 0x100) % 0x100, n % 0x100]
  }

  /** `u32::from_be_bytes`. */
  function FromBeU32(b: seq<U8>): (n: U32)
    requires |b| == 4
    ensures BeU32(n) == b
  {
    var n: U32 := b[0] as int * 0x100_0000 + b[1] as int * 0x1_0000 + b[2] as int * 0x100 + b[3] as int;
    assert n % 0x100 == b[3];
    assert n / 0x100 == b[0] as int * 0x1_0000 + b[1] as int * 0x100 + b[2] as int;
    assert n / 0x1_0000 == b[0] as int * 0x100 + b[1] as int;
    assert n / 0x100_0000 == b[0];
    n
  }

  /** Big-endian encoding followed by decoding is the identity on 32-bit lengths. */
  lemma BeU32RoundTrip(n: U32)
    ensures FromBeU32(BeU32(n)) == n
  {
    var b := BeU32(n);
    assert n == (n / 0x100) * 0x100 + n % 0x100;
    assert n / 0x100 == (n / 0x1_0000) * 0x100 + (n / 0x100) % 0x100;
    assert n / 0x1_0000 == (n / 0x100_0000) * 0x100 + (n / 0x1_0000) % 0x100;
  }

  /** Decoding followed by encoding is the identity on every 4-byte prefix. */
  lemma FromBeU32RoundTrip(b: seq<U8>)
    requires |b| == 4
    ensures BeU32(FromBeU32(b)) == b
  {
    var n := FromBeU32(b);
    assert n % 0x100 == b[3];
    assert n / 0x100 == b[0] as int * 0x1_0000 + b[1] as int * 0x100 + b[2] as int;
    assert n / 0x1_0000 == b[0] as int * 0x100 + b[1] as int;
    assert n / 0x100_0000 == b[0];
  }

  /** `write_message` on an already serialised payload: the bytes it writes,
      or the error it reports before writing anything. */
  function EncodeFrame(payload: seq<U8>): (r: Result<seq<U8>, WireError>)
    ensures r.Failure? <==> |payload| > MaxMessageSize
    ensures r.Failure? ==> r.error == MessageTooLarge(|payload|)
    ensures r.Success? ==>
      && |r.value| == 4 + |payload|
      && FromBeU32(r.value[..4]) == |payload|
      && r.value[4..] == payload
  {
    if |payload| > MaxMessageSize then Failure(MessageTooLarge(|payload|))
    else
      // `json.len() as u32`: the length is truncated to 32 bits
      var prefix := BeU32(|payload| % U32Modulus);
      BeU32RoundTrip(|payload| % U32Modulus);
      assert (prefix + payload)[..4] == prefix;
      Success(prefix + payload)
  }

  /** `read_message` on the bytes a stream delivers until it ends: the payload
      and the number of bytes consumed, or the error. */
  function DecodeFrame(input: seq<U8>): (r: Result<(seq<U8>, nat), WireError>)
    ensures r.Success? ==>
      && 4 <= r.value.1 <= |input|
      && r.value.0 == input[4..r.value.1]
      && |r.value.0| <= MaxMessageSize
  {
    if |input| < 4 then Failure(LengthTruncated)
    else
      var len := FromBeU32(input[..4]);
      if len > MaxMessageSize then Failure(MessageTooLarge(len))
      else if |input| - 4 < len then Failure(BodyTruncated)
      else Success((input[4..4 + len], 4 + len))
  }

  /** Reading a written frame gives back the payload and consumes exactly the
      frame, whatever follows it on the stream. */
  lemma FrameRoundTrip(payload: seq<U8>, rest: seq<U8>)
    requires |payload| <= MaxMessageSize
    ensures EncodeFrame(payload).Success?
    ensures DecodeFrame(EncodeFrame(payload).value + rest) == Success((payload, 4 + |payload|))
  {
    var frame := EncodeFrame(payload).value;
    var input := frame + rest;
    assert input[..4] == frame[..4];
    assert input[4..4 + |payload|] == payload;
  }

  /** Every frame that reads successfully is exactly what writing its payload produces. */
  lemma DecodeThenEncode(input: seq<U8>)
    requires DecodeFrame(input).Success?
    ensures var (payload, used) := DecodeFrame(input).value;
      EncodeFrame(payload) == Success(input[..used])
  {
    var (payload, used) := DecodeFrame(input).value;
    FromBeU32RoundTrip(input[..4]);
    assert |payload| % U32Modulus == |payload|;
    assert input[..used] == input[..4] + payload;
  }

  /** When the declared length exceeds the ceiling the frame is refused on
      the strength of the prefix alone: no body byte affects the outcome. */
  lemma OversizeRefusedBeforeBody(input: seq<U8>)
    requires |input| >= 4 && FromBeU32(input[..4]) > MaxMessageSize
    ensures DecodeFrame(input) == Failure(MessageTooLarge(FromBeU32(input[..4])))
    ensures DecodeFrame(input) == DecodeFrame(input[..4])
  {
    assert input[..4][..4] == input[..4];
  }

  /** Exactly when reading fails: the stream ends inside the prefix, the
      declared length is over the ceiling, or the stream ends inside the body. */
  lemma DecodeFrameFailures(input: seq<U8>)
    ensures DecodeFrame(input).Failure? <==>
      (|input| < 4 || FromBeU32(input[..4]) > MaxMessageSize || |input| < 4 + FromBeU32(input[..4]))
    ensures |input| < 4 ==> DecodeFrame(input) == Failure(LengthTruncated)
  {
  }

  /** The writing half of a connection: everything written so far. */
  class FrameWriter {
    var written: seq<U8>

    constructor ()
      ensures written == []
    {
      written := [];
    }

    /** `write_all`. */
    method WriteAll(bytes: seq<U8>)
      modifies this
      ensures written == old(written) + bytes
    {
      written := written + bytes;
    }

    /** `wire::write_message` after serialisation: the prefix, then the body;
        an oversized payload is refused before anything is written. */
    method WriteMessage(json: seq<U8>) returns (r: Result<(), WireError>)
      modifies this
      ensures r.Success? <==> |json| <= MaxMessageSize
      ensures r.Success? ==> written == old(written) + EncodeFrame(json).value
      ensures r.Failure? ==> written == old(written) && r.error == MessageTooLarge(|json|)
    {
      if |json| > MaxMessageSize {
        return Failure(MessageTooLarge(|json|));
      }
      var len := BeU32(|json| % U32Modulus);
      WriteAll(len);
      WriteAll(json);
      assert written == old(written) + (len + json);
      return Success(());
    }
  }

  /** The reading half of a connection: the bytes the stream has yet to deliver
      before it ends. */
  class FrameReader {
    var remaining: seq<U8>

    constructor (input: seq<U8>)
      ensures remaining == input
    {
      remaining := input;
    }

    /** `read_exact`: `n` bytes, or an error once the stream ends first, in
        which case whatever was left has been consumed. */
    method ReadExact(n: nat) returns (ok: bool, bytes: seq<U8>)
      modifies this
      ensures ok <==> n <= |old(remaining)|
      ensures ok ==> bytes == old(remaining)[..n] && remaining == old(remaining)[n..]
      ensures !ok ==> remaining == []
    {
      if n <= |remaining| {
        ok, bytes := true, remaining[..n];
        remaining := remaining[n..];
      } else {
        ok, bytes := false, [];
        remaining := [];
      }
    }

    /** `wire::read_message` before deserialisation: the length prefix, the
        ceiling check, then the body. */
    method ReadMessage() returns (r: Result<seq<U8>, WireError>)
      modifies this
      ensures DecodeFrame(old(remaining)).Success? ==>
        && r == Success(DecodeFrame(old(remaining)).value.0)
        && remaining == old(remaining)[DecodeFrame(old(remaining)).value.1..]
      ensures DecodeFrame(old(remaining)).Failure? ==>
        && r == Failure(DecodeFrame(old(remaining)).error)
        && remaining == (if r.error.MessageTooLarge? then old(remaining)[4..] else [])
    {
      var ok, lenBuf := ReadExact(4);
      if !ok {
        return Failure(LengthTruncated);
      }
      var len := FromBeU32(lenBuf);
      if len > MaxMessageSize {
        return Failure(MessageTooLarge(len));
      }
      var buf;
      ok, buf := ReadExact(len);
      if !ok {
        return Failure(BodyTruncated);
      }
      assert old(remaining)[4..][..len] == old(remaining)[4..4 + len];
      assert old(remaining)[4..][len..] == old(remaining)[4 + len..];
      return Success(buf);
    }
  }
}
