/** The raw byte layout of an `Int16Array` (two bytes per sample, little
    endian) and the two transport paths of the client: `int16ToBase64`
    (capture side) and the payload decoding at the head of `playAudio`
    (playback side). */
module Pcm16 {
  import opened Common
  import opened SampleCodec
  import opened Base64

  /** The 16-bit two's-complement pattern of a sample. */
  function Bits(v: int16): (u: int)
    ensures 0 <= u < 0x1_0000
    ensures (u - v) % 0x1_0000 == 0
  {
    if v < 0 then v + 0x1_0000 else v
  }

  /** The sample whose two's-complement pattern is `lo + 256 * hi`. */
  function FromBytes(lo: uint8, hi: uint8): (v: int16)
    ensures Bits(v) == lo + 0x100 * hi
  {
    var u := lo + 0x100 * hi;
    if u < 0x8000 then u else u - 0x1_0000
  }

  /** The bytes of `int16Array.buffer`: each sample as its low byte, then
      its high byte. */
  function Serialize(s: seq<int16>): (b: seq<uint8>)
    ensures |b| == 2 * |s|
  {
    if s == [] then [] else [Bits(s[0]) % 0x100, Bits(s[0]) / 0x100] + Serialize(s[1..])
  }

  /** Byte 2i of the buffer is the low byte of sample i and byte 2i+1 its
      high byte. */
  lemma {:induction false} SerializeAt(s: seq<int16>, i: nat)
    requires i < |s|
    ensures Serialize(s)[2 * i] == Bits(s[i]) % 0x100
    ensures Serialize(s)[2 * i + 1] == Bits(s[i]) / 0x100
  {
    if i > 0 {
      SerializeAt(s[1..], i - 1);
    }
  }

  /** The samples of a buffer whose length is even: each pair of bytes read
      as one little-endian sample. */
  function Reassemble(b: seq<uint8>): (s: seq<int16>)
    requires |b| % 2 == 0
    ensures |s| == |b| / 2
  {
    if b == [] then [] else [FromBytes(b[0], b[1])] + Reassemble(b[2..])
  }

  /** `new Int16Array(bytes.buffer)`: a RangeError when the byte length is
      odd, the reassembled samples otherwise. */
  function Int16ArrayOf(b: seq<uint8>): (r: Result<seq<int16>, JsError>)
    ensures r.Err? <==> |b| % 2 == 1
    ensures r.Err? ==> r.error == RangeError
    ensures r.Ok? ==> |r.value| * 2 == |b|
  {
    if |b| % 2 == 1 then Err(RangeError) else Ok(Reassemble(b))
  }

  /** Reading the bytes back as an `Int16Array` returns the original samples. */
  lemma {:induction false} ReassembleSerialize(s: seq<int16>)
    ensures Reassemble(Serialize(s)) == s
  {
    if s != [] {
      ReassembleSerialize(s[1..]);
      var b := Serialize(s);
      assert b[2..] == Serialize(s[1..]);
      assert FromBytes(b[0], b[1]) == s[0];
    }
  }

  /** Every even-length byte buffer is the layout of the samples read from it. */
  lemma {:induction false} SerializeReassemble(b: seq<uint8>)
    requires |b| % 2 == 0
    ensures Serialize(Reassemble(b)) == b
  {
    if b != [] {
      SerializeReassemble(b[2..]);
      var v := FromBytes(b[0], b[1]);
      assert Bits(v) % 0x100 == b[0] && Bits(v) / 0x100 == b[1];
      assert b == [b[0], b[1]] + b[2..];
    }
  }

  /** What a client receiving `base64Audio` obtains before playing it:
      `atob`, the byte copy, then the `Int16Array` view. */
  function DecodePayload(base64Audio: string): (r: Result<seq<int16>, JsError>)
    ensures Atob(base64Audio).Err? ==> r == Err(InvalidCharacterError)
    ensures Atob(base64Audio).Ok? ==>
              (r.Err? <==> |Atob(base64Audio).value| % 2 == 1)
    ensures r.Err? && r.error == RangeError <==>
              Atob(base64Audio).Ok? && |Atob(base64Audio).value| % 2 == 1
    ensures r.Ok? ==> 2 * |r.value| == |Atob(base64Audio).value|
  {
    match Atob(base64Audio)
    case Err(e) => Err(e)
    case Ok(binary) => Int16ArrayOf(CharCodes(binary))
  }

  /** What the capture path sends for a block of samples (`int16ToBase64`). */
  function EncodePayload(s: seq<int16>): (text: string)
    ensures |text| % 4 == 0
  {
    Encode(Serialize(s))
  }

  /** Transport round trip: the playback path recovers exactly the samples
      the capture path serialised. */
  lemma PayloadRoundTrip(s: seq<int16>)
    ensures DecodePayload(EncodePayload(s)) == Ok(s)
  {
    DecodeEncode(Serialize(s));
    ReassembleSerialize(s);
  }

  /** Capture to playback: a block of normalised samples sent by the client
      and received back decodes to the quantised samples. */
  lemma CaptureToPlayback(frame: seq<real>)
    ensures DecodePayload(EncodePayload(seq(|frame|, i requires 0 <= i < |frame| => Quantize(frame[i]))))
         == Ok(seq(|frame|, i requires 0 <= i < |frame| => Quantize(frame[i])))
  {
    PayloadRoundTrip(seq(|frame|, i requires 0 <= i < |frame| => Quantize(frame[i])));
  }

  /** `int16ToBase64` (lines 208-215): the bytes of the sample buffer are
      appended one character at a time to a binary string, which `btoa`
      encodes. */
  method Int16ToBase64(pcm: array<int16>) returns (text: string)
    ensures text == EncodePayload(pcm[..])
    ensures DecodePayload(text) == Ok(pcm[..])
  {
    var byteArray := Serialize(pcm[..]);
    var binary := "";
    var i := 0;
    while i < |byteArray|
      invariant 0 <= i <= |byteArray|
      invariant binary == FromCharCodes(byteArray[..i])
    {
      binary := binary + [byteArray[i] as char];
      i := i + 1;
    }
    assert byteArray[..i] == byteArray;
    var encoded := Btoa(binary);
    text := encoded.value;
    PayloadRoundTrip(pcm[..]);
  }

  /** The first part of `playAudio` (lines 158-164): `atob`, a byte-by-byte
      copy of the character codes into a `Uint8Array`, then an `Int16Array`
      over its buffer. Each failure is the exception the host raises. */
  method DecodeAudio(base64Audio: string) returns (r: Result<array<int16>, JsError>)
    ensures r.Err? <==> DecodePayload(base64Audio).Err?
    ensures r.Err? ==> r.error == DecodePayload(base64Audio).error
    ensures r.Ok? ==> r.value[..] == DecodePayload(base64Audio).value
  {
    var decoded := Atob(base64Audio);
    if decoded.Err? {
      return Err(decoded.error);
    }
    var binary := decoded.value;
    var bytes := new uint8[|binary|];
    var i := 0;
    while i < |binary|
      invariant 0 <= i <= |binary|
      invariant forall k :: 0 <= k < i ==> bytes[k] == binary[k] as int
    {
      bytes[i] := binary[i] as int;
      i := i + 1;
    }
    assert bytes[..] == CharCodes(binary);
    var view := Int16ArrayOf(bytes[..]);
    if view.Err? {
      return Err(view.error);
    }
    var samples := view.value;
    var int16Array := new int16[|samples|](k requires 0 <= k < |samples| => samples[k]);
    return Ok(int16Array);
  }
}
