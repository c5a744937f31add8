# Voice client audio core, modelled in Dafny

The browser client of the voice copilot (`src/app/static/app.js`) streams
microphone audio to the server and plays the synthesized speech it receives.
This project models the parts of that client that have behaviour of their
own, apart from the browser:

- **Sample codec** (`sample_codec.dfy`): `float32ToInt16` clamps each sample
  to [-1, 1], scales negatives by 0x8000 and the rest by 0x7FFF, and stores
  the result in an `Int16Array`; `int16ToFloat32` divides back. Samples are
  exact reals. The `Int16Array` store is written out as ECMAScript's ToInt16:
  truncate toward zero, then reduce modulo 2^16.
- **Byte layout and base64** (`base64.dfy`, `pcm16.dfy`): the little-endian
  bytes of an `Int16Array` buffer; `btoa` as the base64 encoding of section 4
  of RFC 4648; `atob` as the browser's forgiving-base64 decoding; the
  `Int16Array` view, which raises a RangeError on an odd byte count;
  `int16ToBase64` and the decoding at the head of `playAudio`.
- **Playback scheduling** (`playback.dfy`): the lazily created audio context
  and the queue cursor `audioQueueTime`, as a class. Each chunk starts at
  `max(cursor, now + 0.1)` and moves the cursor to its end at 24000 samples
  per second. The context's clock is the parameter `now`, and the start time
  handed to `source.start` is a result.
- **Dispatch and teardown** (`session.dfy`): the classification done by
  `handleWebSocketMessage`, and `stopRecording` over the recording globals
  and the socket, stream and processor handles.

`common.dfy` holds the Option and Result types and the three host exceptions
(InvalidCharacterError, RangeError, NotSupportedError).

Two behaviours of the code are modelled as written:
- Samples are not rounded. The code stores `s * 0x8000` or `s * 0x7FFF`
  into an `Int16Array` and never calls `Math.round`, so the store
  truncates toward zero. The quantisation error stays within 1/32767
  (`SampleCodec.QuantizationError`).
- A payload that fails to decode is not caught. The exception escapes
  `playAudio`, and the model returns it as an error result. Nothing is
  scheduled and the cursor is unchanged.

## Model

| member | source | states |
|---|---|---|
| `SampleCodec.Clamp` | src/app/static/app.js:202 | the result lies in [-1, 1]; it equals the input inside that range, -1 below it and 1 above it |
| `SampleCodec.TruncateTowardZero` | src/app/static/app.js:203 | the stored integer is within one of the value, on the side of zero (truncation, not rounding) |
| `SampleCodec.WrapToInt16` | src/app/static/app.js:203 | an `Int16Array` store is congruent to its input modulo 2^16 and leaves values already in [-32768, 32767] alone |
| `SampleCodec.Scaled` | src/app/static/app.js:202-203 | the scaled value lies in [-32768, 32767] for every input |
| `SampleCodec.Quantize` | src/app/static/app.js:202-203 | inputs <= -1 give -32768 and inputs >= 1 give 32767; inside [-1, 1] the result is the scaled sample truncated toward zero; sign is preserved weakly and 0 maps to 0 |
| `SampleCodec.Dequantize` | src/app/static/app.js:220-223 | every result lies in [-1, 1]; -32768 gives -1, 32767 gives 1; the result is negative exactly for negative samples and zero exactly for 0 |
| `SampleCodec.QuantizeNeverWraps` | src/app/static/app.js:200-203 | thanks to the clamp, the modulo-2^16 reduction of the store never changes the truncated value |
| `SampleCodec.QuantizeDequantize` | src/app/static/app.js:199-226 | decoding a PCM sample and encoding it again returns the same sample |
| `SampleCodec.QuantizationError` | src/app/static/app.js:199-226 | for a sample in [-1, 1], encoding then decoding moves it by at most 1/32767 |
| `SampleCodec.Float32ToInt16` | src/app/static/app.js:199-206 | returns an array of the input's length whose element i is the quantised input sample i |
| `SampleCodec.Int16ToFloat32` | src/app/static/app.js:217-226 | returns an array of the input's length whose element i is the dequantised sample i |
| `Base64.CharCodes` | src/app/static/app.js:162 | `charCodeAt` gives, for each character of a binary string, its code as a byte |
| `Base64.FromCharCodes` | src/app/static/app.js:212 | `String.fromCharCode` gives a binary string of the same length whose character codes are the bytes back |
| `Base64.DigitChar` | src/app/static/app.js:214 | every 6-bit value has an alphabet character that decodes to that value |
| `Base64.EncodeDigits` | src/app/static/app.js:214 | the digit count is 4 per full group of three bytes, plus 2 or 3 for a final group of one or two bytes |
| `Base64.Encode` | src/app/static/app.js:214 | the text has 4 characters per started group of three bytes and holds only alphabet characters and '=' |
| `Base64.Btoa` | src/app/static/app.js:214 | rejects with InvalidCharacterError exactly the strings holding a character above U+00FF; otherwise the text's length is a multiple of four |
| `Base64.RemoveWhitespace` | src/app/static/app.js:158 | the result holds no ASCII whitespace, and a text without whitespace is returned unchanged |
| `Base64.RemoveWhitespaceAppend` | src/app/static/app.js:158 | whitespace removal distributes over concatenation |
| `Base64.RemoveWhitespaceOfChar` | src/app/static/app.js:158 | a single whitespace character is dropped and any other character kept; with the previous row, the result is the non-whitespace characters in order |
| `Base64.AtobOfSameCharacters` | src/app/static/app.js:158 | two texts with the same non-whitespace characters decode alike |
| `Base64.AtobSkipsWhitespace` | src/app/static/app.js:158 | inserting an ASCII whitespace character anywhere does not change what `atob` returns |
| `Base64.StripPadding` | src/app/static/app.js:158 | the result is a prefix of the text, at most two characters shorter |
| `Base64.StripPaddingRemovesPadding` | src/app/static/app.js:158 | only '=' characters are removed, and no trailing '=' is left unless the text ended in three or more |
| `Base64.DigitValues` | src/app/static/app.js:158 | succeeds exactly when every character is a base64 digit, and then gives each character's value |
| `Base64.DecodeDigits` | src/app/static/app.js:158 | the byte count is 3 per four digits plus 1 or 2 for a final two or three digits |
| `Base64.DecodeUnpadded` | src/app/static/app.js:158 | succeeds exactly when the length is not 4k+1 and every character is a digit; a success is a binary string; a failure is InvalidCharacterError |
| `Base64.Atob` | src/app/static/app.js:158 | a success is a binary string; every failure is InvalidCharacterError |
| `Base64.DecodeEncodeDigits` | src/app/static/app.js:214 | the digits of any byte sequence never number 4k+1, and decoding them returns the bytes |
| `Base64.StripPaddingOfEncode` | src/app/static/app.js:214 | dropping the trailing '=' of an encoding leaves exactly its digit characters |
| `Base64.EncodeHasNoWhitespace` | src/app/static/app.js:214 | an encoding contains nothing that `atob` would skip |
| `Base64.EncodeLengthIsMultipleOfFour` | src/app/static/app.js:214 | an encoding's length is a multiple of four, so `atob` strips its padding |
| `Base64.UnpaddedOfEncode` | src/app/static/app.js:158 | what `atob` decodes of an encoding is exactly its digit characters |
| `Base64.DecodeDigitChars` | src/app/static/app.js:158 | decoding the characters of a valid digit sequence gives the bytes those digits carry |
| `Base64.DecodeEncode` | src/app/static/app.js:214 | `atob` of the base64 encoding of any bytes returns those bytes |
| `Base64.AtobBtoa` | src/app/static/app.js:214 | `btoa` accepts every binary string, and `atob` of its output returns the string |
| `Pcm16.Bits` | src/app/static/app.js:209 | a sample's buffer bits are in [0, 65535] and congruent to the sample modulo 2^16 |
| `Pcm16.FromBytes` | src/app/static/app.js:164 | the sample read from a low and a high byte has exactly those bytes as its bits |
| `Pcm16.Serialize` | src/app/static/app.js:209 | the buffer of n samples holds 2n bytes |
| `Pcm16.SerializeAt` | src/app/static/app.js:209 | byte 2i is the low byte and byte 2i+1 the high byte of sample i (little endian) |
| `Pcm16.Reassemble` | src/app/static/app.js:164 | an even-length buffer of 2n bytes is read as n samples |
| `Pcm16.Int16ArrayOf` | src/app/static/app.js:164 | `new Int16Array(buffer)` raises RangeError exactly when the byte count is odd, and otherwise has half as many samples as bytes |
| `Pcm16.ReassembleSerialize` | src/app/static/app.js:160-164 | reading the serialised bytes back as an `Int16Array` returns the original samples |
| `Pcm16.SerializeReassemble` | src/app/static/app.js:164 | every even-length buffer is exactly the layout of the samples read from it |
| `Pcm16.DecodePayload` | src/app/static/app.js:158-164 | text that is not base64 gives InvalidCharacterError; text that decodes to an odd byte count gives RangeError, and only that; otherwise half as many samples as bytes |
| `Pcm16.EncodePayload` | src/app/static/app.js:208-215 | the text sent for a block has a length that is a multiple of four |
| `Pcm16.PayloadRoundTrip` | src/app/static/app.js:158-164 | decoding what `int16ToBase64` produced returns exactly the original samples |
| `Pcm16.CaptureToPlayback` | src/app/static/app.js:69-71 | a captured block sent and received back decodes to its quantised samples |
| `Pcm16.Int16ToBase64` | src/app/static/app.js:208-215 | the loop builds the binary string of the little-endian bytes, and `btoa` of it decodes back to the same samples |
| `Pcm16.DecodeAudio` | src/app/static/app.js:157-164 | the byte-copy loop and the `Int16Array` view fail exactly as the payload decoding does, and otherwise hold its samples |
| `Playback.Duration` | src/app/static/app.js:175 | a buffer of n samples lasts n/24000 seconds |
| `Playback.StartTime` | src/app/static/app.js:184 | the start is at or after the cursor and at or after now + 0.1, and equals one of the two |
| `Playback.Schedule` | src/app/static/app.js:183-188 | one interval per chunk, in call order |
| `Playback.ScheduleBounds` | src/app/static/app.js:183-188 | every interval starts at or after the initial cursor and its chunk's now + 0.1, lasts its chunk's duration and ends by the final cursor; the cursor never decreases |
| `Playback.ScheduleInOrder` | src/app/static/app.js:183-188 | no chunk starts before any earlier chunk ends |
| `Playback.ScheduleContiguous` | src/app/static/app.js:183-188 | while the cursor is ahead of every now + 0.1, the first chunk starts at the cursor and each later chunk exactly where the previous one ends |
| `Playback.ScheduleAppend` | src/app/static/app.js:183-188 | scheduling one more chunk appends one interval starting at max(cursor, now + 0.1) and leaves the cursor at its end |
| `Playback.Player.constructor` | src/app/static/app.js:8-11 | no audio context and a cursor of 0 at load time |
| `Playback.Player.EnsureContext` | src/app/static/app.js:170-173 | a context is created only when absent, with the cursor set to its clock; an existing cursor is kept |
| `Playback.Player.Enqueue` | src/app/static/app.js:183-188 | the start is max(cursor, now + 0.1); the new cursor is start + n/24000 and never below the old; the new chunk starts after every earlier one ends |
| `Playback.Player.PlayAudio` | src/app/static/app.js:157-193 | a payload that fails to decode raises that error and leaves context and cursor unchanged; a payload of zero samples raises NotSupportedError once the context exists and schedules nothing; otherwise the dequantised samples are scheduled at max(cursor, now + 0.1) and the cursor advances by their duration |
| `Session.Dispatch` | src/app/static/app.js:130-155 | only `response.audio.delta` with a non-empty `delta` plays audio; only `extension.middle_tier_tool_response` from `generate_report` shows a report; `response.done`, `error` and any other type do neither |
| `Session.HandleWebSocketMessage` | src/app/static/app.js:130-155 | only an audio delta touches the player; a delta that fails to decode leaves context and cursor unchanged; an empty one fails with NotSupportedError and schedules nothing; a delta of N samples plays their dequantised values at max(cursor, now + 0.1) and moves the cursor N/24000 past that start; reports carry the tool result |
| `Session.Socket.Close` | src/app/static/app.js:97 | a connecting or open socket starts closing; a closing or closed one is unchanged |
| `Session.MediaStream.StopTracks` | src/app/static/app.js:92 | every track of the stream is stopped |
| `Session.Processor.Disconnect` | src/app/static/app.js:87 | the processor is taken out of the audio graph |
| `Session.Client.constructor` | src/app/static/app.js:6-10 | not recording, with no socket, stream or processor |
| `Session.Client.StopRecording` | src/app/static/app.js:81-102 | recording is off; the processor is kept but disconnected and without callback; every track is stopped and the stream dropped; the socket is closed and dropped; the player is not touched; a second stop changes nothing |

## Left out

- Floating point: samples and times are exact reals. Float32 and double rounding in the scaling, the division and the time arithmetic are not modelled.
- SampleCodec.Int16ToFloat32: each element is the exact quotient; the `Float32Array` store would round it to single precision.
- SampleCodec.QuantizeDequantize: the identity holds for exact reals only. Under float32 rounding of the stored quotient it fails for some samples: 1 becomes float32(1/32767), which times 32767 is just below 1 and truncates to 0.
- SampleCodec.Float32ToInt16: NaN and infinite input samples are not modelled (the source would store 0 for NaN).
- Pcm16.Serialize: the `Int16Array` buffer is in the platform's byte order, which is assumed little-endian.
- Base64.Atob: the model is the forgiving-base64 decoding of the WHATWG HTML standard, without any length limit the host may impose.
- Playback.Player.PlayAudio: the context clock is read once, as `now`, for both context creation and scheduling; the host may advance it between the two reads.
- Playback.ScheduleContiguous: the hypothesis asks every clock reading to be behind the initial cursor, which is stronger than the cursor staying ahead step by step.
- The audio graph calls (`createBuffer`, `copyToChannel`, `createBufferSource`, `connect`, `source.start`, `onended`) are host calls; the scheduled start time and samples are returned instead. Of their failures, only the NotSupportedError that `createBuffer` raises for zero samples is modelled.
- `startRecording`, `getUserMedia`, the `ScriptProcessor` wiring and `onaudioprocess` are device and audio-graph plumbing. Their per-block work is covered by the codec and `Pcm16.CaptureToPlayback`.
- WebSocket creation and the `onopen`, `onmessage`, `onclose` and `onerror` handlers are network plumbing. This includes the fixed `session.update` message sent on open.
- `JSON.parse` and `JSON.stringify` are library parsing: messages arrive already parsed, and a report carries its raw `tool_result` text (`displayReport` is not modelled). The SyntaxError that `JSON.parse` raises when `tool_result` is missing or malformed is not modelled, so such a message still yields a report (possibly of no text) where the code shows none.
- Console logging for `response.done`, `error` and unknown types is output only; those messages map to no action.
- DOM access, status text and `onCallButton` (a synchronous HTTP request) are presentation and I/O.
- Interleaving of microphone, socket and clock events is concurrency; each operation is modelled as one atomic step.
