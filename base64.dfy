/** The browser's `btoa` and `atob` over binary strings (strings whose
    characters all have code points below 256), modelled as the base64
    encoding of section 4 of RFC 4648 and the forgiving-base64 decoding that
    `atob` applies to its input. */
module Base64 {
  import opened Common

  /** A byte, the element type of a `Uint8Array`. */
  type uint8 = x: int | 0 <= x < 0x100

  /** One base64 digit: six bits. */
  type sextet = x: int | 0 <= x < 64

  predicate IsBinaryString(s: string)
  {
    forall i :: 0 <= i < |s| ==> s[i] as int < 0x100
  }

  /** The character codes of a binary string (`charCodeAt`). */
  function CharCodes(s: string): (b: seq<uint8>)
    requires IsBinaryString(s)
    ensures |b| == |s|
    ensures forall i :: 0 <= i < |s| ==> b[i] == s[i] as int
  {
    seq(|s|, i requires 0 <= i < |s| && IsBinaryString(s) => s[i] as int)
  }

  /** The binary string with the given character codes (`String.fromCharCode`). */
  function FromCharCodes(b: seq<uint8>): (s: string)
    ensures |s| == |b| && IsBinaryString(s)
    ensures forall i :: 0 <= i < |b| ==> s[i] as int == b[i]
    ensures CharCodes(s) == b
  {
    seq(|b|, i requires 0 <= i < |b| => b[i] as char)
  }

  /** Table 1 of RFC 4648: the character for each 6-bit value. */
  function DigitChar(v: sextet): (c: char)
    ensures DigitValue(c) == Some(v)
  {
    if v < 26 then ('A' as int + v) as char
    else if v < 52 then ('a' as int + (v - 26)) as char
    else if v < 62 then ('0' as int + (v - 52)) as char
    else if v == 62 then '+'
    else '/'
  }

  /** The value of a base64 digit, or None for a character outside the
      alphabet (the pad character '=' included). */
  function DigitValue(c: char): (r: Option<sextet>)
    ensures r.Some? ==> c != '='
  {
    if 'A' <= c <= 'Z' then Some(c as int - 'A' as int)
    else if 'a' <= c <= 'z' then Some(c as int - 'a' as int + 26)
    else if '0' <= c <= '9' then Some(c as int - '0' as int + 52)
    else if c == '+' then Some(62)
    else if c == '/' then Some(63)
    else None
  }

  /** Three bytes become four digits, most significant bits first. */
  function EncodeGroup(b0: uint8, b1: uint8, b2: uint8): seq<sextet>
  {
    [b0 / 4, (b0 % 4) * 16 + b1 / 16, (b1 % 16) * 4 + b2 / 64, b2 % 64]
  }

  /** The digits of the encoding, before padding: a final group of one or two
      bytes yields two or three digits whose unused low bits are zero. */
  function EncodeDigits(b: seq<uint8>): (xs: seq<sextet>)
    ensures |xs| == 4 * (|b| / 3) + (if |b| % 3 == 0 then 0 else |b| % 3 + 1)
    decreases |b|
  {
    if |b| == 0 then []
    else if |b| == 1 then [b[0] / 4, (b[0] % 4) * 16]
    else if |b| == 2 then [b[0] / 4, (b[0] % 4) * 16 + b[1] / 16, (b[1] % 16) * 4]
    else EncodeGroup(b[0], b[1], b[2]) + EncodeDigits(b[3..])
  }

  function Padding(n: nat): (p: string)
    ensures forall i :: 0 <= i < |p| ==> p[i] == '='
  {
    if n % 3 == 1 then "==" else if n % 3 == 2 then "=" else ""
  }

  /** The alphabet characters of a digit sequence. */
  function DigitChars(xs: seq<sextet>): (s: string)
    ensures |s| == |xs|
    ensures forall i :: 0 <= i < |xs| ==> DigitValue(s[i]) == Some(xs[i])
  {
    seq(|xs|, i requires 0 <= i < |xs| => DigitChar(xs[i]))
  }

  /** Base64 encoding of a byte sequence, padded to a multiple of four. */
  function Encode(b: seq<uint8>): (s: string)
    ensures |s| == 4 * ((|b| + 2) / 3)
    ensures forall i :: 0 <= i < |s| ==> s[i] == '=' || DigitValue(s[i]).Some?
  {
    DigitChars(EncodeDigits(b)) + Padding(|b|)
  }

  /** `btoa`: a string with a character above U+00FF is rejected. */
  function Btoa(s: string): (r: Result<string, JsError>)
    ensures r.Err? <==> !IsBinaryString(s)
    ensures r.Err? ==> r.error == InvalidCharacterError
    ensures r.Ok? ==> |r.value| % 4 == 0
  {
    if IsBinaryString(s) then Ok(Encode(CharCodes(s))) else Err(InvalidCharacterError)
  }

  /** TAB, LF, FF, CR and SPACE. */
  predicate IsAsciiWhitespace(c: char)
  {
    c == '\t' || c == '\n' || c as int == 0x0C || c == '\r' || c == ' '
  }

  /** The non-whitespace characters of a text, in order. */
  function RemoveWhitespace(s: string): (r: string)
    ensures forall i :: 0 <= i < |r| ==> !IsAsciiWhitespace(r[i])
    ensures (forall i :: 0 <= i < |s| ==> !IsAsciiWhitespace(s[i])) ==> r == s
  {
    if s == [] then []
    else if IsAsciiWhitespace(s[0]) then RemoveWhitespace(s[1..])
    else [s[0]] + RemoveWhitespace(s[1..])
  }

  /** Whitespace removal works character by character: it distributes over
      concatenation, drops each whitespace character and keeps every other
      character. */
  lemma {:induction false} RemoveWhitespaceAppend(a: string, b: string)
    ensures RemoveWhitespace(a + b) == RemoveWhitespace(a) + RemoveWhitespace(b)
    decreases |a|
  {
    if a == [] {
      assert a + b == b;
    } else {
      var ab := a + b;
      assert ab != [] && ab[0] == a[0] && ab[1..] == a[1..] + b;
      RemoveWhitespaceAppend(a[1..], b);
      if IsAsciiWhitespace(a[0]) {
        assert RemoveWhitespace(ab) == RemoveWhitespace(a[1..] + b);
      } else {
        assert RemoveWhitespace(ab) == [a[0]] + RemoveWhitespace(a[1..] + b);
        assert RemoveWhitespace(a) == [a[0]] + RemoveWhitespace(a[1..]);
      }
    }
  }

  lemma RemoveWhitespaceOfChar(c: char)
    ensures RemoveWhitespace([c]) == if IsAsciiWhitespace(c) then [] else [c]
  {
    assert [c][1..] == [];
  }

  /** `atob` sees its input only through the non-whitespace characters. */
  lemma AtobOfSameCharacters(x: string, y: string)
    requires RemoveWhitespace(x) == RemoveWhitespace(y)
    ensures Atob(x) == Atob(y)
  {
    assert Unpadded(x) == Unpadded(y);
  }

  /** `atob` skips ASCII whitespace wherever it occurs in its input. */
  lemma AtobSkipsWhitespace(a: string, w: char, b: string)
    requires IsAsciiWhitespace(w)
    ensures Atob(a + [w] + b) == Atob(a + b)
  {
    RemoveWhitespaceAppend(a + [w], b);
    RemoveWhitespaceAppend(a, [w]);
    RemoveWhitespaceOfChar(w);
    RemoveWhitespaceAppend(a, b);
    assert RemoveWhitespace(a + [w] + b) == RemoveWhitespace(a + b);
    AtobOfSameCharacters(a + [w] + b, a + b);
  }

  /** Removes one or two trailing '=' characters, if present. */
  function StripPadding(s: string): (r: string)
    ensures |s| - 2 <= |r| <= |s| && r == s[..|r|]
  {
    if 2 <= |s| && s[|s| - 2] == '=' && s[|s| - 1] == '=' then s[..|s| - 2]
    else if 1 <= |s| && s[|s| - 1] == '=' then s[..|s| - 1]
    else s
  }

  /** Only '=' characters are removed, and every trailing '=' is removed
      unless there were more than two. */
  lemma StripPaddingRemovesPadding(s: string)
    ensures var r := StripPadding(s);
            (forall i :: |r| <= i < |s| ==> s[i] == '=') &&
            (0 < |r| && |s| - |r| < 2 ==> r[|r| - 1] != '=')
  {
  }

  /** The digit values of a string, or None when a character is not a digit. */
  function DigitValues(s: string): (r: Option<seq<sextet>>)
    ensures r.Some? <==> forall i :: 0 <= i < |s| ==> DigitValue(s[i]).Some?
    ensures r.Some? ==> |r.value| == |s| && forall i :: 0 <= i < |s| ==> Some(r.value[i]) == DigitValue(s[i])
  {
    if forall i :: 0 <= i < |s| ==> DigitValue(s[i]).Some? then
      Some(seq(|s|, i requires 0 <= i < |s| && DigitValue(s[i]).Some? => DigitValue(s[i]).value))
    else None
  }

  /** The three bytes carried by the 24 bits of four digits, high to low. */
  function HighByte(x0: sextet, x1: sextet): uint8 { (x0 as int) * 4 + x1 / 16 }
  function MiddleByte(x1: sextet, x2: sextet): uint8 { (x1 % 16) * 16 + x2 / 4 }
  function LowByte(x2: sextet, x3: sextet): uint8 { (x2 % 4) * 64 + x3 }

  /** Reassembles bytes from digits: every four digits give three bytes, and
      a final two or three digits give one or two bytes, their leftover low
      bits discarded. */
  function DecodeDigits(xs: seq<sextet>): (b: seq<uint8>)
    requires |xs| % 4 != 1
    ensures |b| == 3 * (|xs| / 4) + (if |xs| % 4 == 0 then 0 else |xs| % 4 - 1)
    decreases |xs|
  {
    if |xs| == 0 then []
    else if |xs| == 2 then [HighByte(xs[0], xs[1])]
    else if |xs| == 3 then [HighByte(xs[0], xs[1]), MiddleByte(xs[1], xs[2])]
    else [HighByte(xs[0], xs[1]), MiddleByte(xs[1], xs[2]), LowByte(xs[2], xs[3])]
         + DecodeDigits(xs[4..])
  }

  /** The characters `atob` decodes: ASCII whitespace removed and, when the
      length is a multiple of four, one or two trailing '=' dropped. */
  function Unpadded(s: string): string
  {
    var data := RemoveWhitespace(s);
    if |data| % 4 == 0 then StripPadding(data) else data
  }

  /** Decoding of the unpadded characters: a length of 4k+1 or a character
      outside the alphabet is rejected. */
  function DecodeUnpadded(data: string): (r: Result<string, JsError>)
    ensures r.Ok? ==> IsBinaryString(r.value)
    ensures r.Err? ==> r.error == InvalidCharacterError
    ensures r.Ok? <==> |data| % 4 != 1 && forall i :: 0 <= i < |data| ==> DigitValue(data[i]).Some?
  {
    if |data| % 4 == 1 then Err(InvalidCharacterError)
    else match DigitValues(data)
      case None => Err(InvalidCharacterError)
      case Some(xs) => Ok(FromCharCodes(DecodeDigits(xs)))
  }

  /** `atob`: forgiving-base64 decoding into a binary string. */
  function Atob(s: string): (r: Result<string, JsError>)
    ensures r.Ok? ==> IsBinaryString(r.value)
    ensures r.Err? ==> r.error == InvalidCharacterError
  {
    DecodeUnpadded(Unpadded(s))
  }

  /** Digits of one full group decode to the bytes that produced them. */
  lemma DecodeGroup(b0: uint8, b1: uint8, b2: uint8)
    ensures var xs := EncodeGroup(b0, b1, b2);
            HighByte(xs[0], xs[1]) == b0 && MiddleByte(xs[1], xs[2]) == b1 && LowByte(xs[2], xs[3]) == b2
  {
  }

  lemma DecodeDigitsOfGroup(g: seq<sextet>, rest: seq<sextet>)
    requires |g| == 4 && |rest| % 4 != 1
    ensures DecodeDigits(g + rest)
         == [HighByte(g[0], g[1]), MiddleByte(g[1], g[2]), LowByte(g[2], g[3])] + DecodeDigits(rest)
  {
  }

  lemma {:induction false} DecodeEncodeDigits(b: seq<uint8>)
    ensures |EncodeDigits(b)| % 4 != 1
    ensures DecodeDigits(EncodeDigits(b)) == b
    decreases |b|
  {
    var xs := EncodeDigits(b);
    if |b| == 1 {
      assert xs[1] / 16 == b[0] % 4;
    } else if |b| == 2 {
      assert xs[1] / 16 == b[0] % 4 && xs[1] % 16 == b[1] / 16;
      assert xs[2] / 4 == b[1] % 16;
    } else if 3 <= |b| {
      var g := EncodeGroup(b[0], b[1], b[2]);
      DecodeEncodeDigits(b[3..]);
      DecodeGroup(b[0], b[1], b[2]);
      DecodeDigitsOfGroup(g, EncodeDigits(b[3..]));
      assert b == [b[0], b[1], b[2]] + b[3..];
    }
  }

  /** Dropping the padding of an encoding leaves exactly its digits. */
  lemma StripPaddingOfEncode(b: seq<uint8>)
    ensures StripPadding(Encode(b)) == DigitChars(EncodeDigits(b))
  {
    var d := DigitChars(EncodeDigits(b));
    var s := Encode(b);
    assert s == d + Padding(|b|);
    if |b| % 3 == 2 {
      assert s[|s| - 2] == d[|d| - 1];
    } else if |b| % 3 == 0 && |b| > 0 {
      assert s[|s| - 1] == d[|d| - 1];
    }
  }

  /** An encoding contains no character that `atob` would skip. */
  lemma EncodeHasNoWhitespace(b: seq<uint8>)
    ensures RemoveWhitespace(Encode(b)) == Encode(b)
  {
  }

  lemma DecodeDigitChars(xs: seq<sextet>)
    requires |xs| % 4 != 1
    ensures DecodeUnpadded(DigitChars(xs)) == Ok(FromCharCodes(DecodeDigits(xs)))
  {
    var d := DigitChars(xs);
    assert DigitValues(d).value == xs;
  }

  lemma EncodeLengthIsMultipleOfFour(b: seq<uint8>)
    ensures |Encode(b)| % 4 == 0
  {
  }

  /** What `atob` decodes of an encoding is exactly its digit characters. */
  lemma UnpaddedOfEncode(b: seq<uint8>)
    ensures Unpadded(Encode(b)) == DigitChars(EncodeDigits(b))
  {
    var s := Encode(b);
    EncodeHasNoWhitespace(b);
    StripPaddingOfEncode(b);
    EncodeLengthIsMultipleOfFour(b);
    var data := RemoveWhitespace(s);
    assert data == s && |data| % 4 == 0;
  }

  /** Base64 round trip: `atob(btoa(bytes))` gives back the same bytes. */
  lemma DecodeEncode(b: seq<uint8>)
    ensures Atob(Encode(b)) == Ok(FromCharCodes(b))
  {
    var xs := EncodeDigits(b);
    UnpaddedOfEncode(b);
    DecodeEncodeDigits(b);
    DecodeDigitChars(xs);
    calc {
      Atob(Encode(b));
      DecodeUnpadded(DigitChars(xs));
      Ok(FromCharCodes(DecodeDigits(xs)));
      Ok(FromCharCodes(b));
    }
  }

  /** The same round trip on binary strings, as the client calls them. */
  lemma AtobBtoa(s: string)
    requires IsBinaryString(s)
    ensures Btoa(s).Ok? && Atob(Btoa(s).value) == Ok(s)
  {
    DecodeEncode(CharCodes(s));
    assert FromCharCodes(CharCodes(s)) == s;
  }
}
