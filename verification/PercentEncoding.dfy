/** Percent encoding of a URI component (daemon/bin/src/main.rs, RFC 3986). */
module PercentEncoding {
  import opened Integers
  import opened Wrappers
  import Utf8

  /** RFC 3986, section 2.3. */
  predicate IsUnreserved(b: u8) {
    || 'A' as int <= b as int <= 'Z' as int || 'a' as int <= b as int <= 'z' as int
    || '0' as int <= b as int <= '9' as int
    || b as int in {'-' as int, '_' as int, '.' as int, '~' as int}
  }

  function HexDigit(n: int): char
    requires 0 <= n < 16
  {
    if n < 10 then ('0' as int + n) as char else ('A' as int + n - 10) as char
  }

  function HexValue(c: char): Option<int> {
    if '0' <= c <= '9' then Some(c as int - '0' as int)
    else if 'A' <= c <= 'F' then Some(c as int - 'A' as int + 10)
    else if 'a' <= c <= 'f' then Some(c as int - 'a' as int + 10)
    else None
  }

  function EncodedByte(b: u8): string {
    if IsUnreserved(b) then [b as int as char] else ['%', HexDigit(b as int / 16), HexDigit(b as int % 16)]
  }

  function EncodedBytes(bytes: seq<u8>): string {
    if bytes == [] then "" else EncodedBytes(bytes[..|bytes|-1]) + EncodedByte(bytes[|bytes|-1])
  }

  function EncodedText(value: string): string { EncodedBytes(Utf8.Encoded(value)) }

  /** RFC 3986, section 2.1: a triplet stands for one byte, and any other ASCII character for
      itself; None when a percent sign does not start a triplet. */
  function DecodedByte(s: string): Option<(u8, nat)>
    requires s != ""
    ensures DecodedByte(s).Some? ==> 1 <= DecodedByte(s).value.1 <= |s|
  {
    if s[0] == '%' then
      if |s| < 3 || HexValue(s[1]).None? || HexValue(s[2]).None? then None
      else Some(((HexValue(s[1]).value * 16 + HexValue(s[2]).value) as u8, 3))
    else if s[0] as int < 128 then Some((s[0] as int as u8, 1))
    else None
  }

  function DecodedBytes(s: string): Option<seq<u8>>
    decreases |s|
  {
    if s == "" then Some([])
    else
      var first := DecodedByte(s);
      if first.None? then None
      else
        var rest := DecodedBytes(s[first.value.1..]);
        if rest.None? then None else Some([first.value.0] + rest.value)
  }

  function DecodedText(s: string): Option<string> {
    var bytes := DecodedBytes(s);
    if bytes.None? then None else Utf8.Decoded(bytes.value)
  }

  /** The digits of a triplet are `0` to `9` and `A` to `F`. */
  lemma UpperCaseDigits(n: int)
    requires 0 <= n < 16
    ensures HexDigit(0) == '0' && HexDigit(9) == '9' && HexDigit(10) == 'A' && HexDigit(15) == 'F'
    ensures n < 15 && n != 9 ==> HexDigit(n + 1) as int == HexDigit(n) as int + 1
  {
  }

  /** What encoded text is made of: unreserved characters and percent signs. */
  predicate IsSafe(c: char) {
    c == '%' || (c as int < 128 && IsUnreserved(c as int as u8))
  }

  lemma ByteDecodes(b: u8, rest: string)
    ensures DecodedByte(EncodedByte(b) + rest) == Some((b, |EncodedByte(b)|))
    ensures |EncodedByte(b)| > 0 && forall i | 0 <= i < |EncodedByte(b)| :: IsSafe(EncodedByte(b)[i])
  {
    var n := b as int;
    assert n == n / 16 * 16 + n % 16;
  }

  /** The encoder works from the back of the byte string, the decoder from the front. */
  lemma {:induction false} EncodedFront(bytes: seq<u8>)
    requires bytes != []
    ensures EncodedBytes(bytes) == EncodedByte(bytes[0]) + EncodedBytes(bytes[1..])
  {
    hide EncodedByte;
    var last := bytes[|bytes|-1];
    if |bytes| == 1 {
      assert bytes[..0] == [];
      assert "" + EncodedByte(last) == EncodedByte(last) + "";
    } else {
      var init := bytes[..|bytes|-1];
      EncodedFront(init);
      assert bytes[1..][..|bytes|-2] == init[1..];
      assert EncodedByte(bytes[0]) + EncodedBytes(init[1..]) + EncodedByte(last)
          == EncodedByte(bytes[0]) + (EncodedBytes(init[1..]) + EncodedByte(last));
    }
  }

  /** Decoding undoes encoding for every byte string. */
  lemma {:induction false} DecodingUndoesEncoding(bytes: seq<u8>)
    ensures DecodedBytes(EncodedBytes(bytes)) == Some(bytes)
    decreases |bytes|
  {
    if bytes != [] {
      hide DecodedByte, EncodedByte;
      EncodedFront(bytes);
      var s, front, back := EncodedBytes(bytes), EncodedByte(bytes[0]), EncodedBytes(bytes[1..]);
      ByteDecodes(bytes[0], back);
      DecodingUndoesEncoding(bytes[1..]);
      assert s[|front|..] == back;
      assert bytes == [bytes[0]] + bytes[1..];
    }
  }

  lemma TextSurvives(value: string)
    ensures DecodedText(EncodedText(value)) == Some(value)
  {
    DecodingUndoesEncoding(Utf8.Encoded(value));
    Utf8.DecodingUndoesEncoding(Utf8.Encoded(value), value);
  }

  /** RFC 3986, section 2.2. */
  const RESERVED := ":/?#[]@!$&'()*+,;="

  /** Encoded text never holds a reserved character: none separates query fields or list items. */
  lemma {:induction false} EncodedIsSafe(bytes: seq<u8>)
    ensures forall i | 0 <= i < |EncodedBytes(bytes)| :: IsSafe(EncodedBytes(bytes)[i])
    ensures forall c <- RESERVED :: c !in EncodedBytes(bytes)
    ensures '&' !in EncodedBytes(bytes) && '=' !in EncodedBytes(bytes) && ',' !in EncodedBytes(bytes)
  {
    if bytes != [] {
      EncodedIsSafe(bytes[..|bytes|-1]);
      ByteDecodes(bytes[|bytes|-1], "");
      hide EncodedByte;
    }
    assert forall c <- RESERVED :: !IsSafe(c);
    assert '&' in RESERVED && '=' in RESERVED && ',' in RESERVED;
    hide EncodedBytes, IsSafe;
  }

  /** ASCII text of unreserved characters is its own encoding. */
  lemma {:induction false} UnreservedTextStays(value: string)
    requires forall i | 0 <= i < |value| :: value[i] as int < 128 && IsUnreserved(value[i] as int as u8)
    ensures EncodedText(value) == value
  {
    if value != "" {
      var first, rest := value[0], value[1..];
      UnreservedTextStays(rest);
      hide IsUnreserved, EncodedBytes;
      var bytes := Utf8.Encoded(value);
      assert bytes == [first as int as u8] + Utf8.Encoded(rest);
      EncodedFront(bytes);
      assert bytes[1..] == Utf8.Encoded(rest);
      assert value == [first] + rest;
    }
  }

  /** Letters, digits and four marks are the only characters that are their own encoding. */
  lemma OwnEncodings(c: char)
    ensures EncodedText([c]) == [c] <==>
            'A' <= c <= 'Z' || 'a' <= c <= 'z' || '0' <= c <= '9' || c in "-._~"
  {
    if c as int < 128 && IsUnreserved(c as int as u8) {
      UnreservedTextStays([c]);
    } else {
      var bytes := Utf8.EncodedChar(c);
      assert [c][1..] == "" && Utf8.Encoded([c]) == bytes + [];
      assert bytes + [] == bytes;
      FirstByteIsEncoded(c);
      hide *;
      EncodedFront(bytes);
      assert EncodedText([c]) == EncodedBytes(bytes);
    }
  }

  lemma FirstByteIsEncoded(c: char)
    requires !(c as int < 128 && IsUnreserved(c as int as u8))
    ensures Utf8.EncodedChar(c) != [] && |EncodedByte(Utf8.EncodedChar(c)[0])| == 3
  {
  }

  method PercentEncodeComponent(value: string) returns (encoded: string)
    ensures encoded == EncodedText(value)
  {
    encoded := "";
    var bytes := Utf8.Encoded(value);
    for k := 0 to |bytes|
      invariant encoded == EncodedBytes(bytes[..k])
    {
      assert bytes[..k+1][..k] == bytes[..k];
      var byte := bytes[k];
      if IsUnreserved(byte) {
        encoded := encoded + [byte as int as char];
      } else {
        encoded := encoded + ['%', HexDigit(byte as int / 16), HexDigit(byte as int % 16)];
      }
    }
    assert bytes[..|bytes|] == bytes;
  }
}
