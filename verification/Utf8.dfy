/** UTF-8 byte strings, as section 4 of RFC 3629 defines them. */
module Utf8 {
  import opened Integers
  import opened Wrappers

  predicate Tail(b: u8) { 0x80 <= b <= 0xBF }

  /** The bytes at `s[1..n]` are all continuation bytes. */
  predicate Tails(s: seq<u8>, n: nat) {
    n <= |s| && forall i | 1 <= i < n :: Tail(s[i])
  }

  /** The length of the character at the head of `s`; 0 when there is none. */
  function CharLength(s: seq<u8>): nat {
    if s == [] then 0
    else if s[0] <= 0x7F then 1
    else if 0xC2 <= s[0] <= 0xDF then if Tails(s, 2) then 2 else 0
    else if 0xE0 <= s[0] <= 0xEF then
      if Tails(s, 3) && (s[0] == 0xE0 ==> s[1] >= 0xA0) && (s[0] == 0xED ==> s[1] <= 0x9F) then 3 else 0
    else if 0xF0 <= s[0] <= 0xF4 then
      if Tails(s, 4) && (s[0] == 0xF0 ==> s[1] >= 0x90) && (s[0] == 0xF4 ==> s[1] <= 0x8F) then 4 else 0
    else 0
  }

  lemma CharLengthFacts(s: seq<u8>)
    ensures CharLength(s) <= 4 && CharLength(s) <= |s|
    ensures CharLength(s) > 0 ==> !Tail(s[0]) && forall i | 1 <= i < CharLength(s) :: Tail(s[i])
    ensures s != [] && Tail(s[0]) ==> CharLength(s) == 0
  {
  }

  /** Only the bytes of the character matter, not what follows. */
  lemma CharLengthOfPrefix(s: seq<u8>, i: nat)
    requires CharLength(s) <= i <= |s| && CharLength(s) > 0
    ensures CharLength(s[..i]) == CharLength(s)
  {
  }

  predicate Valid(s: seq<u8>)
    decreases |s|
  {
    s == [] || (CharLength(s) > 0 && CharLength(s) <= |s| && Valid(s[CharLength(s)..]))
  }

  /** How `str::is_char_boundary` decides: the ends of the text, and any byte that does not
      continue a character. */
  predicate IsCharBoundary(s: seq<u8>, i: nat) {
    i == 0 || i == |s| || (i < |s| && !Tail(s[i]))
  }

  /** In valid text, a boundary is exactly where both sides are valid on their own. */
  lemma {:induction false} BoundariesSplitText(s: seq<u8>, i: nat)
    requires Valid(s) && i <= |s|
    ensures IsCharBoundary(s, i) <==> Valid(s[..i]) && Valid(s[i..])
    decreases |s|
  {
    hide CharLength;
    CharLengthFacts(s);
    var n := CharLength(s);
    if i == 0 {
      assert s[..i] == [] && s[i..] == s;
    } else if i < n {
      CharLengthFacts(s[i..]);
    } else {
      var rest := s[n..];
      BoundariesSplitText(rest, i - n);
      CharLengthFacts(rest);
      CharLengthOfPrefix(s, i);
      assert s[..i][n..] == rest[..i-n] && s[i..] == rest[i-n..];
    }
  }

  /** Every four neighbouring positions in valid text hold a boundary. */
  lemma {:induction false} BoundaryIsNear(s: seq<u8>, i: nat) returns (j: nat)
    requires Valid(s) && i <= |s|
    ensures i <= j <= i + 3 && j <= |s| && IsCharBoundary(s, j)
    decreases |s|
  {
    hide CharLength;
    CharLengthFacts(s);
    var n := CharLength(s);
    if i == 0 {
      j := 0;
    } else if i < n {
      j := n;
      CharLengthFacts(s[n..]);
    } else {
      CharLengthFacts(s[n..]);
      var k := BoundaryIsNear(s[n..], i - n);
      j := n + k;
    }
  }

  /** Text joined to text is text. */
  lemma {:induction false} ValidConcat(s: seq<u8>, t: seq<u8>)
    requires Valid(s) && Valid(t)
    ensures Valid(s + t)
    decreases |s|
  {
    hide CharLength;
    if s == [] {
      assert s + t == t;
    } else {
      var n := CharLength(s);
      ValidConcat(s[n..], t);
      assert (s + t)[..|s|] == s && (s + t)[n..] == s[n..] + t;
      HeadOfConcat(s, t);
    }
  }

  lemma HeadOfConcat(s: seq<u8>, t: seq<u8>)
    requires CharLength(s) > 0
    ensures CharLength(s + t) == CharLength(s)
  {
  }

  // ----- Code points in digits of six bits -----

  function Number(a: int, b: int, c: int, d: int): int { ((a * 64 + b) * 64 + c) * 64 + d }

  function Digit0(n: int): int { n % 64 }

  function Digit1(n: int): int { n / 64 % 64 }

  function Digit2(n: int): int { n / 4096 % 64 }

  function From1(n: int): int { n / 64 }

  function From2(n: int): int { n / 4096 }

  function From3(n: int): int { n / 262144 }

  lemma DigitsOfNumber(a: int, b: int, c: int, d: int)
    requires 0 <= a && 0 <= b < 64 && 0 <= c < 64 && 0 <= d < 64
    ensures var n := Number(a, b, c, d);
            && Digit0(n) == d && Digit1(n) == c && Digit2(n) == b
            && From1(n) == (a * 64 + b) * 64 + c && From2(n) == a * 64 + b && From3(n) == a
  {
  }

  lemma NumberOfDigits(n: int)
    requires 0 <= n
    ensures 0 <= Digit0(n) < 64 && 0 <= Digit1(n) < 64 && 0 <= Digit2(n) < 64
    ensures Number(From3(n), Digit2(n), Digit1(n), Digit0(n)) == n
    ensures Number(0, From2(n), Digit1(n), Digit0(n)) == n
    ensures Number(0, 0, From1(n), Digit0(n)) == n
  {
    assert n == From1(n) * 64 + Digit0(n);
    assert From1(n) == From2(n) * 64 + Digit1(n);
    assert From2(n) == From3(n) * 64 + Digit2(n);
  }

  // ----- Text and its bytes -----

  function EncodedChar(c: char): seq<u8> {
    var n := c as int;
    NumberOfDigits(n);
    if n < 0x80 then [n as u8]
    else if n < 0x800 then [(0xC0 + From1(n)) as u8, (0x80 + Digit0(n)) as u8]
    else if n < 0x1_0000 then [(0xE0 + From2(n)) as u8, (0x80 + Digit1(n)) as u8, (0x80 + Digit0(n)) as u8]
    else
      [(0xF0 + From3(n)) as u8, (0x80 + Digit2(n)) as u8, (0x80 + Digit1(n)) as u8, (0x80 + Digit0(n)) as u8]
  }

  /** The code point of the character at the head of `s`. */
  function CodePoint(s: seq<u8>): int
    requires CharLength(s) > 0
  {
    match CharLength(s)
    case 1 => s[0] as int
    case 2 => Number(0, 0, s[0] as int - 0xC0, s[1] as int - 0x80)
    case 3 => Number(0, s[0] as int - 0xE0, s[1] as int - 0x80, s[2] as int - 0x80)
    case _ => Number(s[0] as int - 0xF0, s[1] as int - 0x80, s[2] as int - 0x80, s[3] as int - 0x80)
  }

  lemma CodePointsAreScalars(s: seq<u8>)
    requires CharLength(s) > 0
    ensures 0 <= CodePoint(s) < 0xD800 || 0xE000 <= CodePoint(s) < 0x11_0000
    ensures match CharLength(s)
            case 1 => CodePoint(s) < 0x80
            case 2 => 0x80 <= CodePoint(s) < 0x800
            case 3 => 0x800 <= CodePoint(s) < 0x1_0000
            case _ => 0x1_0000 <= CodePoint(s)
  {
  }

  function DecodedChar(s: seq<u8>): char
    requires CharLength(s) > 0
  {
    CodePointsAreScalars(s);
    CodePoint(s) as char
  }

  function Encoded(text: string): seq<u8> {
    if text == "" then [] else EncodedChar(text[0]) + Encoded(text[1..])
  }

  function Decoded(s: seq<u8>): Option<string>
    decreases |s|
  {
    if s == [] then Some("")
    else if CharLength(s) == 0 || CharLength(s) > |s| then None
    else
      var rest := Decoded(s[CharLength(s)..]);
      if rest.None? then None else Some([DecodedChar(s)] + rest.value)
  }

  lemma EncodedCharIsChar(c: char, rest: seq<u8>)
    ensures var s := EncodedChar(c) + rest;
            CharLength(s) == |EncodedChar(c)| > 0 && DecodedChar(s) == c
  {
    NumberOfDigits(c as int);
    hide From1, From2, From3, Digit0, Digit1, Digit2;
  }

  lemma CharIsEncodedChar(s: seq<u8>)
    requires CharLength(s) > 0
    ensures CharLength(s) <= |s| && s[..CharLength(s)] == EncodedChar(DecodedChar(s))
  {
    CodePointsAreScalars(s);
    match CharLength(s) {
      case 1 =>
      case 2 => DigitsOfNumber(0, 0, s[0] as int - 0xC0, s[1] as int - 0x80);
      case 3 => DigitsOfNumber(0, s[0] as int - 0xE0, s[1] as int - 0x80, s[2] as int - 0x80);
      case _ => DigitsOfNumber(s[0] as int - 0xF0, s[1] as int - 0x80, s[2] as int - 0x80, s[3] as int - 0x80);
    }
    hide From1, From2, From3, Digit0, Digit1, Digit2, Number;
  }

  /** Bytes decode to a text exactly when they are its encoding; valid bytes are those that decode. */
  lemma {:induction false} DecodingUndoesEncoding(s: seq<u8>, text: string)
    ensures Decoded(s) == Some(text) <==> s == Encoded(text)
    ensures Valid(s) <==> Decoded(s).Some?
    decreases |s|
  {
    hide CharLength, EncodedChar, DecodedChar;
    CharLengthFacts(s);
    if text != "" {
      EncodedCharIsChar(text[0], Encoded(text[1..]));
    }
    if s != [] && CharLength(s) > 0 {
      var rest := s[CharLength(s)..];
      CharIsEncodedChar(s);
      assert s == s[..CharLength(s)] + rest;
      if text != "" {
        DecodingUndoesEncoding(rest, text[1..]);
        assert text == [text[0]] + text[1..];
        if s == Encoded(text) { assert rest == Encoded(text[1..]); }
        if Decoded(s) == Some(text) { assert Decoded(rest).value == text[1..]; }
      } else {
        DecodingUndoesEncoding(rest, "");
      }
    }
  }
}
