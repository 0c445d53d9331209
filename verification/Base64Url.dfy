/**
 base64url without padding (relay/src/crypto.ts): the RFC 4648 encoder of section 4, and the
 change of alphabet of section 5.
 */
module Base64Url {
  import opened Integers
  import opened Wrappers

  newtype u6 = x: int | 0 <= x < 64

  // ----- Regrouping bits: three octets a, b, c are four sextets s, t, u, v -----

  function S(a: u8): u6 { (a as int / 4) as u6 }

  function T(a: u8, b: u8): u6 { (a as int % 4 * 16 + b as int / 16) as u6 }

  function U(b: u8, c: u8): u6 { (b as int % 16 * 4 + c as int / 64) as u6 }

  function V(c: u8): u6 { (c as int % 64) as u6 }

  function A(s: u6, t: u6): u8 { (s as int * 4 + t as int / 16) as u8 }

  function B(t: u6, u: u6): u8 { (t as int % 16 * 16 + u as int / 4) as u8 }

  function C(u: u6, v: u6): u8 { (u as int % 4 * 64 + v as int) as u8 }

  lemma OctetsSurvive(a: u8, b: u8, c: u8)
    ensures A(S(a), T(a, b)) == a && B(T(a, b), U(b, c)) == b && C(U(b, c), V(c)) == c
    ensures T(a, 0) % 16 == 0 && U(b, 0) % 4 == 0
  {
  }

  lemma SextetsSurvive(s: u6, t: u6, u: u6, v: u6)
    ensures var a, b, c := A(s, t), B(t, u), C(u, v);
            S(a) == s && T(a, b) == t && U(b, c) == u && V(c) == v
    ensures t % 16 == 0 ==> T(A(s, t), 0) == t
    ensures u % 4 == 0 ==> U(B(t, u), 0) == u
  {
  }

  /** The four sextets are the 24 bits of the three octets, in order. */
  lemma GroupsKeepTheirBits(a: u8, b: u8, c: u8)
    ensures ((S(a) as int * 64 + T(a, b) as int) * 64 + U(b, c) as int) * 64 + V(c) as int
         == (a as int * 256 + b as int) * 256 + c as int
  {
  }

  function Sextets(bytes: seq<u8>): seq<u6>
    decreases |bytes|
  {
    if bytes == [] then []
    else if |bytes| == 1 then [S(bytes[0]), T(bytes[0], 0)]
    else if |bytes| == 2 then [S(bytes[0]), T(bytes[0], bytes[1]), U(bytes[1], 0)]
    else
      [S(bytes[0]), T(bytes[0], bytes[1]), U(bytes[1], bytes[2]), V(bytes[2])] + Sextets(bytes[3..])
  }

  /** The standard decoder: None when the length is impossible or padding bits are set. */
  function Octets(sextets: seq<u6>): Option<seq<u8>>
    decreases |sextets|
  {
    if sextets == [] then Some([])
    else if |sextets| == 1 then None
    else if |sextets| == 2 then
      if sextets[1] % 16 == 0 then Some([A(sextets[0], sextets[1])]) else None
    else if |sextets| == 3 then
      if sextets[2] % 4 == 0 then Some([A(sextets[0], sextets[1]), B(sextets[1], sextets[2])]) else None
    else
      var rest := Octets(sextets[4..]);
      if rest.None? then None
      else
        Some([A(sextets[0], sextets[1]), B(sextets[1], sextets[2]), C(sextets[2], sextets[3])] + rest.value)
  }

  lemma {:induction false} OctetsUndoSextets(bytes: seq<u8>)
    ensures Octets(Sextets(bytes)) == Some(bytes)
    decreases |bytes|
  {
    hide S, T, U, V, A, B, C;
    if |bytes| == 1 {
      OctetsSurvive(bytes[0], 0, 0);
      assert bytes == [bytes[0]];
    } else if |bytes| == 2 {
      OctetsSurvive(bytes[0], bytes[1], 0);
      assert bytes == [bytes[0], bytes[1]];
    } else if |bytes| >= 3 {
      OctetsSurvive(bytes[0], bytes[1], bytes[2]);
      OctetsUndoSextets(bytes[3..]);
      assert Sextets(bytes)[4..] == Sextets(bytes[3..]);
      assert bytes == [bytes[0], bytes[1], bytes[2]] + bytes[3..];
    }
  }

  lemma {:induction false} SextetsUndoOctets(sextets: seq<u6>)
    requires Octets(sextets).Some?
    ensures Sextets(Octets(sextets).value) == sextets
    decreases |sextets|
  {
    hide S, T, U, V, A, B, C;
    if |sextets| == 2 { SextetsSurvive(sextets[0], sextets[1], 0, 0); }
    if |sextets| == 3 { SextetsSurvive(sextets[0], sextets[1], sextets[2], 0); }
    if |sextets| >= 4 {
      SextetsSurvive(sextets[0], sextets[1], sextets[2], sextets[3]);
      SextetsUndoOctets(sextets[4..]);
      assert Octets(sextets).value[3..] == Octets(sextets[4..]).value;
      assert sextets == sextets[..4] + sextets[4..];
    }
  }

  lemma {:induction false} SextetsLength(bytes: seq<u8>)
    ensures |Sextets(bytes)| == (4 * |bytes| + 2) / 3
    decreases |bytes|
  {
    if |bytes| >= 3 { SextetsLength(bytes[3..]); }
  }

  // ----- Alphabets -----

  function StandardChar(x: u6): char {
    var n := x as int;
    if n < 26 then ('A' as int + n) as char
    else if n < 52 then ('a' as int + n - 26) as char
    else if n < 62 then ('0' as int + n - 52) as char
    else if n == 62 then '+'
    else '/'
  }

  /** The URL and filename safe alphabet. */
  function UrlChar(x: u6): char {
    if x == 62 then '-' else if x == 63 then '_' else StandardChar(x)
  }

  function UrlValue(c: char): Option<u6> {
    if 'A' <= c <= 'Z' then Some((c as int - 'A' as int) as u6)
    else if 'a' <= c <= 'z' then Some((c as int - 'a' as int + 26) as u6)
    else if '0' <= c <= '9' then Some((c as int - '0' as int + 52) as u6)
    else if c == '-' then Some(62)
    else if c == '_' then Some(63)
    else None
  }

  lemma UrlCharsAreUnique(c: char, x: u6)
    ensures UrlValue(c) == Some(x) <==> c == UrlChar(x)
  {
  }

  /** The alphabet runs from `A` to `Z`, from `a` to `z` and from `0` to `9`, then `-` and `_`. */
  lemma UrlAlphabet(x: u6)
    ensures UrlChar(0) == 'A' && UrlChar(25) == 'Z' && UrlChar(26) == 'a' && UrlChar(51) == 'z'
    ensures UrlChar(52) == '0' && UrlChar(61) == '9' && UrlChar(62) == '-' && UrlChar(63) == '_'
    ensures x < 61 && x != 25 && x != 51 ==> UrlChar(x + 1) as int == UrlChar(x) as int + 1
  {
  }

  function Standard(sextets: seq<u6>): string {
    seq(|sextets|, i requires 0 <= i < |sextets| => StandardChar(sextets[i]))
  }

  /** base64url of a byte string: its sextets in the URL alphabet, without padding. */
  function Encoded(bytes: seq<u8>): string {
    var sextets := Sextets(bytes);
    seq(|sextets|, i requires 0 <= i < |sextets| => UrlChar(sextets[i]))
  }

  function Values(s: string): Option<seq<u6>> {
    if s == "" then Some([])
    else
      var first, rest := UrlValue(s[0]), Values(s[1..]);
      if first.None? || rest.None? then None else Some([first.value] + rest.value)
  }

  /** The strict decoder of RFC 4648, section 3.5: one byte string has one encoding. */
  function Decoded(s: string): Option<seq<u8>> {
    var sextets := Values(s);
    if sextets.None? then None else Octets(sextets.value)
  }

  lemma {:induction false} ValuesMeanChars(s: string, sextets: seq<u6>)
    ensures Values(s) == Some(sextets) <==>
            |s| == |sextets| && forall i | 0 <= i < |s| :: s[i] == UrlChar(sextets[i])
  {
    hide UrlChar, UrlValue;
    if s != "" && sextets != [] {
      ValuesMeanChars(s[1..], sextets[1..]);
      UrlCharsAreUnique(s[0], sextets[0]);
      assert s == [s[0]] + s[1..] && sextets == [sextets[0]] + sextets[1..];
      assert forall i | 0 <= i < |s| - 1 :: s[i+1] == s[1..][i];
      assert forall i | 0 <= i < |sextets| - 1 :: sextets[i+1] == sextets[1..][i];
      assert forall i | 0 < i < |s| :: s[i] == s[1..][i-1];
      assert forall i | 0 < i < |sextets| :: sextets[i] == sextets[1..][i-1];
    }
  }

  /** A text decodes to a byte string exactly when it is that byte string's encoding. */
  lemma DecodingUndoesEncoding(s: string, bytes: seq<u8>)
    ensures Decoded(s) == Some(bytes) <==> s == Encoded(bytes)
  {
    hide UrlChar, Values, Octets, Sextets;
    ValuesMeanChars(s, Sextets(bytes));
    OctetsUndoSextets(bytes);
    if Decoded(s) == Some(bytes) { SextetsUndoOctets(Values(s).value); }
    if s == Encoded(bytes) { assert Values(s) == Some(Sextets(bytes)); }
  }

  /** The characters of encoded text: letters, digits, `-` and `_`. */
  predicate IsUrlSafe(c: char) {
    'A' <= c <= 'Z' || 'a' <= c <= 'z' || '0' <= c <= '9' || c == '_' || c == '-'
  }

  lemma EncodedShape(bytes: seq<u8>)
    ensures |Encoded(bytes)| == (4 * |bytes| + 2) / 3
    ensures forall i | 0 <= i < |Encoded(bytes)| :: IsUrlSafe(Encoded(bytes)[i])
  {
    SextetsLength(bytes);
  }

  // ----- The encoder of the relay -----

  /** What `btoa` makes of a binary string, whose characters stand for bytes. */
  function Btoa(binary: string): string
    requires forall i | 0 <= i < |binary| :: binary[i] as int < 256
  {
    var bytes := seq(|binary|, i requires 0 <= i < |binary| => binary[i] as int as u8);
    Standard(Sextets(bytes)) + (match |binary| % 3 case 0 => "" case 1 => "==" case _ => "=")
  }

  /** `replace(/=+$/, "")`. */
  function WithoutPadding(s: string): string {
    if s != "" && s[|s|-1] == '=' then WithoutPadding(s[..|s|-1]) else s
  }

  function Replaced(s: string, from: char, to: char): string {
    seq(|s|, i requires 0 <= i < |s| => if s[i] == from then to else s[i])
  }

  lemma OnePaddingComesOff(s: string)
    ensures WithoutPadding(s + "=") == WithoutPadding(s)
  {
    var padded := s + "=";
    assert padded[..|s|] == s && padded[|s|] == '=';
  }

  lemma PaddingComesOff(s: string, pad: string)
    requires pad in {"", "=", "=="} && (s != "" ==> s[|s|-1] != '=')
    ensures WithoutPadding(s + pad) == s
  {
    assert WithoutPadding(s) == s;
    hide WithoutPadding;
    OnePaddingComesOff(s);
    OnePaddingComesOff(s + "=");
    assert s + "" == s && s + "==" == s + "=" + "=";
  }

  lemma AlphabetsAgree(sextets: seq<u6>)
    ensures var s := Replaced(Replaced(Standard(sextets), '+', '-'), '/', '_');
            s == seq(|sextets|, i requires 0 <= i < |sextets| => UrlChar(sextets[i]))
    ensures '=' !in Standard(sextets)
  {
  }

  method BytesToBase64Url(bytes: seq<u8>) returns (r: string)
    ensures r == Encoded(bytes)
  {
    var binary := "";
    for k := 0 to |bytes|
      invariant |binary| == k && forall i | 0 <= i < k :: binary[i] == bytes[i] as int as char
    {
      binary := binary + [bytes[k] as int as char];
    }
    ghost var read := seq(|binary|, i requires 0 <= i < |binary| => binary[i] as int as u8);
    assert read == bytes;
    AlphabetsAgree(Sextets(bytes));
    var base64 := Btoa(binary);
    assert base64 == Standard(Sextets(bytes)) + base64[|Sextets(bytes)|..];
    PaddingComesOff(Standard(Sextets(bytes)), base64[|Sextets(bytes)|..]);
    r := Replaced(Replaced(WithoutPadding(base64), '+', '-'), '/', '_');
  }
}
