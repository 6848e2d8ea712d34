/**
 Base64url without padding (RFC 4648, section 5), as the scanner decodes it: a check of the alphabet and
 the length, a detour over the platform's padded base64, and a byte array filled in a loop.

 `Encode` is the partner: what the ticket issuer puts into a token.
 */
module Base64Url {
  import opened Common

  type byte = x: int | 0 <= x < 256
  type sextet = x: int | 0 <= x < 64

  // ---------------------------------------------------------------------------------------------
  // Alphabets
  // ---------------------------------------------------------------------------------------------

  predicate Common62(c: char) {
    'A' <= c <= 'Z' || 'a' <= c <= 'z' || '0' <= c <= '9'
  }

  predicate InAlphabet(c: char) {
    Common62(c) || c == '-' || c == '_'
  }

  function Value62(c: char): sextet
    requires Common62(c)
  {
    if 'A' <= c <= 'Z' then c as int - 'A' as int
    else if 'a' <= c <= 'z' then 26 + c as int - 'a' as int
    else 52 + c as int - '0' as int
  }

  function Char62(v: sextet): (c: char)
    requires v < 62
    ensures Common62(c) && Value62(c) == v
  {
    if v < 26 then ('A' as int + v) as char
    else if v < 52 then ('a' as int + v - 26) as char
    else ('0' as int + v - 52) as char
  }

  /** The url-safe alphabet. */
  function UrlValue(c: char): sextet
    requires InAlphabet(c)
  {
    if c == '-' then 62 else if c == '_' then 63 else Value62(c)
  }

  function UrlChar(v: sextet): (c: char)
    ensures InAlphabet(c) && UrlValue(c) == v
  {
    if v == 62 then '-' else if v == 63 then '_' else Char62(v)
  }

  /** The standard alphabet of the platform decoder. */
  predicate InStandard(c: char) {
    Common62(c) || c == '+' || c == '/'
  }

  function StandardValue(c: char): sextet
    requires InStandard(c)
  {
    if c == '+' then 62 else if c == '/' then 63 else Value62(c)
  }

  predicate AllInAlphabet(s: string) {
    forall i :: 0 <= i < |s| ==> InAlphabet(s[i])
  }

  // ---------------------------------------------------------------------------------------------
  // Bytes and sextets
  // ---------------------------------------------------------------------------------------------

  function Byte1(a: int, b: int): byte
    requires 0 <= a < 64 && 0 <= b < 64
  {
    a * 4 + b / 16
  }

  function Byte2(b: int, c: int): byte
    requires 0 <= b < 64 && 0 <= c < 64
  {
    b % 16 * 16 + c / 4
  }

  function Byte3(c: int, d: int): byte
    requires 0 <= c < 64 && 0 <= d < 64
  {
    c % 4 * 64 + d
  }

  /** Four sextets make three bytes; two or three left over make one or two, and their last bits are dropped. */
  function Pack(v: seq<sextet>): seq<byte>
    requires |v| % 4 != 1
  {
    if |v| == 0 then []
    else if |v| == 2 then [Byte1(v[0], v[1])]
    else if |v| == 3 then [Byte1(v[0], v[1]), Byte2(v[1], v[2])]
    else [Byte1(v[0], v[1]), Byte2(v[1], v[2]), Byte3(v[2], v[3])] + Pack(v[4..])
  }

  function UnpackGroup(x: byte, y: byte, z: byte): (v: seq<sextet>)
    ensures |v| == 4
  {
    [x / 4, x % 4 * 16 + y / 16, y % 16 * 4 + z / 64, z % 64]
  }

  function Unpack(b: seq<byte>): seq<sextet> {
    if |b| == 0 then []
    else if |b| == 1 then [b[0] / 4, b[0] % 4 * 16]
    else if |b| == 2 then [b[0] / 4, b[0] % 4 * 16 + b[1] / 16, b[1] % 16 * 4]
    else UnpackGroup(b[0], b[1], b[2]) + Unpack(b[3..])
  }

  function Values(s: string): (v: seq<sextet>)
    requires AllInAlphabet(s)
    ensures |v| == |s|
  {
    seq(|s|, i requires 0 <= i < |s| => UrlValue(s[i]))
  }

  function Chars(v: seq<sextet>): string {
    seq(|v|, i requires 0 <= i < |v| => UrlChar(v[i]))
  }

  predicate Decodable(s: string) {
    AllInAlphabet(s) && |s| % 4 != 1
  }

  /** Decoding as RFC 4648 describes it. */
  function Decode(s: string): Option<seq<byte>> {
    if Decodable(s) then Some(Pack(Values(s))) else None
  }

  function Encode(b: seq<byte>): string {
    Chars(Unpack(b))
  }

  lemma GroupOfBytes(x: byte, y: byte, z: byte)
    ensures Byte1(x / 4, x % 4 * 16 + y / 16) == x
    ensures Byte2(x % 4 * 16 + y / 16, y % 16 * 4 + z / 64) == y
    ensures Byte3(y % 16 * 4 + z / 64, z % 64) == z
  {
  }

  lemma GroupOfSextets(a: sextet, b: sextet, c: sextet, d: sextet)
    ensures var x, y, z := Byte1(a, b), Byte2(b, c), Byte3(c, d);
            && x / 4 == a && x % 4 * 16 + y / 16 == b && y % 16 * 4 + z / 64 == c && z % 64 == d
            && UnpackGroup(x, y, z) == [a, b, c, d]
            && (x % 4 * 16 == b <==> b % 16 == 0)
            && (y % 16 * 4 == c <==> c % 4 == 0)
  {
  }

  lemma FourMore(n: nat)
    ensures (n + 4) % 4 == n % 4
  {
  }

  lemma PackUnpackGroup(x: byte, y: byte, z: byte, rest: seq<sextet>)
    requires |rest| % 4 != 1
    ensures |UnpackGroup(x, y, z) + rest| % 4 != 1
    ensures Pack(UnpackGroup(x, y, z) + rest) == [x, y, z] + Pack(rest)
  {
    GroupOfBytes(x, y, z);
    FourMore(|rest|);
    assert (UnpackGroup(x, y, z) + rest)[4..] == rest;
  }

  lemma {:induction false} PackUnpack(b: seq<byte>)
    ensures |Unpack(b)| % 4 != 1
    ensures Pack(Unpack(b)) == b
  {
    if |b| == 0 {
    } else if |b| == 1 {
      GroupOfBytes(b[0], 0, 0);
    } else if |b| == 2 {
      GroupOfBytes(b[0], b[1], 0);
    } else {
      PackUnpack(b[3..]);
      PackUnpackGroup(b[0], b[1], b[2], Unpack(b[3..]));
      assert b == [b[0], b[1], b[2]] + b[3..];
    }
  }

  lemma {:induction false} PackLength(v: seq<sextet>)
    requires |v| % 4 != 1
    ensures |Pack(v)| == 3 * |v| / 4
  {
    if |v| >= 4 {
      PackLength(v[4..]);
    }
  }

  lemma {:induction false} UnpackLength(b: seq<byte>)
    ensures |Unpack(b)| == (4 * |b| + 2) / 3
  {
    if |b| >= 3 {
      UnpackLength(b[3..]);
    }
  }

  /** Every byte sequence survives encoding and decoding, in the length RFC 4648 gives it and without padding. */
  lemma RoundTrip(b: seq<byte>)
    ensures Decode(Encode(b)) == Some(b)
    ensures |Encode(b)| == (4 * |b| + 2) / 3
    ensures '=' !in Encode(b)
  {
    PackUnpack(b);
    UnpackLength(b);
    assert Values(Encode(b)) == Unpack(b);
  }

  /** Decoding fails exactly on a foreign character or a length of 1 modulo 4; otherwise the length is floor(3n/4). */
  lemma DecodesExactlyWhen(s: string)
    ensures Decode(s).None? <==> (exists i :: 0 <= i < |s| && !InAlphabet(s[i])) || |s| % 4 == 1
    ensures Decode(s).Some? ==> |Decode(s).value| == 3 * |s| / 4
  {
    if Decodable(s) {
      PackLength(Values(s));
    }
  }

  // ---------------------------------------------------------------------------------------------
  // Canonical form
  // ---------------------------------------------------------------------------------------------

  /** The bits of the last character that decoding drops are zero. */
  predicate TrailingBitsZero(v: seq<sextet>)
    requires |v| % 4 != 1
  {
    && (|v| % 4 == 2 ==> v[|v| - 1] % 16 == 0)
    && (|v| % 4 == 3 ==> v[|v| - 1] % 4 == 0)
  }

  lemma EndOfTwo(a: sextet, b: sextet)
    ensures Unpack([Byte1(a, b)]) == [a, b] <==> b % 16 == 0
  {
    var x := Byte1(a, b);
    assert x / 4 == a && x % 4 == b / 16;
    assert Unpack([x]) == [a, b / 16 * 16];
  }

  lemma EndOfThree(a: sextet, b: sextet, c: sextet)
    ensures Unpack([Byte1(a, b), Byte2(b, c)]) == [a, b, c] <==> c % 4 == 0
  {
    var x, y := Byte1(a, b), Byte2(b, c);
    assert x / 4 == a && x % 4 == b / 16;
    assert y / 16 == b % 16 && y % 16 == c / 4;
    assert Unpack([x, y]) == [a, b, c / 4 * 4];
  }

  lemma UnpackPackTwo(v: seq<sextet>)
    requires |v| == 2
    ensures Unpack(Pack(v)) == v <==> TrailingBitsZero(v)
  {
    var x := Byte1(v[0], v[1]);
    assert Pack(v) == [x];
    EndOfTwo(v[0], v[1]);
    assert Unpack([x]) == v <==> Unpack([x]) == [v[0], v[1]];
    assert TrailingBitsZero(v) <==> v[1] % 16 == 0;
  }

  lemma UnpackPackThree(v: seq<sextet>)
    requires |v| == 3
    ensures Unpack(Pack(v)) == v <==> TrailingBitsZero(v)
  {
    var x, y := Byte1(v[0], v[1]), Byte2(v[1], v[2]);
    assert Pack(v) == [x, y];
    EndOfThree(v[0], v[1], v[2]);
    assert Unpack([x, y]) == v <==> Unpack([x, y]) == [v[0], v[1], v[2]];
    assert TrailingBitsZero(v) <==> v[2] % 4 == 0;
  }

  lemma {:induction false} UnpackPack(v: seq<sextet>)
    requires |v| % 4 != 1
    ensures Unpack(Pack(v)) == v <==> TrailingBitsZero(v)
  {
    if |v| == 2 {
      UnpackPackTwo(v);
    } else if |v| == 3 {
      UnpackPackThree(v);
    } else if |v| >= 4 {
      FourMore(|v[4..]|);
      UnpackPack(v[4..]);
      UnpackPackHead(v);
      TrailingBitsOfTail(v);
      assert v == [v[0], v[1], v[2], v[3]] + v[4..];
    }
  }

  lemma UnpackHead(x: byte, y: byte, z: byte, rest: seq<byte>)
    ensures Unpack([x, y, z] + rest) ==
            UnpackGroup(x, y, z) + Unpack(rest)
  {
    assert ([x, y, z] + rest)[3..] == rest;
  }

  lemma TrailingBitsOfTail(v: seq<sextet>)
    requires |v| >= 4 && |v| % 4 != 1
    ensures TrailingBitsZero(v) <==> TrailingBitsZero(v[4..])
  {
    var tail := v[4..];
    assert |tail| % 4 == |v| % 4;
    if |tail| > 0 {
      assert tail[|tail| - 1] == v[|v| - 1];
    }
  }

  lemma UnpackPackGroup(a: sextet, b: sextet, c: sextet, d: sextet, rest: seq<byte>)
    ensures Unpack([Byte1(a, b), Byte2(b, c), Byte3(c, d)] + rest) == [a, b, c, d] + Unpack(rest)
  {
    GroupOfSextets(a, b, c, d);
    UnpackHead(Byte1(a, b), Byte2(b, c), Byte3(c, d), rest);
  }

  lemma UnpackPackHead(v: seq<sextet>)
    requires |v| >= 4 && |v| % 4 != 1
    ensures Unpack(Pack(v)) == [v[0], v[1], v[2], v[3]] + Unpack(Pack(v[4..]))
  {
    UnpackPackGroup(v[0], v[1], v[2], v[3], Pack(v[4..]));
  }

  /**
   A decodable segment is the encoding of what it decodes to exactly when its unused trailing bits are
   zero: the decoder also takes the other spellings.
   */
  lemma CanonicalExactlyWhen(s: string)
    requires Decodable(s)
    ensures Encode(Decode(s).value) == s <==> TrailingBitsZero(Values(s))
  {
    var v := Values(s);
    UnpackPack(v);
    CharsValues(s);
    if Encode(Decode(s).value) == s {
      assert Unpack(Pack(v)) == Values(Chars(Unpack(Pack(v))));
    }
  }

  lemma CharsValues(s: string)
    requires AllInAlphabet(s)
    ensures Chars(Values(s)) == s
  {
    forall i | 0 <= i < |s| ensures UrlChar(UrlValue(s[i])) == s[i] {
    }
  }

  // ---------------------------------------------------------------------------------------------
  // The platform's padded base64
  // ---------------------------------------------------------------------------------------------

  function StripPadding(s: string): string {
    if |s| % 4 != 0 || |s| == 0 || s[|s| - 1] != '=' then s
    else if s[|s| - 2] == '=' then s[..|s| - 2]
    else s[..|s| - 1]
  }

  /** `atob` on text without white space; the result is one character per byte. */
  function Atob(s: string): Option<string> {
    var data := StripPadding(s);
    if |data| % 4 == 1 || exists i :: 0 <= i < |data| && !InStandard(data[i]) then None
    else
      var bytes := Pack(seq(|data|, i requires 0 <= i < |data| => StandardValue(data[i])));
      Some(seq(|bytes|, i requires 0 <= i < |bytes| => bytes[i] as char))
  }

  function Replaced(s: string, from: char, to: char): string {
    seq(|s|, i requires 0 <= i < |s| => if s[i] == from then to else s[i])
  }

  function Repeat(c: char, n: nat): string {
    seq(n, _ => c)
  }

  /** The segment in the platform's spelling: two characters substituted, padded to a multiple of four. */
  function Padded(s: string): string {
    Replaced(Replaced(s, '-', '+'), '_', '/') + Repeat('=', if |s| % 4 == 0 then 0 else 4 - |s| % 4)
  }

  lemma StripPadded(s: string)
    requires Decodable(s)
    ensures StripPadding(Padded(s)) == Replaced(Replaced(s, '-', '+'), '_', '/')
  {
    var plain := Replaced(Replaced(s, '-', '+'), '_', '/');
    assert |plain| == |s| && forall i :: 0 <= i < |s| ==> plain[i] != '=';
    if |s| % 4 == 0 {
      assert Padded(s) == plain;
    } else if |s| % 4 == 2 {
      assert Padded(s) == plain + "==";
      assert |Padded(s)| == |s| + 2;
    } else {
      assert Padded(s) == plain + "=";
      assert |Padded(s)| == |s| + 1;
    }
  }

  /** `atob` on the padded segment computes `Decode`. */
  lemma AtobOfPadded(s: string)
    requires Decodable(s)
    ensures
      && Atob(Padded(s)).Some?
      && |Atob(Padded(s)).value| == |Decode(s).value|
      && forall i :: 0 <= i < |Decode(s).value| ==> Atob(Padded(s)).value[i] as int == Decode(s).value[i]
  {
    var plain := Replaced(Replaced(s, '-', '+'), '_', '/');
    forall i | 0 <= i < |s| ensures InStandard(plain[i]) && StandardValue(plain[i]) == UrlValue(s[i]) {
    }
    StripPadded(s);
    assert seq(|plain|, i requires 0 <= i < |plain| => StandardValue(plain[i])) == Values(s);
  }

  /** The decoder of the scanner. */
  method Base64UrlDecode(segment: string) returns (bytes: Option<array<byte>>)
    ensures Decode(segment).None? <==> bytes.None?
    ensures bytes.Some? ==> fresh(bytes.value) && bytes.value[..] == Decode(segment).value
  {
    for i := 0 to |segment|
      invariant forall j :: 0 <= j < i ==> InAlphabet(segment[j])
    {
      if !InAlphabet(segment[i]) {
        return None;
      }
    }
    var remainder := |segment| % 4;
    if remainder == 1 {
      return None;
    }
    var b64 := Replaced(Replaced(segment, '-', '+'), '_', '/');
    if remainder != 0 {
      b64 := b64 + Repeat('=', 4 - remainder);
    }
    assert b64 == Padded(segment);
    AtobOfPadded(segment);
    var out := CharCodes(Atob(b64).value, Decode(segment).value);
    return Some(out);
  }

  /** Fills a byte array with the character codes of a binary string. */
  method CharCodes(binary: string, ghost codes: seq<byte>) returns (bytes: array<byte>)
    requires |binary| == |codes| && forall i :: 0 <= i < |codes| ==> binary[i] as int == codes[i]
    ensures fresh(bytes) && bytes[..] == codes
  {
    bytes := new byte[|binary|];
    for i := 0 to |binary|
      invariant forall j :: 0 <= j < i ==> bytes[j] == codes[j]
    {
      bytes[i] := binary[i] as int;
    }
  }
}
