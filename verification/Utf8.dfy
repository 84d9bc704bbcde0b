/** UTF-8 as the transcript reader meets it: strict encoding, and decoding with replacement
    (`bytes.decode("utf-8", "replace")`), one U+FFFD for each maximal ill-formed subpart
    (section 3.9 of the Unicode Standard). */
module Utf8 {
  newtype Byte = x: int | 0 <= x < 256

  const REPLACEMENT: char := 0xFFFD as char

  // --- encoding -------------------------------------------------------------------------------------

  function EncodeChar(c: char): (bs: seq<Byte>)
    ensures 1 <= |bs| <= 4
  {
    var n := c as int;
    if n < 0x80 then [n as Byte]
    else if n < 0x800 then [(0xC0 + n / 64) as Byte, Trail(n)]
    else if n < 0x10000 then [(0xE0 + n / 4096) as Byte, Trail(n / 64), Trail(n)]
    else [(0xF0 + n / 262144) as Byte, Trail(n / 4096), Trail(n / 64), Trail(n)]
  }

  function Trail(n: int): Byte
    requires 0 <= n
  {
    (0x80 + n % 64) as Byte
  }

  function Encode(s: string): seq<Byte> {
    if s == [] then [] else EncodeChar(s[0]) + Encode(s[1..])
  }

  // --- decoding ---------------------------------------------------------------------------------------

  predicate IsTrail(b: Byte) {
    0x80 <= b < 0xC0
  }

  /** The range of a second byte depends on the first: no overlong form, no surrogate, no excess. */
  predicate SecondOf3(first: Byte, second: Byte) {
    if first == 0xE0 then 0xA0 <= second < 0xC0
    else if first == 0xED then 0x80 <= second < 0xA0
    else IsTrail(second)
  }

  predicate SecondOf4(first: Byte, second: Byte) {
    if first == 0xF0 then 0x90 <= second < 0xC0
    else if first == 0xF4 then 0x80 <= second < 0x90
    else IsTrail(second)
  }

  /** The first unit of a byte string: the character it gives and the bytes it takes. */
  function Unit(bs: seq<Byte>): (u: (char, nat))
    requires bs != []
    ensures 1 <= u.1 <= |bs| && u.1 <= 4
  {
    var b0 := bs[0];
    if b0 < 0x80 then (b0 as char, 1)
    else if 0xC2 <= b0 < 0xE0 then
      if |bs| < 2 || !IsTrail(bs[1]) then (REPLACEMENT, 1)
      else (Glyph((b0 as int - 0xC0) * 64 + Low(bs[1])), 2)
    else if 0xE0 <= b0 < 0xF0 then
      if |bs| < 2 || !SecondOf3(b0, bs[1]) then (REPLACEMENT, 1)
      else if |bs| < 3 || !IsTrail(bs[2]) then (REPLACEMENT, 2)
      else (Glyph((b0 as int - 0xE0) * 4096 + Low(bs[1]) * 64 + Low(bs[2])), 3)
    else if 0xF0 <= b0 < 0xF5 then
      if |bs| < 2 || !SecondOf4(b0, bs[1]) then (REPLACEMENT, 1)
      else if |bs| < 3 || !IsTrail(bs[2]) then (REPLACEMENT, 2)
      else if |bs| < 4 || !IsTrail(bs[3]) then (REPLACEMENT, 3)
      else (Glyph((b0 as int - 0xF0) * 262144 + Low(bs[1]) * 4096 + Low(bs[2]) * 64 + Low(bs[3])), 4)
    else (REPLACEMENT, 1)
  }

  function Low(b: Byte): int {
    b as int % 64
  }

  /** A scalar value as a character (the ranges above never leave them). */
  function Glyph(n: int): char {
    if 0 <= n < 0xD800 || 0xE000 <= n < 0x110000 then n as char else REPLACEMENT
  }

  function Decode(bs: seq<Byte>): string {
    if bs == [] then [] else [Unit(bs).0] + Decode(bs[Unit(bs).1..])
  }

  // --- the two undo each other --------------------------------------------------------------------------

  lemma Digits(n: int)
    requires 0 <= n < 0x110000
    ensures n / 64 == n / 4096 * 64 + n / 64 % 64 && n / 4096 == n / 262144 * 64 + n / 4096 % 64
    ensures n == n / 64 * 64 + n % 64
  {
    assert n / 64 / 64 == n / 4096 && n / 4096 / 64 == n / 262144;
  }

  /** A whole character is read back, whatever follows it. */
  lemma UnitOfEncoded(c: char, rest: seq<Byte>)
    ensures Unit(EncodeChar(c) + rest) == (c, |EncodeChar(c)|)
  {
    var n := c as int;
    var bs := EncodeChar(c) + rest;
    Digits(n);
    if 0x800 <= n {
      if n < 0x10000 {
        UnitOfThree(n, bs);
      } else {
        UnitOfFour(n, bs);
      }
    } else if 0x80 <= n {
      assert bs[0] == (0xC0 + n / 64) as Byte && bs[1] == Trail(n);
    }
  }

  lemma UnitOfThree(n: int, bs: seq<Byte>)
    requires 0x800 <= n < 0xD800 || 0xE000 <= n < 0x10000
    requires |bs| >= 3 && bs[0] == (0xE0 + n / 4096) as Byte && bs[1] == Trail(n / 64) && bs[2] == Trail(n)
    ensures Unit(bs) == (n as char, 3)
  {
    Digits(n);
    assert SecondOf3(bs[0], bs[1]);
    assert (bs[0] as int - 0xE0) * 4096 + Low(bs[1]) * 64 + Low(bs[2]) == n;
  }

  lemma UnitOfFour(n: int, bs: seq<Byte>)
    requires 0x10000 <= n < 0x110000
    requires |bs| >= 4 && bs[0] == (0xF0 + n / 262144) as Byte
    requires bs[1] == Trail(n / 4096) && bs[2] == Trail(n / 64) && bs[3] == Trail(n)
    ensures Unit(bs) == (n as char, 4)
  {
    Digits(n);
    assert SecondOf4(bs[0], bs[1]);
    assert (bs[0] as int - 0xF0) * 262144 + Low(bs[1]) * 4096 + Low(bs[2]) * 64 + Low(bs[3]) == n;
  }

  lemma {:induction false} DecodeEncoded(s: string, rest: seq<Byte>)
    ensures Decode(Encode(s) + rest) == s + Decode(rest)
  {
    hide Unit, EncodeChar;
    if s == [] {
      assert Encode(s) + rest == rest;
    } else {
      var bs := Encode(s) + rest;
      assert bs == EncodeChar(s[0]) + (Encode(s[1..]) + rest);
      UnitOfEncoded(s[0], Encode(s[1..]) + rest);
      assert bs[|EncodeChar(s[0])|..] == Encode(s[1..]) + rest;
      DecodeEncoded(s[1..], rest);
      assert [s[0]] + (s[1..] + Decode(rest)) == s + Decode(rest);
    }
  }

  lemma {:induction false} EncodeConcat(s: string, t: string)
    ensures Encode(s + t) == Encode(s) + Encode(t)
  {
    if s == [] {
      assert s + t == t;
    } else {
      assert (s + t)[0] == s[0] && (s + t)[1..] == s[1..] + t;
      EncodeConcat(s[1..], t);
    }
  }

  // --- any byte string, cut anywhere --------------------------------------------------------------------

  /** A unit depends on its own bytes only; cut in the middle it is ONE replacement, which takes all that is
      left of it. */
  lemma UnitCut(bs: seq<Byte>, n: nat)
    requires bs != [] && 0 < n <= |bs|
    ensures Unit(bs[..n]) == if n < Unit(bs).1 then (REPLACEMENT, n) else Unit(bs)
  {
    hide Glyph;
  }

  /** The bytes the first `k` characters were decoded from. */
  function Span(bs: seq<Byte>, k: nat): (n: nat)
    requires k <= |Decode(bs)|
    ensures n <= |bs|
    decreases k
  {
    if k == 0 then 0 else Unit(bs).1 + Span(bs[Unit(bs).1..], k - 1)
  }

  /** What is left once `j` characters are dropped, with the bytes they came from. */
  lemma {:induction false} SpanLeaves(bs: seq<Byte>, j: nat)
    requires j <= |Decode(bs)|
    ensures Decode(bs[Span(bs, j)..]) == Decode(bs)[j..]
    decreases j
  {
    hide Unit;
    if j == 0 {
      assert bs[0..] == bs && Decode(bs)[0..] == Decode(bs);
    } else {
      var u := Unit(bs).1;
      assert Decode(bs) == [Unit(bs).0] + Decode(bs[u..]) && Span(bs, j) == u + Span(bs[u..], j - 1);
      SpanLeaves(bs[u..], j - 1);
      hide Decode, Span;
      assert bs[u..][Span(bs[u..], j - 1)..] == bs[Span(bs, j)..];
      assert Decode(bs)[j..] == Decode(bs[u..])[j - 1..];
    }
  }

  lemma {:induction false} SpanAdds(bs: seq<Byte>, j: nat, k: nat)
    requires j + k <= |Decode(bs)|
    ensures k <= |Decode(bs[Span(bs, j)..])| && Span(bs, j + k) == Span(bs, j) + Span(bs[Span(bs, j)..], k)
    decreases j
  {
    hide Unit;
    if j == 0 {
      assert bs[0..] == bs;
    } else {
      var u := Unit(bs).1;
      var rest := bs[u..];
      assert |Decode(bs)| == 1 + |Decode(rest)|;
      SpanAdds(rest, j - 1, k);
      assert Span(bs, j) == u + Span(rest, j - 1) && Span(bs, j + k) == u + Span(rest, j + k - 1);
      hide Decode, Span;
      assert rest[Span(rest, j - 1)..] == bs[Span(bs, j)..];
    }
  }

  lemma {:induction false} SpanOfAll(bs: seq<Byte>)
    ensures Span(bs, |Decode(bs)|) == |bs|
  {
    hide Unit;
    if bs != [] {
      SpanOfAll(bs[Unit(bs).1..]);
    }
  }

  /** However a byte string is cut, what is left decodes to whole characters of it, followed by at most one
      replacement. */
  lemma {:induction false} CutDecodes(bs: seq<Byte>, n: nat) returns (i: nat)
    requires n <= |bs|
    ensures i <= |Decode(bs)| && Span(bs, i) <= n
    ensures Decode(bs[..n]) == Decode(bs)[..i] || Decode(bs[..n]) == Decode(bs)[..i] + [REPLACEMENT]
    ensures n == |bs| ==> i == |Decode(bs)|
  {
    hide Unit;
    if n == 0 {
      i := 0;
      SpanOfAll(bs);
    } else {
      UnitCut(bs, n);
      var u := Unit(bs).1;
      if n < u {
        i := 0;
        assert bs[..n][n..] == [];
        assert Decode(bs[..n]) == [REPLACEMENT] + Decode([]);
      } else {
        var j := CutDecodes(bs[u..], n - u);
        i := j + 1;
        assert bs[..n][u..] == bs[u..][..n - u];
        assert Decode(bs)[..i] == [Unit(bs).0] + Decode(bs[u..])[..j];
      }
    }
  }

  /** Re-encoding a decoded unit takes at least the bytes it came from. */
  lemma ReencodedIsNoShorter(bs: seq<Byte>)
    requires bs != []
    ensures |EncodeChar(Unit(bs).0)| >= Unit(bs).1
    ensures Unit(bs).0 != REPLACEMENT ==> |EncodeChar(Unit(bs).0)| == Unit(bs).1
  {
  }

  // --- against the standard -------------------------------------------------------------------------------

  /** One character of each length, with the two ends of each range. */
  lemma EncodingVectors()
    ensures Encode("A") == [0x41] && EncodeChar(0x7F as char) == [0x7F] && EncodeChar(0x80 as char) == [0xC2, 0x80]
    ensures EncodeChar(0xE9 as char) == [0xC3, 0xA9] && EncodeChar(0x7FF as char) == [0xDF, 0xBF]
    ensures EncodeChar(0x800 as char) == [0xE0, 0xA0, 0x80] && EncodeChar(0x20AC as char) == [0xE2, 0x82, 0xAC]
    ensures EncodeChar(0xFFFD as char) == [0xEF, 0xBF, 0xBD]
    ensures EncodeChar(0x10000 as char) == [0xF0, 0x90, 0x80, 0x80]
    ensures EncodeChar(0x1F600 as char) == [0xF0, 0x9F, 0x98, 0x80]
    ensures EncodeChar(0x10FFFF as char) == [0xF4, 0x8F, 0xBF, 0xBF]
  {
    assert "A"[1..] == [];
  }

  /** The bytes of an encoding spell its scalar value, six bits each after the first. */
  lemma SameScalar(c: char)
    ensures var bs, n := EncodeChar(c), c as int;
            if n < 0x80 then |bs| == 1 && bs[0] as int == n
            else if n < 0x800 then |bs| == 2 && (bs[0] as int - 0xC0) * 64 + (bs[1] as int - 0x80) == n
            else if n < 0x10000 then
              |bs| == 3 && ((bs[0] as int - 0xE0) * 64 + (bs[1] as int - 0x80)) * 64 + (bs[2] as int - 0x80) == n
            else
              |bs| == 4
              && (((bs[0] as int - 0xF0) * 64 + (bs[1] as int - 0x80)) * 64 + (bs[2] as int - 0x80)) * 64
                 + (bs[3] as int - 0x80) == n
    ensures forall k :: 0 < k < |EncodeChar(c)| ==> 0x80 <= EncodeChar(c)[k] < 0xC0
  {
    Digits(c as int);
  }

  /** What decodes to anything but a replacement is the encoding of it, and nothing else is. */
  lemma OnlyEncodingsDecode(bs: seq<Byte>, c: char)
    requires bs != [] && c != REPLACEMENT
    ensures Unit(bs).0 == c <==> |EncodeChar(c)| <= |bs| && bs[..|EncodeChar(c)|] == EncodeChar(c)
  {
    if |EncodeChar(c)| <= |bs| && bs[..|EncodeChar(c)|] == EncodeChar(c) {
      UnitOfEncoded(c, bs[|EncodeChar(c)|..]);
      assert bs == EncodeChar(c) + bs[|EncodeChar(c)|..];
    }
    if Unit(bs).0 == c {
      DecodedUnit(bs);
    }
  }

  /** Digits in base 64 are read back. */
  lemma Undigits(a: int, b: int, c: int, d: int)
    requires 0 <= a && 0 <= b < 64 && 0 <= c < 64 && 0 <= d < 64
    ensures var n := a * 262144 + b * 4096 + c * 64 + d;
            n / 262144 == a && n / 4096 % 64 == b && n / 64 % 64 == c && n % 64 == d
            && n / 4096 == a * 64 + b && n / 64 == a * 4096 + b * 64 + c
  {
  }

  lemma TrailOfLow(b: Byte, n: int)
    requires IsTrail(b) && 0 <= n && n % 64 == Low(b)
    ensures Trail(n) == b && Low(b) == b as int - 0x80
  {
  }

  lemma BeginsThree(x: Byte, y: Byte, z: Byte)
    requires 0xE0 <= x < 0xF0 && SecondOf3(x, y) && IsTrail(z)
    ensures var n := (x as int - 0xE0) * 4096 + Low(y) * 64 + Low(z);
            (0 <= n < 0xD800 || 0xE000 <= n < 0x110000) && EncodeChar(n as char) == [x, y, z]
  {
    var n := (x as int - 0xE0) * 4096 + Low(y) * 64 + Low(z);
    Undigits(0, x as int - 0xE0, Low(y), Low(z));
    TrailOfLow(y, n / 64);
    TrailOfLow(z, n);
  }

  lemma BeginsFour(x: Byte, y: Byte, z: Byte, t: Byte)
    requires 0xF0 <= x < 0xF5 && SecondOf4(x, y) && IsTrail(z) && IsTrail(t)
    ensures var n := (x as int - 0xF0) * 262144 + Low(y) * 4096 + Low(z) * 64 + Low(t);
            0x10000 <= n < 0x110000 && EncodeChar(n as char) == [x, y, z, t]
  {
    var n := (x as int - 0xF0) * 262144 + Low(y) * 4096 + Low(z) * 64 + Low(t);
    Undigits(x as int - 0xF0, Low(y), Low(z), Low(t));
    TrailOfLow(y, n / 4096);
    TrailOfLow(z, n / 64);
    TrailOfLow(t, n);
  }

  lemma DecodedUnit(bs: seq<Byte>)
    requires bs != [] && Unit(bs).0 != REPLACEMENT
    ensures bs[..Unit(bs).1] == EncodeChar(Unit(bs).0)
  {
    var n := Unit(bs).1;
    if n == 2 {
      DecodedPair(bs[0], bs[1]);
    } else if n == 3 {
      BeginsThree(bs[0], bs[1], bs[2]);
    } else if n == 4 {
      BeginsFour(bs[0], bs[1], bs[2], bs[3]);
    }
    hide EncodeChar;
    UnitCut(bs, n);
    assert bs[..n] == if n == 1 then [bs[0]] else if n == 2 then [bs[0], bs[1]]
                      else if n == 3 then [bs[0], bs[1], bs[2]] else [bs[0], bs[1], bs[2], bs[3]];
    if n == 1 {
      DecodedByte(bs[0]);
    }
  }

  lemma DecodedByte(x: Byte)
    requires Unit([x]).0 != REPLACEMENT
    ensures EncodeChar(Unit([x]).0) == [x]
  {
  }

  lemma DecodedPair(x: Byte, y: Byte)
    requires 0xC2 <= x < 0xE0 && IsTrail(y)
    ensures EncodeChar(Unit([x, y]).0) == [x, y]
  {
    var n := (x as int - 0xC0) * 64 + Low(y);
    TrailOfLow(y, n);
  }

  /** MAXIMAL SUBPART (section 3.9 of the Unicode Standard). The bytes a unit takes begin the encoding of some
      character, unless it takes one only; with one byte more, they would begin none. */
  lemma MaximalSubpart(bs: seq<Byte>)
    requires bs != []
    ensures Unit(bs).1 == 1 || exists c :: bs[..Unit(bs).1] <= EncodeChar(c)
    ensures Unit(bs).1 < |bs| ==> forall c :: !(bs[..Unit(bs).1 + 1] <= EncodeChar(c))
  {
    var u := Unit(bs).1;
    if u < |bs| {
      forall c ensures !(bs[..u + 1] <= EncodeChar(c)) {
        NotOneMore(bs, c);
      }
    }
    if u > 1 {
      var c := BeginsACharacter(bs);
    }
  }

  lemma NotOneMore(bs: seq<Byte>, c: char)
    requires bs != [] && Unit(bs).1 < |bs|
    ensures !(bs[..Unit(bs).1 + 1] <= EncodeChar(c))
  {
    hide Unit, EncodeChar;
    var n := Unit(bs).1 + 1;
    if bs[..n] <= EncodeChar(c) {
      UnitOfEncoded(c, []);
      assert EncodeChar(c) + [] == EncodeChar(c) && EncodeChar(c)[..n] == bs[..n];
      UnitCut(EncodeChar(c), n);
      UnitCut(bs, n);
    }
  }

  /** What the bytes of a unit that is cut short, or that takes the replacement itself, are. */
  lemma CutShort(bs: seq<Byte>)
    requires bs != [] && Unit(bs).1 > 1 && Unit(bs).0 == REPLACEMENT
    ensures var x, y, u := bs[0], bs[1], Unit(bs).1;
            u <= 3 && 0xE0 <= x < 0xF5 && (u == 3 ==> IsTrail(bs[2]))
            && if x < 0xF0 then SecondOf3(x, y) else SecondOf4(x, y)
  {
    if bs[0] >= 0xF0 && Unit(bs).1 == 4 {
      BeginsFour(bs[0], bs[1], bs[2], bs[3]);
    }
    if bs[0] < 0xE0 {
      TrailOfLow(bs[1], Low(bs[1]));
    }
    hide EncodeChar;
  }

  lemma BeginsACharacter(bs: seq<Byte>) returns (c: char)
    requires bs != [] && Unit(bs).1 > 1
    ensures bs[..Unit(bs).1] <= EncodeChar(c)
  {
    var x, y, u := bs[0], bs[1], Unit(bs).1;
    if Unit(bs).0 != REPLACEMENT {
      DecodedUnit(bs);
      c := Unit(bs).0;
    } else {
      CutShort(bs);
      var z: Byte := if u >= 3 then bs[2] else 0x80;
      hide Unit, SecondOf3, SecondOf4, EncodeChar;
      if x < 0xF0 {
        BeginsThree(x, y, z);
        c := ((x as int - 0xE0) * 4096 + Low(y) * 64 + Low(z)) as char;
        assert bs[..u] == [x, y, z][..u];
      } else {
        BeginsFour(x, y, z, 0x80);
        c := ((x as int - 0xF0) * 262144 + Low(y) * 4096 + Low(z) * 64 + Low(0x80)) as char;
        assert bs[..u] == [x, y, z, 0x80][..u];
      }
    }
  }
}
