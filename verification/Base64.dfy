/** The transport encoding of the update channel: base64url with padding (section 5 of RFC 4648), as
    the publisher writes it (`channel_publish.b64u`) and the client reads it (`update_channel.b64u_decode`). */
module Base64 {
  import opened Prelude
  import opened Utf8

  type Sextet = n: nat | n < 64

  function Letter(n: Sextet): (c: char)
    ensures Value(c) == Some(n) && c != '='
  {
    if n < 26 then (n + 65) as char
    else if n < 52 then (n + 71) as char
    else if n < 62 then (n - 4) as char
    else if n == 62 then '-'
    else '_'
  }

  /** `-` and `_` are translated to `+` and `/` before decoding: all four are accepted. */
  function Value(c: char): Option<Sextet> {
    if 'A' <= c <= 'Z' then Some(c as int - 65)
    else if 'a' <= c <= 'z' then Some(c as int - 71)
    else if '0' <= c <= '9' then Some(c as int + 4)
    else if c == '-' || c == '+' then Some(62)
    else if c == '_' || c == '/' then Some(63)
    else None
  }

  // Three bytes are four sextets.

  function S0(x: Byte): Sextet {
    x as int / 4
  }

  function S1(x: Byte, y: Byte): Sextet {
    x as int % 4 * 16 + y as int / 16
  }

  function S2(y: Byte, z: Byte): Sextet {
    y as int % 16 * 4 + z as int / 64
  }

  function S3(z: Byte): Sextet {
    z as int % 64
  }

  /** `b64u`. */
  function Text(bs: seq<Byte>): string {
    if bs == [] then []
    else if |bs| == 1 then [Letter(S0(bs[0])), Letter(S1(bs[0], 0)), '=', '=']
    else if |bs| == 2 then [Letter(S0(bs[0])), Letter(S1(bs[0], bs[1])), Letter(S2(bs[1], 0)), '=']
    else Quad(bs[0], bs[1], bs[2]) + Text(bs[3..])
  }

  function Quad(x: Byte, y: Byte, z: Byte): string {
    [Letter(S0(x)), Letter(S1(x, y)), Letter(S2(y, z)), Letter(S3(z))]
  }

  /** `b64u_decode`: padding required, nothing outside the alphabet. */
  function Bytes(s: string): Option<seq<Byte>> {
    if s == [] then Some([])
    else if |s| < 4 || Value(s[0]).None? || Value(s[1]).None? then None
    else
      var p, q := Value(s[0]).value, Value(s[1]).value;
      if |s| == 4 && s[3] == '=' then
        if s[2] == '=' then Some([First(p, q)])
        else if Value(s[2]).None? then None
        else Some([First(p, q), Second(q, Value(s[2]).value)])
      else if Value(s[2]).None? || Value(s[3]).None? then None
      else
        var r, t := Value(s[2]).value, Value(s[3]).value;
        match Bytes(s[4..])
        case None => None
        case Some(rest) => Some([First(p, q), Second(q, r), Third(r, t)] + rest)
  }

  function First(p: Sextet, q: Sextet): Byte {
    (p * 4 + q / 16) as Byte
  }

  function Second(q: Sextet, r: Sextet): Byte {
    (q % 16 * 16 + r / 4) as Byte
  }

  function Third(r: Sextet, t: Sextet): Byte {
    (r % 4 * 64 + t) as Byte
  }

  lemma BytesBack(x: Byte, y: Byte, z: Byte)
    ensures First(S0(x), S1(x, y)) == x && Second(S1(x, y), S2(y, z)) == y && Third(S2(y, z), S3(z)) == z
  {
  }

  lemma SextetsBack(p: Sextet, q: Sextet, r: Sextet, t: Sextet)
    ensures S0(First(p, q)) == p && S1(First(p, q), Second(q, r)) == q
    ensures S2(Second(q, r), Third(r, t)) == r && S3(Third(r, t)) == t
    ensures S1(First(p, q), 0) == q / 16 * 16 && S2(Second(q, r), 0) == r / 4 * 4
  {
  }

  /** ROUND TRIP: what the publisher encodes, the client decodes. */
  lemma {:induction false} DecodesWhatWasEncoded(bs: seq<Byte>)
    ensures Bytes(Text(bs)) == Some(bs)
  {
    hide Letter, Value, S0, S1, S2, S3, First, Second, Third;
    if |bs| == 1 {
      BytesBack(bs[0], 0, 0);
      assert bs == [bs[0]];
    } else if |bs| == 2 {
      BytesBack(bs[0], bs[1], 0);
      assert bs == [bs[0], bs[1]];
    } else if |bs| >= 3 {
      BytesBack(bs[0], bs[1], bs[2]);
      DecodesWhatWasEncoded(bs[3..]);
      var s := Text(bs);
      assert s[4..] == Text(bs[3..]);
      assert bs == [bs[0], bs[1], bs[2]] + bs[3..];
    }
  }

  /** The text is the one the publisher would write: the url alphabet only, and no bit left over in
      the character before the padding. */
  predicate Canonical(s: string) {
    if |s| < 4 then s == []
    else if |s| == 4 && s[3] == '=' && s[2] == '=' then
      Url(s[0]) && Url(s[1]) && Value(s[1]).Some? && Value(s[1]).value % 16 == 0
    else if |s| == 4 && s[3] == '=' then
      Url(s[0]) && Url(s[1]) && Url(s[2]) && Value(s[2]).Some? && Value(s[2]).value % 4 == 0
    else Url(s[0]) && Url(s[1]) && Url(s[2]) && Url(s[3]) && Canonical(s[4..])
  }

  predicate Url(c: char) {
    c != '+' && c != '/'
  }

  lemma LetterOfValue(c: char)
    requires Value(c).Some?
    ensures Letter(Value(c).value) == c <==> Url(c)
  {
  }

  lemma LettersDiffer(n: Sextet, m: Sextet)
    ensures Letter(n) == Letter(m) <==> n == m
  {
  }

  /** NOT INJECTIVE, exactly. An accepted text is what the publisher writes for its bytes if and only
      if it is canonical; every other accepted text is a second spelling of the same bytes. */
  lemma {:induction false} OneSpellingIsCanonical(s: string)
    requires Bytes(s).Some?
    ensures Text(Bytes(s).value) == s <==> Canonical(s)
  {
    hide Letter, Value, S0, S1, S2, S3, First, Second, Third, Url;
    if s != [] {
      LetterOfValue(s[0]);
      LetterOfValue(s[1]);
      var p, q := Value(s[0]).value, Value(s[1]).value;
      if |s| == 4 && s[3] == '=' {
        if s[2] == '=' {
          SextetsBack(p, q, 0, 0);
          LettersDiffer(q / 16 * 16, q);
        } else {
          var r := Value(s[2]).value;
          LetterOfValue(s[2]);
          SextetsBack(p, q, r, 0);
          LettersDiffer(r / 4 * 4, r);
        }
      } else {
        var r, t := Value(s[2]).value, Value(s[3]).value;
        LetterOfValue(s[2]);
        LetterOfValue(s[3]);
        OneSpellingIsCanonical(s[4..]);
        FullQuad(p, q, r, t, Bytes(s[4..]).value);
        assert s == [s[0], s[1], s[2], s[3]] + s[4..];
      }
    }
  }

  lemma FullQuad(p: Sextet, q: Sextet, r: Sextet, t: Sextet, rest: seq<Byte>)
    ensures Text([First(p, q), Second(q, r), Third(r, t)] + rest)
         == [Letter(p), Letter(q), Letter(r), Letter(t)] + Text(rest)
  {
    hide Letter, S0, S1, S2, S3, First, Second, Third;
    SextetsBack(p, q, r, t);
    var bs := [First(p, q), Second(q, r), Third(r, t)] + rest;
    assert bs[3..] == rest;
  }

  /** Two spellings of one byte: another alphabet, and bits left over. */
  lemma SecondSpellings()
    ensures Bytes("_w==") == Bytes("/w==") == Bytes("_x==") == Some([255])
  {
  }

  // --- against the RFC --------------------------------------------------------------------------------------

  /** Table 2 of RFC 4648: upper case, lower case, digits, minus, underline; and what stands for minus and
      underline in its table 1 is read the same. */
  lemma LettersOfTheAlphabet(n: Sextet)
    ensures n < 26 ==> Letter(n) as int - 'A' as int == n
    ensures 26 <= n < 52 ==> Letter(n) as int - 'a' as int == n - 26
    ensures 52 <= n < 62 ==> Letter(n) as int - '0' as int == n - 52
    ensures Letter(62) == '-' && Letter(63) == '_'
    ensures forall c :: Value(c) == Some(n) <==> c == Letter(n) || (n == 62 && c == '+') || (n == 63 && c == '/')
  {
  }

  /** Four letters spell the same 24 bits as the three bytes they stand for, the first ones first. */
  lemma SameBits(x: Byte, y: Byte, z: Byte)
    ensures ((S0(x) * 64 + S1(x, y)) * 64 + S2(y, z)) * 64 + S3(z) == (x as int * 256 + y as int) * 256 + z as int
  {
  }

  /** Section 10 of RFC 4648. */
  lemma TestVectors()
    ensures Text([]) == "" && Text([102]) == "Zg==" && Text([102, 111]) == "Zm8=" && Text([102, 111, 111]) == "Zm9v"
    ensures Text([102, 111, 111, 98]) == "Zm9vYg=="
  {
    assert [102 as Byte, 111, 111][3..] == [] && [102 as Byte, 111, 111, 98][3..] == [98];
  }
}
