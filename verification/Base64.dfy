/**
 Base64 as the tunnel uses it: section 4 of RFC 4648 for encoding, and the
 lenient reading of Node's `Buffer.from(text, 'base64')` for decoding.
 */
module Base64 {
  type Byte = b: int | 0 <= b < 256
  type Bytes = seq<Byte>

  type Sextet = n: int | 0 <= n < 64

  /** The standard alphabet. */
  function Letter(n: Sextet): char {
    if n < 26 then (n + 'A' as int) as char
    else if n < 52 then (n - 26 + 'a' as int) as char
    else if n < 62 then (n - 52 + '0' as int) as char
    else if n == 62 then '+' else '/'
  }

  predicate IsLetter(c: char) {
    'A' <= c <= 'Z' || 'a' <= c <= 'z' || '0' <= c <= '9' || c in {'+', '/', '-', '_'}
  }

  /** The decoder also takes the URL-safe letters. */
  function Value(c: char): Sextet
    requires IsLetter(c)
  {
    if 'A' <= c <= 'Z' then c as int - 'A' as int
    else if 'a' <= c <= 'z' then c as int - 'a' as int + 26
    else if '0' <= c <= '9' then c as int - '0' as int + 52
    else if c == '+' || c == '-' then 62 else 63
  }

  // The four sextets of three bytes, and the three bytes of four sextets.
  function First(x: int): (n: Sextet) requires 0 <= x < 256 { x / 4 }
  function Second(x: int, y: int): (n: Sextet) requires 0 <= x < 256 && 0 <= y < 256 { x % 4 * 16 + y / 16 }
  function Third(y: int, z: int): (n: Sextet) requires 0 <= y < 256 && 0 <= z < 256 { y % 16 * 4 + z / 64 }
  function Fourth(z: int): (n: Sextet) requires 0 <= z < 256 { z % 64 }

  function High(a: int, b: int): (x: Byte) requires 0 <= a < 64 && 0 <= b < 64 { a * 4 + b / 16 }
  function Middle(b: int, c: int): (x: Byte) requires 0 <= b < 64 && 0 <= c < 64 { b % 16 * 16 + c / 4 }
  function Low(c: int, d: int): (x: Byte) requires 0 <= c < 64 && 0 <= d < 64 { c % 4 * 64 + d }

  function Encode(bytes: Bytes): string {
    if bytes == [] then ""
    else if |bytes| == 1 then
      [Letter(First(bytes[0])), Letter(Second(bytes[0], 0)), '=', '=']
    else if |bytes| == 2 then
      [Letter(First(bytes[0])), Letter(Second(bytes[0], bytes[1])), Letter(Third(bytes[1], 0)), '=']
    else
      [Letter(First(bytes[0])), Letter(Second(bytes[0], bytes[1])),
       Letter(Third(bytes[1], bytes[2])), Letter(Fourth(bytes[2]))] + Encode(bytes[3..])
  }

  /** The sextets of a text: letters up to the first `=`, anything else skipped. */
  function Sextets(text: string): seq<Sextet> {
    if text == "" || text[0] == '=' then []
    else if IsLetter(text[0]) then [Value(text[0])] + Sextets(text[1..])
    else Sextets(text[1..])
  }

  function Pack(s: seq<Sextet>): Bytes {
    if |s| < 2 then []
    else if |s| == 2 then [High(s[0], s[1])]
    else if |s| == 3 then [High(s[0], s[1]), Middle(s[1], s[2])]
    else [High(s[0], s[1]), Middle(s[1], s[2]), Low(s[2], s[3])] + Pack(s[4..])
  }

  function Decode(text: string): Bytes {
    Pack(Sextets(text))
  }

  lemma SextetsOfLetter(n: Sextet, rest: string)
    ensures Sextets([Letter(n)] + rest) == [n] + Sextets(rest)
  {
    assert ([Letter(n)] + rest)[1..] == rest;
  }

  lemma SextetsOfFour(a: Sextet, b: Sextet, c: Sextet, d: Sextet, rest: string)
    ensures Sextets([Letter(a), Letter(b), Letter(c), Letter(d)] + rest) == [a, b, c, d] + Sextets(rest)
  {
    var text := [Letter(a), Letter(b), Letter(c), Letter(d)] + rest;
    assert text == [Letter(a)] + ([Letter(b)] + ([Letter(c)] + ([Letter(d)] + rest)));
    SextetsOfLetter(a, [Letter(b)] + ([Letter(c)] + ([Letter(d)] + rest)));
    SextetsOfLetter(b, [Letter(c)] + ([Letter(d)] + rest));
    SextetsOfLetter(c, [Letter(d)] + rest);
    SextetsOfLetter(d, rest);
  }

  lemma Quantum(x: Byte, y: Byte, z: Byte)
    ensures High(First(x), Second(x, y)) == x
    ensures Middle(Second(x, y), Third(y, z)) == y
    ensures Low(Third(y, z), Fourth(z)) == z
  {
  }

  /** The sextets a byte sequence is cut into, the last ones padded with zero bits. */
  function Cut(bytes: Bytes): seq<Sextet> {
    if bytes == [] then []
    else if |bytes| == 1 then [First(bytes[0]), Second(bytes[0], 0)]
    else if |bytes| == 2 then [First(bytes[0]), Second(bytes[0], bytes[1]), Third(bytes[1], 0)]
    else [First(bytes[0]), Second(bytes[0], bytes[1]), Third(bytes[1], bytes[2]), Fourth(bytes[2])] + Cut(bytes[3..])
  }

  lemma PaddedSextets(s: seq<Sextet>, pad: string)
    requires pad == "=" || pad == "=="
    ensures |s| == 2 ==> Sextets([Letter(s[0]), Letter(s[1])] + pad) == s
    ensures |s| == 3 ==> Sextets([Letter(s[0]), Letter(s[1]), Letter(s[2])] + pad) == s
  {
    if |s| == 2 {
      assert [Letter(s[0]), Letter(s[1])] + pad == [Letter(s[0])] + ([Letter(s[1])] + pad);
      SextetsOfLetter(s[0], [Letter(s[1])] + pad);
      SextetsOfLetter(s[1], pad);
    } else if |s| == 3 {
      assert [Letter(s[0]), Letter(s[1]), Letter(s[2])] + pad
          == [Letter(s[0])] + ([Letter(s[1])] + ([Letter(s[2])] + pad));
      SextetsOfLetter(s[0], [Letter(s[1])] + ([Letter(s[2])] + pad));
      SextetsOfLetter(s[1], [Letter(s[2])] + pad);
      SextetsOfLetter(s[2], pad);
    }
  }

  lemma {:induction false} SextetsOfEncoding(bytes: Bytes)
    ensures Sextets(Encode(bytes)) == Cut(bytes)
  {
    if bytes == [] {
    } else if |bytes| == 1 {
      PaddedSextets(Cut(bytes), "==");
      assert Encode(bytes) == [Letter(Cut(bytes)[0]), Letter(Cut(bytes)[1])] + "==";
    } else if |bytes| == 2 {
      PaddedSextets(Cut(bytes), "=");
      assert Encode(bytes) == [Letter(Cut(bytes)[0]), Letter(Cut(bytes)[1]), Letter(Cut(bytes)[2])] + "=";
    } else {
      SextetsOfEncoding(bytes[3..]);
      SextetsOfFour(First(bytes[0]), Second(bytes[0], bytes[1]), Third(bytes[1], bytes[2]), Fourth(bytes[2]),
                    Encode(bytes[3..]));
    }
  }

  lemma PackOfFour(a: Sextet, b: Sextet, c: Sextet, d: Sextet, rest: seq<Sextet>)
    ensures Pack([a, b, c, d] + rest) == [High(a, b), Middle(b, c), Low(c, d)] + Pack(rest)
  {
    assert ([a, b, c, d] + rest)[4..] == rest;
  }

  lemma PackOfQuantum(x: Byte, y: Byte, z: Byte, rest: seq<Sextet>)
    ensures Pack([First(x), Second(x, y), Third(y, z), Fourth(z)] + rest) == [x, y, z] + Pack(rest)
  {
    PackOfFour(First(x), Second(x, y), Third(y, z), Fourth(z), rest);
    Quantum(x, y, z);
  }

  lemma PackOfTwo(a: Sextet, b: Sextet)
    ensures Pack([a, b]) == [High(a, b)]
  {
  }

  lemma PackOfThree(a: Sextet, b: Sextet, c: Sextet)
    ensures Pack([a, b, c]) == [High(a, b), Middle(b, c)]
  {
  }

  lemma PackOfTail(x: Byte, y: Byte)
    ensures Pack([First(x), Second(x, 0)]) == [x]
    ensures Pack([First(x), Second(x, y), Third(y, 0)]) == [x, y]
  {
    PackOfTwo(First(x), Second(x, 0));
    PackOfThree(First(x), Second(x, y), Third(y, 0));
    Quantum(x, 0, 0);
    Quantum(x, y, 0);
  }

  lemma {:induction false} PackOfCut(bytes: Bytes)
    ensures Pack(Cut(bytes)) == bytes
  {
    if bytes == [] {
    } else if |bytes| < 3 {
      PackOfTail(bytes[0], bytes[|bytes| - 1]);
    } else {
      PackOfQuantum(bytes[0], bytes[1], bytes[2], Cut(bytes[3..]));
      PackOfCut(bytes[3..]);
      assert bytes == [bytes[0], bytes[1], bytes[2]] + bytes[3..];
    }
  }

  /** Whatever bytes one side encodes, the other side decodes. */
  lemma RoundTrip(bytes: Bytes)
    ensures Decode(Encode(bytes)) == bytes
  {
    SextetsOfEncoding(bytes);
    PackOfCut(bytes);
  }

  // ---------------------------------------------------------------------------
  // The encoding, as section 4 of RFC 4648 describes it
  // ---------------------------------------------------------------------------

  lemma Digits(p: Sextet, q: Sextet, r: Sextet, s: Sextet)
    ensures var group := p * 262144 + q * 4096 + r * 64 + s;
            group / 262144 == p && group / 4096 % 64 == q && group / 64 % 64 == r && group % 64 == s
  {
    var group := p * 262144 + q * 4096 + r * 64 + s;
    assert group / 4096 == p * 64 + q;
    assert group / 64 == (p * 64 + q) * 64 + r;
  }

  /** Three bytes are a 24-bit group, read as four 6-bit groups, the highest first. */
  lemma GroupsAre(x: Byte, y: Byte, z: Byte)
    ensures var group := x * 65536 + y * 256 + z;
            && First(x) == group / 262144
            && Second(x, y) == group / 4096 % 64
            && Third(y, z) == group / 64 % 64
            && Fourth(z) == group % 64
  {
    Digits(First(x), Second(x, y), Third(y, z), Fourth(z));
    assert x == 4 * (x / 4) + x % 4 && y == 16 * (y / 16) + y % 16 && z == 64 * (z / 64) + z % 64;
  }

  /** A group of three bytes becomes four letters; what is left over at the end is padded with `=`. */
  lemma EncodesGroups(x: Byte, y: Byte, z: Byte, rest: Bytes)
    ensures var group := x * 65536 + y * 256 + z;
            Encode([x, y, z] + rest) == [Letter(group / 262144), Letter(group / 4096 % 64),
                                         Letter(group / 64 % 64), Letter(group % 64)] + Encode(rest)
    ensures var group := x * 65536 + y * 256;
            Encode([x, y]) == [Letter(group / 262144), Letter(group / 4096 % 64), Letter(group / 64 % 64), '=']
    ensures Encode([x]) == [Letter(x * 65536 / 262144), Letter(x * 65536 / 4096 % 64), '=', '=']
  {
    hide Letter;
    assert ([x, y, z] + rest)[3..] == rest;
    GroupsAre(x, y, z);
    GroupsAre(x, y, 0);
    GroupsAre(x, 0, 0);
  }

  /** A test vector of section 10 of RFC 4648, and one with the last two letters of the alphabet. */
  lemma Vectors()
    ensures Encode([102, 111, 111, 98, 97, 114]) == "Zm9vYmFy"
    ensures Encode([251, 255]) == "+/8="
  {
    assert [102, 111, 111, 98, 97, 114][3..] == [98, 97, 114];
    assert [98, 97, 114][3..] == [];
  }
}
