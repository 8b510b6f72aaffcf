/** Base64 as Node's Buffer writes and reads it (RFC 4648, section 4). */
module Base64 {
  import opened Wrappers

  type Byte = b: int | 0 <= b < 256
  type Sextet = x: int | 0 <= x < 64
  type Bytes = seq<Byte>

  function Symbol(x: Sextet): char {
    if x < 26 then ('A' as int + x) as char
    else if x < 52 then ('a' as int + x - 26) as char
    else if x < 62 then ('0' as int + x - 52) as char
    else if x == 62 then '+' else '/'
  }

  /** The value of a symbol of the standard or the URL-safe alphabet. */
  function ValueOf(c: char): Option<Sextet> {
    if 'A' <= c <= 'Z' then Some(c as int - 'A' as int)
    else if 'a' <= c <= 'z' then Some(c as int - 'a' as int + 26)
    else if '0' <= c <= '9' then Some(c as int - '0' as int + 52)
    else if c == '+' || c == '-' then Some(62)
    else if c == '/' || c == '_' then Some(63)
    else None
  }

  function Encode(b: Bytes): string {
    if |b| == 0 then ""
    else if |b| == 1 then [Symbol(b[0] / 4), Symbol(b[0] % 4 * 16), '=', '=']
    else if |b| == 2 then [Symbol(b[0] / 4), Symbol(b[0] % 4 * 16 + b[1] / 16), Symbol(b[1] % 16 * 4), '=']
    else
      [Symbol(b[0] / 4), Symbol(b[0] % 4 * 16 + b[1] / 16), Symbol(b[1] % 16 * 4 + b[2] / 64), Symbol(b[2] % 64)]
      + Encode(b[3..])
  }

  /** The symbols of a text; padding and anything else outside the alphabets is skipped. */
  function Sextets(s: string): seq<Sextet> {
    if s == "" then []
    else
      match ValueOf(s[0])
      case None => Sextets(s[1..])
      case Some(x) => [x] + Sextets(s[1..])
  }

  function First(w: Sextet, x: Sextet): Byte {
    w as int * 4 + x as int / 16
  }

  function Second(x: Sextet, y: Sextet): Byte {
    x as int % 16 * 16 + y as int / 4
  }

  function Third(y: Sextet, z: Sextet): Byte {
    y as int % 4 * 64 + z as int
  }

  /** Four sextets make three bytes; an incomplete last group makes what it has bits for. */
  function Pack(x: seq<Sextet>): Bytes {
    if |x| < 2 then []
    else if |x| == 2 then [First(x[0], x[1])]
    else if |x| == 3 then [First(x[0], x[1]), Second(x[1], x[2])]
    else [First(x[0], x[1]), Second(x[1], x[2]), Third(x[2], x[3])] + Pack(x[4..])
  }

  function Decode(s: string): Bytes {
    Pack(Sextets(s))
  }

  lemma SymbolHasValue(x: Sextet)
    ensures ValueOf(Symbol(x)) == Some(x)
  {
  }

  lemma ReadSymbol(x: Sextet, rest: string)
    ensures Sextets([Symbol(x)] + rest) == [x] + Sextets(rest)
  {
    SymbolHasValue(x);
    assert ([Symbol(x)] + rest)[1..] == rest;
  }

  lemma ReadPair(x: Sextet, y: Sextet, rest: string)
    ensures Sextets([Symbol(x), Symbol(y)] + rest) == [x, y] + Sextets(rest)
  {
    var tail := [Symbol(y)] + rest;
    ReadSymbol(y, rest);
    ReadSymbol(x, tail);
    assert [Symbol(x), Symbol(y)] + rest == [Symbol(x)] + tail;
  }

  lemma ReadFour(w: Sextet, x: Sextet, y: Sextet, z: Sextet, rest: string)
    ensures Sextets([Symbol(w), Symbol(x), Symbol(y), Symbol(z)] + rest) == [w, x, y, z] + Sextets(rest)
  {
    var tail := [Symbol(y), Symbol(z)] + rest;
    ReadPair(y, z, rest);
    ReadPair(w, x, tail);
    assert [Symbol(w), Symbol(x), Symbol(y), Symbol(z)] + rest == [Symbol(w), Symbol(x)] + tail;
  }

  lemma ReadTwo(x: Sextet, y: Sextet)
    ensures Sextets([Symbol(x), Symbol(y), '=', '=']) == [x, y]
  {
    ReadPadding(2);
    ReadSymbol(y, "==");
    ReadSymbol(x, [Symbol(y)] + "==");
    assert [Symbol(x), Symbol(y), '=', '='] == [Symbol(x)] + ([Symbol(y)] + "==");
  }

  lemma ReadThree(x: Sextet, y: Sextet, z: Sextet)
    ensures Sextets([Symbol(x), Symbol(y), Symbol(z), '=']) == [x, y, z]
  {
    ReadPadding(1);
    ReadSymbol(z, "=");
    ReadSymbol(y, [Symbol(z)] + "=");
    ReadSymbol(x, [Symbol(y)] + ([Symbol(z)] + "="));
    assert [Symbol(x), Symbol(y), Symbol(z), '='] == [Symbol(x)] + ([Symbol(y)] + ([Symbol(z)] + "="));
  }

  lemma PackTail(w: Sextet, x: Sextet, y: Sextet, z: Sextet, rest: seq<Sextet>)
    ensures Pack([w, x, y, z] + rest) == [First(w, x), Second(x, y), Third(y, z)] + Pack(rest)
  {
    assert ([w, x, y, z] + rest)[4..] == rest;
  }

  lemma ReadPadding(n: nat)
    requires n <= 2
    ensures Sextets("=="[..n]) == []
  {
    assert "=="[..0] == "" && "=="[..1] == "=" && "=="[..2] == "==";
  }

  /** The bits of a byte, wherever the sextets cut it. */
  lemma Bits(a: Byte, b: Byte, c: Byte)
    ensures First(a / 4, a % 4 * 16 + b / 16) == a
    ensures Second(a % 4 * 16 + b / 16, b % 16 * 4 + c / 64) == b
    ensures Third(b % 16 * 4 + c / 64, c % 64) == c
  {
    var x, y: Sextet := a % 4 * 16 + b / 16, b % 16 * 4 + c / 64;
    assert x as int / 16 == a as int % 4;
    assert x as int % 16 == b as int / 16;
    assert y as int / 4 == b as int % 16;
    assert y as int % 4 == c as int / 64;
  }

  lemma DecodeThree(a: Byte, b: Byte, c: Byte, rest: Bytes)
    ensures Decode(Encode([a, b, c] + rest)) == [a, b, c] + Decode(Encode(rest))
  {
    var w, x, y, z: Sextet := a / 4, a % 4 * 16 + b / 16, b % 16 * 4 + c / 64, c % 64;
    var bytes := [a, b, c] + rest;
    assert bytes[3..] == rest && bytes[0] == a && bytes[1] == b && bytes[2] == c;
    assert Encode(bytes) == [Symbol(w), Symbol(x), Symbol(y), Symbol(z)] + Encode(rest);
    ReadFour(w, x, y, z, Encode(rest));
    PackTail(w, x, y, z, Sextets(Encode(rest)));
    Bits(a, b, c);
  }

  lemma DecodeTwo(a: Byte, b: Byte)
    ensures Decode(Encode([a, b])) == [a, b]
  {
    var x, y, z: Sextet := a / 4, a % 4 * 16 + b / 16, b % 16 * 4;
    assert Encode([a, b]) == [Symbol(x), Symbol(y), Symbol(z), '='];
    ReadThree(x, y, z);
    Bits(a, b, 0);
    assert Pack([x, y, z]) == [First(x, y), Second(y, z)];
  }

  lemma DecodeOne(a: Byte)
    ensures Decode(Encode([a])) == [a]
  {
    var x, y: Sextet := a / 4, a % 4 * 16;
    assert Encode([a]) == [Symbol(x), Symbol(y), '=', '='];
    ReadTwo(x, y);
    Bits(a, 0, 0);
    assert Pack([x, y]) == [First(x, y)];
  }

  /** Decoding inverts encoding, for every byte string. */
  lemma {:induction false} DecodeEncode(b: Bytes)
    ensures Decode(Encode(b)) == b
  {
    if |b| == 1 {
      DecodeOne(b[0]);
      assert b == [b[0]];
    } else if |b| == 2 {
      DecodeTwo(b[0], b[1]);
      assert b == [b[0], b[1]];
    } else if |b| >= 3 {
      assert b == [b[0], b[1], b[2]] + b[3..];
      DecodeThree(b[0], b[1], b[2], b[3..]);
      DecodeEncode(b[3..]);
    }
  }

  /** Table 1 of RFC 4648. */
  lemma StandardAlphabet()
    ensures [Symbol(0), Symbol(1), Symbol(2), Symbol(3)] == "ABCD"
    ensures [Symbol(4), Symbol(5), Symbol(6), Symbol(7)] == "EFGH"
    ensures [Symbol(8), Symbol(9), Symbol(10), Symbol(11)] == "IJKL"
    ensures [Symbol(12), Symbol(13), Symbol(14), Symbol(15)] == "MNOP"
    ensures [Symbol(16), Symbol(17), Symbol(18), Symbol(19)] == "QRST"
    ensures [Symbol(20), Symbol(21), Symbol(22), Symbol(23)] == "UVWX"
    ensures [Symbol(24), Symbol(25), Symbol(26), Symbol(27)] == "YZab"
    ensures [Symbol(28), Symbol(29), Symbol(30), Symbol(31)] == "cdef"
    ensures [Symbol(32), Symbol(33), Symbol(34), Symbol(35)] == "ghij"
    ensures [Symbol(36), Symbol(37), Symbol(38), Symbol(39)] == "klmn"
    ensures [Symbol(40), Symbol(41), Symbol(42), Symbol(43)] == "opqr"
    ensures [Symbol(44), Symbol(45), Symbol(46), Symbol(47)] == "stuv"
    ensures [Symbol(48), Symbol(49), Symbol(50), Symbol(51)] == "wxyz"
    ensures [Symbol(52), Symbol(53), Symbol(54), Symbol(55)] == "0123"
    ensures [Symbol(56), Symbol(57), Symbol(58), Symbol(59)] == "4567"
    ensures [Symbol(60), Symbol(61), Symbol(62), Symbol(63)] == "89+/"
  {
  }

  /** Byte i, or zero bits where a last group is incomplete. */
  function ByteAt(b: Bytes, i: nat): nat {
    if i < |b| then b[i] as int else 0
  }

  /** Group g as a number of 24 bits. */
  function Group(b: Bytes, g: nat): nat {
    ByteAt(b, 3 * g) * 65536 + ByteAt(b, 3 * g + 1) * 256 + ByteAt(b, 3 * g + 2)
  }

  /** The four digits of n in base 64, padded where fewer than three bytes are left. */
  function Quad(n: nat, left: int): string {
    [Symbol(n / 262144 % 64), Symbol(n / 4096 % 64), if left > 1 then Symbol(n / 64 % 64) else '=',
     if left > 2 then Symbol(n % 64) else '=']
  }

  predicate QuadAt(s: string, i: nat, q: string) {
    |q| == 4 && i + 4 <= |s| && s[i] == q[0] && s[i + 1] == q[1] && s[i + 2] == q[2] && s[i + 3] == q[3]
  }

  lemma QuadOf(a: nat, b: nat, c: nat, left: int)
    requires a < 256 && b < 256 && c < 256
    ensures Quad(a * 65536 + b * 256 + c, left)
         == [Symbol(a / 4), Symbol(a % 4 * 16 + b / 16), if left > 1 then Symbol(b % 16 * 4 + c / 64) else '=',
             if left > 2 then Symbol(c % 64) else '=']
  {
    Digits(a, b, c);
  }

  lemma QuadFirst(q: string, rest: string)
    requires |q| == 4
    ensures QuadAt(q + rest, 0, q)
  {
  }

  lemma GroupOfOne(b: Bytes)
    requires |b| == 1
    ensures Encode(b) == Quad(Group(b, 0), 1)
  {
    QuadOf(b[0] as int, 0, 0, 1);
  }

  lemma GroupOfTwo(b: Bytes)
    requires |b| == 2
    ensures Encode(b) == Quad(Group(b, 0), 2)
  {
    QuadOf(b[0] as int, b[1] as int, 0, 2);
  }

  lemma GroupOfThree(b: Bytes)
    requires |b| >= 3
    ensures Encode(b) == Quad(Group(b, 0), |b|) + Encode(b[3..])
  {
    QuadOf(b[0] as int, b[1] as int, b[2] as int, |b|);
  }

  lemma FirstGroup(b: Bytes)
    requires b != []
    ensures QuadAt(Encode(b), 0, Quad(Group(b, 0), |b|))
  {
    if |b| == 1 {
      GroupOfOne(b);
    } else if |b| == 2 {
      GroupOfTwo(b);
    } else {
      GroupOfThree(b);
      QuadFirst(Quad(Group(b, 0), |b|), Encode(b[3..]));
    }
  }

  lemma NextGroup(b: Bytes, g: nat)
    requires 0 < 3 * g < |b|
    ensures Group(b, g) == Group(b[3..], g - 1)
  {
    assert 3 * (g - 1) + 3 == 3 * g;
  }

  /**
   * Section 4 of RFC 4648: each group of three bytes, read as a number of 24 bits, is written as its
   * four digits in base 64; an incomplete last group is padded with '='.
   */
  lemma {:induction false} EncodeMeaning(b: Bytes, g: nat)
    requires 3 * g < |b|
    ensures |Encode(b)| == (|b| + 2) / 3 * 4
    ensures QuadAt(Encode(b), 4 * g, Quad(Group(b, g), |b| - 3 * g))
  {
    EncodeLength(b);
    if g == 0 {
      FirstGroup(b);
    } else {
      var rest := b[3..];
      EncodeMeaning(rest, g - 1);
      NextGroup(b, g);
      NextQuad(b, 4 * (g - 1), Quad(Group(b, g), |b| - 3 * g));
    }
  }

  lemma NextQuad(b: Bytes, i: nat, q: string)
    requires |b| > 3 && QuadAt(Encode(b[3..]), i, q)
    ensures QuadAt(Encode(b), i + 4, q)
  {
  }

  lemma {:induction false} EncodeLength(b: Bytes)
    ensures |Encode(b)| == (|b| + 2) / 3 * 4
  {
    if |b| >= 3 {
      EncodeLength(b[3..]);
      assert |Encode(b)| == 4 + |Encode(b[3..])|;
      Groups(|b| - 3);
    }
  }

  lemma Groups(n: nat)
    ensures (n + 3 + 2) / 3 * 4 == (n + 2) / 3 * 4 + 4
  {
  }

  /** The base-64 digits of a number of three bytes. */
  lemma Digits(a: nat, b: nat, c: nat)
    requires a < 256 && b < 256 && c < 256
    ensures var n := a * 65536 + b * 256 + c;
            && n / 262144 % 64 == a / 4 && n / 4096 % 64 == a % 4 * 16 + b / 16
            && n / 64 % 64 == b % 16 * 4 + c / 64 && n % 64 == c % 64
  {
    Quotient(a * 65536 + b * 256 + c, 262144, a / 4, a % 4 * 65536 + b * 256 + c);
    Quotient(a * 65536 + b * 256 + c, 4096, a * 16 + b / 16, b % 16 * 256 + c);
    Quotient(a * 65536 + b * 256 + c, 64, a * 1024 + b * 4 + c / 64, c % 64);
    Quotient(a * 16 + b / 16, 64, a / 4, a % 4 * 16 + b / 16);
    Quotient(a * 1024 + b * 4 + c / 64, 64, a * 16 + b / 16, b % 16 * 4 + c / 64);
  }

  /** Division with remainder is unique. */
  lemma Quotient(n: int, d: int, q: int, r: int)
    requires d > 0 && n == d * q + r && 0 <= r < d
    ensures n / d == q && n % d == r
  {
    var more: int := n / d - q;
    assert d * more == r - n % d;
    Multiples(d, more);
  }

  lemma Multiples(d: int, k: int)
    requires d > 0
    ensures k >= 1 ==> d * k >= d
    ensures k <= -1 ==> d * k <= -d
  {
    if k >= 1 {
      assert d * (k - 1) >= 0;
    } else if k <= -1 {
      assert d * (-1 - k) >= 0;
    }
  }
}
