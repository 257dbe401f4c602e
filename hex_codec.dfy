/** The ASCII hexadecimal text codec of the AT command interface: nibbles are
    written as '0'-'9', 'A'-'F', most significant first, and arguments are
    parsed by folding hex digits of either case into a fixed-width value. */
module HexCodec {
  import opened Bytes

  /** The three widths of `parseHexU8`, `parseHexU16` and `parseHexU32`. */
  datatype Width = W8 | W16 | W32

  function Modulus(w: Width): nat
  {
    match w
    case W8 => U8Modulus
    case W16 => U16Modulus
    case W32 => U32Modulus
  }

  /** How many characters `ReadU8FromUart`, `ReadU16FromUart` and
      `ReadU32FromUart` take from the AT argument buffer at most. */
  function MaxDigits(w: Width): nat
  {
    match w
    case W8 => 2
    case W16 => 4
    case W32 => 8
  }

  /** The C string of an ASCII literal, as the bytes the firmware handles. */
  function Ascii(s: string): (r: seq<u8>)
    requires forall i :: 0 <= i < |s| ==> s[i] < 256 as char
    ensures |r| == |s| && forall i :: 0 <= i < |s| ==> r[i] == s[i] as int
  {
    seq(|s|, i requires 0 <= i < |s| => s[i] as int)
  }

  /** The digit a character stands for, in either case, or None. */
  function DigitValue(c: u8): (d: Option<nat>)
    ensures d.Some? ==> d.value < 16
  {
    if '0' as int <= c <= '9' as int then Some(c - '0' as int)
    else if 'A' as int <= c <= 'F' as int then Some(10 + (c - 'A' as int))
    else if 'a' as int <= c <= 'f' as int then Some(10 + (c - 'a' as int))
    else None
  }

  predicate IsHexDigit(c: u8)
  {
    DigitValue(c).Some?
  }

  predicate AllHex(s: seq<u8>)
  {
    forall i :: 0 <= i < |s| ==> IsHexDigit(s[i])
  }

  /** The character `WriteCharToUart` sends for `ch`. The firmware computes
      `ch - 10 + 'A'` in `int` and the UART takes the low byte. */
  function HexChar(ch: u8): (c: u8)
    ensures ch < 16 ==> DigitValue(c) == Some(ch as nat)
    ensures ch < 16 ==> !('a' as int <= c <= 'f' as int)
  {
    if ch < 10 then ch as int + '0' as int else (ch as int - 10 + 'A' as int) % 0x100
  }

  /** The two characters written for one byte: high nibble, then low nibble. */
  function ByteHex(b: u8): seq<u8>
  {
    [HexChar(b / 16), HexChar(b % 16)]
  }

  /** The text written for a sequence of bytes, the first byte first. */
  function HexOfBytes(bs: seq<u8>): seq<u8>
  {
    if bs == [] then [] else HexOfBytes(bs[..|bs| - 1]) + ByteHex(bs[|bs| - 1])
  }

  /** The text `WriteU32ToUart` writes for a `UU32`: `U8[3]` first. */
  function U32Hex(w: Word): seq<u8>
  {
    HexOfBytes([w[3], w[2], w[1], w[0]])
  }

  /** The number of leading hex digits of `s`: where the parse loop stops. */
  function HexPrefixLen(s: seq<u8>): (n: nat)
    ensures n <= |s|
    ensures AllHex(s[..n])
    ensures n < |s| ==> !IsHexDigit(s[n])
  {
    if s == [] || !IsHexDigit(s[0]) then 0
    else
      var n := 1 + HexPrefixLen(s[1..]);
      assert s[..n] == [s[0]] + s[1..][..n - 1];
      n
  }

  /** The running `value = value << 4 | digit` of the parse loop, truncated
      to the width of `value` (the low nibble of `value << 4` is zero, so the
      `|` adds the digit). */
  function FoldHex(s: seq<u8>, w: Width): (r: nat)
    requires AllHex(s)
    ensures r < Modulus(w)
  {
    if s == [] then 0
    else (FoldHex(s[..|s| - 1], w) * 16 + DigitValue(s[|s| - 1]).value) % Modulus(w)
  }

  /** The value of a string of hex digits, without truncation. */
  function HexNat(s: seq<u8>): nat
    requires AllHex(s)
  {
    if s == [] then 0 else HexNat(s[..|s| - 1]) * 16 + DigitValue(s[|s| - 1]).value
  }

  /** What `parseHexU8/U16/U32` return for a string: the fold of its
      leading hex digits. */
  function ParseHex(s: seq<u8>, w: Width): (r: nat)
    ensures r < Modulus(w)
  {
    FoldHex(s[..HexPrefixLen(s)], w)
  }

  /** The loop of `parseHexU8`, `parseHexU16` and `parseHexU32` over a
      NUL-terminated string. */
  method ParseHexString(str: seq<u8>, w: Width) returns (value: nat)
    requires |str| > 0 && str[|str| - 1] == 0
    ensures value == ParseHex(str, w)
  {
    value := 0;
    var k := 0;
    while str[k] != 0
      invariant 0 <= k < |str|
      invariant AllHex(str[..k])
      invariant value == FoldHex(str[..k], w)
      decreases |str| - k
    {
      var d := DigitValue(str[k]);
      if d.None? {
        PrefixLenOfHexThen(str[..k], str[k..]);
        assert str[..k] + str[k..] == str;
        return;
      }
      assert str[..k + 1] == str[..k] + [str[k]];
      FoldHexSnoc(str[..k], str[k], w);
      value := (value * 16 + d.value) % Modulus(w);
      k := k + 1;
    }
    assert !IsHexDigit(str[k]);
    PrefixLenOfHexThen(str[..k], str[k..]);
    assert str[..k] + str[k..] == str;
  }

  /** What one `ReadU*FromUart` call does to the AT argument buffer. */
  datatype HexRead = HexRead(count: nat, value: nat, rest: seq<u8>)

  function ReadHex(buf: seq<u8>, w: Width): (r: HexRead)
    ensures r.count <= MaxDigits(w) && r.count <= |buf|
    ensures r.count == |buf| || r.count == MaxDigits(w)
    ensures buf == buf[..r.count] + r.rest
    ensures r.value < Modulus(w)
    ensures |buf| > 0 <==> r.count > 0
  {
    var n := Min(MaxDigits(w), |buf|);
    HexRead(n, ParseHex(buf[..n], w), buf[n..])
  }

  lemma {:induction false} PrefixLenOfHexThen(s: seq<u8>, t: seq<u8>)
    requires AllHex(s)
    requires t == [] || !IsHexDigit(t[0])
    ensures HexPrefixLen(s + t) == |s|
  {
    if s != [] {
      assert (s + t)[1..] == s[1..] + t;
      PrefixLenOfHexThen(s[1..], t);
    }
  }

  /** Parsing stops at the first character that is not a hex digit. */
  lemma ParseStopsAtNonHex(s: seq<u8>, c: u8, t: seq<u8>, w: Width)
    requires !IsHexDigit(c)
    ensures ParseHex(s + [c] + t, w) == ParseHex(s, w)
  {
    var n := HexPrefixLen(s);
    var u := s + [c] + t;
    var rest := s[n..] + [c] + t;
    assert u == s[..n] + rest;
    PrefixLenOfHexThen(s[..n], rest);
    assert u[..n] == s[..n];
  }

  /** The terminating NUL that `ReadU*FromUart` appends changes nothing. */
  lemma ParseIgnoresTerminator(s: seq<u8>, w: Width)
    ensures ParseHex(s + [0], w) == ParseHex(s, w)
  {
    ParseStopsAtNonHex(s, 0, [], w);
    assert s + [0] + [] == s + [0];
  }

  /** One more digit at the end of a digit string. */
  lemma FoldHexSnoc(s: seq<u8>, c: u8, w: Width)
    requires AllHex(s) && IsHexDigit(c)
    ensures AllHex(s + [c])
    ensures FoldHex(s + [c], w) == (FoldHex(s, w) * 16 + DigitValue(c).value) % Modulus(w)
  {
    assert (s + [c])[..|s|] == s;
  }

  /** Each further hex digit folds into the value as `value * 16 + digit`,
      modulo the width. */
  lemma ParseHexStep(s: seq<u8>, c: u8, w: Width)
    requires AllHex(s) && IsHexDigit(c)
    ensures ParseHex(s + [c], w) == (ParseHex(s, w) * 16 + DigitValue(c).value) % Modulus(w)
  {
    PrefixLenOfHexThen(s, []);
    assert s + [] == s;
    PrefixLenOfHexThen(s + [c], []);
    assert s + [c] + [] == s + [c];
    assert (s + [c])[..|s|] == s;
    assert s[..|s|] == s;
  }

  /** A digit string whose value fits the width is parsed exactly. */
  lemma {:induction false} FoldExact(s: seq<u8>, w: Width)
    requires AllHex(s) && HexNat(s) < Modulus(w)
    ensures FoldHex(s, w) == HexNat(s)
  {
    if s != [] {
      var p := s[..|s| - 1];
      assert HexNat(p) * 16 <= HexNat(s);
      FoldExact(p, w);
    }
  }

  /** The value of the text of a byte sequence, read back as one number. */
  function BigEndian(bs: seq<u8>): nat
  {
    if bs == [] then 0 else BigEndian(bs[..|bs| - 1]) * 256 + bs[|bs| - 1]
  }

  lemma {:induction false} HexOfBytesValue(bs: seq<u8>)
    ensures |HexOfBytes(bs)| == 2 * |bs|
    ensures AllHex(HexOfBytes(bs))
    ensures HexNat(HexOfBytes(bs)) == BigEndian(bs)
  {
    if bs != [] {
      var p := bs[..|bs| - 1];
      var b := bs[|bs| - 1];
      HexOfBytesValue(p);
      var h := HexOfBytes(p);
      var u := h + ByteHex(b);
      assert u == HexOfBytes(bs);
      assert u[..|u| - 1] == h + [HexChar(b / 16)];
      assert (h + [HexChar(b / 16)])[..|h|] == h;
      assert HexNat(u) == (HexNat(h) * 16 + b / 16) * 16 + b % 16;
    }
  }

  lemma HexOfFourBytes(a: u8, b: u8, c: u8, d: u8)
    ensures HexOfBytes([a, b, c, d]) == ByteHex(a) + ByteHex(b) + ByteHex(c) + ByteHex(d)
    ensures BigEndian([a, b, c, d]) == ((a as int * 256 + b) * 256 + c) * 256 + d
  {
    assert [a, b, c, d][..3] == [a, b, c];
    assert [a, b, c][..2] == [a, b];
    assert [a, b][..1] == [a];
    assert [a][..0] == [];
    assert HexOfBytes([a]) == ByteHex(a);
    assert HexOfBytes([a, b]) == ByteHex(a) + ByteHex(b);
    assert HexOfBytes([a, b, c]) == ByteHex(a) + ByteHex(b) + ByteHex(c);
    assert BigEndian([a]) == a;
    assert BigEndian([a, b]) == a as int * 256 + b;
    assert BigEndian([a, b, c]) == (a as int * 256 + b) * 256 + c;
  }

  /** `WriteU32ToUart` writes exactly eight hex digits, and parsing them as a
      32-bit argument gives back the value of the word. */
  lemma U32HexRoundTrip(w: Word)
    ensures |U32Hex(w)| == 8 && AllHex(U32Hex(w))
    ensures ParseHex(U32Hex(w), W32) == U32Of(w)
  {
    var bs := [w[3], w[2], w[1], w[0]];
    HexOfBytesValue(bs);
    HexOfFourBytes(w[3], w[2], w[1], w[0]);
    var h := U32Hex(w);
    PrefixLenOfHexThen(h, []);
    assert h + [] == h && h[..8] == h;
    FoldExact(h, W32);
  }

  /** The two characters written for a byte parse back, as an 8-bit
      argument, to that byte. */
  lemma ByteHexRoundTrip(b: u8)
    ensures |ByteHex(b)| == 2 && AllHex(ByteHex(b))
    ensures ParseHex(ByteHex(b), W8) == b
  {
    HexOfBytesValue([b]);
    assert [b][..0] == [];
    assert HexOfBytes([b]) == ByteHex(b);
    var h := ByteHex(b);
    PrefixLenOfHexThen(h, []);
    assert h + [] == h && h[..2] == h;
    FoldExact(h, W8);
  }

  /** Most significant nibble first: the text of a word starts with the high
      nibble of its top byte `U8[3]` and ends with the low nibble of `U8[0]`. */
  lemma U32HexOrder(w: Word)
    ensures |U32Hex(w)| == 8
    ensures U32Hex(w)[0] == HexChar(w[3] / 16) && U32Hex(w)[1] == HexChar(w[3] % 16)
    ensures U32Hex(w)[6] == HexChar(w[0] / 16) && U32Hex(w)[7] == HexChar(w[0] % 16)
  {
    HexOfFourBytes(w[3], w[2], w[1], w[0]);
  }

  /** "1A2B" read as a 16-bit argument is 0x1A2B. */
  lemma ParseExample16()
    ensures ReadHex(Ascii("1A2B"), W16) == HexRead(4, 0x1A2B, [])
  {
    var s := Ascii("1A2B");
    assert s == [0x31, 0x41, 0x32, 0x42];
    PrefixLenOfHexThen(s, []);
    assert s + [] == s && s[..4] == s;
    Fold1A2B();
  }

  /** The digits "1A2B" fold to 0x1A2B in 16 bits. */
  lemma Fold1A2B()
    ensures AllHex([0x31, 0x41, 0x32, 0x42])
    ensures FoldHex([0x31, 0x41, 0x32, 0x42], W16) == 0x1A2B
  {
    var s: seq<u8> := [0x31, 0x41, 0x32, 0x42];
    assert s[..3] == [0x31, 0x41, 0x32];
    assert s[..3][..2] == [0x31, 0x41];
    assert s[..3][..2][..1] == [0x31];
    assert s[..3][..2][..1][..0] == [];
    assert FoldHex([0x31], W16) == 0x1;
    assert FoldHex([0x31, 0x41], W16) == 0x1A;
    assert FoldHex([0x31, 0x41, 0x32], W16) == 0x1A2;
  }

  /** "1A2B3C" read as an 8-bit argument takes only "1A". */
  lemma ParseExample8()
    ensures ReadHex(Ascii("1A2B3C"), W8) == HexRead(2, 0x1A, Ascii("2B3C"))
  {
    var s := Ascii("1A2B3C");
    var p := s[..2];
    assert p == [0x31, 0x41];
    PrefixLenOfHexThen(p, []);
    assert p + [] == p && p[..2] == p;
    Fold1A();
    assert s[2..] == Ascii("2B3C");
  }

  /** The digits "1A" fold to 0x1A in 8 bits. */
  lemma Fold1A()
    ensures AllHex([0x31, 0x41])
    ensures FoldHex([0x31, 0x41], W8) == 0x1A
  {
    var p: seq<u8> := [0x31, 0x41];
    assert p[..1] == [0x31] && p[..1][..0] == [];
    assert FoldHex([0x31], W8) == 0x1;
  }
}
