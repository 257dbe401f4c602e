/** Fixed-width machine integers and the byte layout of the firmware's unions.
    The RL78 target is little-endian: in a `UU32` the byte `U8[0]` is the least
    significant one and `U8[3]` the most significant one. */
module Bytes {

  type u8 = x: int | 0 <= x < 0x100
  type u16 = x: int | 0 <= x < 0x1_0000
  type u32 = x: int | 0 <= x < 0x1_0000_0000

  const U8Modulus: nat := 0x100
  const U16Modulus: nat := 0x1_0000
  const U32Modulus: nat := 0x1_0000_0000

  /** A `UU32` union, as the four bytes it holds in memory (`U8[0]` first). */
  type Word = s: seq<u8> | |s| == 4 witness [0, 0, 0, 0]

  /** A `UU128` union, as the sixteen bytes it holds in memory. Its `UU32[j]`
      member is the word made of bytes 4*j .. 4*j+3. */
  type Key = s: seq<u8> | |s| == 16 witness [0, 0, 0, 0, 0, 0, 0, 0, 0, 0, 0, 0, 0, 0, 0, 0]

  datatype Option<T> = None | Some(value: T)

  function Min(a: nat, b: nat): nat
  {
    if a <= b then a else b
  }

  /** The value read through the `.U32` member of a `UU32`. */
  function U32Of(w: Word): u32
  {
    ((w[3] as int * 0x100 + w[2]) * 0x100 + w[1]) * 0x100 + w[0]
  }

  /** The bytes stored by an assignment to the `.U32` member of a `UU32`. */
  function LeBytes(v: u32): Word
  {
    var v1 := v / 0x100;
    var v2 := v1 / 0x100;
    [v % 0x100, v1 % 0x100, v2 % 0x100, v2 / 0x100]
  }

  lemma DivModByte(q: nat, r: nat)
    requires r < 0x100
    ensures (q * 0x100 + r) / 0x100 == q && (q * 0x100 + r) % 0x100 == r
  {
  }

  lemma LeBytesThenU32Of(v: u32)
    ensures U32Of(LeBytes(v)) == v
  {
  }

  lemma U32OfThenLeBytes(w: Word)
    ensures LeBytes(U32Of(w)) == w
  {
    var mid: nat := w[3] as int * 0x100 + w[2];
    var hi: nat := mid * 0x100 + w[1];
    DivModByte(hi, w[0]);
    DivModByte(mid, w[1]);
    DivModByte(w[3], w[2]);
  }

  /** The word `UU32[j]` of a key. */
  function KeyWord(k: Key, j: nat): Word
    requires j < 4
  {
    k[4 * j .. 4 * j + 4]
  }

  /** The key after the assignment `UU32[j].U32 = v`. */
  function SetKeyWord(k: Key, j: nat, v: u32): (r: Key)
    requires j < 4
    ensures KeyWord(r, j) == LeBytes(v)
    ensures forall i :: 0 <= i < 16 && (i < 4 * j || 4 * j + 4 <= i) ==> r[i] == k[i]
    ensures forall i :: 0 <= i < 4 && i != j ==> KeyWord(r, i) == KeyWord(k, i)
  {
    var r := k[..4 * j] + LeBytes(v) + k[4 * j + 4..];
    assert forall i :: 0 <= i < 16 && (i < 4 * j || 4 * j + 4 <= i) ==> r[i] == k[i];
    r
  }

  /** The words of a key written as four words one after another. */
  lemma WordsOfKey(a: Word, b: Word, c: Word, d: Word)
    ensures |a + b + c + d| == 16
    ensures KeyWord(a + b + c + d, 0) == a && KeyWord(a + b + c + d, 1) == b
    ensures KeyWord(a + b + c + d, 2) == c && KeyWord(a + b + c + d, 3) == d
  {
    var k: Key := a + b + c + d;
    assert k[..4] == a;
    assert k[4..8] == b;
    assert k[8..12] == c;
    assert k[12..] == d;
  }

  lemma KeyOfWords(k: Key)
    ensures k == KeyWord(k, 0) + KeyWord(k, 1) + KeyWord(k, 2) + KeyWord(k, 3)
  {
    assert k == k[..4] + k[4..8] + k[8..12] + k[12..];
  }

  /** The bytes of `s` in the opposite order. */
  function Reverse<T>(s: seq<T>): (r: seq<T>)
    ensures |r| == |s|
  {
    if s == [] then [] else Reverse(s[1..]) + [s[0]]
  }

  lemma {:induction false} ReverseAt<T>(s: seq<T>, i: nat)
    requires i < |s|
    ensures Reverse(s)[i] == s[|s| - 1 - i]
  {
    if i < |s| - 1 {
      ReverseAt(s[1..], i);
    }
  }

  lemma ReverseInvolution<T>(s: seq<T>)
    ensures Reverse(Reverse(s)) == s
  {
    var r := Reverse(Reverse(s));
    forall i | 0 <= i < |s|
      ensures r[i] == s[i]
    {
      ReverseAt(Reverse(s), i);
      ReverseAt(s, |s| - 1 - i);
    }
  }
}
