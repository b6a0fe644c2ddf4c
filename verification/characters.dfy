/**
 * Characters as the codec sees them: the `xx/yy` code-table notation of ECMA-48 (the `ascii!` macro of
 * src/lib.rs), 7-bit checks, and the UTF-8 byte length that the source consults through `str::len`.
 * A string is a sequence of Unicode scalar values; every value above 0x7F is non-ASCII.
 */
module Characters {

  /** One byte of a UTF-8 encoded string. */
  type Byte = b: int | 0 <= b < 0x100

  /** True when `c` is a 7-bit character, that is, a one-byte UTF-8 sequence. */
  predicate IsAscii(c: char) {
    c as int < 0x80
  }

  /** `str::is_ascii`. */
  predicate IsAsciiString(s: string) {
    forall i :: 0 <= i < |s| ==> IsAscii(s[i])
  }

  /** The column `xx` of the 7-bit code table that holds `c`. */
  function Column(c: char): int {
    c as int / 16
  }

  /** The row `yy` of the 7-bit code table that holds `c`. */
  function Row(c: char): int {
    c as int % 16
  }

  /**
   * `ascii!(xx/yy)`: the character in column `xx`, row `yy`. The source builds it with an unchecked
   * conversion and relies on callers staying in range; here the range is a precondition.
   */
  function Ascii(xx: int, yy: int): char
    requires 0 <= xx <= 7 && 0 <= yy <= 15
  {
    (xx * 16 + yy) as char
  }

  /** `xx/yy` names the 7-bit character in column `xx`, row `yy`, and no other character. */
  lemma NotationIsUnique(c: char, xx: int, yy: int)
    requires 0 <= xx <= 7 && 0 <= yy <= 15
    ensures IsAscii(Ascii(xx, yy)) && Column(Ascii(xx, yy)) == xx && Row(Ascii(xx, yy)) == yy
    ensures Ascii(xx, yy) == c <==> IsAscii(c) && Column(c) == xx && Row(c) == yy
  {
  }

  /** Number of bytes in the UTF-8 encoding of `c`. */
  function CharUtf8Len(c: char): nat {
    if c as int < 0x80 then 1
    else if c as int < 0x800 then 2
    else if c as int < 0x10000 then 3
    else 4
  }

  /** The UTF-8 encoding of one character. */
  function Utf8Encode(c: char): (bytes: seq<Byte>)
    ensures |bytes| == CharUtf8Len(c)
  {
    var n := c as int;
    if n < 0x80 then [n]
    else if n < 0x800 then [0xC0 + n / 64, 0x80 + n % 64]
    else if n < 0x10000 then [0xE0 + n / 4096, 0x80 + (n / 64) % 64, 0x80 + n % 64]
    else [0xF0 + n / 262144, 0x80 + (n / 4096) % 64, 0x80 + (n / 64) % 64, 0x80 + n % 64]
  }

  /** `str::as_bytes`. */
  function Utf8Bytes(s: string): (bytes: seq<Byte>)
    ensures |bytes| == Utf8Len(s)
  {
    if |s| == 0 then [] else Utf8Encode(s[0]) + Utf8Bytes(s[1..])
  }

  /** `str::len`: the length in bytes, never less than the number of characters. */
  function Utf8Len(s: string): (n: nat)
    ensures |s| <= n
    ensures n == 0 <==> |s| == 0
  {
    if |s| == 0 then 0 else CharUtf8Len(s[0]) + Utf8Len(s[1..])
  }

  /** On 7-bit text bytes and characters coincide. */
  lemma {:induction false} AsciiBytes(s: string)
    requires IsAsciiString(s)
    ensures Utf8Len(s) == |s|
    ensures Utf8Bytes(s) == seq(|s|, i requires 0 <= i < |s| => s[i] as int)
  {
    if |s| > 0 {
      AsciiBytes(s[1..]);
    }
  }

  /** A string of byte length one is exactly one 7-bit character. */
  lemma Utf8LenOne(s: string)
    ensures Utf8Len(s) == 1 <==> |s| == 1 && IsAscii(s[0])
  {
    if |s| >= 1 {
      assert Utf8Len(s) == CharUtf8Len(s[0]) + Utf8Len(s[1..]);
    }
  }

  /** Encoding distributes over concatenation, so byte lengths add up. */
  lemma {:induction false} Utf8Concat(a: string, b: string)
    ensures Utf8Bytes(a + b) == Utf8Bytes(a) + Utf8Bytes(b)
    ensures Utf8Len(a + b) == Utf8Len(a) + Utf8Len(b)
  {
    if |a| > 0 {
      assert (a + b)[1..] == a[1..] + b;
      Utf8Concat(a[1..], b);
    } else {
      assert a + b == b;
    }
  }
}
