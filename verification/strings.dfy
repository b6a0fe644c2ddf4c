/**
 * String helpers the codec borrows from Rust's standard library: `u32::to_string`, `[String]::join`
 * and `str::split` on a single separator character, each with the inverse the codec relies on.
 */
module Strings {

  /** A decimal digit, `0` to `9`. */
  predicate IsDigit(c: char) {
    '0' <= c <= '9'
  }

  /** A non-empty run of decimal digits. */
  predicate IsDecimal(s: string) {
    |s| >= 1 && forall i :: 0 <= i < |s| ==> IsDigit(s[i])
  }

  /** The digit of a number below ten. */
  function Digit(d: nat): (c: char)
    requires d < 10
  {
    ('0' as int + d) as char
  }

  /** The number a string of decimal digits denotes (the reading direction of `to_string`). */
  function DecimalValue(s: string): nat
    requires forall i :: 0 <= i < |s| ==> IsDigit(s[i])
  {
    if |s| == 0 then 0
    else
      assert IsDigit(s[|s| - 1]);
      DecimalValue(s[..|s| - 1]) * 10 + (s[|s| - 1] as int - '0' as int)
  }

  /**
   * `to_string` of an unsigned integer: its decimal digits, most significant first, with no sign and no
   * leading zero.
   */
  function Decimal(n: nat): (s: string)
    ensures IsCanonicalDecimal(s)
    ensures DecimalValue(s) == n
    decreases n
  {
    if n < 10 then [Digit(n)]
    else
      var prefix := Decimal(n / 10);
      var s := prefix + [Digit(n % 10)];
      assert s[..|s| - 1] == prefix;
      s
  }

  /** The form `to_string` produces: decimal digits without a superfluous leading zero. */
  predicate IsCanonicalDecimal(s: string) {
    IsDecimal(s) && (|s| > 1 ==> s[0] != '0')
  }

  /** Only a string of zeros denotes zero. */
  lemma {:induction false} ZeroValue(s: string)
    requires forall i :: 0 <= i < |s| ==> IsDigit(s[i])
    requires DecimalValue(s) == 0
    ensures forall i :: 0 <= i < |s| ==> s[i] == '0'
    decreases |s|
  {
    if |s| > 0 {
      ZeroValue(s[..|s| - 1]);
      assert forall i :: 0 <= i < |s| - 1 ==> s[i] == s[..|s| - 1][i];
    }
  }

  /** A decimal of more than one digit is its leading digits and its last digit, and denotes accordingly. */
  lemma DecimalSplit(s: string)
    requires IsDecimal(s) && |s| > 1
    ensures s == s[..|s| - 1] + [s[|s| - 1]]
    ensures DecimalValue(s) / 10 == DecimalValue(s[..|s| - 1]) && DecimalValue(s) % 10 == s[|s| - 1] as int - '0' as int
  {
  }

  /** A canonical decimal is the `to_string` of the number it denotes, so parsing loses nothing. */
  lemma {:induction false} CanonicalDecimal(s: string)
    requires IsCanonicalDecimal(s)
    ensures Decimal(DecimalValue(s)) == s
    decreases |s|
  {
    if |s| > 1 {
      var prefix := s[..|s| - 1];
      assert prefix[0] == s[0];
      assert IsCanonicalDecimal(prefix);
      if DecimalValue(prefix) == 0 {
        ZeroValue(prefix);
        assert false;
      }
      CanonicalDecimal(prefix);
      DecimalSplit(s);
    }
  }

  /** `parameters.join(sep)`: one separator between consecutive entries, none trailing. */
  function Join(parts: seq<string>, separator: char): string
    decreases |parts|
  {
    if |parts| == 0 then ""
    else if |parts| == 1 then parts[0]
    else parts[0] + [separator] + Join(parts[1..], separator)
  }

  /**
   * `s.split(sep)` for a one-character separator: the maximal separator-free pieces, in order, keeping
   * empty pieces; the empty string splits into one empty piece.
   */
  function Split(s: string, separator: char): (parts: seq<string>)
    ensures |parts| >= 1
    ensures forall i :: 0 <= i < |parts| ==> separator !in parts[i]
    decreases |s|
  {
    if |s| == 0 then [""]
    else
      var rest := Split(s[1..], separator);
      if s[0] == separator then [""] + rest
      else [[s[0]] + rest[0]] + rest[1..]
  }

  /** Splitting and joining again gives back the original text, whatever it holds. */
  lemma {:induction false} JoinSplit(s: string, separator: char)
    ensures Join(Split(s, separator), separator) == s
    decreases |s|
  {
    if |s| > 0 {
      var rest := Split(s[1..], separator);
      JoinSplit(s[1..], separator);
      if s[0] == separator {
        assert ([""] + rest)[1..] == rest;
      } else {
        var parts := [[s[0]] + rest[0]] + rest[1..];
        if |rest| > 1 {
          assert parts[1..] == rest[1..];
        }
      }
    }
  }

  /** A separator-free piece splits into itself. */
  lemma {:induction false} SplitPiece(p: string, separator: char)
    requires separator !in p
    ensures Split(p, separator) == [p]
    decreases |p|
  {
    if |p| > 0 {
      SplitPiece(p[1..], separator);
      assert [p[0]] + p[1..] == p;
    }
  }

  /** Splitting `p ; t` with a separator-free `p` yields `p` followed by the pieces of `t`. */
  lemma {:induction false} SplitCons(p: string, t: string, separator: char)
    requires separator !in p
    ensures Split(p + [separator] + t, separator) == [p] + Split(t, separator)
    decreases |p|
  {
    var s := p + [separator] + t;
    if |p| == 0 {
      assert s[0] == separator && s[1..] == t;
    } else {
      assert s[0] == p[0] && s[1..] == p[1..] + [separator] + t;
      SplitCons(p[1..], t, separator);
      assert [p[0]] + p[1..] == p;
    }
  }

  /**
   * Joining a non-empty list of separator-free pieces and splitting again gives back the list. The
   * empty list is the one exception: it joins to "" which splits into [""].
   */
  lemma {:induction false} SplitJoin(parts: seq<string>, separator: char)
    requires |parts| >= 1
    requires forall i :: 0 <= i < |parts| ==> separator !in parts[i]
    ensures Split(Join(parts, separator), separator) == parts
    decreases |parts|
  {
    if |parts| == 1 {
      SplitPiece(parts[0], separator);
    } else {
      SplitJoin(parts[1..], separator);
      SplitCons(parts[0], Join(parts[1..], separator), separator);
      assert [parts[0]] + parts[1..] == parts;
    }
  }

  /** Every character of a joined list comes from a piece or is the separator. */
  lemma {:induction false} JoinChars(parts: seq<string>, separator: char, P: char -> bool)
    requires P(separator)
    requires forall i, j :: 0 <= i < |parts| && 0 <= j < |parts[i]| ==> P(parts[i][j])
    ensures forall k :: 0 <= k < |Join(parts, separator)| ==> P(Join(parts, separator)[k])
    decreases |parts|
  {
    if |parts| > 1 {
      JoinChars(parts[1..], separator, P);
      var tail := Join(parts[1..], separator);
      var joined := parts[0] + [separator] + tail;
      forall k | 0 <= k < |joined|
        ensures P(joined[k])
      {
        if k < |parts[0]| {
          assert joined[k] == parts[0][k];
        } else if k > |parts[0]| {
          assert joined[k] == tail[k - |parts[0]| - 1];
        }
      }
    }
  }

  /** The `{:02}` format of a number below one hundred: exactly two digits, zero-padded on the left. */
  function PadTwo(n: nat): (s: string)
    requires n < 100
    ensures |s| == 2 && IsDecimal(s)
    ensures DecimalValue(s) == n
  {
    if n < 10 then ['0'] + Decimal(n)
    else
      assert Decimal(n) == Decimal(n / 10) + [Digit(n % 10)];
      Decimal(n)
  }
}
