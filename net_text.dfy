/**
 * The .NET text routines the IK save string relies on: formatting a 32-bit `int` in decimal,
 * `int.TryParse` with the default number style (leading and trailing white space, an optional
 * sign, decimal digits, no overflow), and `String.Split` on one separator character.
 */
module NetText {
  import opened Wrappers

  /** C#'s `int`. */
  newtype Int32 = x: int | -0x8000_0000 <= x < 0x8000_0000

  predicate IsDigit(c: char) { '0' <= c <= '9' }

  predicate AllDigits(s: string) { forall k :: 0 <= k < |s| ==> IsDigit(s[k]) }

  /** The white space `NumberStyles.AllowLeadingWhite` and `AllowTrailingWhite` skip: tab to carriage return, and space. */
  predicate IsWhite(c: char) { '\U{9}' <= c <= '\U{D}' || c == ' ' }

  function DigitChar(d: nat): (c: char)
    requires d < 10
    ensures IsDigit(c) && c as int - '0' as int == d
  {
    ('0' as int + d) as char
  }

  /** The decimal digits of `n`, most significant first, without leading zeros. */
  function NatToString(n: nat): (s: string)
    ensures 0 < |s| && AllDigits(s)
  {
    if n < 10 then [DigitChar(n)] else NatToString(n / 10) + [DigitChar(n % 10)]
  }

  /** `int.ToString()`: a minus sign before the digits of a negative number. */
  function Int32ToString(i: Int32): (s: string)
    ensures 0 < |s| && (IsDigit(s[0]) || s[0] == '-') && IsDigit(s[|s| - 1])
    ensures forall k :: 0 <= k < |s| ==> s[k] != ','
  {
    if i < 0 then "-" + NatToString(-(i as int)) else NatToString(i as int)
  }

  /** The value of a string of decimal digits. */
  function DigitsValue(s: string): nat
    requires AllDigits(s)
  {
    if s == [] then 0 else DigitsValue(s[..|s| - 1]) * 10 + (s[|s| - 1] as int - '0' as int)
  }

  /** Reading back the digits of `n` gives `n`. */
  lemma {:induction false} DigitsOfNat(n: nat)
    ensures DigitsValue(NatToString(n)) == n
  {
    var s := NatToString(n);
    if n >= 10 {
      assert s[..|s| - 1] == NatToString(n / 10);
      DigitsOfNat(n / 10);
    }
  }

  function TrimLeadingWhite(s: string): (r: string)
    ensures |r| <= |s| && (r != [] ==> !IsWhite(r[0]))
  {
    if s != [] && IsWhite(s[0]) then TrimLeadingWhite(s[1..]) else s
  }

  function TrimTrailingWhite(s: string): (r: string)
    ensures |r| <= |s| && (r != [] ==> !IsWhite(r[|r| - 1]))
  {
    if s != [] && IsWhite(s[|s| - 1]) then TrimTrailingWhite(s[..|s| - 1]) else s
  }

  /**
   * `int.TryParse(s, out v)`: white space, then an optional `-` or `+`, then at least one decimal
   * digit, then white space; None when anything else is there or the value does not fit an `int`.
   */
  function TryParseInt32(s: string): (r: Option<Int32>)
    ensures r.Some? ==> exists k :: 0 <= k < |s| && IsDigit(s[k])
  {
    var t := TrimTrailingWhite(TrimLeadingWhite(s));
    var negative := |t| > 0 && t[0] == '-';
    var digits := if |t| > 0 && (t[0] == '-' || t[0] == '+') then t[1..] else t;
    if digits == [] || !AllDigits(digits) then None
    else
      var magnitude: int := DigitsValue(digits);
      var v := if negative then -magnitude else magnitude;
      if -0x8000_0000 <= v < 0x8000_0000 then
        TrimmedDigit(s, digits);
        Some(v as Int32)
      else None
  }

  /** A digit left after trimming and dropping a sign is a digit of the original string. */
  lemma TrimmedDigit(s: string, digits: string)
    requires var t := TrimTrailingWhite(TrimLeadingWhite(s));
             digits == (if |t| > 0 && (t[0] == '-' || t[0] == '+') then t[1..] else t)
    requires digits != [] && AllDigits(digits)
    ensures exists k :: 0 <= k < |s| && IsDigit(s[k])
  {
    var t := TrimTrailingWhite(TrimLeadingWhite(s));
    var j := if |t| > 0 && (t[0] == '-' || t[0] == '+') then 1 else 0;
    assert t[j] == digits[0];
    var k := InTrimmed(s, j);
    assert IsDigit(s[k]);
  }

  /** Position `j` of the trimmed string is some position of the original. */
  lemma InTrimmed(s: string, j: int) returns (k: int)
    requires 0 <= j < |TrimTrailingWhite(TrimLeadingWhite(s))|
    ensures 0 <= k < |s| && s[k] == TrimTrailingWhite(TrimLeadingWhite(s))[j]
  {
    var l := TrimLeadingWhite(s);
    var i := InTrailingTrimmed(l, j);
    k := InLeadingTrimmed(s, i);
  }

  lemma {:induction false} InLeadingTrimmed(s: string, j: int) returns (k: int)
    requires 0 <= j < |TrimLeadingWhite(s)|
    ensures 0 <= k < |s| && s[k] == TrimLeadingWhite(s)[j]
  {
    if s != [] && IsWhite(s[0]) {
      var i := InLeadingTrimmed(s[1..], j);
      k := i + 1;
    } else {
      k := j;
    }
  }

  lemma {:induction false} InTrailingTrimmed(s: string, j: int) returns (k: int)
    requires 0 <= j < |TrimTrailingWhite(s)|
    ensures 0 <= k < |s| && s[k] == TrimTrailingWhite(s)[j]
  {
    if s != [] && IsWhite(s[|s| - 1]) {
      k := InTrailingTrimmed(s[..|s| - 1], j);
    } else {
      k := j;
    }
  }

  /** `int.TryParse` reads back what `int.ToString` wrote. */
  lemma ParseFormatted(i: Int32)
    ensures TryParseInt32(Int32ToString(i)) == Some(i)
  {
    if i < 0 {
      ParseNegative(-(i as int));
    } else {
      ParseNatural(i as int);
    }
  }

  lemma ParseNatural(n: nat)
    requires n < 0x8000_0000
    ensures TryParseInt32(NatToString(n)) == Some(n as Int32)
  {
    var s := NatToString(n);
    DigitsOfNat(n);
    NothingToTrim(s);
  }

  lemma ParseNegative(n: nat)
    requires 0 < n <= 0x8000_0000
    ensures TryParseInt32("-" + NatToString(n)) == Some((-(n as int)) as Int32)
  {
    DigitsOfNat(n);
    SignedDigits(NatToString(n));
  }

  /** A minus sign before a string of digits is left alone by the trim, and the digits follow it. */
  lemma SignedDigits(s: string)
    requires s != [] && AllDigits(s)
    ensures var m := "-" + s; TrimTrailingWhite(TrimLeadingWhite(m)) == m && m[0] == '-' && m[1..] == s
  {
    var m := "-" + s;
    assert m[|m| - 1] == s[|s| - 1];
    NothingToTrim(m);
  }

  /** A string that starts and ends with something other than white space is its own trim. */
  lemma NothingToTrim(s: string)
    requires s != [] && !IsWhite(s[0]) && !IsWhite(s[|s| - 1])
    ensures TrimTrailingWhite(TrimLeadingWhite(s)) == s
  {
    assert TrimLeadingWhite(s) == s;
  }

  /** Strings with no digit at all, the empty string among them, never parse. */
  lemma NoDigitNoInt(s: string)
    requires forall k :: 0 <= k < |s| ==> !IsDigit(s[k])
    ensures TryParseInt32(s) == None
  {
  }

  /** Numbers past `int.MaxValue` do not parse: the parse checks for overflow. */
  lemma OverflowRejected(n: nat)
    requires n >= 0x8000_0000
    ensures TryParseInt32(NatToString(n)) == None
  {
    DigitsOfNat(n);
    NothingToTrim(NatToString(n));
  }

  /** Numbers below `int.MinValue` do not parse either. */
  lemma UnderflowRejected(n: nat)
    requires n > 0x8000_0000
    ensures TryParseInt32("-" + NatToString(n)) == None
  {
    DigitsOfNat(n);
    SignedDigits(NatToString(n));
  }

  // ---------------------------------------------------------------------------
  // String.Split

  /** `s.Split(sep)`: the pieces between separators, empty pieces included; never an empty array. */
  function Split(s: string, sep: char): (parts: seq<string>)
    ensures 0 < |parts|
  {
    if s == [] then [""]
    else
      var rest := Split(s[1..], sep);
      if s[0] == sep then [""] + rest else [[s[0]] + rest[0]] + rest[1..]
  }

  /** `String.Join(sep, parts)`. */
  function Join(parts: seq<string>, sep: char): string
    requires 0 < |parts|
  {
    if |parts| == 1 then parts[0] else parts[0] + [sep] + Join(parts[1..], sep)
  }

  /** How many times `c` occurs in `s`. */
  function Occurrences(s: string, c: char): nat {
    if s == [] then 0 else (if s[0] == c then 1 else 0) + Occurrences(s[1..], c)
  }

  /** Split yields one piece more than there are separators. */
  lemma {:induction false} SplitCount(s: string, sep: char)
    ensures |Split(s, sep)| == Occurrences(s, sep) + 1
  {
    if s != [] {
      SplitCount(s[1..], sep);
    }
  }

  /** No piece contains the separator. */
  lemma {:induction false} SplitPiecesClean(s: string, sep: char)
    ensures forall p, k :: p in Split(s, sep) && 0 <= k < |p| ==> p[k] != sep
  {
    if s != [] {
      SplitPiecesClean(s[1..], sep);
      var rest := Split(s[1..], sep);
      if s[0] != sep {
        var first := [s[0]] + rest[0];
        assert rest[0] in rest;
        forall k | 0 <= k < |first|
          ensures first[k] != sep
        {
          if k > 0 {
            assert first[k] == rest[0][k - 1];
          }
        }
        forall p | p in Split(s, sep)
          ensures p == first || p in rest
        {
          if p != first {
            assert p in rest[1..];
          }
        }
      }
    }
  }

  /** Joining the pieces with the separator gives the string back. */
  lemma {:induction false} SplitJoin(s: string, sep: char)
    ensures Join(Split(s, sep), sep) == s
  {
    if s != [] {
      SplitJoin(s[1..], sep);
      var rest := Split(s[1..], sep);
      if s[0] == sep {
        assert ([""] + rest)[1..] == rest;
        assert s == [sep] + s[1..];
      } else {
        var parts := [[s[0]] + rest[0]] + rest[1..];
        if |rest| == 1 {
          assert s == [s[0]] + s[1..];
        } else {
          assert parts[1..] == rest[1..];
          assert Join(rest, sep) == rest[0] + [sep] + Join(rest[1..], sep);
          assert s == [s[0]] + s[1..];
        }
      }
    }
  }

  /** A string without the separator is a single piece. */
  lemma {:induction false} SplitNoSeparator(s: string, sep: char)
    requires forall k :: 0 <= k < |s| ==> s[k] != sep
    ensures Split(s, sep) == [s]
  {
    if s != [] {
      SplitNoSeparator(s[1..], sep);
      assert [s[0]] + s[1..] == s;
    }
  }

  /** Two separator-free strings joined by one separator split back into exactly those two. */
  lemma {:induction false} SplitPair(a: string, b: string, sep: char)
    requires forall k :: 0 <= k < |a| ==> a[k] != sep
    requires forall k :: 0 <= k < |b| ==> b[k] != sep
    ensures Split(a + [sep] + b, sep) == [a, b]
  {
    var s := a + [sep] + b;
    if a == [] {
      assert s[1..] == b;
      SplitNoSeparator(b, sep);
    } else {
      assert s[1..] == a[1..] + [sep] + b;
      SplitPair(a[1..], b, sep);
      assert [a[0]] + a[1..] == a;
    }
  }
}
