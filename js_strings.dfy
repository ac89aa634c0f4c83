/**
 * The few JavaScript string built-ins the extension relies on, written out with
 * their ECMAScript semantics: the alphanumeric mask `s.replace(/[^a-zA-Z0-9]/g, ' ')`,
 * `trim`, `substring`, `split` on one character and `parseInt(s, 10)`.
 */
module JsStrings {
  import opened Wrappers

  predicate IsDigit(c: char) { '0' <= c <= '9' }

  /** The character class `[a-zA-Z0-9]`. */
  predicate IsAlnum(c: char) { 'a' <= c <= 'z' || 'A' <= c <= 'Z' || IsDigit(c) }

  /** The characters `String.prototype.trim` removes: WhiteSpace and LineTerminator. */
  predicate IsJsWhitespace(c: char) {
    || c == ' ' || c == '\t' || c == '\n' || c == '\r'
    || c == '\U{000B}' || c == '\U{000C}' || c == '\U{00A0}' || c == '\U{1680}'
    || ('\U{2000}' <= c <= '\U{200A}')
    || c == '\U{2028}' || c == '\U{2029}' || c == '\U{202F}' || c == '\U{205F}'
    || c == '\U{3000}' || c == '\U{FEFF}'
  }

  predicate AllAlnumOrSpace(s: string) {
    forall k :: 0 <= k < |s| ==> IsAlnum(s[k]) || s[k] == ' '
  }

  /**
   * The UTF-16 code units of one character: two for a character above U+FFFF,
   * which JavaScript strings hold as a surrogate pair, one otherwise.
   */
  function Utf16Units(c: char): nat {
    if (c as int) > 0xFFFF then 2 else 1
  }

  /** The JavaScript `length` of a string: its number of UTF-16 code units. */
  function Utf16Length(s: string): nat {
    if s == [] then 0 else Utf16Units(s[0]) + Utf16Length(s[1..])
  }

  /**
   * What the mask makes of one character: the character itself in the class,
   * otherwise one space per UTF-16 code unit, since a regular expression without
   * the `u` flag matches each half of a surrogate pair on its own.
   */
  function MaskChar(c: char): (r: string)
    ensures IsAlnum(c) ==> r == [c]
    ensures !IsAlnum(c) ==> |r| == Utf16Units(c) && forall k :: 0 <= k < |r| ==> r[k] == ' '
  {
    if IsAlnum(c) then [c] else if (c as int) > 0xFFFF then "  " else " "
  }

  /** `s.replace(/[^a-zA-Z0-9]/g, ' ')`: every code unit outside the class becomes a space. */
  function MaskNonAlnum(s: string): (r: string)
    ensures |r| == Utf16Length(s)
    ensures AllAlnumOrSpace(r)
  {
    if s == [] then []
    else
      var rest := MaskNonAlnum(s[1..]);
      var r := MaskChar(s[0]) + rest;
      assert forall k :: 0 <= k < |r| ==> r[k] == if k < |MaskChar(s[0])| then MaskChar(s[0])[k] else rest[k - |MaskChar(s[0])|];
      r
  }

  /** The mask works character by character: masking a concatenation masks each part. */
  lemma {:induction false} MaskAppend(a: string, b: string)
    ensures MaskNonAlnum(a + b) == MaskNonAlnum(a) + MaskNonAlnum(b)
  {
    if a != [] {
      assert (a + b)[0] == a[0] && (a + b)[1..] == a[1..] + b;
      MaskAppend(a[1..], b);
    } else {
      assert a + b == b;
    }
  }

  /** A string of alphanumerics and spaces is left as it is by the mask. */
  lemma {:induction false} MaskOfAlnumOrSpace(s: string)
    requires AllAlnumOrSpace(s)
    ensures MaskNonAlnum(s) == s
  {
    if s != [] {
      assert AllAlnumOrSpace(s[1..]) by {
        forall k | 0 <= k < |s[1..]| ensures IsAlnum(s[1..][k]) || s[1..][k] == ' ' {
          assert s[1..][k] == s[k + 1];
        }
      }
      MaskOfAlnumOrSpace(s[1..]);
      assert [s[0]] + s[1..] == s;
    }
  }

  /** A character above U+FFFF is one character in Dafny but two code units, so two spaces. */
  lemma MaskOfSupplementary()
    ensures MaskNonAlnum("a\U{1F600}b") == "a  b"
  {
    var s := "a\U{1F600}b";
    assert s[1..][1..][1..] == [];
    assert MaskNonAlnum(s[1..][1..]) == "b";
    assert MaskNonAlnum(s[1..]) == "  b";
  }

  /** The leading-whitespace half of `trim`. */
  function TrimStart(s: string): (r: string)
    ensures |r| <= |s| && r == s[|s| - |r|..]
    ensures forall k :: 0 <= k < |s| - |r| ==> IsJsWhitespace(s[k])
    ensures r == [] || !IsJsWhitespace(r[0])
  {
    if s != [] && IsJsWhitespace(s[0]) then TrimStart(s[1..]) else s
  }

  /** The trailing-whitespace half of `trim`. */
  function TrimEnd(s: string): (r: string)
    ensures |r| <= |s| && r == s[..|r|]
    ensures forall k :: |r| <= k < |s| ==> IsJsWhitespace(s[k])
    ensures r == [] || !IsJsWhitespace(r[|r| - 1])
  {
    if s != [] && IsJsWhitespace(s[|s| - 1]) then TrimEnd(s[..|s| - 1]) else s
  }

  /** `r` is the slice `s[i..j]` and only whitespace lies outside it. */
  predicate TrimmedAt(s: string, r: string, i: int, j: int) {
    && 0 <= i <= j <= |s| && r == s[i..j]
    && (forall k :: 0 <= k < i ==> IsJsWhitespace(s[k]))
    && (forall k :: j <= k < |s| ==> IsJsWhitespace(s[k]))
  }

  predicate AllSpaces(p: string) {
    forall k :: 0 <= k < |p| ==> p[k] == ' '
  }

  /** Leading spaces are dropped by the leading half of `trim`. */
  lemma {:induction false} TrimStartSpaces(p: string, x: string)
    requires AllSpaces(p)
    ensures TrimStart(p + x) == TrimStart(x)
  {
    if p != [] {
      assert (p + x)[0] == ' ' && (p + x)[1..] == p[1..] + x;
      assert AllSpaces(p[1..]) by {
        forall k | 0 <= k < |p[1..]| ensures p[1..][k] == ' ' { assert p[1..][k] == p[k + 1]; }
      }
      TrimStartSpaces(p[1..], x);
    } else {
      assert p + x == x;
    }
  }

  /** Trailing spaces are dropped by the trailing half of `trim`. */
  lemma {:induction false} TrimEndSpaces(x: string, p: string)
    requires AllSpaces(p)
    ensures TrimEnd(x + p) == TrimEnd(x)
  {
    if p != [] {
      var q := x + p;
      var p' := p[..|p| - 1];
      assert q[|q| - 1] == ' ' && q[..|q| - 1] == x + p';
      assert AllSpaces(p') by {
        forall k | 0 <= k < |p'| ensures p'[k] == ' ' { assert p'[k] == p[k]; }
      }
      TrimEndSpaces(x, p');
    } else {
      assert x + p == x;
    }
  }

  /** `String.prototype.trim`: the longest slice with whitespace removed at both ends. */
  function Trim(s: string): (r: string)
    ensures exists i, j :: TrimmedAt(s, r, i, j)
    ensures r == [] || (!IsJsWhitespace(r[0]) && !IsJsWhitespace(r[|r| - 1]))
  {
    var t := TrimStart(s);
    var r := TrimEnd(t);
    var i := |s| - |t|;
    assert r == s[i..i + |r|];
    assert forall k :: i + |r| <= k < |s| ==> s[k] == t[k - i];
    assert TrimmedAt(s, r, i, i + |r|);
    r
  }

  /** `s.substring(start, end)`: both ends clamped into [0, |s|], swapped when out of order. */
  function Substring(s: string, start: int, end: int): (r: string)
    ensures 0 <= start <= end <= |s| ==> r == s[start..end]
    ensures |r| <= |s|
  {
    var a := if start < 0 then 0 else if start > |s| then |s| else start;
    var b := if end < 0 then 0 else if end > |s| then |s| else end;
    if a <= b then s[a..b] else s[b..a]
  }

  /** `s.split(sep)` for a one-character separator: always at least one field. */
  function Split(s: string, sep: char): (r: seq<string>)
    ensures |r| >= 1
    ensures sep !in s ==> r == [s]
  {
    if s == [] then [""]
    else
      var rest := Split(s[1..], sep);
      assert sep !in s ==> sep !in s[1..] && [s[0]] + s[1..] == s;
      if s[0] == sep then [""] + rest else [[s[0]] + rest[0]] + rest[1..]
  }

  /** Splitting `a + [sep] + b` yields `a` first when `a` holds no separator. */
  lemma {:induction false} SplitAt(a: string, sep: char, b: string)
    requires sep !in a
    ensures Split(a + [sep] + b, sep) == [a] + Split(b, sep)
  {
    if a == [] {
      assert a + [sep] + b == [sep] + b;
      assert ([sep] + b)[1..] == b;
    } else {
      assert (a + [sep] + b)[1..] == a[1..] + [sep] + b;
      assert sep !in a[1..] by {
        forall k | 0 <= k < |a[1..]| ensures a[1..][k] != sep { assert a[1..][k] == a[k + 1]; }
      }
      SplitAt(a[1..], sep, b);
      assert [a[0]] + a[1..] == a;
    }
  }

  /** The numeric value of a string of decimal digits. */
  function DigitsValue(d: string): (r: nat)
    requires forall k :: 0 <= k < |d| ==> IsDigit(d[k])
    ensures d == [] ==> r == 0
  {
    if d == [] then 0
    else
      assert IsDigit(d[|d| - 1]);
      DigitsValue(d[..|d| - 1]) * 10 + ((d[|d| - 1] as int) - ('0' as int))
  }

  /** The longest prefix of `s` made of decimal digits. */
  function DigitPrefix(s: string): (r: string)
    ensures |r| <= |s| && r == s[..|r|]
    ensures forall k :: 0 <= k < |r| ==> IsDigit(r[k])
    ensures |r| < |s| ==> !IsDigit(s[|r|])
  {
    if s != [] && IsDigit(s[0]) then [s[0]] + DigitPrefix(s[1..]) else []
  }

  /**
   * `parseInt(s, 10)`: skip leading whitespace, read an optional sign, then the
   * longest run of decimal digits; `None` stands for `NaN` (no digit at all).
   */
  function ParseInt(s: string): (r: Option<int>)
    ensures r.None? <==> DigitPrefix(Unsigned(TrimStart(s))) == []
    ensures r.Some? ==>
      var d := DigitPrefix(Unsigned(TrimStart(s)));
      r.value == DigitsValue(d) as int || r.value == -(DigitsValue(d) as int)
    ensures r.Some? && r.value < 0 ==> TrimStart(s) != [] && TrimStart(s)[0] == '-'
    ensures r.Some? && TrimStart(s) != [] && TrimStart(s)[0] == '-' ==> r.value <= 0
  {
    var t := TrimStart(s);
    var negative := t != [] && t[0] == '-';
    var d := DigitPrefix(Unsigned(t));
    if d == [] then None
    else Some(if negative then -(DigitsValue(d) as int) else DigitsValue(d) as int)
  }

  /** `t` without one leading sign character. */
  function Unsigned(t: string): string {
    if t != [] && (t[0] == '-' || t[0] == '+') then t[1..] else t
  }

  /** A string made only of digits is its own digit prefix. */
  lemma {:induction false} DigitPrefixOfDigits(d: string)
    requires forall k :: 0 <= k < |d| ==> IsDigit(d[k])
    ensures DigitPrefix(d) == d
  {
    if d != [] {
      DigitPrefixOfDigits(d[1..]);
      assert [d[0]] + d[1..] == d;
    }
  }

  /** On a non-empty string of digits `parseInt` returns exactly its decimal value. */
  lemma ParseIntOfDigits(d: string)
    requires d != [] && forall k :: 0 <= k < |d| ==> IsDigit(d[k])
    ensures ParseInt(d).Some? && ParseInt(d).value == DigitsValue(d)
  {
    assert IsDigit(d[0]) && !IsJsWhitespace(d[0]);
    assert TrimStart(d) == d;
    assert d[0] != '-' && d[0] != '+';
    DigitPrefixOfDigits(d);
  }

  /** The decimal representation of a natural number, without leading zeros. */
  function NatToDigits(n: nat): (r: string)
    ensures r != [] && forall k :: 0 <= k < |r| ==> IsDigit(r[k])
  {
    var last := ['0' + ((n % 10) as char)];
    if n < 10 then last else NatToDigits(n / 10) + last
  }

  /** Printing a number in decimal and reading the digits back gives the number. */
  lemma {:induction false} NatToDigitsValue(n: nat)
    ensures DigitsValue(NatToDigits(n)) == n
  {
    var r := NatToDigits(n);
    if n >= 10 {
      NatToDigitsValue(n / 10);
      assert r[..|r| - 1] == NatToDigits(n / 10);
    }
  }
}
