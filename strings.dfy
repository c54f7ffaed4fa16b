/** String helpers with Python's semantics: `str.split`, `str.join`, `str.startswith`, `str.strip`. */
module Strings {

  /** `s.split(c)`: the maximal pieces of `s` between occurrences of `c` (empty pieces included). */
  function Split(s: string, c: char): (parts: seq<string>)
    ensures |parts| >= 1
    ensures forall i :: 0 <= i < |parts| ==> c !in parts[i]
  {
    if |s| == 0 then [""]
    else
      var rest := Split(s[1..], c);
      if s[0] == c then [""] + rest
      else [[s[0]] + rest[0]] + rest[1..]
  }

  /** `sep.join(parts)`. */
  function Join(parts: seq<string>, sep: string): string
  {
    if |parts| == 0 then ""
    else if |parts| == 1 then parts[0]
    else parts[0] + sep + Join(parts[1..], sep)
  }

  /** With a non-empty separator, a join is at least one character longer than it has pieces, less one. */
  lemma {:induction false} JoinLength(parts: seq<string>, sep: string)
    requires |sep| > 0
    ensures |Join(parts, sep)| + 1 >= |parts|
  {
    if |parts| > 1 {
      JoinLength(parts[1..], sep);
    }
  }

  /** Joining the pieces of a split with the separator gives back the original string. */
  lemma {:induction false} JoinSplit(s: string, c: char)
    ensures Join(Split(s, c), [c]) == s
  {
    if |s| > 0 {
      var rest := Split(s[1..], c);
      JoinSplit(s[1..], c);
      if s[0] == c {
        assert Split(s, c) == [""] + rest;
        assert ([""] + rest)[1..] == rest;
      } else {
        var parts := Split(s, c);
        assert parts == [[s[0]] + rest[0]] + rest[1..];
        if |rest| > 1 {
          assert parts[1..] == rest[1..];
          assert Join(rest, [c]) == rest[0] + [c] + Join(rest[1..], [c]);
        }
        assert s == [s[0]] + s[1..];
      }
    }
  }

  /** A string without the separator splits into itself. */
  lemma {:induction false} SplitWithoutSeparator(t: string, c: char)
    requires c !in t
    ensures Split(t, c) == [t]
  {
    if |t| > 0 {
      SplitWithoutSeparator(t[1..], c);
      assert [t[0]] + t[1..] == t;
    }
  }

  /** The first piece of `t + [c] + r` is `t` when `t` has no separator; the rest is the split of `r`. */
  lemma {:induction false} SplitAfterToken(t: string, c: char, r: string)
    requires c !in t
    ensures Split(t + [c] + r, c) == [t] + Split(r, c)
  {
    if |t| == 0 {
      assert t + [c] + r == [c] + r;
      assert ([c] + r)[1..] == r;
    } else {
      var s := t + [c] + r;
      assert s[1..] == t[1..] + [c] + r;
      SplitAfterToken(t[1..], c, r);
      assert [t[0]] + t[1..] == t;
    }
  }

  /** The first piece of a split begins with the string's first character when that is not the separator. */
  lemma {:induction false} SplitHead(s: string, c: char)
    requires |s| > 0 && s[0] != c
    ensures |Split(s, c)[0]| > 0 && Split(s, c)[0][0] == s[0]
  {
  }

  /** `s.startswith(p)`. */
  predicate StartsWith(s: string, p: string)
  {
    |p| <= |s| && s[..|p|] == p
  }

  /** `s.endswith(p)`. */
  predicate EndsWith(s: string, p: string)
  {
    |p| <= |s| && s[|s| - |p|..] == p
  }

  /** `sub` occurs in `s` starting at index `i`. */
  predicate OccursAt(s: string, sub: string, i: int)
  {
    0 <= i <= |s| - |sub| && s[i..i + |sub|] == sub
  }

  /** `sub in s` on strings: `sub` occurs somewhere in `s`. */
  predicate Contains(s: string, sub: string)
  {
    exists i :: 0 <= i <= |s| - |sub| && OccursAt(s, sub, i)
  }

  /** A string contains every suffix of it. */
  lemma EndsWithContains(s: string, p: string)
    requires EndsWith(s, p)
    ensures Contains(s, p)
  {
    var i := |s| - |p|;
    assert OccursAt(s, p, i);
  }

  /** The characters Python's `str.isspace` accepts (those `str.strip()` removes). */
  predicate IsWhitespace(ch: char)
  {
    || ch == ' ' || '\U{0009}' <= ch <= '\U{000D}' || '\U{001C}' <= ch <= '\U{001F}'
    || ch == '\U{0085}' || ch == '\U{00A0}' || ch == '\U{1680}' || '\U{2000}' <= ch <= '\U{200A}'
    || ch == '\U{2028}' || ch == '\U{2029}' || ch == '\U{202F}' || ch == '\U{205F}' || ch == '\U{3000}'
  }

  predicate AllWhitespace(s: string)
  {
    forall i :: 0 <= i < |s| ==> IsWhitespace(s[i])
  }

  /** `s.lstrip()`. */
  function TrimLeft(s: string): (r: string)
    ensures |r| <= |s| && r == s[|s| - |r|..]
    ensures |r| > 0 ==> !IsWhitespace(r[0])
  {
    if |s| > 0 && IsWhitespace(s[0]) then TrimLeft(s[1..]) else s
  }

  /** What `lstrip` removes is whitespace. */
  lemma {:induction false} TrimLeftRemovesWhitespace(s: string)
    ensures AllWhitespace(s[..|s| - |TrimLeft(s)|])
  {
    if |s| > 0 && IsWhitespace(s[0]) {
      TrimLeftRemovesWhitespace(s[1..]);
      var k := |s| - |TrimLeft(s)|;
      assert forall i :: 0 < i < k ==> s[..k][i] == s[1..][..k - 1][i - 1];
    }
  }

  /** `s.rstrip()`. */
  function TrimRight(s: string): (r: string)
    ensures |r| <= |s| && r == s[..|r|]
    ensures |r| > 0 ==> !IsWhitespace(r[|r| - 1])
  {
    if |s| > 0 && IsWhitespace(s[|s| - 1]) then TrimRight(s[..|s| - 1]) else s
  }

  /** What `rstrip` removes is whitespace. */
  lemma {:induction false} TrimRightRemovesWhitespace(s: string)
    ensures AllWhitespace(s[|TrimRight(s)|..])
  {
    if |s| > 0 && IsWhitespace(s[|s| - 1]) {
      var t := s[..|s| - 1];
      TrimRightRemovesWhitespace(t);
      var k := |TrimRight(s)|;
      assert forall i :: 0 <= i < |s| - 1 - k ==> s[k..][i] == t[k..][i];
    }
  }

  /** `s.strip()`: what is left neither starts nor ends with whitespace. */
  function Strip(s: string): (r: string)
    ensures |r| <= |s|
    ensures |r| > 0 ==> !IsWhitespace(r[0]) && !IsWhitespace(r[|r| - 1])
  {
    TrimRight(TrimLeft(s))
  }

  /** Leading whitespace does not change what `lstrip` leaves. */
  lemma {:induction false} TrimLeftSkipsWhitespace(w: string, x: string)
    requires AllWhitespace(w)
    ensures TrimLeft(w + x) == TrimLeft(x)
    decreases |w|
  {
    if |w| > 0 {
      AllWhitespaceTail(w);
      TrimLeftSkipsWhitespace(w[1..], x);
      TrimLeftDropsWhitespace(w, x);
    } else {
      assert w + x == x;
    }
  }

  lemma AllWhitespaceTail(w: string)
    requires |w| > 0 && AllWhitespace(w)
    ensures AllWhitespace(w[1..])
  {
    forall i | 0 <= i < |w| - 1 ensures IsWhitespace(w[1..][i]) { assert w[1..][i] == w[i + 1]; }
  }

  /** A leading whitespace character is dropped by `lstrip`. */
  lemma TrimLeftDropsWhitespace(w: string, x: string)
    requires |w| > 0 && IsWhitespace(w[0])
    ensures TrimLeft(w + x) == TrimLeft(w[1..] + x)
  {
    assert (w + x)[0] == w[0];
    assert (w + x)[1..] == w[1..] + x;
  }

  /** Trailing whitespace does not change what `rstrip` leaves. */
  lemma {:induction false} TrimRightSkipsWhitespace(x: string, w: string)
    requires AllWhitespace(w)
    ensures TrimRight(x + w) == TrimRight(x)
  {
    if |w| > 0 {
      var rest := w[..|w| - 1];
      assert IsWhitespace(w[|w| - 1]);
      assert AllWhitespace(rest) by {
        forall i | 0 <= i < |rest| ensures IsWhitespace(rest[i]) { assert rest[i] == w[i]; }
      }
      TrimRightSkipsWhitespace(x, rest);
      calc {
        TrimRight(x + w);
        { assert (x + w)[|x + w| - 1] == w[|w| - 1]; }
        TrimRight((x + w)[..|x + w| - 1]);
        { assert (x + w)[..|x + w| - 1] == x + rest; }
        TrimRight(x + rest);
      }
    } else {
      assert x + w == x;
    }
  }

  /**
   * `strip` removes exactly the whitespace around a core that starts and ends with a
   * non-whitespace character; whitespace inside the core is kept.
   */
  lemma StripPadding(w1: string, core: string, w2: string)
    requires AllWhitespace(w1) && AllWhitespace(w2)
    requires |core| > 0 && !IsWhitespace(core[0]) && !IsWhitespace(core[|core| - 1])
    ensures Strip(w1 + core + w2) == core
  {
    assert w1 + core + w2 == w1 + (core + w2);
    TrimLeftSkipsWhitespace(w1, core + w2);
    assert TrimLeft(core + w2) == core + w2;
    TrimRightSkipsWhitespace(core, w2);
  }

  /** A string of whitespace strips to the empty string. */
  lemma StripAllWhitespace(w: string)
    requires AllWhitespace(w)
    ensures Strip(w) == ""
  {
    TrimLeftSkipsWhitespace(w, "");
    assert w + "" == w;
  }

  /** Decimal digits of a natural number, as `str(n)` prints them. */
  function NatToString(n: nat): (r: string)
    ensures |r| >= 1
    ensures forall i :: 0 <= i < |r| ==> '0' <= r[i] <= '9'
  {
    if n < 10 then [DigitChar(n)] else NatToString(n / 10) + [DigitChar(n % 10)]
  }

  function DigitChar(d: nat): (ch: char)
    requires d < 10
    ensures '0' <= ch <= '9'
  {
    match d
    case 0 => '0' case 1 => '1' case 2 => '2' case 3 => '3' case 4 => '4'
    case 5 => '5' case 6 => '6' case 7 => '7' case 8 => '8' case _ => '9'
  }

  /** `str(i)` for an integer, with a leading minus sign for negative values. */
  function IntToString(i: int): string
  {
    if i < 0 then "-" + NatToString(-i) else NatToString(i)
  }

  function Pow10(n: nat): (r: nat)
    ensures r >= 1
  {
    if n == 0 then 1 else 10 * Pow10(n - 1)
  }

  /** The last `width` decimal digits of `n`, zero-padded, as `%0<width>d` prints a number below `10^width`. */
  function PadDigits(n: nat, width: nat): (r: string)
    ensures |r| == width
    ensures forall i :: 0 <= i < |r| ==> '0' <= r[i] <= '9'
  {
    if width == 0 then [] else PadDigits(n / 10, width - 1) + [DigitChar(n % 10)]
  }

  /** The number a string of decimal digits spells. */
  function DigitsValue(s: string): nat
    requires forall i :: 0 <= i < |s| ==> '0' <= s[i] <= '9'
  {
    if s == [] then 0 else 10 * DigitsValue(s[..|s| - 1]) + ((s[|s| - 1] as int) - ('0' as int))
  }

  /** Reading padded digits back gives the number, when it fits the width. */
  lemma {:induction false} PadDigitsRoundTrip(n: nat, width: nat)
    requires n < Pow10(width)
    ensures DigitsValue(PadDigits(n, width)) == n
  {
    if width > 0 {
      var r := PadDigits(n, width);
      assert r[..|r| - 1] == PadDigits(n / 10, width - 1);
      PadDigitsRoundTrip(n / 10, width - 1);
      assert (DigitChar(n % 10) as int) - ('0' as int) == n % 10;
    }
  }

  /** Reading the digits of `str(n)` back gives `n`. */
  lemma {:induction false} NatToStringRoundTrip(n: nat)
    ensures DigitsValue(NatToString(n)) == n
  {
    var r := NatToString(n);
    if n < 10 {
      assert r[..0] == [];
    } else {
      assert r[..|r| - 1] == NatToString(n / 10);
      NatToStringRoundTrip(n / 10);
    }
    assert (DigitChar(n % 10) as int) - ('0' as int) == n % 10;
  }

  /** `str` is one-to-one on integers. */
  lemma IntToStringInjective(i: int, j: int)
    ensures IntToString(i) == IntToString(j) <==> i == j
  {
    if IntToString(i) == IntToString(j) {
      var si, sj := IntToString(i), IntToString(j);
      var ni, nj := if i < 0 then -i else i, if j < 0 then -j else j;
      var di, dj := NatToString(ni), NatToString(nj);
      assert si == (if i < 0 then "-" + di else di);
      assert sj == (if j < 0 then "-" + dj else dj);
      assert (si[0] == '-') == (i < 0) by {
        assert '0' <= di[0];
      }
      assert (sj[0] == '-') == (j < 0) by {
        assert '0' <= dj[0];
      }
      if i < 0 {
        assert di == si[1..] && dj == sj[1..];
      }
      NatToStringRoundTrip(ni);
      NatToStringRoundTrip(nj);
    }
  }
}
