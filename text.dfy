/**
 * The string primitives the extraction rules and the storages rely on, written
 * out as Python defines them: `str.strip()`, `str.lower()` (for the scripts the
 * site uses), substring search, `s.split(" ", 1)[0]`, `" ".join(parts)` and
 * `int(s)`.
 */
module Text {

  import opened Wrappers

  /** The characters for which Python's `str.isspace()` holds; `str.strip()`
      with no argument removes exactly these from both ends. */
  predicate IsWhitespace(c: char) {
    var n := c as int;
    (0x09 <= n <= 0x0D) || (0x1C <= n <= 0x20) || n == 0x85 || n == 0xA0
    || n == 0x1680 || (0x2000 <= n <= 0x200A) || n == 0x2028 || n == 0x2029
    || n == 0x202F || n == 0x205F || n == 0x3000
  }

  predicate AllWhitespace(s: string) {
    forall i :: 0 <= i < |s| ==> IsWhitespace(s[i])
  }

  /** Neither end of `s` is whitespace. */
  predicate IsTrimmed(s: string) {
    s == [] || (!IsWhitespace(s[0]) && !IsWhitespace(s[|s| - 1]))
  }

  /** `r` is `s` with whitespace removed from both ends and nothing else:
      `s` is `r` padded on each side by whitespace only, and `r` is trimmed. */
  ghost predicate IsStripOf(r: string, s: string) {
    IsTrimmed(r) &&
    exists i :: 0 <= i <= |s| - |r| && s[i..i + |r|] == r
                && AllWhitespace(s[..i]) && AllWhitespace(s[i + |r|..])
  }

  function StripLeft(s: string): (r: string)
    ensures |r| <= |s| && r == s[|s| - |r|..]
    ensures AllWhitespace(s[..|s| - |r|])
    ensures r == [] || !IsWhitespace(r[0])
  {
    if s != [] && IsWhitespace(s[0]) then
      var r := StripLeft(s[1..]);
      assert s[..|s| - |r|] == [s[0]] + s[1..][..|s| - 1 - |r|];
      r
    else
      s
  }

  function StripRight(s: string): (r: string)
    ensures |r| <= |s| && r == s[..|r|]
    ensures AllWhitespace(s[|r|..])
    ensures r == [] || !IsWhitespace(r[|r| - 1])
  {
    if s != [] && IsWhitespace(s[|s| - 1]) then
      var r := StripRight(s[..|s| - 1]);
      assert s[|r|..] == s[..|s| - 1][|r|..] + [s[|s| - 1]];
      r
    else
      s
  }

  /** Python's `s.strip()`: trimmed, and empty exactly when `s` is all
      whitespace; `StripPads` adds that nothing but the surrounding
      whitespace is removed. */
  function Strip(s: string): (r: string)
    ensures IsTrimmed(r)
    ensures r == [] <==> AllWhitespace(s)
  {
    var t := StripLeft(s);
    var r := StripRight(t);
    StripShape(s, t, r);
    r
  }

  lemma StripShape(s: string, t: string, r: string)
    requires |t| <= |s| && t == s[|s| - |t|..] && AllWhitespace(s[..|s| - |t|])
    requires t == [] || !IsWhitespace(t[0])
    requires |r| <= |t| && r == t[..|r|] && AllWhitespace(t[|r|..])
    requires r == [] || !IsWhitespace(r[|r| - 1])
    ensures IsTrimmed(r)
    ensures r == [] <==> AllWhitespace(s)
  {
    StripParts(s, t, r);
  }

  /** `Strip(s)` is `s` without its surrounding whitespace. */
  lemma StripPads(s: string)
    ensures IsStripOf(Strip(s), s)
  {
    var t := StripLeft(s);
    StripParts(s, t, StripRight(t));
  }

  lemma StripParts(s: string, t: string, r: string)
    requires |t| <= |s| && t == s[|s| - |t|..] && AllWhitespace(s[..|s| - |t|])
    requires t == [] || !IsWhitespace(t[0])
    requires |r| <= |t| && r == t[..|r|] && AllWhitespace(t[|r|..])
    requires r == [] || !IsWhitespace(r[|r| - 1])
    ensures IsStripOf(r, s)
    ensures r == [] <==> AllWhitespace(s)
  {
    var i := |s| - |t|;
    assert s[i..i + |r|] == r;
    assert s[i + |r|..] == t[|r|..];
    assert IsTrimmed(r) by {
      if r != [] { assert r[0] == t[0]; }
    }
    if r == [] {
      assert s == s[..i] + t[|r|..];
    } else {
      assert s[i] == r[0];
    }
  }

  lemma {:induction false} StripLeftSkips(a: string, t: string)
    requires AllWhitespace(a)
    requires t == [] || !IsWhitespace(t[0])
    ensures StripLeft(a + t) == t
  {
    if a != [] {
      assert (a + t)[1..] == a[1..] + t;
      StripLeftSkips(a[1..], t);
    }
  }

  lemma {:induction false} StripRightSkips(t: string, b: string)
    requires AllWhitespace(b)
    requires t == [] || !IsWhitespace(t[|t| - 1])
    ensures StripRight(t + b) == t
  {
    if b != [] {
      assert (t + b)[..|t + b| - 1] == t + b[..|b| - 1];
      StripRightSkips(t, b[..|b| - 1]);
    }
  }

  /** Stripping a trimmed string padded by whitespace gives that string back. */
  lemma StripOfPadded(a: string, r: string, b: string)
    requires AllWhitespace(a) && AllWhitespace(b) && IsTrimmed(r)
    ensures Strip(a + r + b) == r
  {
    if r == [] {
      assert a + r + b == (a + b) + [];
      StripLeftSkips(a + b, []);
    } else {
      assert a + r + b == a + (r + b);
      StripLeftSkips(a, r + b);
      StripRightSkips(r, b);
    }
  }

  /** `IsStripOf` describes `Strip` completely: a string it accepts is the one
      `Strip` returns, so the two directions together characterise `strip()`. */
  lemma StripIsUnique(r: string, s: string)
    requires IsStripOf(r, s)
    ensures Strip(s) == r
  {
    var i :| 0 <= i <= |s| - |r| && s[i..i + |r|] == r
             && AllWhitespace(s[..i]) && AllWhitespace(s[i + |r|..]);
    SplitInThree(s, i, i + |r|);
    StripOfPadded(s[..i], r, s[i + |r|..]);
  }

  /** Text whose ends are not whitespace is its own strip. */
  lemma StripTrimmed(s: string)
    requires IsTrimmed(s)
    ensures Strip(s) == s
  {
    assert s == [] + s + [];
    StripOfPadded([], s, []);
  }

  lemma SplitInThree(s: string, i: nat, j: nat)
    requires i <= j <= |s|
    ensures s == s[..i] + s[i..j] + s[j..]
  {
  }

  /** Python's `str.lower()` on one character, for the ASCII capitals A..Z
      and the Cyrillic capitals U+0400..U+042F; every other character is
      unchanged. */
  function LowerChar(c: char): (r: char)
    ensures !IsCapital(r)
    ensures !IsCapital(c) ==> r == c
  {
    var n := c as int;
    if 0x41 <= n <= 0x5A || 0x410 <= n <= 0x42F then (n + 0x20) as char
    else if 0x400 <= n <= 0x40F then (n + 0x50) as char
    else c
  }

  /** The capitals `LowerChar` maps: ASCII A..Z and Cyrillic U+0400..U+042F. */
  predicate IsCapital(c: char) {
    0x41 <= c as int <= 0x5A || 0x400 <= c as int <= 0x42F
  }

  /** No capital is left, and every other character stays where it was. */
  function Lower(s: string): (r: string)
    ensures |r| == |s|
    ensures forall i :: 0 <= i < |s| ==> !IsCapital(r[i])
    ensures forall i :: 0 <= i < |s| && !IsCapital(s[i]) ==> r[i] == s[i]
  {
    seq(|s|, i requires 0 <= i < |s| => LowerChar(s[i]))
  }

  /** Python's `sub in s`. */
  predicate Contains(s: string, sub: string)
    ensures Contains(s, sub) ==> |sub| <= |s|
  {
    exists i :: 0 <= i <= |s| && sub <= s[i..]
  }

  /** Python's `s.split(" ", 1)[0]`: the part of `s` before its first space
      (U+0020 only), or all of `s` when it has none. */
  function BeforeFirstSpace(s: string): (r: string)
    ensures r <= s
    ensures ' ' !in r
    ensures r == s || s[|r|] == ' '
  {
    if s == [] || s[0] == ' ' then [] else [s[0]] + BeforeFirstSpace(s[1..])
  }

  /** The cut falls at the first space. */
  lemma BeforeFirstSpaceAt(s: string, i: nat)
    requires i < |s| && s[i] == ' ' && ' ' !in s[..i]
    ensures BeforeFirstSpace(s) == s[..i]
  {
  }

  /** Python's `" ".join(parts)`. */
  function JoinWithSpace(parts: seq<string>): string {
    if parts == [] then ""
    else if |parts| == 1 then parts[0]
    else parts[0] + " " + JoinWithSpace(parts[1..])
  }

  /** Joining non-empty trimmed parts gives a trimmed string that is empty
      exactly when there are no parts. */
  lemma {:induction false} JoinTrimmed(parts: seq<string>)
    requires forall p :: p in parts ==> p != [] && IsTrimmed(p)
    ensures JoinWithSpace(parts) == [] <==> parts == []
    ensures IsTrimmed(JoinWithSpace(parts))
  {
    if parts != [] {
      assert parts[0] in parts;
    }
    if |parts| > 1 {
      assert forall p :: p in parts[1..] ==> p in parts;
      JoinTrimmed(parts[1..]);
      var tail := JoinWithSpace(parts[1..]);
      var r := parts[0] + " " + tail;
      assert r[0] == parts[0][0];
      assert r[|r| - 1] == tail[|tail| - 1];
    }
  }

  predicate IsDigit(c: char) {
    '0' <= c <= '9'
  }

  /** The digit part of a Python integer literal: decimal digits, a single
      underscore allowed between two digits. */
  predicate IsDigitGroup(s: string) {
    |s| > 0 && IsDigit(s[0]) && IsGroupTail(s[1..])
  }

  predicate IsGroupTail(s: string)
    decreases |s|
  {
    s == []
    || (IsDigit(s[0]) && IsGroupTail(s[1..]))
    || (|s| > 1 && s[0] == '_' && IsDigit(s[1]) && IsGroupTail(s[2..]))
  }

  lemma {:induction false} AllDigitsIsGroupTail(s: string)
    requires forall i :: 0 <= i < |s| ==> IsDigit(s[i])
    ensures IsGroupTail(s)
  {
    if s != [] {
      AllDigitsIsGroupTail(s[1..]);
    }
  }

  /** The value of the decimal digits of `s`, underscores skipped. */
  function DigitsValue(s: string): nat {
    if s == [] then 0
    else if IsDigit(s[|s| - 1]) then
      DigitsValue(s[..|s| - 1]) * 10 + (s[|s| - 1] as int - '0' as int)
    else
      DigitsValue(s[..|s| - 1])
  }

  /** The ASCII separators U+001C..U+001F: whitespace to `str.strip()`, not
      to `int()`. */
  predicate IsSeparator(c: char) {
    0x1C <= c as int <= 0x1F
  }

  /** The characters `int()` skips around a number: the ASCII whitespace
      ` \t\n\v\f\r`, and every non-ASCII character `str.isspace()` holds
      for; not the separators. */
  predicate IsIntSpace(c: char) {
    IsWhitespace(c) && !IsSeparator(c)
  }

  function IntStripLeft(s: string): (r: string)
    ensures |r| <= |s| && r == s[|s| - |r|..]
    ensures r == [] || !IsIntSpace(r[0])
  {
    if s != [] && IsIntSpace(s[0]) then IntStripLeft(s[1..]) else s
  }

  function IntStripRight(s: string): (r: string)
    ensures |r| <= |s| && r == s[..|r|]
    ensures r == [] || !IsIntSpace(r[|r| - 1])
  {
    if s != [] && IsIntSpace(s[|s| - 1]) then IntStripRight(s[..|s| - 1]) else s
  }

  /** The part of `s` that `int()` reads: `IsIntSpace` characters removed
      from both ends. */
  function IntStrip(s: string): string {
    IntStripRight(IntStripLeft(s))
  }

  /** How many decimal digits `s` holds. */
  function DigitCount(s: string): nat {
    if s == [] then 0 else (if IsDigit(s[0]) then 1 else 0) + DigitCount(s[1..])
  }

  /** `sys.int_info.default_max_str_digits`: `int()` refuses text with more
      decimal digits than this, underscores and sign not counted. */
  const MaxStrDigits := 4300

  /** Python's `int(s)` on a string: `IsIntSpace` characters around, an
      optional sign, then a digit group of at most `MaxStrDigits` digits;
      anything else raises `ValueError`, here `None`. */
  function ParseInt(s: string): Option<int>
  {
    var t := IntStrip(s);
    var signed := |t| > 1 && (t[0] == '+' || t[0] == '-');
    var digits := if signed then t[1..] else t;
    if !IsDigitGroup(digits) || DigitCount(digits) > MaxStrDigits then None
    else if signed && t[0] == '-' then Some(-(DigitsValue(digits) as int))
    else Some(DigitsValue(digits))
  }

  /** The characters `int()` can accept around or inside a digit group:
      digits, `_`, a sign, and `IsIntSpace`. */
  predicate IsIntChar(c: char) {
    IsDigit(c) || c == '_' || c == '+' || c == '-' || IsIntSpace(c)
  }

  lemma {:induction false} GroupTailChars(s: string)
    requires IsGroupTail(s)
    ensures forall k :: 0 <= k < |s| ==> IsDigit(s[k]) || s[k] == '_'
  {
    if s != [] {
      if IsDigit(s[0]) && IsGroupTail(s[1..]) {
        GroupTailChars(s[1..]);
        assert forall k :: 1 <= k < |s| ==> s[k] == s[1..][k - 1];
      } else {
        GroupTailChars(s[2..]);
        assert forall k :: 2 <= k < |s| ==> s[k] == s[2..][k - 2];
      }
    }
  }

  /** Empty or all-whitespace text does not parse. */
  lemma ParseIntRejectsBlank(s: string)
    requires AllWhitespace(s)
    ensures ParseInt(s) == None
  {
    IntStripOfBlank(s);
    NoNumberAt(IntStrip(s));
  }

  lemma IntStripOfBlank(s: string)
    requires AllWhitespace(s)
    ensures IntStrip(s) == [] || IsWhitespace(IntStrip(s)[0])
  {
    var l := IntStripLeft(s);
    var t := IntStrip(s);
    if t != [] {
      assert t[0] == s[|s| - |l|];
    }
  }

  /** Text that does not start with a digit or a sign is no number. */
  lemma NoNumberAt(t: string)
    requires t == [] || !(IsDigit(t[0]) || t[0] == '+' || t[0] == '-')
    ensures !IsDigitGroup(t)
    ensures !(|t| > 1 && (t[0] == '+' || t[0] == '-'))
  {
  }

  /** A non-empty run of decimal digits parses to its value, unless it has
      more than `MaxStrDigits` digits. */
  lemma ParseIntAllDigits(s: string)
    requires s != [] && forall i :: 0 <= i < |s| ==> IsDigit(s[i])
    ensures |s| <= MaxStrDigits ==> ParseInt(s) == Some(DigitsValue(s))
    ensures |s| > MaxStrDigits ==> ParseInt(s) == None
  {
    AllDigitsIsDigitGroup(s);
    IntStripDigits(s);
    AllDigitsCount(s);
    ParseIntOfGroup(s);
  }

  /** Text `int()` reads whole that is a digit group parses to its value,
      within the digit limit. */
  lemma ParseIntOfGroup(t: string)
    requires IsDigitGroup(t) && IntStrip(t) == t
    ensures ParseInt(t) == if DigitCount(t) <= MaxStrDigits then Some(DigitsValue(t)) else None
  {
    assert IsDigit(t[0]);
  }

  function Pow10(n: nat): nat {
    if n == 0 then 1 else 10 * Pow10(n - 1)
  }

  lemma Pow10Of19()
    ensures Pow10(19) == 10_000_000_000_000_000_000
  {
    assert Pow10(4) == 10_000;
    assert Pow10(8) == 100_000_000;
    assert Pow10(12) == 1_000_000_000_000;
    assert Pow10(16) == 10_000_000_000_000_000;
  }

  lemma {:induction false} Pow10Monotone(m: nat, n: nat)
    requires m <= n
    ensures Pow10(m) <= Pow10(n)
  {
    if m < n {
      Pow10Monotone(m, n - 1);
    }
  }

  /** Digits without a leading zero are worth at least 10^(n-1), n their
      number. */
  lemma {:induction false} DigitsValueAtLeast(s: string)
    requires s != [] && s[0] != '0' && forall i :: 0 <= i < |s| ==> IsDigit(s[i])
    ensures DigitsValue(s) >= Pow10(|s| - 1)
  {
    if |s| > 1 {
      DigitsValueAtLeast(s[..|s| - 1]);
    }
  }

  lemma AllDigitsIsDigitGroup(s: string)
    requires s != [] && forall i :: 0 <= i < |s| ==> IsDigit(s[i])
    ensures IsDigitGroup(s)
  {
    AllDigitsIsGroupTail(s[1..]);
  }

  lemma IntStripDigits(s: string)
    requires s != [] && IsDigit(s[0]) && IsDigit(s[|s| - 1])
    ensures IntStrip(s) == s
  {
    assert IntStripLeft(s) == s;
  }

  lemma {:induction false} AllDigitsCount(s: string)
    requires forall i :: 0 <= i < |s| ==> IsDigit(s[i])
    ensures DigitCount(s) == |s|
  {
    if s != [] {
      AllDigitsCount(s[1..]);
    }
  }

  /** A character that `int()` does not skip survives `IntStrip`, at some
      index. */
  lemma IntStripKeeps(s: string, i: nat) returns (k: nat)
    requires i < |s| && !IsIntSpace(s[i])
    ensures k < |IntStrip(s)| && IntStrip(s)[k] == s[i]
  {
    var m := IntStripLeftKeeps(s, i);
    k := IntStripRightKeeps(IntStripLeft(s), m);
  }

  lemma {:induction false} IntStripLeftKeeps(s: string, i: nat) returns (k: nat)
    requires i < |s| && !IsIntSpace(s[i])
    ensures k < |IntStripLeft(s)| && IntStripLeft(s)[k] == s[i]
  {
    if i == 0 {
      k := 0;
    } else if IsIntSpace(s[0]) {
      k := IntStripLeftKeeps(s[1..], i - 1);
    } else {
      k := i;
    }
  }

  lemma {:induction false} IntStripRightKeeps(s: string, i: nat) returns (k: nat)
    requires i < |s| && !IsIntSpace(s[i])
    ensures k < |IntStripRight(s)| && IntStripRight(s)[k] == s[i]
  {
    if i == |s| - 1 {
      k := i;
    } else if IsIntSpace(s[|s| - 1]) {
      k := IntStripRightKeeps(s[..|s| - 1], i);
    } else {
      k := i;
    }
  }

  /** A digit group, signed or not, holds no character outside `IsIntChar`. */
  lemma NoForeignInNumber(t: string, k: nat)
    requires k < |t| && !IsIntChar(t[k])
    ensures !IsDigitGroup(t)
    ensures !(|t| > 1 && (t[0] == '+' || t[0] == '-') && IsDigitGroup(t[1..]))
  {
    if IsDigitGroup(t) && k > 0 {
      GroupTailChars(t[1..]);
    }
    var u := t[1..];
    if |t| > 1 && IsDigitGroup(u) && k > 1 {
      GroupTailChars(u[1..]);
    }
  }

  /** A character that is none of digit, `_`, sign or `IsIntSpace` anywhere
      in the text makes `int()` fail. */
  lemma ParseIntRejectsForeign(s: string, i: nat)
    requires i < |s| && !IsIntChar(s[i])
    ensures ParseInt(s) == None
  {
    var k := IntStripKeeps(s, i);
    NoForeignInNumber(IntStrip(s), k);
  }

  /** Digits followed by a separator strip to the digits, yet do not parse. */
  lemma ParseIntRejectsSeparator(d: string, c: char)
    requires d != [] && forall i :: 0 <= i < |d| ==> IsDigit(d[i])
    requires IsSeparator(c)
    ensures Strip(d + [c]) == d
    ensures ParseInt(d + [c]) == None
  {
    StripDigitsPadded(d, c);
    ParseIntRejectsForeign(d + [c], |d|);
  }

  lemma StripDigitsPadded(d: string, c: char)
    requires d != [] && IsDigit(d[0]) && IsDigit(d[|d| - 1])
    requires IsWhitespace(c)
    ensures Strip(d + [c]) == d
  {
    assert d + [c] == [] + d + [c];
    StripOfPadded([], d, [c]);
  }

  /** The text of a "Написать отзыв" link cut at its first space does not
      parse, so a product record carrying it is not stored in the database. */
  lemma ParseIntRejectsWord()
    ensures ParseInt("Написать") == None
  {
    ParseIntRejectsForeign("Написать", 0);
  }
}
