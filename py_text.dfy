/**
 * The few Python string built-ins that the port lookup relies on:
 * the substring test `sub in s`, `s.split(sep)` for a one-character
 * separator, and `int(s)` on a string (base 10).
 */
module PyText {
  import opened Wrappers

  // ---------------------------------------------------------------------
  // `sub in s`
  // ---------------------------------------------------------------------

  /** `sub` occurs in `s` starting at index `i`. */
  ghost predicate OccursAt(s: string, sub: string, i: int)
  {
    0 <= i && i + |sub| <= |s| && s[i..i + |sub|] == sub
  }

  lemma ShiftOccurrence(s: string, sub: string, i: int)
    requires |s| > 0 && i >= 0
    ensures OccursAt(s[1..], sub, i) <==> OccursAt(s, sub, i + 1)
  {
  }

  /** Python's `sub in s`: true exactly when `sub` occurs somewhere in `s`. */
  function Contains(s: string, sub: string): (b: bool)
    ensures b <==> exists i :: OccursAt(s, sub, i)
    decreases |s|
  {
    if |sub| > |s| then
      false
    else if s[..|sub|] == sub then
      assert OccursAt(s, sub, 0);
      true
    else
      var b := Contains(s[1..], sub);
      assert b ==> exists i :: OccursAt(s, sub, i) by {
        if b {
          var i :| OccursAt(s[1..], sub, i);
          ShiftOccurrence(s, sub, i);
        }
      }
      assert (exists i :: OccursAt(s, sub, i)) ==> b by {
        if exists i :: OccursAt(s, sub, i) {
          var i :| OccursAt(s, sub, i);
          assert i != 0;
          ShiftOccurrence(s, sub, i - 1);
        }
      }
      b
  }

  // ---------------------------------------------------------------------
  // `s.split(sep)` with a one-character separator
  // ---------------------------------------------------------------------

  /** The inverse of splitting: `sep.join(parts)`. */
  function Join(parts: seq<string>, sep: char): string
    requires |parts| > 0
  {
    if |parts| == 1 then parts[0] else parts[0] + [sep] + Join(parts[1..], sep)
  }

  /**
   * Python's `s.split(sep)`: the pieces between separators, in order,
   * never empty as a list (`"".split("/") == [""]`), none of them holding
   * the separator, and joining them back with `sep` gives `s` again.
   */
  function Split(s: string, sep: char): (parts: seq<string>)
    ensures |parts| > 0
    ensures forall p :: p in parts ==> sep !in p
    ensures Join(parts, sep) == s
  {
    if s == [] then
      [""]
    else
      var rest := Split(s[1..], sep);
      if s[0] == sep then
        [""] + rest
      else
        assert rest == [rest[0]] + rest[1..];
        [[s[0]] + rest[0]] + rest[1..]
  }

  /**
   * `s.split(sep)[0]` is the part of `s` before its first `sep`: a prefix
   * of `s` without `sep`, followed in `s` by `sep` unless it is all of `s`.
   */
  lemma SplitHeadIsPrefixBeforeSeparator(s: string, sep: char)
    ensures Split(s, sep)[0] <= s
    ensures sep !in Split(s, sep)[0]
    ensures |Split(s, sep)[0]| < |s| ==> s[|Split(s, sep)[0]|] == sep
  {
  }

  // ---------------------------------------------------------------------
  // `int(s)` for a `str` argument in base 10
  // ---------------------------------------------------------------------

  /**
   * The characters `int()` skips around a number. CPython first turns each
   * non-ASCII character for which `str.isspace()` holds into a space, then
   * skips the C-locale white space: tab, line feed, vertical tab, form feed,
   * carriage return and space. The ASCII separators U+001C to U+001F pass
   * `str.isspace()` but are not skipped, so `int()` rejects them. White
   * space never stands for a character of the number itself.
   */
  predicate IsSpace(c: char)
    ensures IsSpace(c) ==> !IsDigit(c) && c != '_' && c != '+' && c != '-'
  {
    var n := c as int;
    || 0x09 <= n <= 0x0D      // \t \n \v \f \r
    || n == 0x20
    || n == 0x85 || n == 0xA0 || n == 0x1680
    || 0x2000 <= n <= 0x200A
    || n == 0x2028 || n == 0x2029 || n == 0x202F || n == 0x205F || n == 0x3000
  }

  predicate IsDigit(c: char)
  {
    '0' <= c <= '9'
  }

  ghost predicate AllSpace(s: string)
  {
    forall i :: 0 <= i < |s| ==> IsSpace(s[i])
  }

  /** The white space `int()` skips at the front: the longest suffix of `s` that does not start with it. */
  function TrimLeft(s: string): (r: string)
    ensures |r| <= |s| && r == s[|s| - |r|..]
    ensures AllSpace(s[..|s| - |r|])
    ensures r != [] ==> !IsSpace(r[0])
  {
    if s != [] && IsSpace(s[0]) then
      var r := TrimLeft(s[1..]);
      assert s[..|s| - |r|] == [s[0]] + s[1..][..|s| - 1 - |r|];
      r
    else
      s
  }

  /** The white space `int()` skips at the end: the longest prefix of `s` that does not end with it. */
  function TrimRight(s: string): (r: string)
    ensures |r| <= |s| && r == s[..|r|]
    ensures AllSpace(s[|r|..])
    ensures r != [] ==> !IsSpace(r[|r| - 1])
  {
    if s != [] && IsSpace(s[|s| - 1]) then
      var r := TrimRight(s[..|s| - 1]);
      assert s[|r|..] == s[..|s| - 1][|r|..] + [s[|s| - 1]];
      r
    else
      s
  }

  function Strip(s: string): string
  {
    TrimLeft(TrimRight(s))
  }

  /**
   * One or more groups of ASCII digits separated by single underscores:
   * `"9008"`, `"1_000"`, but not `""`, `"_1"`, `"1_"` or `"1__0"`.
   */
  predicate IsDigitGroups(s: string)
  {
    && |s| > 0
    && IsDigit(s[0])
    && IsDigit(s[|s| - 1])
    && (forall i :: 0 <= i < |s| ==> IsDigit(s[i]) || s[i] == '_')
    && (forall i :: 0 <= i < |s| - 1 ==> s[i] == '_' ==> s[i + 1] != '_')
  }

  /** The decimal value of the digits of `s`, underscores skipped. */
  function DigitsValue(s: string): nat
  {
    if s == [] then 0
    else
      var last := s[|s| - 1];
      if IsDigit(last) then DigitsValue(s[..|s| - 1]) * 10 + (last as int - '0' as int)
      else DigitsValue(s[..|s| - 1])
  }

  /** The number of digits in `s`; underscores do not count. */
  function DigitCount(s: string): nat
  {
    if s == [] then 0
    else DigitCount(s[..|s| - 1]) + (if IsDigit(s[|s| - 1]) then 1 else 0)
  }

  /**
   * CPython's default `sys.int_max_str_digits`: `int()` raises `ValueError`
   * on a string holding more digits than this.
   */
  const IntMaxStrDigits: nat := 4300

  /**
   * The unsigned part of an integer literal; `None` when it is not digit
   * groups or holds more digits than `int()` converts.
   */
  function ParseDigits(s: string): (r: Option<int>)
    ensures r.Some? <==> IsDigitGroups(s) && DigitCount(s) <= IntMaxStrDigits
    ensures r.Some? ==> r.value >= 0
  {
    if IsDigitGroups(s) && DigitCount(s) <= IntMaxStrDigits then Some(DigitsValue(s)) else None
  }

  /**
   * An optional sign followed by digit groups, with nothing around them;
   * a parsed number always comes from a digit at the front of `t` or just
   * behind its sign.
   */
  function ParseSigned(t: string): (r: Option<int>)
    ensures r.Some? ==> |t| > 0 && (IsDigit(t[0]) || (|t| > 1 && IsDigit(t[1])))
  {
    if |t| > 0 && (t[0] == '+' || t[0] == '-') then
      match ParseDigits(t[1..])
      case None => None
      case Some(n) => Some(if t[0] == '-' then -n else n)
    else
      ParseDigits(t)
  }

  /**
   * Python's `int(s)` for a string: optional white space, an optional sign,
   * digit groups of at most `IntMaxStrDigits` digits, optional white space.
   * `None` stands for the `ValueError` that `int()` raises on anything else. A parsed number always comes from
   * at least one digit of `s`.
   */
  function ParseInt(s: string): (r: Option<int>)
    ensures r.Some? ==> exists i :: 0 <= i < |s| && IsDigit(s[i])
  {
    var right := TrimRight(s);
    var t := TrimLeft(right);
    var k := |right| - |t|;
    assert t == s[k..|right|];
    var r := ParseSigned(t);
    assert r.Some? ==> IsDigit(s[k]) || IsDigit(s[k + 1]);
    r
  }

  // ---------------------------------------------------------------------
  // `str(n)`, the partner of `int(s)`
  // ---------------------------------------------------------------------

  function DigitChar(d: nat): char
    requires d < 10
  {
    ('0' as int + d) as char
  }

  /** The decimal digits of `n`, most significant first, without leading zeros. */
  function NatToDecimal(n: nat): string
  {
    if n < 10 then [DigitChar(n)] else NatToDecimal(n / 10) + [DigitChar(n % 10)]
  }

  /** Python's `str(n)` for an integer. */
  function IntToDecimal(n: int): string
  {
    if n < 0 then "-" + NatToDecimal(-n) else NatToDecimal(n)
  }

  /** `str(n)` has few enough digits for `int()` to convert it back. */
  predicate WithinDigitLimit(n: int)
  {
    |NatToDecimal(if n < 0 then -n else n)| <= IntMaxStrDigits
  }

  lemma {:induction false} NatToDecimalDigits(n: nat)
    ensures IsDigitGroups(NatToDecimal(n))
    ensures forall i :: 0 <= i < |NatToDecimal(n)| ==> IsDigit(NatToDecimal(n)[i])
    ensures DigitsValue(NatToDecimal(n)) == n
    ensures DigitCount(NatToDecimal(n)) == |NatToDecimal(n)|
  {
    if n >= 10 {
      var front := NatToDecimal(n / 10);
      NatToDecimalDigits(n / 10);
      var s := front + [DigitChar(n % 10)];
      assert s[..|s| - 1] == front;
    }
  }

  /** Stripping removes white space of any length on both sides. */
  lemma {:induction false} StripPadding(lead: string, s: string, trail: string)
    requires AllSpace(lead) && AllSpace(trail)
    requires s != [] && !IsSpace(s[0]) && !IsSpace(s[|s| - 1])
    ensures Strip(lead + s + trail) == s
  {
    TrimRightPadding(lead + s, trail);
    TrimLeftPadding(lead, s);
  }

  lemma {:induction false} TrimRightPadding(s: string, trail: string)
    requires AllSpace(trail)
    requires s != [] && !IsSpace(s[|s| - 1])
    ensures TrimRight(s + trail) == s
    decreases |trail|
  {
    if trail != [] {
      var u := s + trail;
      assert u[..|u| - 1] == s + trail[..|trail| - 1];
      TrimRightPadding(s, trail[..|trail| - 1]);
    } else {
      assert s + trail == s;
    }
  }

  lemma {:induction false} TrimLeftPadding(lead: string, s: string)
    requires AllSpace(lead)
    requires s != [] && !IsSpace(s[0])
    ensures TrimLeft(lead + s) == s
    decreases |lead|
  {
    if lead != [] {
      var u := lead + s;
      assert u[1..] == lead[1..] + s;
      TrimLeftPadding(lead[1..], s);
    } else {
      assert lead + s == s;
    }
  }

  lemma ParseSignedDecimal(n: int)
    ensures ParseSigned(IntToDecimal(n)) == if WithinDigitLimit(n) then Some(n) else None
  {
    var m := if n < 0 then -n else n;
    NatToDecimalDigits(m);
    if n < 0 {
      assert IntToDecimal(n)[1..] == NatToDecimal(m);
    }
  }

  /**
   * `int(str(n)) == n`, also with white space around the digits, for every
   * `n` of at most `IntMaxStrDigits` digits; beyond that `int()` raises.
   */
  lemma ParseIntRoundTrip(n: int, lead: string, trail: string)
    requires AllSpace(lead) && AllSpace(trail)
    ensures ParseInt(lead + IntToDecimal(n) + trail) == if WithinDigitLimit(n) then Some(n) else None
  {
    var m := if n < 0 then -n else n;
    NatToDecimalDigits(m);
    var s := IntToDecimal(n);
    assert !IsSpace(s[0]) && !IsSpace(s[|s| - 1]);
    StripPadding(lead, s, trail);
    ParseSignedDecimal(n);
  }

  /** `int(str(n)) == n` within the digit limit. */
  lemma ParseIntDecimal(n: int)
    ensures ParseInt(IntToDecimal(n)) == if WithinDigitLimit(n) then Some(n) else None
  {
    var s := IntToDecimal(n);
    var m := if n < 0 then -n else n;
    NatToDecimalDigits(m);
    assert !IsSpace(s[0]) && !IsSpace(s[|s| - 1]);
    assert TrimRight(s) == s;
    assert TrimLeft(s) == s;
    ParseSignedDecimal(n);
  }
}
