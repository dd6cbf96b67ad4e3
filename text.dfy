/** The string operations the pages rely on, stated for JavaScript strings as
    sequences of characters: `trim`, `toLowerCase`, `includes`, `join`, `split`,
    number-to-text of integers, the amount-field pattern `^\d*\.?\d*$` and
    `parseFloat` on decimal text. */
module Text {
  import opened Common

  predicate IsDigit(c: char) { '0' <= c <= '9' }

  /** The characters `String.prototype.trim` removes: ECMAScript WhiteSpace
      (tab, vertical tab, form feed, the byte-order mark and every Unicode
      space separator of category Zs) and LineTerminator. */
  predicate IsSpace(c: char)
  {
    c == '\t' || c == '\U{000B}' || c == '\U{000C}' || c == '\U{FEFF}'
    || c == '\n' || c == '\r' || c == '\U{2028}' || c == '\U{2029}'
    || c == ' ' || c == '\U{00A0}' || c == '\U{1680}' || '\U{2000}' <= c <= '\U{200A}'
    || c == '\U{202F}' || c == '\U{205F}' || c == '\U{3000}'
  }

  /** An ideographic space is trimmed like any other space separator. */
  lemma IdeographicSpaceIsBlank()
    ensures Blank("\U{3000}") && Trim("\U{3000}") == ""
  {
    BlankTrimsToEmpty("\U{3000}");
  }

  predicate HasDigit(s: string) { exists i :: 0 <= i < |s| && IsDigit(s[i]) }

  predicate AllDigits(s: string) { forall i :: 0 <= i < |s| ==> IsDigit(s[i]) }

  predicate Blank(s: string) { forall i :: 0 <= i < |s| ==> IsSpace(s[i]) }

  // ---------------------------------------------------------------- trim

  function TrimStart(s: string): (r: string)
    ensures |r| <= |s| && r == s[|s| - |r|..]
    ensures r == [] || !IsSpace(r[0])
    ensures Blank(s[..|s| - |r|])
  {
    if s != [] && IsSpace(s[0]) then
      var r := TrimStart(s[1..]);
      assert s[1..][..|s| - 1 - |r|] == s[1..|s| - |r|];
      r
    else s
  }

  function TrimEnd(s: string): (r: string)
    ensures |r| <= |s| && r == s[..|r|]
    ensures r == [] || !IsSpace(r[|r| - 1])
    ensures Blank(s[|r|..])
  {
    if s != [] && IsSpace(s[|s| - 1]) then
      var r := TrimEnd(s[..|s| - 1]);
      assert s[..|s| - 1][..|r|] == s[..|r|];
      assert s[|r|..] == s[..|s| - 1][|r|..] + [s[|s| - 1]];
      r
    else s
  }

  /** `s.trim()`. */
  function Trim(s: string): string
  {
    TrimEnd(TrimStart(s))
  }

  /** `!s.trim()` holds exactly for the strings made only of white space. */
  lemma TrimEmptyIffBlank(s: string)
    ensures Trim(s) == [] <==> Blank(s)
  {
    if Blank(s) {
      BlankTrimsToEmpty(s);
    } else {
      NonBlankKeepsText(s);
    }
  }

  lemma {:induction false} BlankTrimsToEmpty(s: string)
    requires Blank(s)
    ensures TrimStart(s) == [] && Trim(s) == []
  {
    if s != [] {
      assert IsSpace(s[0]);
      assert Blank(s[1..]) by {
        assert forall j :: 0 <= j < |s| - 1 ==> s[1..][j] == s[j + 1];
      }
      BlankTrimsToEmpty(s[1..]);
    }
  }

  lemma NonBlankKeepsText(s: string)
    requires !Blank(s)
    ensures Trim(s) != []
  {
    TrimStartKeepsText(s);
    TrimEndKeepsFirst(TrimStart(s));
  }

  lemma {:induction false} TrimStartKeepsText(s: string)
    requires !Blank(s)
    ensures TrimStart(s) != []
  {
    var k :| 0 <= k < |s| && !IsSpace(s[k]);
    if IsSpace(s[0]) {
      assert s[1..][k - 1] == s[k];
      TrimStartKeepsText(s[1..]);
    }
  }

  lemma {:induction false} TrimEndKeepsFirst(t: string)
    requires t != [] && !IsSpace(t[0])
    ensures TrimEnd(t) != []
  {
    if IsSpace(t[|t| - 1]) {
      assert t[..|t| - 1][0] == t[0];
      TrimEndKeepsFirst(t[..|t| - 1]);
    }
  }

  // ---------------------------------------------------------------- case, search

  function LowerChar(c: char): char
  {
    if 'A' <= c <= 'Z' then (c as int + 32) as char else c
  }

  /** `s.toLowerCase()` on the ASCII letters. */
  function Lower(s: string): (r: string)
    ensures |r| == |s|
    ensures forall i :: 0 <= i < |s| ==> r[i] == LowerChar(s[i])
  {
    if s == [] then [] else [LowerChar(s[0])] + Lower(s[1..])
  }

  predicate IsPrefix(p: string, s: string) { |p| <= |s| && s[..|p|] == p }

  /** `s.includes(t)`, scanning the start positions from left to right. */
  function Contains(s: string, t: string): bool
  {
    IsPrefix(t, s) || (s != [] && Contains(s[1..], t))
  }

  predicate OccursAt(s: string, t: string, i: int)
  {
    0 <= i <= |s| - |t| && s[i..i + |t|] == t
  }

  /** `Contains` agrees with the textbook definition: `t` occurs in `s` at
      some position. */
  lemma {:induction false} ContainsIffOccurs(s: string, t: string)
    ensures Contains(s, t) <==> exists i :: OccursAt(s, t, i)
  {
    if IsPrefix(t, s) {
      assert OccursAt(s, t, 0);
    } else if s == [] {
    } else {
      ContainsIffOccurs(s[1..], t);
      if Contains(s[1..], t) {
        var i :| OccursAt(s[1..], t, i);
        assert s[1..][i..i + |t|] == s[i + 1..i + 1 + |t|];
        assert OccursAt(s, t, i + 1);
      }
      if exists i :: OccursAt(s, t, i) {
        var i :| OccursAt(s, t, i);
        assert i != 0;
        assert s[1..][i - 1..i - 1 + |t|] == s[i..i + |t|];
        assert OccursAt(s[1..], t, i - 1);
      }
    }
  }

  /** Every string includes the empty string. */
  lemma ContainsEmpty(s: string)
    ensures Contains(s, "")
  {
    assert IsPrefix("", s);
  }

  // ---------------------------------------------------------------- join, split

  /** A CSV field free of both separators. */
  predicate Plain(s: string) { ',' !in s && '\n' !in s }

  /** `parts.join(sep)`. */
  function Join(parts: seq<string>, sep: char): string
  {
    if parts == [] then ""
    else if |parts| == 1 then parts[0]
    else parts[0] + [sep] + Join(parts[1..], sep)
  }

  /** `s.split(sep)`: always at least one piece, none holding `sep`. */
  function Split(s: string, sep: char): (r: seq<string>)
    ensures |r| >= 1
    ensures forall i :: 0 <= i < |r| ==> sep !in r[i]
  {
    if s == [] then [""]
    else if s[0] == sep then [""] + Split(s[1..], sep)
    else
      var rest := Split(s[1..], sep);
      [[s[0]] + rest[0]] + rest[1..]
  }

  lemma {:induction false} SplitNoSep(a: string, sep: char)
    requires sep !in a
    ensures Split(a, sep) == [a]
  {
    if a != [] {
      assert a[0] != sep;
      assert sep !in a[1..];
      SplitNoSep(a[1..], sep);
      assert [a[0]] + a[1..] == a;
    }
  }

  lemma {:induction false} SplitPiece(a: string, sep: char, rest: string)
    requires sep !in a
    ensures Split(a + [sep] + rest, sep) == [a] + Split(rest, sep)
  {
    var line := a + [sep] + rest;
    if a == [] {
      assert line == [sep] + rest;
      assert line[1..] == rest;
    } else {
      assert line[0] == a[0] && a[0] != sep;
      assert line[1..] == a[1..] + [sep] + rest;
      assert sep !in a[1..];
      SplitPiece(a[1..], sep, rest);
      assert [a[0]] + a[1..] == a;
    }
  }

  /** Splitting a joined line gives back its fields, provided no field holds
      the separator: the CSV round trip. */
  lemma {:induction false} SplitJoin(parts: seq<string>, sep: char)
    requires |parts| >= 1
    requires forall i :: 0 <= i < |parts| ==> sep !in parts[i]
    ensures Split(Join(parts, sep), sep) == parts
  {
    if |parts| == 1 {
      SplitNoSep(parts[0], sep);
    } else {
      SplitPiece(parts[0], sep, Join(parts[1..], sep));
      SplitJoin(parts[1..], sep);
    }
  }

  lemma {:induction false} JoinNoSep(parts: seq<string>, sep: char, c: char)
    requires c != sep
    requires forall i :: 0 <= i < |parts| ==> c !in parts[i]
    ensures c !in Join(parts, sep)
  {
    if |parts| > 1 {
      JoinNoSep(parts[1..], sep, c);
    }
  }

  // ---------------------------------------------------------------- numbers

  function DigitChar(d: nat): char
    requires d < 10
  {
    ('0' as int + d) as char
  }

  function DigitValue(c: char): nat
    requires IsDigit(c)
  {
    c as int - '0' as int
  }

  /** The value of a string of decimal digits (0 for the empty string). */
  function DigitsValue(s: string): nat
    requires AllDigits(s)
  {
    if s == [] then 0 else DigitsValue(s[..|s| - 1]) * 10 + DigitValue(s[|s| - 1])
  }

  /** `String(n)` for a natural number: decimal digits, no leading zero. */
  function NatText(n: nat): (r: string)
    ensures |r| >= 1 && AllDigits(r)
    ensures |r| > 1 ==> r[0] != '0'
  {
    (if n < 10 then "" else NatText(n / 10)) + [DigitChar(n % 10)]
  }

  /** `String(n)` for an integer. */
  function IntText(n: int): (r: string)
    ensures |r| >= 1
  {
    if n < 0 then "-" + NatText(-n) else NatText(n)
  }

  lemma DigitRoundTrip(d: nat)
    requires d < 10
    ensures IsDigit(DigitChar(d)) && DigitValue(DigitChar(d)) == d
  {
  }

  lemma {:induction false} NatTextValue(n: nat)
    ensures DigitsValue(NatText(n)) == n
  {
    var head := if n < 10 then "" else NatText(n / 10);
    var r := NatText(n);
    assert r == head + [DigitChar(n % 10)];
    assert r[..|r| - 1] == head;
    DigitRoundTrip(n % 10);
    assert DigitsValue(r) == DigitsValue(head) * 10 + n % 10;
    if n >= 10 {
      NatTextValue(n / 10);
    }
  }

  // ---------------------------------------------------------------- amount field

  /** The amount field's guard `value === '' || /^\d*\.?\d*$/.test(value)`,
      run as the regular expression's automaton: digits, at most one dot. */
  function MatchesAmount(s: string, seenDot: bool): bool
  {
    if s == [] then true
    else if IsDigit(s[0]) then MatchesAmount(s[1..], seenDot)
    else if s[0] == '.' && !seenDot then MatchesAmount(s[1..], true)
    else false
  }

  predicate AmountText(s: string) { s == "" || MatchesAmount(s, false) }

  function DotCount(s: string): nat
  {
    if s == [] then 0 else (if s[0] == '.' then 1 else 0) + DotCount(s[1..])
  }

  /** The automaton accepts exactly the strings of digits and dots holding at
      most one dot (counting one already seen). */
  lemma {:induction false} MatchesAmountIff(s: string, seenDot: bool)
    ensures MatchesAmount(s, seenDot) <==>
      (forall i :: 0 <= i < |s| ==> IsDigit(s[i]) || s[i] == '.') &&
      DotCount(s) + (if seenDot then 1 else 0) <= 1
  {
    if s != [] {
      MatchesAmountIff(s[1..], seenDot || s[0] == '.');
      if !IsDigit(s[0]) && s[0] != '.' {
        assert !(IsDigit(s[0]) || s[0] == '.');
      }
      assert forall i :: 1 <= i < |s| ==> s[i] == s[1..][i - 1];
    }
  }

  /** The amount inputs' `onChange` guard (src/components/CustomerForm.jsx:161-167,
      src/components/WalletTopUp.jsx:160-164): the value is taken only when it is
      empty or matches `^\d*\.?\d*$`. */
  function GuardedAmount(current: string, value: string): (r: string)
    ensures r == value || r == current
  {
    if value == "" || MatchesAmount(value, false) then value else current
  }

  /** What the guard lets into the field: digits and at most one dot. */
  lemma {:induction false} GuardedAmountShape(current: string, value: string)
    ensures GuardedAmount(current, value) == value <==>
      value == current || ((forall i :: 0 <= i < |value| ==> IsDigit(value[i]) || value[i] == '.') && DotCount(value) <= 1)
  {
    MatchesAmountIff(value, false);
    if value == "" {
      assert DotCount(value) == 0;
    }
  }

  /** The longest prefix of decimal digits. */
  function LeadingDigits(s: string): (r: string)
    ensures |r| <= |s| && r == s[..|r|] && AllDigits(r)
    ensures |r| < |s| ==> !IsDigit(s[|r|])
  {
    if s != [] && IsDigit(s[0]) then [s[0]] + LeadingDigits(s[1..]) else ""
  }

  function Pow10(k: nat): (r: nat)
    ensures r >= 1
  {
    if k == 0 then 1 else 10 * Pow10(k - 1)
  }

  /** The value of the digits after a decimal point. */
  function Fraction(frac: string): (r: real)
    requires AllDigits(frac)
    ensures r >= 0.0
    ensures frac == [] ==> r == 0.0
  {
    DigitsValue(frac) as real / Pow10(|frac|) as real
  }

  /** `parseFloat(s)` on decimal text: leading white space skipped, an
      optional sign, then the longest prefix of the form digits, optional dot,
      digits, with at least one digit; `None` is NaN. The rest of the text is
      ignored, as parseFloat does. */
  function ParseFloat(text: string): (r: Option<real>)
  {
    if text != [] && IsSpace(text[0]) then ParseFloat(text[1..]) else ParseDecimal(text)
  }

  /** The part of `parseFloat` after the leading white space. */
  function ParseDecimal(s: string): (r: Option<real>)
  {
    var signed := s != [] && (s[0] == '-' || s[0] == '+');
    var body := if signed then s[1..] else s;
    var whole := LeadingDigits(body);
    var after := body[|whole|..];
    var frac := if after != [] && after[0] == '.' then LeadingDigits(after[1..]) else "";
    if whole == [] && frac == [] then None
    else
      var magnitude := DigitsValue(whole) as real + Fraction(frac);
      Some(if signed && s[0] == '-' then -magnitude else magnitude)
  }

  /** `parseFloat(s) || 0`: NaN counts as 0. */
  function ParseOr0(s: string): real
  {
    AmountOr0(ParseFloat(s))
  }

  /** Text that does not start with white space is parsed as it is. */
  lemma NoLeadingSpace(s: string)
    requires s == [] || IsDigit(s[0]) || s[0] == '.'
    ensures ParseFloat(s) == ParseDecimal(s)
  {
    if s != [] {
      assert !IsSpace(s[0]);
    }
  }

  /** `parseFloat('')` is NaN. */
  lemma EmptyIsNaN()
    ensures ParseFloat("").None?
  {
    assert LeadingDigits("") == "";
  }

  lemma {:induction false} LeadingDigitsAll(s: string)
    requires AllDigits(s)
    ensures LeadingDigits(s) == s
  {
    if s != [] {
      LeadingDigitsAll(s[1..]);
    }
  }

  /** Text the amount guard accepts never parses to a negative number, and it
      parses to NaN exactly when it holds no digit (`''` or `'.'`). */
  lemma AmountTextParse(s: string)
    requires AmountText(s)
    ensures ParseFloat(s).Some? ==> ParseFloat(s).value >= 0.0
    ensures ParseFloat(s).None? <==> !HasDigit(s)
  {
    AmountTextStart(s);
    NoLeadingSpace(s);
    AmountTextDecimal(s);
  }

  /** Accepted amount text starts with a digit or the dot, if with anything. */
  lemma AmountTextStart(s: string)
    requires AmountText(s)
    ensures s == [] || IsDigit(s[0]) || s[0] == '.'
  {
    MatchesAmountIff(s, false);
    if s != [] {
      assert IsDigit(s[0]) || s[0] == '.';
    }
  }

  lemma AmountTextDecimal(s: string)
    requires AmountText(s)
    ensures ParseDecimal(s).Some? ==> ParseDecimal(s).value >= 0.0
    ensures ParseDecimal(s).None? <==> !HasDigit(s)
  {
    var whole := LeadingDigits(s);
    var after := s[|whole|..];
    MatchesAmountIff(s, false);
    if s != [] {
      assert s[0] != '-' && s[0] != '+' by {
        assert IsDigit(s[0]) || s[0] == '.';
      }
    }
    if after != [] && after[0] == '.' {
      var tail := after[1..];
      var frac := LeadingDigits(tail);
      DotCountSplit(s, |whole|);
      assert DotCount(after) == 1 + DotCount(tail);
      assert forall i :: 0 <= i < |tail| ==> tail[i] == s[|whole| + 1 + i];
      NoDotAllDigits(tail);
      LeadingDigitsAll(tail);
      assert forall i :: 0 <= i < |s| ==> i < |whole| || i == |whole| || s[i] == tail[i - |whole| - 1];
    } else {
      assert after == [];
    }
  }

  lemma {:induction false} DotCountSplit(s: string, k: nat)
    requires k <= |s|
    ensures DotCount(s) == DotCount(s[..k]) + DotCount(s[k..])
  {
    if k > 0 {
      DotCountSplit(s[1..], k - 1);
      assert s[1..][..k - 1] == s[..k][1..];
      assert s[1..][k - 1..] == s[k..];
    }
  }

  lemma {:induction false} NoDotAllDigits(s: string)
    requires forall i :: 0 <= i < |s| ==> IsDigit(s[i]) || s[i] == '.'
    requires DotCount(s) == 0
    ensures AllDigits(s)
  {
    if s != [] {
      NoDotAllDigits(s[1..]);
      assert forall i :: 1 <= i < |s| ==> s[i] == s[1..][i - 1];
    }
  }

  /** `String(n)` parses back to `n`: the round trip of the edit form's
      prefilled amount for whole amounts. */
  lemma NatTextParses(n: nat)
    ensures ParseFloat(NatText(n)) == Some(n as real)
  {
    var t := NatText(n);
    assert !(t[0] == '-' || t[0] == '+') by { assert IsDigit(t[0]); }
    LeadingDigitsAll(t);
    NatTextValue(n);
    assert t[|t|..] == [];
    ParseDigits(t);
  }

  /** A string of digits parses to its value. */
  lemma ParseDigits(t: string)
    requires t != [] && AllDigits(t)
    ensures ParseFloat(t) == Some(DigitsValue(t) as real)
  {
    assert IsDigit(t[0]);
    NoLeadingSpace(t);
    DecimalDigits(t);
  }

  lemma DecimalDigits(t: string)
    requires t != [] && AllDigits(t)
    ensures ParseDecimal(t) == Some(DigitsValue(t) as real)
  {
    assert !(t[0] == '-' || t[0] == '+') by { assert IsDigit(t[0]); }
    LeadingDigitsAll(t);
    var after := t[|LeadingDigits(t)|..];
    assert after == [];
    assert Fraction("") == 0.0;
  }
}
