/**
 * The handful of Python `str` and `int` operations the identifier allocators and the
 * upload paths rely on, restricted to ASCII text: `isdigit()`, `str(n)`, `format(n, "03d")`,
 * slicing, `strip()`, `split()`, `lower()`/`upper()` and `int(s)`.
 */
module PyText {
  import opened Wrappers

  // ---------------------------------------------------------------- characters

  predicate IsDigitChar(c: char) { '0' <= c <= '9' }

  function DigitValue(c: char): (d: nat)
    requires IsDigitChar(c)
    ensures d < 10
  {
    (c as int) - ('0' as int)
  }

  function DigitChar(d: nat): (c: char)
    requires d < 10
    ensures IsDigitChar(c) && DigitValue(c) == d
  {
    (('0' as int) + d) as char
  }

  /** Python's `isspace()` on ASCII: blank, `\t \n \v \f \r` and the separators 0x1c-0x1f. */
  predicate IsSpace(c: char) { c == ' ' || 9 <= c as int <= 13 || 28 <= c as int <= 31 }

  predicate NoSpace(s: string) { forall i | 0 <= i < |s| :: !IsSpace(s[i]) }

  predicate AllSpace(s: string) { forall i | 0 <= i < |s| :: IsSpace(s[i]) }

  predicate AllDigits(s: string) { forall i | 0 <= i < |s| :: IsDigitChar(s[i]) }

  /** `s.isdigit()`: at least one character, and every character a decimal digit. */
  predicate IsDigits(s: string) { |s| > 0 && AllDigits(s) }

  predicate IsHexChar(c: char) { '0' <= c <= '9' || 'a' <= c <= 'f' || 'A' <= c <= 'F' }

  predicate IsUpperHexChar(c: char) { '0' <= c <= '9' || 'A' <= c <= 'F' }

  function LowerChar(c: char): char { if 'A' <= c <= 'Z' then ((c as int) + 32) as char else c }

  function UpperChar(c: char): char { if 'a' <= c <= 'z' then ((c as int) - 32) as char else c }

  /** `s.lower()` on ASCII letters. */
  function Lower(s: string): (r: string)
    ensures |r| == |s|
  {
    seq(|s|, i requires 0 <= i < |s| => LowerChar(s[i]))
  }

  /** `s.upper()` on ASCII letters. */
  function Upper(s: string): (r: string)
    ensures |r| == |s|
  {
    seq(|s|, i requires 0 <= i < |s| => UpperChar(s[i]))
  }

  // ---------------------------------------------------------------- numbers as text

  function Pow10(k: nat): (p: nat)
    ensures p >= 1
  {
    if k == 0 then 1 else 10 * Pow10(k - 1)
  }

  /** The value of the first `n` digits of `s`, read as a decimal number. */
  function PrefixValue(s: string, n: nat): nat
    requires n <= |s| && AllDigits(s)
  {
    if n == 0 then 0 else PrefixValue(s, n - 1) * 10 + DigitValue(s[n - 1])
  }

  /** The value `int(s)` gives a string of decimal digits; leading zeros are allowed. */
  function DigitsValue(s: string): nat
    requires AllDigits(s)
  {
    PrefixValue(s, |s|)
  }

  /** `str(n)` for a natural number: its decimal digits, with no leading zero. */
  function Decimal(n: nat): (r: string)
    ensures |r| > 0
    decreases n
  {
    if n < 10 then [DigitChar(n)] else Decimal(n / 10) + [DigitChar(n % 10)]
  }

  /** `k` zero digits. */
  function Zeros(k: nat): (z: string)
    ensures |z| == k
  {
    if k == 0 then [] else Zeros(k - 1) + ['0']
  }

  /** Left-pads `s` with '0' up to `width` characters, as the `0` flag of a format spec does. */
  function ZeroPad(s: string, width: nat): (r: string)
    ensures |r| == if |s| < width then width else |s|
  {
    if |s| < width then Zeros(width - |s|) + s else s
  }

  /**
   * `format(n, "03d")` (the `{n:03d}` of an f-string): the decimal digits of `n`, padded
   * with zeros to at least three characters; a negative number keeps its sign in front
   * of the padding and the sign counts towards the width.
   */
  function Format03(n: int): string
  {
    if n >= 0 then ZeroPad(Decimal(n), 3) else "-" + ZeroPad(Decimal(-n), 2)
  }

  // ---------------------------------------------------------------- slicing

  /** `s[i:j]` for non-negative bounds: both are clamped to the length, and an empty range gives "". */
  function Slice(s: string, i: nat, j: nat): (r: string)
    ensures |r| <= |s|
  {
    var a := if i < |s| then i else |s|;
    var b := if j < |s| then j else |s|;
    if a <= b then seq(b - a, k requires 0 <= k < b - a => s[a + k]) else []
  }

  /** `s[-3:]`: the last three characters, or the whole string when it is shorter. */
  function LastThree(s: string): (r: string)
    ensures |r| == if |s| < 3 then |s| else 3
  {
    var m := if |s| < 3 then |s| else 3;
    seq(m, k requires 0 <= k < m => s[|s| - m + k])
  }

  /** `s.startswith(prefix)`. */
  predicate StartsWith(s: string, prefix: string)
  {
    |prefix| <= |s| && forall i | 0 <= i < |prefix| :: s[i] == prefix[i]
  }

  /** `s.endswith(suffix)`. */
  predicate EndsWith(s: string, suffix: string)
  {
    |suffix| <= |s| && forall i | 0 <= i < |suffix| :: s[|s| - |suffix| + i] == suffix[i]
  }

  /** `s.split(sep)[-1]`: the text after the last occurrence of `sep`, or all of `s` when it has none. */
  function AfterLast(s: string, sep: char): (r: string)
    ensures EndsWith(s, r) && sep !in r
    ensures |r| < |s| ==> s[|s| - |r| - 1] == sep
    decreases |s|
  {
    if s == [] then []
    else if s[|s| - 1] == sep then []
    else AfterLast(s[..|s| - 1], sep) + [s[|s| - 1]]
  }

  // ---------------------------------------------------------------- whitespace

  /** `s.lstrip()`. */
  function StripLeft(s: string): (r: string)
    ensures |r| <= |s|
    ensures r == [] || !IsSpace(r[0])
    decreases |s|
  {
    if s != [] && IsSpace(s[0]) then StripLeft(s[1..]) else s
  }

  /** `s.rstrip()`. */
  function StripRight(s: string): (r: string)
    ensures |r| <= |s|
    ensures r == [] || !IsSpace(r[|r| - 1])
    decreases |s|
  {
    if s != [] && IsSpace(s[|s| - 1]) then StripRight(s[..|s| - 1]) else s
  }

  /** `s.strip()`. */
  function Strip(s: string): string
  {
    StripRight(StripLeft(s))
  }

  /** Python's `split()` with no separator: the maximal runs of non-space characters, in order. */
  function Words(s: string): (ws: seq<string>)
    ensures forall k | 0 <= k < |ws| :: ws[k] != [] && NoSpace(ws[k])
    decreases |s|
  {
    var t := StripLeft(s);
    if t == [] then []
    else
      var w := WordAt(t);
      [w] + Words(t[|w|..])
  }

  /** The longest prefix of `s` without whitespace. */
  function WordAt(s: string): (w: string)
    ensures |w| <= |s| && w == s[..|w|] && NoSpace(w)
    ensures |w| < |s| ==> IsSpace(s[|w|])
    ensures s != [] && !IsSpace(s[0]) ==> |w| > 0
    decreases |s|
  {
    if s == [] || IsSpace(s[0]) then [] else [s[0]] + WordAt(s[1..])
  }

  // ---------------------------------------------------------------- int(s)

  predicate DigitOrUnderscore(c: char) { IsDigitChar(c) || c == '_' }

  /** A digit string in which single underscores may separate digits (PEP 515), e.g. `1_000`. */
  predicate IsDigitGroups(s: string)
  {
    && |s| > 0 && IsDigitChar(s[0]) && IsDigitChar(s[|s| - 1])
    && (forall i | 0 <= i < |s| :: DigitOrUnderscore(s[i]))
    && (forall i | 0 <= i < |s| - 1 :: s[i] == '_' ==> s[i + 1] != '_')
  }

  function WithoutUnderscores(s: string): (r: string)
    ensures (forall i | 0 <= i < |s| :: DigitOrUnderscore(s[i])) ==> AllDigits(r)
    ensures '_' !in s ==> r == s
  {
    if s == [] then [] else (if s[0] == '_' then [] else [s[0]]) + WithoutUnderscores(s[1..])
  }

  function UnsignedInt(s: string): Option<nat>
  {
    if IsDigitGroups(s) then Some(DigitsValue(WithoutUnderscores(s))) else None
  }

  /**
   * `int(s)` on ASCII text: surrounding whitespace is ignored, one optional sign, then digits
   * with single underscores allowed between them. `None` stands for the ValueError Python raises.
   */
  function PyInt(s: string): Option<int>
  {
    var t := Strip(s);
    if t != [] && (t[0] == '+' || t[0] == '-') then
      match UnsignedInt(t[1..])
      case None => None
      case Some(v) => Some(if t[0] == '-' then 0 - (v as int) else v as int)
    else
      UnsignedInt(t)
  }
}

/** Facts about the text operations above, used by the identifier allocators. */
module PyTextFacts {
  import opened Wrappers
  import opened PyText

  /** `n` digits are worth less than `10^n`. */
  lemma {:induction false} PrefixValueBound(s: string, n: nat)
    requires n <= |s| && AllDigits(s)
    ensures PrefixValue(s, n) < Pow10(n)
  {
    if n > 0 {
      PrefixValueBound(s, n - 1);
    }
  }

  /** Two texts that agree on their first `n` characters have the same prefix value. */
  lemma {:induction false} PrefixValueAgree(s: string, t: string, n: nat)
    requires n <= |s| && n <= |t| && AllDigits(s) && AllDigits(t)
    requires forall i | 0 <= i < n :: s[i] == t[i]
    ensures PrefixValue(s, n) == PrefixValue(t, n)
  {
    if n > 0 {
      PrefixValueAgree(s, t, n - 1);
    }
  }

  /** `str(n)` is a digit string, without a leading zero unless `n` is 0, that reads back as `n`. */
  lemma {:induction false} DecimalDigits(n: nat)
    ensures IsDigits(Decimal(n)) && DigitsValue(Decimal(n)) == n
    ensures Decimal(n)[0] == '0' ==> n == 0
    decreases n
  {
    if n >= 10 {
      var h := Decimal(n / 10);
      var r := h + [DigitChar(n % 10)];
      DecimalDigits(n / 10);
      assert Decimal(n) == r;
      assert forall i | 0 <= i < |h| :: r[i] == h[i];
      AllDigitsConcat(h, [DigitChar(n % 10)]);
      PrefixValueAgree(h, r, |h|);
      assert DigitsValue(r) == PrefixValue(r, |h|) * 10 + DigitValue(r[|h|]);
      assert r[|h|] == DigitChar(n % 10);
    } else {
      assert DigitsValue(Decimal(n)) == PrefixValue(Decimal(n), 0) * 10 + DigitValue(DigitChar(n));
    }
  }

  /** `k` zeros are digits worth 0. */
  lemma {:induction false} ZerosValue(k: nat)
    ensures AllDigits(Zeros(k)) && DigitsValue(Zeros(k)) == 0
  {
    if k > 0 {
      var z := Zeros(k - 1);
      ZerosValue(k - 1);
      assert Zeros(k) == z + ['0'];
      assert forall i | 0 <= i < k - 1 :: Zeros(k)[i] == z[i];
      PrefixValueAgree(z, Zeros(k), k - 1);
    }
  }

  lemma AllDigitsConcat(a: string, b: string)
    requires AllDigits(a) && AllDigits(b)
    ensures AllDigits(a + b)
  {
    forall i | 0 <= i < |a + b| ensures IsDigitChar((a + b)[i]) {
      if i >= |a| { assert (a + b)[i] == b[i - |a|]; }
    }
  }

  lemma ShiftAdd(x: int, p: int, y: int, d: int)
    ensures (x * p + y) * 10 + d == x * (p * 10) + (y * 10 + d)
  {
  }

  /** Reading the digits of `a + b` is reading `a`, shifting by `|b|` places, and adding `b`. */
  lemma {:induction false} DigitsValueConcat(a: string, b: string)
    requires AllDigits(a) && AllDigits(b)
    ensures AllDigits(a + b)
    ensures DigitsValue(a + b) == DigitsValue(a) * Pow10(|b|) + DigitsValue(b)
    decreases |b|
  {
    AllDigitsConcat(a, b);
    if b == [] {
      assert a + b == a;
    } else {
      var b' := b[..|b| - 1];
      var ab, ab' := a + b, a + b';
      AllDigitsConcat(a, b');
      assert forall i | 0 <= i < |ab'| :: ab'[i] == ab[i];
      assert ab[|ab| - 1] == b[|b| - 1];
      DigitsValueConcat(a, b');
      PrefixValueAgree(ab', ab, |ab'|);
      PrefixValueAgree(b', b, |b'|);
      var x, y, p, d := DigitsValue(a), DigitsValue(b'), Pow10(|b'|), DigitValue(b[|b| - 1]);
      assert DigitsValue(ab) == DigitsValue(ab') * 10 + d;
      assert DigitsValue(b) == y * 10 + d;
      assert Pow10(|b|) == p * 10;
      ShiftAdd(x, p, y, d);
    }
  }

  /** Leading zeros do not change the value `int()` reads. */
  lemma LeadingZeros(k: nat, s: string)
    requires AllDigits(s)
    ensures AllDigits(Zeros(k) + s) && DigitsValue(Zeros(k) + s) == DigitsValue(s)
  {
    ZerosValue(k);
    DigitsValueConcat(Zeros(k), s);
  }

  /** The last three digits of a digit string hold its value modulo 1000. */
  lemma LastThreeValue(s: string)
    requires AllDigits(s) && |s| >= 3
    ensures AllDigits(LastThree(s))
    ensures DigitsValue(LastThree(s)) == DigitsValue(s) % 1000
  {
    var a, b := s[..|s| - 3], s[|s| - 3..];
    assert s == a + b;
    assert LastThree(s) == b;
    assert AllDigits(a) && AllDigits(b);
    ThreeDigitTail(a, b);
  }

  lemma ThreeDigitTail(a: string, b: string)
    requires AllDigits(a) && AllDigits(b) && |b| == 3
    ensures AllDigits(a + b) && DigitsValue(a + b) % 1000 == DigitsValue(b)
  {
    DigitsValueConcat(a, b);
    PrefixValueBound(b, 3);
    Pow10Three();
    ModThousand(DigitsValue(a), DigitsValue(b));
  }

  lemma Pow10UpToThree(k: nat)
    requires k <= 3
    ensures Pow10(k) <= 1000
  {
    Pow10Three();
    if k < 3 {
      assert Pow10(k) <= Pow10(2) == 100 by {
        assert Pow10(0) == 1 && Pow10(1) == 10;
      }
    }
  }

  lemma Pow10Three()
    ensures Pow10(3) == 1000
  {
    assert Pow10(1) == 10;
    assert Pow10(2) == 100;
  }

  lemma ModThousand(x: nat, y: nat)
    requires y < 1000
    ensures (x * 1000 + y) % 1000 == y
  {
  }

  /** `str(n)` has at most `k` characters exactly when `n < 10^k`. */
  lemma {:induction false} DecimalWidth(n: nat, k: nat)
    requires k >= 1
    ensures |Decimal(n)| <= k <==> n < Pow10(k)
    decreases n
  {
    if n >= 10 {
      assert |Decimal(n)| == |Decimal(n / 10)| + 1;
      if k == 1 {
        assert Pow10(1) == 10;
      } else {
        DecimalWidth(n / 10, k - 1);
        assert n / 10 < Pow10(k - 1) <==> n < 10 * Pow10(k - 1);
      }
    } else {
      assert Pow10(k) >= 10 by { Pow10AtLeast(k); }
    }
  }

  lemma {:induction false} Pow10AtLeast(k: nat)
    requires k >= 1
    ensures Pow10(k) >= 10
  {
    if k > 1 { Pow10AtLeast(k - 1); }
  }

  /**
   * `format(n, "03d")` of a natural number is a digit string that reads back as `n`; it has
   * exactly three characters for `n <= 999` and is plain `str(n)` from 100 on.
   */
  lemma Format03Digits(n: nat)
    ensures AllDigits(Format03(n)) && DigitsValue(Format03(n)) == n
    ensures |Format03(n)| >= 3
    ensures n <= 999 <==> |Format03(n)| == 3
    ensures n >= 100 ==> Format03(n) == Decimal(n)
  {
    var d := Decimal(n);
    DecimalDigits(n);
    DecimalWidth(n, 3);
    DecimalWidth(n, 2);
    assert Pow10(3) == 1000 && Pow10(2) == 100;
    if |d| < 3 {
      LeadingZeros(3 - |d|, d);
    }
  }

  /** The last three characters of `format(n, "03d")` are digits worth `n % 1000`. */
  lemma Format03LastThree(n: nat)
    ensures IsDigits(LastThree(Format03(n)))
    ensures DigitsValue(LastThree(Format03(n))) == n % 1000
  {
    Format03Digits(n);
    LastThreeValue(Format03(n));
  }

  /** `lstrip()` removes a leading run of whitespace and keeps the rest. */
  lemma {:induction false} StripLeftSuffix(s: string)
    ensures var r := StripLeft(s); r == s[|s| - |r|..] && AllSpace(s[..|s| - |r|])
    decreases |s|
  {
    if s != [] && IsSpace(s[0]) {
      var r := StripLeft(s[1..]);
      StripLeftSuffix(s[1..]);
      assert s[1..][|s| - 1 - |r|..] == s[|s| - |r|..];
      assert s[..|s| - |r|] == [s[0]] + s[1..][..|s| - 1 - |r|];
    }
  }

  /** `rstrip()` removes a trailing run of whitespace and keeps the rest. */
  lemma {:induction false} StripRightPrefix(s: string)
    ensures var r := StripRight(s); r == s[..|r|] && AllSpace(s[|r|..])
    decreases |s|
  {
    if s != [] && IsSpace(s[|s| - 1]) {
      var r := StripRight(s[..|s| - 1]);
      StripRightPrefix(s[..|s| - 1]);
      assert s[..|s| - 1][..|r|] == s[..|r|];
      assert s[|r|..] == s[..|s| - 1][|r|..] + [s[|s| - 1]];
    }
  }

  /** `strip()` leaves nothing exactly when the text is all whitespace. */
  lemma StripEmpty(s: string)
    ensures Strip(s) == [] <==> AllSpace(s)
  {
    var l := StripLeft(s);
    StripLeftSuffix(s);
    StripRightPrefix(l);
    if AllSpace(s) {
      assert l == s[|s| - |l|..];
    }
  }

  /** Text without whitespace is its own `strip()`. */
  lemma StripNoSpace(s: string)
    requires NoSpace(s)
    ensures Strip(s) == s
  {
    if s != [] {
      assert !IsSpace(s[|s| - 1]);
    }
  }

  /** On a digit string, `int()` agrees with `isdigit()` followed by reading the digits. */
  lemma PyIntDigits(s: string)
    requires IsDigits(s)
    ensures PyInt(s) == Some(DigitsValue(s))
  {
    DigitsHaveNoSpace(s);
    StripNoSpace(s);
    DigitsAreGroups(s);
  }

  lemma DigitsHaveNoSpace(s: string)
    requires AllDigits(s)
    ensures NoSpace(s)
  {
    forall i | 0 <= i < |s| ensures !IsSpace(s[i]) { assert IsDigitChar(s[i]); }
  }

  lemma DigitsAreGroups(s: string)
    requires IsDigits(s)
    ensures IsDigitGroups(s) && '_' !in s && WithoutUnderscores(s) == s
  {
    forall i | 0 <= i < |s| ensures s[i] != '_' { assert IsDigitChar(s[i]); }
  }

  /** A character that is not whitespace survives `strip()`. */
  lemma StripKeeps(s: string, i: nat)
    requires i < |s| && !IsSpace(s[i])
    ensures s[i] in Strip(s)
  {
    var l := StripLeft(s);
    StripLeftSuffix(s);
    var k := |s| - |l|;
    assert l[i - k] == s[i];
    var r := StripRight(l);
    StripRightPrefix(l);
    assert r[i - k] == s[i];
  }

  /** Text with a character that is neither a digit nor an underscore is no digit string for `int()`. */
  lemma NotDigitGroups(t: string, j: int)
    requires 0 <= j < |t| && !DigitOrUnderscore(t[j])
    ensures !IsDigitGroups(t)
  {
  }

  /** `int()` raises on text holding a letter. */
  lemma PyIntRejectsLetter(s: string, i: nat)
    requires i < |s| && ('a' <= s[i] <= 'z' || 'A' <= s[i] <= 'Z')
    ensures PyInt(s) == None
  {
    StripKeeps(s, i);
    var t := Strip(s);
    var j :| 0 <= j < |t| && t[j] == s[i];
    if t[0] == '+' || t[0] == '-' {
      var u := t[1..];
      assert u[j - 1] == t[j];
      NotDigitGroups(u, j - 1);
    } else {
      NotDigitGroups(t, j);
    }
  }
}
