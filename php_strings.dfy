/**
 * The PHP string coercions the promotion applies to its stored settings:
 * the truthiness test `! $s` on a string, `explode(',', $s)` and `intval`.
 * PHP integers are 64-bit; `intval` of a numeric string saturates at the
 * ends of that range.
 */
module PhpStrings {

  /** PHP_INT_MAX and PHP_INT_MIN on a 64-bit build. */
  const PhpIntMax: int := 0x7fff_ffff_ffff_ffff
  const PhpIntMin: int := -0x8000_0000_0000_0000

  /** How many times `c` occurs in `s`. */
  function Occurrences(s: string, c: char): nat
  {
    if s == [] then 0 else (if s[0] == c then 1 else 0) + Occurrences(s[1..], c)
  }

  /** `explode(',', s)`: the pieces between the commas, in order. */
  function Explode(s: string): (pieces: seq<string>)
    ensures |pieces| >= 1
    ensures forall i :: 0 <= i < |pieces| ==> ',' !in pieces[i]
  {
    if s == [] then [""]
    else
      var rest := Explode(s[1..]);
      if s[0] == ',' then [""] + rest
      else [[s[0]] + rest[0]] + rest[1..]
  }

  /** `implode(',', pieces)`. */
  function Implode(pieces: seq<string>): string
    requires |pieces| >= 1
  {
    if |pieces| == 1 then pieces[0] else pieces[0] + "," + Implode(pieces[1..])
  }

  /** Exploding yields one more piece than there are commas. */
  lemma {:induction false} ExplodeCountsCommas(s: string)
    ensures |Explode(s)| == Occurrences(s, ',') + 1
  {
    if s != [] {
      ExplodeCountsCommas(s[1..]);
    }
  }

  /** Joining the pieces with commas gives back the exploded string. */
  lemma {:induction false} ImplodeExplode(s: string)
    ensures Implode(Explode(s)) == s
  {
    if s != [] {
      ImplodeExplode(s[1..]);
      var rest := Explode(s[1..]);
      assert s == [s[0]] + s[1..];
      if s[0] == ',' {
        assert ([""] + rest)[1..] == rest;
      } else if |rest| > 1 {
        var pieces := [[s[0]] + rest[0]] + rest[1..];
        assert pieces[1..] == rest[1..];
      }
    }
  }

  /** A string without a comma explodes to itself alone. */
  lemma {:induction false} ExplodeOnePiece(a: string)
    ensures ',' !in a ==> Explode(a) == [a]
  {
    if a != [] && ',' !in a {
      ExplodeOnePiece(a[1..]);
      assert a == [a[0]] + a[1..];
    }
  }

  /** A comma-free prefix followed by a comma is the first piece. */
  lemma {:induction false} ExplodeFirstPiece(a: string, b: string)
    requires ',' !in a
    ensures Explode(a + "," + b) == [a] + Explode(b)
  {
    var s := a + "," + b;
    if a == [] {
      assert s[1..] == b;
    } else {
      ExplodeFirstPiece(a[1..], b);
      assert s[1..] == a[1..] + "," + b;
      assert a == [a[0]] + a[1..];
    }
  }

  /** Exploding comma-free pieces joined by commas gives back the pieces. */
  lemma {:induction false} ExplodeImplode(pieces: seq<string>)
    requires |pieces| >= 1
    requires forall i :: 0 <= i < |pieces| ==> ',' !in pieces[i]
    ensures Explode(Implode(pieces)) == pieces
  {
    if |pieces| == 1 {
      ExplodeOnePiece(pieces[0]);
    } else {
      ExplodeImplode(pieces[1..]);
      ExplodeFirstPiece(pieces[0], Implode(pieces[1..]));
      assert pieces == [pieces[0]] + pieces[1..];
    }
  }

  predicate IsDigit(c: char)
  {
    '0' <= c <= '9'
  }

  /** The whitespace PHP skips before a numeric string: space, \t, \n, \r, \v, \f. */
  predicate IsSpace(c: char)
  {
    c == ' ' || c == '\t' || c == '\n' || c == '\r' || c == '\U{0B}' || c == '\U{0C}'
  }

  predicate AllDigits(s: string)
  {
    forall i :: 0 <= i < |s| ==> IsDigit(s[i])
  }

  /** `s` without its leading whitespace: a suffix of `s`. */
  function SkipSpaces(s: string): (t: string)
    ensures |t| <= |s| && t == s[|s| - |t|..]
    ensures t == [] || !IsSpace(t[0])
  {
    if s != [] && IsSpace(s[0]) then SkipSpaces(s[1..]) else s
  }

  /** `t` without its leading sign character, if it has one. */
  function Unsigned(t: string): (u: string)
    ensures |u| <= |t| && u == t[|t| - |u|..]
  {
    if t != [] && (t[0] == '-' || t[0] == '+') then t[1..] else t
  }

  /** After its leading whitespace and an optional sign, `s` starts with a digit. */
  predicate HasLeadingNumber(s: string)
  {
    var u := Unsigned(SkipSpaces(s));
    u != [] && IsDigit(u[0])
  }

  /** The longest prefix of `s` made of decimal digits. */
  function DigitPrefix(s: string): (d: string)
    ensures d <= s && AllDigits(d)
    ensures |d| < |s| ==> !IsDigit(s[|d|])
  {
    if s != [] && IsDigit(s[0]) then [s[0]] + DigitPrefix(s[1..]) else []
  }

  /** The value of a string of decimal digits, most significant first. */
  function DigitsValue(d: string): nat
    requires AllDigits(d)
  {
    if d == [] then 0 else DigitsValue(d[..|d| - 1]) * 10 + (d[|d| - 1] as int - '0' as int)
  }

  /** Saturation to the 64-bit range. */
  function Clamp(n: int): int
  {
    if n < PhpIntMin then PhpIntMin else if n > PhpIntMax then PhpIntMax else n
  }

  /**
   * The value `intval` reads from text that starts after the whitespace: an
   * optional sign, then the longest run of digits, saturated to 64 bits.
   */
  function SignedValue(t: string): (n: int)
    ensures PhpIntMin <= n <= PhpIntMax
  {
    if t != [] && t[0] == '-' then Clamp(-(DigitsValue(DigitPrefix(t[1..])) as int))
    else if t != [] && t[0] == '+' then Clamp(DigitsValue(DigitPrefix(t[1..])))
    else Clamp(DigitsValue(DigitPrefix(t)))
  }

  /**
   * `intval(s)` for a string: leading whitespace, an optional sign, then the
   * longest run of digits; no digits there gives 0, and a value outside the
   * 64-bit range saturates.
   */
  function IntVal(s: string): (n: int)
    ensures PhpIntMin <= n <= PhpIntMax
  {
    SignedValue(SkipSpaces(s))
  }

  function DigitChar(k: nat): char
    requires k < 10
  {
    ('0' as int + k) as char
  }

  /** The canonical decimal digits of `n`; reading them back gives `n`. */
  function Decimal(n: nat): (d: string)
    ensures d != [] && AllDigits(d)
    ensures DigitsValue(d) == n
  {
    if n < 10 then [DigitChar(n)]
    else
      var d := Decimal(n / 10) + [DigitChar(n % 10)];
      assert d[..|d| - 1] == Decimal(n / 10);
      d
  }

  /** How PHP prints an integer: an optional minus sign, then the digits. */
  function Render(n: int): (s: string)
    ensures s != [] && ',' !in s && !IsSpace(s[0])
  {
    if n < 0 then "-" + Decimal(-n) else Decimal(n)
  }

  lemma {:induction false} DigitPrefixOfDigits(d: string)
    requires AllDigits(d)
    ensures DigitPrefix(d) == d
  {
    if d != [] {
      DigitPrefixOfDigits(d[1..]);
      assert d == [d[0]] + d[1..];
    }
  }

  /** `intval` of a plain run of digits is its value. */
  lemma IntValOfDigits(d: string)
    requires d != [] && AllDigits(d)
    ensures IntVal(d) == Clamp(DigitsValue(d))
  {
    assert IsDigit(d[0]) && !IsSpace(d[0]);
    assert SkipSpaces(d) == d;
    assert d == d + [];
    SignedValueOfRun(d, d, []);
  }

  /** `intval` of a minus sign followed by a run of digits is minus their value. */
  lemma IntValOfNegatedDigits(s: string)
    requires |s| >= 2 && s[0] == '-' && AllDigits(s[1..])
    ensures IntVal(s) == Clamp(-(DigitsValue(s[1..]) as int))
  {
    assert SkipSpaces(s) == s;
    assert s[1..] == s[1..] + [];
    SignedValueOfNegativeRun(s, s[1..], []);
  }

  /** Every 64-bit integer printed by PHP reads back through `intval` unchanged. */
  lemma IntValRender(n: int)
    requires PhpIntMin <= n <= PhpIntMax
    ensures IntVal(Render(n)) == n
  {
    if n < 0 {
      var s := Render(n);
      assert s[1..] == Decimal(-n);
      IntValOfNegatedDigits(s);
    } else {
      IntValOfDigits(Decimal(n));
    }
  }

  /** Leading whitespace is skipped up to the first character that is not whitespace. */
  lemma {:induction false} SkipSpacesPrefix(w: string, x: string)
    requires forall i :: 0 <= i < |w| ==> IsSpace(w[i])
    requires x == [] || !IsSpace(x[0])
    ensures SkipSpaces(w + x) == x
  {
    if w == [] {
      assert w + x == x;
    } else {
      assert (w + x)[1..] == w[1..] + x;
      SkipSpacesPrefix(w[1..], x);
    }
  }

  /** The digit run of `d + rest` ends where `d` does when `rest` starts with no digit. */
  lemma {:induction false} DigitPrefixStops(d: string, rest: string)
    requires AllDigits(d)
    requires rest == [] || !IsDigit(rest[0])
    ensures DigitPrefix(d + rest) == d
  {
    if d == [] {
      assert d + rest == rest;
    } else {
      assert (d + rest)[1..] == d[1..] + rest;
      DigitPrefixStops(d[1..], rest);
      assert d == [d[0]] + d[1..];
    }
  }

  /** The digits read from `d + rest` have the value of `d`. */
  lemma DigitsValueOfRun(d: string, rest: string)
    requires AllDigits(d)
    requires rest == [] || !IsDigit(rest[0])
    ensures DigitsValue(DigitPrefix(d + rest)) == DigitsValue(d)
  {
    DigitPrefixStops(d, rest);
  }

  /** Digits up to a non-digit give their value. */
  lemma SignedValueOfRun(t: string, d: string, rest: string)
    requires d != [] && AllDigits(d)
    requires rest == [] || !IsDigit(rest[0])
    requires t == d + rest
    ensures SignedValue(t) == Clamp(DigitsValue(d))
  {
    assert t[0] == d[0];
    DigitsValueOfRun(d, rest);
  }

  /** A minus sign, then digits up to a non-digit, give minus their value. */
  lemma SignedValueOfNegativeRun(t: string, d: string, rest: string)
    requires AllDigits(d)
    requires rest == [] || !IsDigit(rest[0])
    requires t != [] && t[0] == '-' && t[1..] == d + rest
    ensures SignedValue(t) == Clamp(-(DigitsValue(d) as int))
  {
    DigitsValueOfRun(d, rest);
  }

  /** After whitespace, `intval` reads the text that follows it. */
  lemma IntValAfterSpaces(w: string, t: string)
    requires forall i :: 0 <= i < |w| ==> IsSpace(w[i])
    requires t == [] || !IsSpace(t[0])
    ensures IntVal(w + t) == SignedValue(t)
  {
    SkipSpacesPrefix(w, t);
  }

  /** PHP's decimal form of a 64-bit integer, before a non-digit, reads as that integer. */
  lemma SignedValueOfRender(n: int, rest: string)
    requires PhpIntMin <= n <= PhpIntMax
    requires rest == [] || !IsDigit(rest[0])
    ensures SignedValue(Render(n) + rest) == n
  {
    var r := Render(n);
    var t := r + rest;
    assert t[0] == r[0];
    if n < 0 {
      var d := Decimal(-n);
      assert r[1..] == d;
      assert t[1..] == d + rest;
      SignedValueOfNegativeRun(t, d, rest);
    } else {
      SignedValueOfRun(t, r, rest);
    }
  }

  /**
   * A 64-bit integer in PHP's decimal form, after any whitespace and before
   * text that cannot continue a number (no digit, '.', 'e' or 'E'), is what
   * `intval` reads: " 13" gives 13 and "12abc" gives 12.
   */
  lemma IntValLeadingNumber(w: string, n: int, rest: string)
    requires forall i :: 0 <= i < |w| ==> IsSpace(w[i])
    requires PhpIntMin <= n <= PhpIntMax
    requires rest == [] || !(IsDigit(rest[0]) || rest[0] == '.' || rest[0] == 'e' || rest[0] == 'E')
    ensures IntVal(w + Render(n) + rest) == n
  {
    var t := Render(n) + rest;
    assert w + Render(n) + rest == w + t;
    assert t[0] == Render(n)[0];
    SignedValueOfRender(n, rest);
    IntValAfterSpaces(w, t);
  }

  /** A string that does not start with a number after its whitespace and sign reads as 0. */
  lemma IntValNoLeadingNumber(s: string)
    requires !HasLeadingNumber(s)
    ensures IntVal(s) == 0
  {
  }

  /**
   * `! $s` holds for a string exactly when it is "" or "0": a falsy text is
   * one piece, without a comma, that `intval` reads as 0.
   */
  predicate Falsy(s: string): (b: bool)
    ensures b ==> ',' !in s && IntVal(s) == 0
  {
    if s == "" then true
    else if s == "0" then
      assert s == Decimal(0) + [];
      IntValOfDigits(s);
      true
    else false
  }
}
