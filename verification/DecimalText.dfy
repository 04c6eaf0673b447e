/** `_decimal_text`: `format(value.normalize(), "f")`, and the reading of such a text back. */
module DecimalText {
  import opened Wrappers
  import opened Texts
  import opened Decimals
  import opened Context28

  // ----- digits ---------------------------------------------------------------------------

  function DigitChar(d: nat): char
    requires d < 10
  {
    '0' + d as char
  }

  predicate IsDigit(c: char) {
    '0' <= c <= '9'
  }

  function DigitValue(c: char): nat
    requires IsDigit(c)
  {
    (c - '0') as nat
  }

  function Digits(n: nat): (s: string)
    ensures |s| > 0 && forall c | c in s :: IsDigit(c)
  {
    if n < 10 then [DigitChar(n)] else Digits(n / 10) + [DigitChar(n % 10)]
  }

  function Zeros(k: nat): (s: string)
    ensures |s| == k && forall c | c in s :: c == '0'
  {
    if k == 0 then "" else Zeros(k - 1) + "0"
  }

  /** The number a string of digits denotes, leading zeros allowed. */
  function Number(s: string): nat
    requires forall c | c in s :: IsDigit(c)
  {
    if s == "" then 0 else 10 * Number(s[..|s| - 1]) + DigitValue(s[|s| - 1])
  }

  lemma {:induction false} NumberOfDigits(n: nat)
    ensures Number(Digits(n)) == n
  {
    if n >= 10 {
      NumberOfDigits(n / 10);
      assert Digits(n)[..|Digits(n)| - 1] == Digits(n / 10);
    }
  }

  lemma {:induction false} LeadingZeros(k: nat, s: string)
    requires forall c | c in s :: IsDigit(c)
    ensures Number(Zeros(k) + s) == Number(s)
  {
    var t := Zeros(k) + s;
    if s != "" {
      assert t[..|t| - 1] == Zeros(k) + s[..|s| - 1];
      LeadingZeros(k, s[..|s| - 1]);
    } else if k > 0 {
      assert t[..|t| - 1] == Zeros(k - 1) + "";
      LeadingZeros(k - 1, "");
    }
  }

  lemma {:induction false} TrailingZeros(s: string, k: nat)
    requires forall c | c in s :: IsDigit(c)
    ensures Number(s + Zeros(k)) == Number(s) * Pow10(k)
  {
    var t := s + Zeros(k);
    if k == 0 {
      assert t == s;
    } else {
      assert t[..|t| - 1] == s + Zeros(k - 1);
      TrailingZeros(s, k - 1);
      assert Number(s) * Pow10(k) == 10 * (Number(s) * Pow10(k - 1));
    }
  }

  // ----- normalize ------------------------------------------------------------------------

  const LIMIT: int := 10_000_000_000_000_000_000_000_000_000   // 10^28

  /** How many digits the 28-digit context drops. */
  function Dropped(c: nat): nat {
    if c < LIMIT then 0 else 1 + Dropped(c / 10)
  }

  /** The value as the context keeps it: at most 28 digits, half-even. */
  function Fit(d: Dec): (r: Dec)
    requires d.coeff >= 0
  {
    var k := Dropped(d.coeff);
    if k == 0 then d else Dec(HalfEven(d.coeff as real / Pow10(k) as real), d.exp + k)
  }

  lemma FitIsNonNegative(d: Dec)
    requires d.coeff >= 0
    ensures Fit(d).coeff >= 0
  {
    var k := Dropped(d.coeff);
    assert d.coeff as real / Pow10(k) as real >= 0.0;
  }

  /** Trailing zeros of the coefficient move into the exponent; every zero is `0`. */
  function StripZeros(d: Dec): (r: Dec)
    requires d.coeff >= 0
    ensures r.coeff >= 0 && Value(r) == Value(d)
    ensures r == ZERO || r.coeff % 10 != 0
    decreases d.coeff
  {
    if d.coeff == 0 then ZERO
    else if d.coeff % 10 == 0 then
      TenStep(d.exp);
      TimesTen((d.coeff / 10) as real, Ten(d.exp));
      StripZeros(Dec(d.coeff / 10, d.exp + 1))
    else d
  }

  function Normalize(d: Dec): Dec
    requires d.coeff >= 0
  {
    FitIsNonNegative(d);
    StripZeros(Fit(d))
  }

  // ----- fixed-point text -----------------------------------------------------------------

  /** The digits of `c`, padded so that at least one is left of the last `k`. */
  function Padded(c: nat, k: nat): (t: string)
    ensures |t| > k && forall x | x in t :: IsDigit(x)
  {
    var s := Digits(c);
    if |s| <= k then Zeros(k + 1 - |s|) + s else s
  }

  function FixedPoint(d: Dec): string
    requires d.coeff >= 0
  {
    if d.exp >= 0 then Digits(d.coeff) + Zeros(d.exp)
    else
      var t := Padded(d.coeff, -d.exp);
      t[..|t| + d.exp] + "." + t[|t| + d.exp..]
  }

  function Text(d: Dec): string
    requires d.coeff >= 0
  {
    FixedPoint(Normalize(d))
  }

  // ----- reading --------------------------------------------------------------------------

  /** The first decimal point, or the length of the text. */
  function PointAt(s: string): (i: nat)
    ensures i <= |s| && '.' !in s[..i]
    ensures i < |s| ==> s[i] == '.'
  {
    if s == "" || s[0] == '.' then 0 else 1 + PointAt(s[1..])
  }

  /** Digits with at most one decimal point, and at least one digit. */
  function Parse(s: string): Option<Dec> {
    var i := PointAt(s);
    var digits := s[..i] + s[if i < |s| then i + 1 else i..];
    if digits == "" || exists c | c in digits :: !IsDigit(c) then None
    else Some(Dec(Number(digits), if i < |s| then -(|s| - i - 1) else 0))
  }

  /** The first position of an exponent mark, or the length of the text. */
  function ExponentAt(s: string): (i: nat)
    ensures i <= |s|
    ensures 'e' !in s && 'E' !in s ==> i == |s|
  {
    if s == "" || s[0] == 'e' || s[0] == 'E' then 0 else 1 + ExponentAt(s[1..])
  }

  predicate Signed(s: string) {
    s != "" && (s[0] == '-' || s[0] == '+')
  }

  function Unsigned(s: string): string {
    if Signed(s) then s[1..] else s
  }

  function WithSign(s: string, n: int): int {
    if s != "" && s[0] == '-' then -n else n
  }

  /** `Decimal(text)` for the finite ASCII notations: sign, digits, point, exponent. */
  function ReadDecimal(text: string): Option<Dec> {
    var s := Strip(text);
    var at := ExponentAt(s);
    var mantissa := Parse(Unsigned(s[..at]));
    var tail := if at < |s| then Unsigned(s[at + 1..]) else "0";
    if mantissa.None? || tail == "" || exists c | c in tail :: !IsDigit(c) then None
    else
      var shift := if at < |s| then WithSign(s[at + 1..], Number(tail)) else 0;
      Some(Dec(WithSign(s, mantissa.value.coeff), mantissa.value.exp + shift))
  }

  // ----- theorems -------------------------------------------------------------------------

  lemma {:induction false} PointIs(s: string, i: nat)
    requires i <= |s| && '.' !in s[..i] && (i < |s| ==> s[i] == '.')
    ensures PointAt(s) == i
  {
    if i > 0 {
      assert s[0] == s[..i][0];
      assert s[1..][..i - 1] == s[..i][1..];
      PointIs(s[1..], i - 1);
    }
  }

  lemma NoPoint(s: string)
    requires forall c | c in s :: IsDigit(c)
    ensures '.' !in s
  {
  }

  /** A text in plain notation: digits, and after a point a last digit that is not zero. */
  predicate Plain(s: string) {
    var i := PointAt(s);
    && 0 < i
    && (forall c | c in s[..i] :: IsDigit(c))
    && (i < |s| ==> i + 1 < |s| && (forall c | c in s[i + 1..] :: IsDigit(c)) && s[|s| - 1] != '0')
  }

  lemma LastDigit(n: nat)
    ensures DigitValue(Digits(n)[|Digits(n)| - 1]) == n % 10
  {
  }

  lemma PaddedNumber(c: nat, k: nat)
    ensures Number(Padded(c, k)) == c
    ensures DigitValue(Padded(c, k)[|Padded(c, k)| - 1]) == c % 10
  {
    hide Number, Digits, Zeros;
    NumberOfDigits(c);
    LastDigit(c);
    var s := Digits(c);
    if |s| <= k {
      LeadingZeros(k + 1 - |s|, s);
    }
  }

  lemma PointedText(t: string, i: nat)
    requires 0 < i < |t| && forall c | c in t :: IsDigit(c)
    ensures var text := t[..i] + "." + t[i..];
            PointAt(text) == i && text[..i] == t[..i] && text[i + 1..] == t[i..]
    ensures t[..i] + t[i..] == t
  {
    var text := t[..i] + "." + t[i..];
    assert text[..i] == t[..i] && text[i] == '.' && text[i + 1..] == t[i..];
    NoPoint(t[..i]);
    PointIs(text, i);
  }

  /** Printing a negative exponent and reading it back gives the very same decimal. */
  lemma FractionRoundTrip(d: Dec)
    requires 0 <= d.coeff && d.exp < 0 && d.coeff % 10 != 0
    ensures Parse(FixedPoint(d)) == Some(d)
    ensures Plain(FixedPoint(d))
  {
    hide Number, Digits, Zeros, Padded, PointAt;
    PaddedNumber(d.coeff, -d.exp);
    var t := Padded(d.coeff, -d.exp);
    PointedText(t, |t| + d.exp);
  }

  lemma WholeRoundTrip(c: nat, n: nat)
    ensures Parse(FixedPoint(Dec(c, n))) == Some(Dec(c * Pow10(n), 0))
    ensures Plain(FixedPoint(Dec(c, n)))
  {
    var text := FixedPoint(Dec(c, n));
    NoPoint(text);
    assert text[..|text|] == text && text[|text|..] == "" && text + "" == text;
    PointIs(text, |text|);
    NumberOfDigits(c);
    TrailingZeros(Digits(c), n);
  }

  lemma WholeValue(c: nat, n: nat)
    ensures Value(Dec(c * Pow10(n), 0)) == Value(Dec(c, n))
  {
    TenSplit(0, n);
    assert (c * Pow10(n)) as real == c as real * Pow10(n) as real;
  }

  /** What `_decimal_text` prints is plain notation, and reads back as the value it was given
      once that value is held in the 28-digit context. */
  lemma TextRoundTrip(d: Dec)
    requires d.coeff >= 0
    ensures Plain(Text(d))
    ensures Parse(Text(d)).Some? && Value(Parse(Text(d)).value) == Value(Fit(d))
  {
    FitIsNonNegative(d);
    var n := Normalize(d);
    if n.exp >= 0 {
      WholeRoundTrip(n.coeff, n.exp);
      WholeValue(n.coeff, n.exp);
    } else {
      FractionRoundTrip(n);
    }
  }

  /** Equal values have one normal form. */
  lemma NormalFormUnique(a: Dec, b: Dec)
    requires a.coeff > 0 && b.coeff > 0 && a.coeff % 10 != 0 && b.coeff % 10 != 0
    requires Value(a) == Value(b)
    ensures a == b
  {
    if a.exp < b.exp {
      NormalFormOrdered(a, b);
    } else {
      NormalFormOrdered(b, a);
    }
  }

  lemma CancelUnit(x: int, y: int, p: int, u: real)
    requires u > 0.0 && x as real * u == y as real * (p as real * u)
    ensures x == y * p
  {
    assert (y * p) as real == y as real * p as real;
    assert (x as real - (y * p) as real) * u == 0.0;
  }

  lemma SameCoefficient(x: int, y: int, n: nat, u: real, v: real)
    requires x % 10 != 0 && u > 0.0 && v == Pow10(n) as real * u && x as real * u == y as real * v
    ensures n == 0 && x == y
  {
    CancelUnit(x, y, Pow10(n), u);
    if n > 0 {
      MultipleOfTen(y, n);
    }
  }

  lemma NormalFormOrdered(a: Dec, b: Dec)
    requires a.coeff % 10 != 0 && Value(a) == Value(b) && a.exp <= b.exp
    ensures a == b
  {
    hide Ten;
    TenSplit(a.exp, b.exp - a.exp);
    SameCoefficient(a.coeff, b.coeff, b.exp - a.exp, Ten(a.exp), Ten(b.exp));
  }

  lemma MultipleOfTen(y: int, n: nat)
    requires n > 0
    ensures (y * Pow10(n)) % 10 == 0
  {
    assert y * Pow10(n) == 10 * (y * Pow10(n - 1));
  }

  /** Comparing the texts compares the values held in the context. */
  lemma TextCanonical(a: Dec, b: Dec)
    requires a.coeff >= 0 && b.coeff >= 0
    ensures Text(a) == Text(b) <==> Value(Fit(a)) == Value(Fit(b))
  {
    hide Ten, FixedPoint, Parse;
    TextRoundTrip(a);
    TextRoundTrip(b);
    FitIsNonNegative(a);
    FitIsNonNegative(b);
    if Value(Fit(a)) == Value(Fit(b)) {
      var m, n := Normalize(a), Normalize(b);
      assert Value(ZERO) == 0.0;
      if m != ZERO && n != ZERO {
        NormalFormUnique(m, n);
      } else {
        PositiveValue(m);
        PositiveValue(n);
      }
    }
  }

  /** Up to 28 digits nothing is lost: the round trip keeps the value, and string equality of
      two printed amounts is equality of the amounts. */
  lemma TextExact(a: Dec, b: Dec)
    requires 0 <= a.coeff < LIMIT && 0 <= b.coeff < LIMIT
    ensures Plain(Text(a)) && Parse(Text(a)).Some? && Value(Parse(Text(a)).value) == Value(a)
    ensures Text(a) == Text(b) <==> Value(a) == Value(b)
  {
    TextRoundTrip(a);
    TextCanonical(a, b);
  }

  lemma FitOneDigit(c: nat, r: nat)
    requires LIMIT <= c < LIMIT + 5 && r == LIMIT / 10
    ensures Fit(Dec(c, 0)) == Dec(r, 1)
  {
    assert Dropped(c / 10) == 0 && Dropped(c) == 1 && Pow10(1) == 10;
    assert (c as real / 10.0).Floor == r;
  }

  /** Beyond 28 digits two different amounts can print alike. */
  lemma TextBeyondContext()
    ensures Text(Dec(LIMIT + 1, 0)) == Text(Dec(LIMIT, 0))
    ensures Value(Dec(LIMIT + 1, 0)) > Value(Dec(LIMIT, 0))
  {
    hide Fit, StripZeros, FixedPoint;
    FitOneDigit(LIMIT, LIMIT / 10);
    FitOneDigit(LIMIT + 1, LIMIT / 10);
    assert Normalize(Dec(LIMIT + 1, 0)) == Normalize(Dec(LIMIT, 0));
    assert Ten(0) == 1.0;
  }

  lemma PlainIsUnmarked(s: string)
    requires Plain(s)
    ensures Stripped(s) && s != "" && !Signed(s) && 'e' !in s && 'E' !in s
  {
    var i := PointAt(s);
    forall c | c in s ensures IsDigit(c) || c == '.' {
      var j :| 0 <= j < |s| && s[j] == c;
      if j < i {
        assert s[..i][j] == c;
      } else if i < j {
        assert s[i + 1..][j - i - 1] == c;
      }
    }
    assert s[0] in s && s[|s| - 1] in s;
  }

  /** The general reader reads a printed amount the same way. */
  lemma ReadsOwnText(d: Dec)
    requires d.coeff >= 0
    ensures ReadDecimal(Text(d)) == Parse(Text(d))
    ensures ReadDecimal(Text(d)).Some? && Value(ReadDecimal(Text(d)).value) == Value(Fit(d))
  {
    hide Value, Fit, Text, Parse, Plain, Number;
    TextRoundTrip(d);
    PlainIsUnmarked(Text(d));
    var s := Text(d);
    assert s[..|s|] == s;
    assert forall c | c in "0" :: IsDigit(c);
  }

  // ----- signs and exponents --------------------------------------------------------------

  lemma PlainParses(body: string)
    requires Plain(body)
    ensures Parse(body).Some? && Parse(body).value.coeff >= 0
  {
  }

  lemma {:induction false} ExponentIs(s: string, i: nat)
    requires i <= |s| && 'e' !in s[..i] && 'E' !in s[..i]
    requires i < |s| ==> s[i] == 'e' || s[i] == 'E'
    ensures ExponentAt(s) == i
  {
    if i > 0 {
      assert s[0] == s[..i][0] && s[1..][..i - 1] == s[..i][1..];
      assert forall c | c in s[1..][..i - 1] :: c in s[..i];
      ExponentIs(s[1..], i - 1);
    }
  }

  /** A sign in front of a plain text is read as one: "-" negates, "+" does nothing. */
  lemma ReadsSign(body: string, sign: char)
    requires Plain(body) && sign in {'-', '+'}
    ensures var d := Parse(body);
            && d.Some?
            && ReadDecimal([sign] + body)
            == Some(Dec(if sign == '-' then -d.value.coeff else d.value.coeff, d.value.exp))
  {
    PlainParses(body);
    PlainIsUnmarked(body);
    var s := [sign] + body;
    hide Plain, Parse, Number;
    assert s[1..] == body && s[|s| - 1] == body[|body| - 1];
    assert s[..|s|] == s;
    assert 'e' !in s && 'E' !in s;
    assert Stripped(s) && Strip(s) == s;
    ZeroTail();
    hide ExponentAt, Strip;
  }

  lemma ZeroTail()
    ensures "0" != "" && !(exists c | c in "0" :: !IsDigit(c))
  {
  }

  lemma ReadsParts(s: string, at: int, body: string, tail: string, digits: string)
    requires Strip(s) == s && ExponentAt(s) == at < |s| && s[..at] == body && s[at + 1..] == tail
    requires Unsigned(body) == body && Parse(body).Some?
    requires WithSign(s, Parse(body).value.coeff) == Parse(body).value.coeff
    requires Unsigned(tail) == digits && digits != "" && !(exists c | c in digits :: !IsDigit(c))
    ensures ReadDecimal(s)
         == Some(Dec(Parse(body).value.coeff, Parse(body).value.exp + WithSign(tail, Number(digits))))
  {
    hide Strip, ExponentAt, Parse, Number, Unsigned, WithSign, IsDigit, Signed;
  }

  lemma MarkedShape(s: string, body: string, mark: char, tail: string)
    requires s == body + [mark] + tail && body != "" && tail != ""
    requires !IsSpace(body[0]) && !IsSpace(tail[|tail| - 1])
    ensures |body| < |s| && s[..|body|] == body && s[|body|] == mark && s[|body| + 1..] == tail
    ensures s[0] == body[0] && Stripped(s)
  {
    assert s[|s| - 1] == tail[|tail| - 1];
  }

  /** The text is a mantissa, a mark and a tail. */
  lemma ReadsMarked(body: string, mark: char, tail: string)
    requires Plain(body) && mark in {'e', 'E'}
    requires tail != "" && Unsigned(tail) != "" && !IsSpace(tail[|tail| - 1])
    requires !(exists c | c in Unsigned(tail) :: !IsDigit(c))
    ensures Parse(body).Some?
    ensures ReadDecimal(body + [mark] + tail)
         == Some(Dec(Parse(body).value.coeff, Parse(body).value.exp + WithSign(tail, Number(Unsigned(tail)))))
  {
    hide Plain, Parse, Number, ReadDecimal, Unsigned, ExponentAt, WithSign, IsDigit, IsSpace, Signed, Strip, Stripped;
    PlainParses(body);
    PlainIsUnmarked(body);
    EndsUnspaced(body);
    var s, digits, d := body + [mark] + tail, Unsigned(tail), Parse(body).value;
    MarkedShape(s, body, mark, tail);
    NoSign(s, d.coeff);
    NoSign(body, 0);
    StartsAlike(s, body);
    StripNothing(s);
    ExponentIs(s, |body|);
    ReadsParts(s, |body|, body, tail, digits);
  }

  lemma EndsUnspaced(s: string)
    requires Stripped(s) && s != ""
    ensures !IsSpace(s[0]) && !IsSpace(s[|s| - 1])
  {
  }

  lemma StartsAlike(s: string, body: string)
    requires s != "" && body != "" && s[0] == body[0]
    ensures Signed(s) <==> Signed(body)
  {
  }

  lemma StripNothing(s: string)
    requires Stripped(s)
    ensures Strip(s) == s
  {
  }

  lemma NoSign(s: string, n: int)
    ensures !Signed(s) ==> Unsigned(s) == s && WithSign(s, n) == n
  {
  }

  lemma TailReads(n: nat, down: bool, tail: string)
    requires tail == (if down then "-" else "") + Digits(n)
    ensures Unsigned(tail) == Digits(n) && Unsigned(tail) != "" && !(exists c | c in Unsigned(tail) :: !IsDigit(c))
    ensures tail != "" && (tail[0] == '-' <==> down) && !IsSpace(tail[|tail| - 1])
  {
    hide Digits;
    var digits := Digits(n);
    assert digits[0] in digits && digits[|digits| - 1] in digits;
    if down {
      assert tail[1..] == digits;
    } else {
      assert tail == digits;
    }
    assert tail[|tail| - 1] == digits[|digits| - 1];
  }

  /** An exponent behind a plain text shifts it by that power of ten, up or down. */
  lemma ReadsExponent(body: string, mark: char, down: bool, n: nat)
    requires Plain(body) && mark in {'e', 'E'}
    ensures Parse(body).Some?
    ensures var shift: int := if down then 0 - n else n;
            ReadDecimal(body + [mark] + ((if down then "-" else "") + Digits(n)))
            == Some(Dec(Parse(body).value.coeff, Parse(body).value.exp + shift))
  {
    hide Plain, Parse, Digits, Number, ReadDecimal;
    var tail := (if down then "-" else "") + Digits(n);
    TailReads(n, down, tail);
    NumberOfDigits(n);
    ReadsMarked(body, mark, tail);
  }
}
