/** The small string toolkit the web front end relies on: JavaScript's
    `String(n)` for integral numbers, the unary `+` that reads such a string
    back, `"\u2002".repeat(n)`, the `length < w && (s += ...)` padding idiom
    and `s.split(" ")[0]`. Strings are sequences of UTF-16 code units, one
    `char` each, so `|s|` is JavaScript's `s.length`. The front end pads its
    columns with EN SPACE (U+2002) and FIGURE SPACE (U+2007), which HTML does
    not collapse; only `split(" ")` and a few literals use the ASCII space. */
module Text {

  function Max(a: int, b: int): int { if a < b then b else a }

  function Min(a: int, b: int): int { if a < b then a else b }

  /** EN SPACE, U+2002: the filler of every padded column. */
  const EnSpace: char := '\U{2002}'

  /** FIGURE SPACE, U+2007: a space as wide as a digit. */
  const FigureSpace: char := '\U{2007}'

  /** `"\u2002".repeat(n)`. */
  function EnSpaces(n: nat): (r: string)
    ensures |r| == n
    ensures forall i :: 0 <= i < n ==> r[i] == EnSpace
  {
    if n == 0 then "" else EnSpaces(n - 1) + [EnSpace]
  }

  /** `s.length < width && (s += "\u2002".repeat(width - s.length))`: widen
      `s` on the right to `width` characters, leaving a longer `s` alone. */
  function PadEnd(s: string, width: nat): (r: string)
    ensures |r| == Max(width, |s|)
    ensures r[..|s|] == s
    ensures forall i :: |s| <= i < |r| ==> r[i] == EnSpace
  {
    if |s| < width then s + EnSpaces(width - |s|) else s
  }

  /** `s.length < width && (s = "\u2002".repeat(width - s.length) + s)`:
      widen `s` on the left to `width` characters, leaving a longer `s`
      alone. */
  function PadStart(s: string, width: nat): (r: string)
    ensures |r| == Max(width, |s|)
    ensures r[|r| - |s|..] == s
    ensures forall i :: 0 <= i < |r| - |s| ==> r[i] == EnSpace
  {
    if |s| < width then EnSpaces(width - |s|) + s else s
  }

  // ---------------------------------------------------------------------
  // Decimal numerals

  predicate IsDigit(c: char) { '0' <= c <= '9' }

  /** A non-empty run of decimal digits. */
  predicate IsDigits(s: string)
  {
    |s| > 0 && forall i :: 0 <= i < |s| ==> IsDigit(s[i])
  }

  /** What `String(n)` produces for an integer, and what a leading `+` added to
      it gives: an optional sign followed by digits. */
  predicate IsNumeral(s: string)
  {
    IsDigits(s) || (|s| > 1 && (s[0] == '-' || s[0] == '+') && IsDigits(s[1..]))
  }

  function DigitChar(d: nat): (c: char)
    requires d < 10
    ensures IsDigit(c)
  {
    ('0' as int + d) as char
  }

  function DigitValue(c: char): nat
    requires IsDigit(c)
  {
    c as int - '0' as int
  }

  /** `String(n)` for a natural number: its decimal digits, most significant
      first, without leading zeros. */
  function NatDigits(n: nat): (r: string)
    ensures IsDigits(r)
    ensures r[0] == '0' ==> n == 0
  {
    if n < 10 then [DigitChar(n)] else NatDigits(n / 10) + [DigitChar(n % 10)]
  }

  /** `String(n)` for an integer: a minus sign in front of a negative one. */
  function IntString(n: int): (r: string)
    ensures IsNumeral(r)
    ensures (r[0] == '-') <==> n < 0
  {
    if n < 0 then "-" + NatDigits(-n) else NatDigits(n)
  }

  /** The value of a run of digits, read left to right. */
  function DigitsValue(s: string): nat
    requires forall i :: 0 <= i < |s| ==> IsDigit(s[i])
  {
    if s == [] then 0 else 10 * DigitsValue(s[..|s| - 1]) + DigitValue(s[|s| - 1])
  }

  /** JavaScript's unary `+` on a numeral: the sign, then the digits' value. */
  function ParseInt(s: string): (r: int)
    requires IsNumeral(s)
    ensures r < 0 ==> s[0] == '-'
    ensures s[0] != '-' ==> r >= 0
    ensures s[0] == '-' ==> r <= 0
  {
    if s[0] == '-' then -(DigitsValue(s[1..]) as int)
    else if s[0] == '+' then DigitsValue(s[1..])
    else DigitsValue(s)
  }

  /** Reading back the digits of `n` gives `n`. */
  lemma {:induction false} NatDigitsValue(n: nat)
    ensures DigitsValue(NatDigits(n)) == n
  {
    var r := NatDigits(n);
    if n >= 10 {
      NatDigitsValue(n / 10);
      assert r[..|r| - 1] == NatDigits(n / 10);
    }
  }

  /** `+String(n) == n`, also after a `+` has been put in front of a
      non-negative numeral. */
  lemma ParseIntString(n: int)
    ensures ParseInt(IntString(n)) == n
    ensures n >= 0 ==> IsNumeral("+" + IntString(n)) && ParseInt("+" + IntString(n)) == n
  {
    if n < 0 {
      NatDigitsValue(-n);
      assert IntString(n)[1..] == NatDigits(-n);
    } else {
      NatDigitsValue(n);
      assert ("+" + IntString(n))[1..] == NatDigits(n);
    }
  }

  function Pow10(k: nat): (p: nat)
    ensures p >= 1
  {
    if k == 0 then 1 else 10 * Pow10(k - 1)
  }

  /** `n` has at most `k` digits exactly when it is below `10^k`. */
  lemma {:induction false} NatDigitsLength(n: nat, k: nat)
    requires k >= 1
    ensures |NatDigits(n)| <= k <==> n < Pow10(k)
  {
    if n < 10 {
      if k > 1 {
        assert Pow10(k) == 10 * Pow10(k - 1);
      }
    } else {
      assert |NatDigits(n)| == |NatDigits(n / 10)| + 1;
      if k == 1 {
        assert Pow10(1) == 10;
      } else {
        NatDigitsLength(n / 10, k - 1);
        assert Pow10(k) == 10 * Pow10(k - 1);
        assert n / 10 < Pow10(k - 1) <==> n < 10 * Pow10(k - 1);
      }
    }
  }

  // ---------------------------------------------------------------------
  // Words

  /** `s.split(" ")[0]`: everything before the first space, or all of `s`
      when it has none. */
  function FirstWord(s: string): (r: string)
    ensures |r| <= |s| && r == s[..|r|]
    ensures forall i :: 0 <= i < |r| ==> r[i] != ' '
    ensures |r| < |s| ==> s[|r|] == ' '
  {
    if s == [] || s[0] == ' ' then "" else [s[0]] + FirstWord(s[1..])
  }

  /** The first word of a space-free word followed by a space and any text is
      that word. */
  lemma {:induction false} FirstWordOfPhrase(w: string, rest: string)
    requires forall i :: 0 <= i < |w| ==> w[i] != ' '
    ensures FirstWord(w + " " + rest) == w
  {
    if w != [] {
      assert (w + " " + rest)[1..] == w[1..] + " " + rest;
      FirstWordOfPhrase(w[1..], rest);
    }
  }

  /** A string with no space is its own first word. */
  lemma {:induction false} FirstWordOfWord(w: string)
    requires forall i :: 0 <= i < |w| ==> w[i] != ' '
    ensures FirstWord(w) == w
  {
    if w != [] {
      FirstWordOfWord(w[1..]);
    }
  }
}
