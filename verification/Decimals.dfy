/** 256-bit decimals with 18 fractional digits: printing, parsing and the products the vault
    uses (packages/bignumber/src/math.rs). Arithmetic past 256 bits aborts. */
module Decimals {
  import opened Base

  const DECIMAL_FRACTIONAL: nat := 1_000_000_000_000_000_000
  const U128_LIMIT: nat := 0x1_0000_0000_0000_0000_0000_0000_0000_0000
  const U256_LIMIT: nat := U128_LIMIT * U128_LIMIT

  datatype Error = BadWhole | BadFractional | TooManyFractionalDigits | BadDots | Overflow | ZeroDivisor

  function Fit(x: nat): Result<nat, Error> {
    if x < U256_LIMIT then Ok(x) else Err(Overflow)
  }

  // ----- Digits

  predicate IsDigit(c: char) {
    '0' <= c <= '9'
  }

  function DigitValue(c: char): (d: nat)
    requires IsDigit(c)
    ensures d < 10
  {
    (c - '0') as int
  }

  function Digit(d: nat): (c: char)
    requires d < 10
    ensures IsDigit(c) && DigitValue(c) == d
  {
    '0' + d as char
  }

  predicate AllDigits(s: string) {
    forall i :: 0 <= i < |s| ==> IsDigit(s[i])
  }

  /** The number a string of digits writes; the empty string writes nought. */
  function Value(s: string): nat
    requires AllDigits(s)
  {
    if s == "" then 0 else 10 * Value(s[..|s| - 1]) + DigitValue(s[|s| - 1])
  }

  function Pow10(n: nat): (p: nat)
    ensures p > 0
  {
    if n == 0 then 1 else 10 * Pow10(n - 1)
  }

  /** `U256::to_string`: no leading zeros. */
  function ToDigits(n: nat): (s: string)
    ensures AllDigits(s) && s != ""
  {
    if n < 10 then [Digit(n)] else ToDigits(n / 10) + [Digit(n % 10)]
  }

  function Zeros(n: nat): (s: string)
    ensures |s| == n && AllDigits(s)
    ensures forall i :: 0 <= i < n ==> s[i] == '0'
  {
    if n == 0 then "" else Zeros(n - 1) + "0"
  }

  function TrimEnd(s: string): (t: string)
    ensures |t| <= |s| && t == s[..|t|]
    ensures t != "" ==> t[|t| - 1] != '0'
    ensures forall i :: |t| <= i < |s| ==> s[i] == '0'
  {
    if s != "" && s[|s| - 1] == '0' then TrimEnd(s[..|s| - 1]) else s
  }

  /** `U256::from_dec_str`. */
  function FromDigits(s: string, bad: Error): Result<nat, Error> {
    if !AllDigits(s) then Err(bad) else if Value(s) >= U256_LIMIT then Err(bad) else Ok(Value(s))
  }

  /** The parts between dots. */
  function SplitDots(s: string): (parts: seq<string>)
    ensures |parts| >= 1
  {
    if s == "" then [""]
    else
      var rest := SplitDots(s[1..]);
      if s[0] == '.' then [""] + rest else [[s[0]] + rest[0]] + rest[1..]
  }

  // ----- Printing and parsing

  /** Eighteen digits, padded in front. */
  function Padded(digits: string): string {
    if |digits| < 18 then Zeros(18 - |digits|) + digits else digits
  }

  function Print(d: nat): string {
    var whole := d / DECIMAL_FRACTIONAL;
    var fractional := d % DECIMAL_FRACTIONAL;
    if fractional == 0 then ToDigits(whole)
    else ToDigits(whole) + "." + TrimEnd(Padded(ToDigits(fractional)))
  }

  function Parse(input: string): Result<nat, Error> {
    var parts := SplitDots(input);
    if |parts| == 1 then
      var whole :- FromDigits(parts[0], BadWhole);
      Fit(whole * DECIMAL_FRACTIONAL)
    else if |parts| == 2 then
      var whole :- FromDigits(parts[0], BadWhole);
      var fractional :- FromDigits(parts[1], BadFractional);
      if |parts[1]| > 18 then Err(TooManyFractionalDigits)
      else
        var atomics :- Fit(whole * DECIMAL_FRACTIONAL);
        var scaled :- Fit(fractional * Pow10(18 - |parts[1]|));
        Fit(atomics + scaled)
    else Err(BadDots)
  }

  // ----- Products

  /** `Decimal256 / Decimal256`. */
  function Divide(a: nat, b: nat): Result<nat, Error> {
    if b == 0 then Err(ZeroDivisor)
    else
      var scaled :- Fit(a * DECIMAL_FRACTIONAL);
      Ok(scaled / b)
  }

  function MultiplyRatio(x: nat, nominator: nat, denominator: nat): Result<nat, Error> {
    if denominator == 0 then Err(ZeroDivisor)
    else
      var product :- Fit(x * nominator);
      Ok(product / denominator)
  }

  /** `Uint256 * Decimal256`. */
  function TimesDecimal(x: nat, d: nat): Result<nat, Error> {
    if x == 0 || d == 0 then Ok(0) else MultiplyRatio(x, d, DECIMAL_FRACTIONAL)
  }

  /** `Uint256 / Decimal256`. */
  function OverDecimal(x: nat, d: nat): Result<nat, Error> {
    if d == 0 then Err(ZeroDivisor) else if x == 0 then Ok(0) else MultiplyRatio(x, DECIMAL_FRACTIONAL, d)
  }

  /** Back to 128 bits. */
  function Narrow(x: nat): Result<nat, Error> {
    if x < U128_LIMIT then Ok(x) else Err(Overflow)
  }

  // ----- The round trip

  lemma {:induction false} ValueOfDigits(n: nat)
    ensures Value(ToDigits(n)) == n
  {
    if n < 10 {
      assert ToDigits(n)[..0] == "";
    } else {
      ValueOfDigits(n / 10);
      assert ToDigits(n)[..|ToDigits(n)| - 1] == ToDigits(n / 10);
    }
  }

  lemma {:induction false} DigitsFit(n: nat, k: nat)
    requires k > 0 && n < Pow10(k)
    ensures |ToDigits(n)| <= k
  {
    if n >= 10 {
      DigitsFit(n / 10, k - 1);
    }
  }

  lemma {:induction false} LeadingZeros(k: nat, s: string)
    requires AllDigits(s)
    ensures AllDigits(Zeros(k) + s) && Value(Zeros(k) + s) == Value(s)
    decreases |s|, k
  {
    var t := Zeros(k) + s;
    if s == "" {
      if k > 0 {
        LeadingZeros(k - 1, "");
        assert t[..|t| - 1] == Zeros(k - 1) + "";
        assert t[|t| - 1] == '0';
      } else {
        assert t == "";
      }
    } else {
      LeadingZeros(k, s[..|s| - 1]);
      assert t[..|t| - 1] == Zeros(k) + s[..|s| - 1];
    }
  }

  lemma {:induction false} TenTimes(v: nat, p: nat)
    ensures 10 * (v * p) == v * (10 * p)
    ensures 10 * v * p == v * (10 * p)
  {
  }

  /** Trimming divides by ten once for every zero trimmed. */
  lemma {:induction false} TrimmedValue(s: string)
    requires AllDigits(s)
    ensures var t := TrimEnd(s);
            AllDigits(t) && |t| <= |s| && Value(s) == Value(t) * Pow10(|s| - |t|)
  {
    if s != "" && s[|s| - 1] == '0' {
      var front := s[..|s| - 1];
      TrimmedValue(front);
      var t := TrimEnd(s);
      assert Pow10(|s| - |t|) == 10 * Pow10(|front| - |t|);
      assert Value(s) == 10 * Value(front);
      TenTimes(Value(t), Pow10(|front| - |t|));
    }
  }

  predicate NoDots(s: string) {
    forall i :: 0 <= i < |s| ==> s[i] != '.'
  }

  lemma {:induction false} SplitNoDots(s: string)
    requires NoDots(s)
    ensures SplitDots(s) == [s]
  {
    if s != "" {
      SplitNoDots(s[1..]);
      assert [s[0]] + s[1..] == s;
    }
  }

  lemma {:induction false} SplitOneDot(a: string, b: string)
    requires NoDots(a) && NoDots(b)
    ensures SplitDots(a + "." + b) == [a, b]
  {
    var s := a + "." + b;
    if a == "" {
      assert s[1..] == b;
      SplitNoDots(b);
    } else {
      assert s[1..] == a[1..] + "." + b;
      SplitOneDot(a[1..], b);
      assert [a[0]] + a[1..] == a;
    }
  }

  lemma {:induction false} PowEighteen()
    ensures Pow10(18) == DECIMAL_FRACTIONAL
  {
    assert Pow10(2) == 100;
    assert Pow10(4) == 10_000;
    assert Pow10(6) == 1_000_000;
    assert Pow10(8) == 100_000_000;
    assert Pow10(10) == 10_000_000_000;
    assert Pow10(12) == 1_000_000_000_000;
    assert Pow10(14) == 100_000_000_000_000;
    assert Pow10(16) == 10_000_000_000_000_000;
  }

  /** Padding makes eighteen digits of the same value. */
  lemma {:induction false} PaddedValue(n: nat)
    requires n < DECIMAL_FRACTIONAL
    ensures var s := Padded(ToDigits(n)); AllDigits(s) && |s| == 18 && Value(s) == n
  {
    var digits := ToDigits(n);
    PowEighteen();
    DigitsFit(n, 18);
    ValueOfDigits(n);
    if |digits| < 18 {
      LeadingZeros(18 - |digits|, digits);
    }
  }

  /** The fractional digits printed, scaled back, are the fractional part. */
  lemma {:induction false} FractionalRoundTrip(n: nat)
    requires n < DECIMAL_FRACTIONAL
    ensures var t := TrimEnd(Padded(ToDigits(n)));
            AllDigits(t) && |t| <= 18 && Value(t) * Pow10(18 - |t|) == n
  {
    PaddedValue(n);
    TrimmedValue(Padded(ToDigits(n)));
  }

  lemma {:induction false} AtMostProduct(x: nat, p: nat)
    requires p > 0
    ensures x <= x * p
  {
    assert x * p == x + x * (p - 1);
  }

  lemma {:induction false} DigitsNoDots(s: string)
    requires AllDigits(s)
    ensures NoDots(s)
  {
  }

  /** What a whole and a fractional part write, in atomics. */
  function Atomics(w: string, f: string): nat
    requires AllDigits(w) && AllDigits(f) && |f| <= 18
  {
    Value(w) * DECIMAL_FRACTIONAL + Value(f) * Pow10(18 - |f|)
  }

  /** Nothing is rounded: what parses with a fractional part is whole and fractional digits
      to the atomic, and it parses exactly when it has that form and fits. */
  lemma {:induction false} ParsesExactly(w: string, f: string)
    requires NoDots(w) && NoDots(f)
    ensures var sound := AllDigits(w) && AllDigits(f) && |f| <= 18;
            && (Parse(w + "." + f).Ok? <==> sound && Atomics(w, f) < U256_LIMIT)
            && (Parse(w + "." + f).Ok? ==> Parse(w + "." + f).value == Atomics(w, f))
  {
    SplitOneDot(w, f);
    if AllDigits(w) && AllDigits(f) && |f| <= 18 {
      AtMostProduct(Value(f), Pow10(18 - |f|));
    }
  }

  lemma {:induction false} ParsesWhole(s: string)
    requires NoDots(s)
    ensures Parse(s).Ok? <==> AllDigits(s) && Value(s) * DECIMAL_FRACTIONAL < U256_LIMIT
    ensures Parse(s).Ok? ==> Parse(s).value == Value(s) * DECIMAL_FRACTIONAL
  {
    SplitNoDots(s);
    if AllDigits(s) {
      AtMostProduct(Value(s), DECIMAL_FRACTIONAL);
    }
  }

  lemma {:induction false} OneDot(s: string, i: nat)
    requires i < |s| && s[i] == '.'
    ensures |SplitDots(s)| >= 2
  {
    if i > 0 {
      OneDot(s[1..], i - 1);
    }
  }

  lemma {:induction false} TwoDots(s: string, i: nat, j: nat)
    requires i < j < |s| && s[i] == '.' && s[j] == '.'
    ensures |SplitDots(s)| >= 3
  {
    if i == 0 {
      OneDot(s[1..], j - 1);
    } else {
      TwoDots(s[1..], i - 1, j - 1);
    }
  }

  /** The string is whole digits, which may be none, and what they write fits. */
  predicate WrittenWhole(s: string) {
    AllDigits(s) && Value(s) * DECIMAL_FRACTIONAL < U256_LIMIT
  }

  /** The dot at `i` stands between two strings of digits, either of which may be empty. */
  predicate WrittenAt(s: string, i: nat) {
    && i < |s| && s[i] == '.' && AllDigits(s[..i]) && AllDigits(s[i + 1..]) && |s[i + 1..]| <= 18
    && Atomics(s[..i], s[i + 1..]) < U256_LIMIT
  }

  lemma {:induction false} ParsesAtDot(s: string, i: nat)
    requires i < |s| && s[i] == '.'
    ensures Parse(s).Ok? <==> WrittenAt(s, i)
    ensures WrittenAt(s, i) ==> Parse(s) == Ok(Atomics(s[..i], s[i + 1..]))
  {
    if NoDots(s[..i]) && NoDots(s[i + 1..]) {
      assert s == s[..i] + "." + s[i + 1..];
      ParsesExactly(s[..i], s[i + 1..]);
    } else {
      var j :| 0 <= j < |s| && j != i && s[j] == '.';
      if i < j { TwoDots(s, i, j); } else { TwoDots(s, j, i); }
      DotBeside(s, i, j);
    }
  }

  /** The strings that parse, and the number each parses to: digits, with at most one dot,
      at most eighteen of them behind it. */
  lemma {:induction false} ParsesIff(s: string)
    ensures Parse(s).Ok? <==> WrittenWhole(s) || exists i: nat :: WrittenAt(s, i)
    ensures WrittenWhole(s) ==> Parse(s) == Ok(Value(s) * DECIMAL_FRACTIONAL)
    ensures forall i: nat :: WrittenAt(s, i) ==> Parse(s) == Ok(Atomics(s[..i], s[i + 1..]))
  {
    if NoDots(s) {
      ParsesWhole(s);
    } else {
      var i: nat :| i < |s| && s[i] == '.';
      assert !IsDigit(s[i]);
      ParsesAtDot(s, i);
      forall m: nat | WrittenAt(s, m) ensures m == i {
        if m != i { DotBeside(s, m, i); }
      }
    }
  }

  lemma {:induction false} DotBeside(s: string, m: nat, j: nat)
    requires m < |s| && j < |s| && j != m && s[j] == '.'
    ensures !AllDigits(s[..m]) || !AllDigits(s[m + 1..])
  {
    if j < m {
      assert !IsDigit(s[..m][j]);
    } else {
      assert !IsDigit(s[m + 1..][j - m - 1]);
    }
  }

  /** The documentation rules out the empty string and a missing whole part; the code reads
      both. */
  lemma {:induction false} EmptyPartsParse()
    ensures Parse("") == Ok(0)
    ensures Parse(".23") == Ok(23 * Pow10(16))
  {
    assert WrittenWhole("");
    ParsesIff("");
    var s := ".23";
    assert s[..0] == "" && s[1..] == "23";
    assert "23"[..1] == "2" && "2"[..0] == "";
    assert Value("2") == 2 && Value("23") == 23;
    PowEighteen();
    assert Pow10(18) == 10 * Pow10(17) && Pow10(17) == 10 * Pow10(16);
    assert Atomics("", "23") == 23 * Pow10(16);
    assert WrittenAt(s, 0);
    ParsesIff(s);
  }

  lemma {:induction false} PrintParseWhole(whole: nat)
    requires whole * DECIMAL_FRACTIONAL < U256_LIMIT
    ensures Parse(ToDigits(whole)) == Ok(whole * DECIMAL_FRACTIONAL)
  {
    ValueOfDigits(whole);
    DigitsNoDots(ToDigits(whole));
    ParsesWhole(ToDigits(whole));
  }

  lemma {:induction false} PrintParseParts(whole: nat, fractional: nat)
    requires fractional < DECIMAL_FRACTIONAL && whole * DECIMAL_FRACTIONAL + fractional < U256_LIMIT
    ensures Parse(ToDigits(whole) + "." + TrimEnd(Padded(ToDigits(fractional)))) == Ok(whole * DECIMAL_FRACTIONAL + fractional)
  {
    var w := ToDigits(whole);
    var t := TrimEnd(Padded(ToDigits(fractional)));
    ValueOfDigits(whole);
    FractionalRoundTrip(fractional);
    DigitsNoDots(w);
    DigitsNoDots(t);
    ParsesExactly(w, t);
  }

  /** Every 256-bit decimal is parsed back from what it prints as, without overflow. */
  lemma {:induction false} PrintParse(d: nat)
    requires d < U256_LIMIT
    ensures Parse(Print(d)) == Ok(d)
  {
    PrintParseOf(d, d / DECIMAL_FRACTIONAL, d % DECIMAL_FRACTIONAL);
  }

  lemma {:induction false} PrintParseOf(d: nat, whole: nat, fractional: nat)
    requires d < U256_LIMIT && whole == d / DECIMAL_FRACTIONAL && fractional == d % DECIMAL_FRACTIONAL
    ensures Parse(Print(d)) == Ok(d)
  {
    assert whole * DECIMAL_FRACTIONAL + fractional == d;
    if fractional == 0 {
      PrintParseWhole(whole);
    } else {
      PrintParseParts(whole, fractional);
    }
  }

  /** Up to the eighteenth digit a trailing zero changes nothing. */
  lemma {:induction false} TrailingZero(w: string, f: string)
    requires NoDots(w) && NoDots(f) && |f| < 18 && Parse(w + "." + f).Ok?
    ensures Parse(w + "." + (f + "0")) == Parse(w + "." + f)
  {
    ParsesExactly(w, f);
    ParsesExactly(w, f + "0");
    assert (f + "0")[..|f|] == f;
    assert Value(f + "0") == 10 * Value(f);
    TenTimes(Value(f), Pow10(18 - |f + "0"|));
  }
}
