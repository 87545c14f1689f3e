/** USDC amounts: integer atomic units, and the decimal strings they are read from and shown as. */
module Money {
  import opened Prelude

  const USDC_DECIMALS := 6
  const SCALE := 1000000

  datatype MoneyError = Empty | Negative | Malformed | TooPrecise(decimals: nat) | NegativeOnWire

  // ----- digits -----

  predicate IsDigit(c: char) {
    '0' <= c <= '9'
  }

  predicate AllDigits(s: string) {
    forall i | 0 <= i < |s| :: IsDigit(s[i])
  }

  function Pow10(n: nat): (r: nat)
    ensures r > 0
  {
    if n == 0 then 1 else 10 * Pow10(n - 1)
  }

  /** The number a string of digits denotes; leading zeros are allowed, and "" is 0. */
  function Digits(s: string): nat
    requires AllDigits(s)
  {
    if s == "" then 0 else 10 * Digits(s[..|s| - 1]) + (s[|s| - 1] - '0') as nat
  }

  /** The shortest decimal numeral of `n`. */
  function Numeral(n: nat): (r: string)
    ensures r != "" && AllDigits(r)
    ensures Digits(r) == n
    ensures n > 0 ==> r[0] != '0'
    ensures n < 10 ==> |r| == 1
  {
    var last := ('0' as int + n % 10) as char;
    if n < 10 then
      assert [last][..0] == "";
      [last]
    else
      var front := Numeral(n / 10);
      assert (front + [last])[..|front|] == front;
      front + [last]
  }

  function Zeros(n: nat): (r: string)
    ensures |r| == n && AllDigits(r)
  {
    seq(n, _ => '0')
  }

  lemma {:induction false} DigitsAppend(a: string, b: string)
    requires AllDigits(a) && AllDigits(b)
    ensures AllDigits(a + b)
    ensures Digits(a + b) == Digits(a) * Pow10(|b|) + Digits(b)
  {
    if b == "" {
      assert a + b == a;
    } else {
      var front := b[..|b| - 1];
      DigitsAppend(a, front);
      assert (a + b)[..|a + b| - 1] == a + front;
      assert Pow10(|b|) == 10 * Pow10(|front|);
      assert Digits(a) * Pow10(|b|) == 10 * (Digits(a) * Pow10(|front|));
    }
  }

  lemma {:induction false} DigitsOfZeros(n: nat)
    ensures Digits(Zeros(n)) == 0
  {
    if n > 0 {
      assert Zeros(n)[..n - 1] == Zeros(n - 1);
      DigitsOfZeros(n - 1);
    }
  }

  /** Below 10^k a numeral has at most `k` digits. */
  lemma {:induction false} NumeralLength(n: nat, k: nat)
    requires n < Pow10(k)
    ensures k > 0 ==> |Numeral(n)| <= k
  {
    if k > 1 && n >= 10 {
      NumeralLength(n / 10, k - 1);
    } else if k == 1 {
      assert Pow10(1) == 10;
    }
  }

  // ----- trimming -----

  function TrimStart(s: string): string {
    if s != "" && IsSpace(s[0]) then TrimStart(s[1..]) else s
  }

  function TrimEnd(s: string): string {
    if s != "" && IsSpace(s[|s| - 1]) then TrimEnd(s[..|s| - 1]) else s
  }

  function Trim(s: string): string {
    TrimEnd(TrimStart(s))
  }

  // ----- parsing -----

  function LeadingDigits(s: string): (r: nat)
    ensures r <= |s| && AllDigits(s[..r])
    ensures r < |s| ==> !IsDigit(s[r])
  {
    if s == "" || !IsDigit(s[0]) then 0
    else
      var r := 1 + LeadingDigits(s[1..]);
      assert s[1..][..r - 1] == s[1..r];
      r
  }

  predicate StartsWith(s: string, prefix: string) {
    prefix <= s
  }

  function WithoutDollar(s: string): string {
    if StartsWith(s, "$") then s[1..] else s
  }

  /** The integer and fraction digits of a decimal, when it is one. */
  function SplitDecimal(body: string): (r: Option<(string, string)>)
    ensures r.Some? ==> r.value.0 != "" && AllDigits(r.value.0) && AllDigits(r.value.1)
  {
    var n := LeadingDigits(body);
    if n == 0 then None
    else if n == |body| then Some((body, ""))
    else if body[n] == '.' && AllDigits(body[n + 1..]) then Some((body[..n], body[n + 1..]))
    else None
  }

  function Scaled(whole: string, fraction: string): nat
    requires AllDigits(whole) && AllDigits(fraction) && |fraction| <= USDC_DECIMALS
  {
    Digits(whole) * SCALE + Digits(fraction + Zeros(USDC_DECIMALS - |fraction|))
  }

  function UsdcToAtomic(usdc: string): Result<nat, MoneyError> {
    var trimmed := Trim(usdc);
    if trimmed == "" then Err(Empty)
    else if StartsWith(trimmed, "-") || StartsWith(trimmed, "$-") then Err(Negative)
    else
      match SplitDecimal(WithoutDollar(trimmed))
      case None => Err(Malformed)
      case Some((whole, fraction)) =>
        if |fraction| > USDC_DECIMALS then Err(TooPrecise(|fraction|))
        else Ok(Scaled(whole, fraction))
  }

  function Padded(s: string): string {
    if |s| < USDC_DECIMALS then Zeros(USDC_DECIMALS - |s|) + s else s
  }

  function AtomicToUsdc(a: int): string {
    var magnitude := if a < 0 then -a else a;
    (if a < 0 then "-" else "") + Numeral(magnitude / SCALE) + "." + Padded(Numeral(magnitude % SCALE))
  }

  function AtomicToWire(a: int): Result<string, MoneyError> {
    if a < 0 then Err(NegativeOnWire) else Ok(Numeral(a))
  }

  function WireToAtomic(wire: string): Result<nat, MoneyError> {
    if Trim(wire) == "" || !AllDigits(Trim(wire)) then Err(Malformed) else Ok(Digits(Trim(wire)))
  }

  // ----- what is accepted, and its value -----

  predicate AllSpace(s: string) {
    forall i | 0 <= i < |s| :: IsSpace(s[i])
  }

  /** Trimming takes all the space at both ends, and nothing else. */
  lemma {:induction false} TrimIs(s: string) returns (before: string, after: string)
    ensures s == before + Trim(s) + after && AllSpace(before) && AllSpace(after)
    ensures Trim(s) != "" ==> !IsSpace(Trim(s)[0]) && !IsSpace(Trim(s)[|Trim(s)| - 1])
  {
    hide IsSpace;
    before := TrimStartIs(s);
    after := TrimEndIs(TrimStart(s));
  }

  /** Space added at either end makes no difference. */
  lemma {:induction false} TrimAround(before: string, s: string, after: string)
    requires AllSpace(before) && AllSpace(after)
    ensures Trim(before + s + after) == Trim(s)
  {
    hide IsSpace;
    assert before + s + after == before + (s + after);
    TrimStartAround(before, s + after);
    TrimStartInside(s, after);
    TrimEndAround(TrimStart(s), after);
  }

  lemma {:induction false} TrimStartAround(before: string, s: string)
    requires AllSpace(before)
    ensures TrimStart(before + s) == TrimStart(s)
  {
    hide IsSpace;
    if before == "" {
      assert before + s == s;
    } else {
      assert (before + s)[1..] == before[1..] + s;
      TrimStartAround(before[1..], s);
    }
  }

  lemma {:induction false} TrimStartInside(s: string, after: string)
    requires AllSpace(after)
    ensures TrimStart(s) != "" ==> TrimStart(s + after) == TrimStart(s) + after
    ensures TrimStart(s) == "" ==> TrimStart(s + after) == ""
  {
    hide IsSpace;
    if s == "" {
      assert s + after == after + "";
      TrimStartAround(after, "");
    } else if IsSpace(s[0]) {
      assert (s + after)[1..] == s[1..] + after;
      TrimStartInside(s[1..], after);
    }
  }

  lemma {:induction false} TrimEndAround(s: string, after: string)
    requires AllSpace(after)
    ensures TrimEnd(s + after) == TrimEnd(s)
  {
    hide IsSpace;
    if after == "" {
      assert s + after == s;
    } else {
      assert (s + after)[..|s + after| - 1] == s + after[..|after| - 1];
      TrimEndAround(s, after[..|after| - 1]);
    }
  }

  lemma {:induction false} TrimStartIs(s: string) returns (before: string)
    ensures s == before + TrimStart(s) && AllSpace(before)
    ensures TrimStart(s) != "" ==> !IsSpace(TrimStart(s)[0])
  {
    hide IsSpace;
    before := "";
    if s != "" && IsSpace(s[0]) {
      before := TrimStartIs(s[1..]);
      before := [s[0]] + before;
    }
  }

  lemma {:induction false} TrimEndIs(s: string) returns (after: string)
    ensures s == TrimEnd(s) + after && AllSpace(after)
    ensures TrimEnd(s) != "" ==> TrimEnd(s)[0] == s[0] && !IsSpace(TrimEnd(s)[|TrimEnd(s)| - 1])
  {
    hide IsSpace;
    after := "";
    if s != "" && IsSpace(s[|s| - 1]) {
      after := TrimEndIs(s[..|s| - 1]);
      after := after + [s[|s| - 1]];
    }
  }

  /** `s`, trimmed, is an optional dollar sign, digits, and an optional point with more digits. */
  ghost predicate Reads(s: string, whole: string, fraction: string) {
    && whole != "" && AllDigits(whole) && AllDigits(fraction)
    && exists dollar: bool, point: bool ::
         (point || fraction == "") && Trim(s) == Written(dollar, whole, point, fraction)
  }

  function Written(dollar: bool, whole: string, point: bool, fraction: string): string {
    (if dollar then "$" else "") + whole + (if point then "." + fraction else "")
  }

  lemma {:induction false} LeadingDigitsOf(whole: string, rest: string)
    requires AllDigits(whole) && (rest == "" || !IsDigit(rest[0]))
    ensures LeadingDigits(whole + rest) == |whole|
  {
    if whole == "" {
      assert whole + rest == rest;
    } else {
      assert (whole + rest)[1..] == whole[1..] + rest;
      LeadingDigitsOf(whole[1..], rest);
    }
  }

  lemma {:induction false} WrittenStart(dollar: bool, whole: string, point: bool, fraction: string)
    requires whole != "" && AllDigits(whole)
    ensures var t := Written(dollar, whole, point, fraction);
      && t != "" && !StartsWith(t, "-") && !StartsWith(t, "$-")
      && WithoutDollar(t) == whole + (if point then "." + fraction else "")
  {
    var body := whole + (if point then "." + fraction else "");
    var t := Written(dollar, whole, point, fraction);
    assert IsDigit(whole[0]) && body[0] == whole[0];
    assert t == (if dollar then "$" else "") + body;
    if dollar {
      assert t[0] == '$' && t[1] == whole[0] && t[1..] == body;
    } else {
      assert t == body && t[0] == whole[0];
    }
  }

  lemma {:induction false} SplitOfBody(whole: string, point: bool, fraction: string)
    requires whole != "" && AllDigits(whole) && AllDigits(fraction) && (point || fraction == "")
    ensures SplitDecimal(whole + (if point then "." + fraction else "")) == Some((whole, fraction))
  {
    var rest := if point then "." + fraction else "";
    var body := whole + rest;
    LeadingDigitsOf(whole, rest);
    hide LeadingDigits;
    if point {
      assert body[|whole|] == '.' && body[|whole| + 1..] == fraction && body[..|whole|] == whole;
    } else {
      assert body == whole;
    }
  }

  lemma {:induction false} ReadsAs(s: string, dollar: bool, whole: string, point: bool, fraction: string)
    requires Trim(s) == Written(dollar, whole, point, fraction)
    requires whole != "" && AllDigits(whole) && AllDigits(fraction) && (point || fraction == "")
    ensures UsdcToAtomic(s) ==
      if |fraction| > USDC_DECIMALS then Err(TooPrecise(|fraction|)) else Ok(Scaled(whole, fraction))
  {
    hide Trim, Digits, Written, Scaled, AllDigits;
    WrittenStart(dollar, whole, point, fraction);
    SplitOfBody(whole, point, fraction);
    hide SplitDecimal, WithoutDollar, StartsWith;
  }

  /**
   * Every string read as a decimal with at most six places is accepted, at exactly that value
   * scaled by a million: whole.fraction is Digits(whole + fraction) / 10^|fraction|.
   */
  lemma {:induction false} ExactValue(s: string, whole: string, fraction: string)
    requires Reads(s, whole, fraction)
    ensures AllDigits(whole + fraction)
    ensures |fraction| <= 6 ==>
      && UsdcToAtomic(s).Ok?
      && UsdcToAtomic(s).value * Pow10(|fraction|) == Digits(whole + fraction) * 1000000
    ensures |fraction| > 6 ==> UsdcToAtomic(s) == Err(TooPrecise(|fraction|))
  {
    var dollar, point :|
      (point || fraction == "") && Trim(s) == Written(dollar, whole, point, fraction);
    hide Trim, Digits, Pow10, Written, Reads, Scaled, UsdcToAtomic;
    ReadsAs(s, dollar, whole, point, fraction);
    if |fraction| <= USDC_DECIMALS { ScaledValue(whole, fraction); }
  }

  lemma {:induction false} ScaledValue(whole: string, fraction: string)
    requires AllDigits(whole) && AllDigits(fraction) && |fraction| <= USDC_DECIMALS
    ensures AllDigits(whole + fraction)
    ensures Scaled(whole, fraction) * Pow10(|fraction|) == Digits(whole + fraction) * SCALE
  {
    var f, z := |fraction|, USDC_DECIMALS - |fraction|;
    DigitsAppend(whole, fraction);
    DigitsAppend(fraction, Zeros(z));
    DigitsOfZeros(z);
    PowersOfTen(f);
    hide Digits, Pow10, Zeros;
    ScaleByPowers(Digits(whole), Digits(fraction), Pow10(f), Pow10(z));
  }

  lemma {:induction false} ScaleByPowers(w: nat, d: nat, p: nat, q: nat)
    requires p * q == SCALE
    ensures (w * SCALE + d * q) * p == (w * p + d) * SCALE
  {
    calc {
      (w * SCALE + d * q) * p;
    ==
      (w * SCALE) * p + (d * q) * p;
    ==
      (w * p) * SCALE + d * (p * q);
    }
  }

  lemma {:induction false} PowersOfTen(f: nat)
    requires f <= USDC_DECIMALS
    ensures Pow10(f) * Pow10(USDC_DECIMALS - f) == SCALE
  {
    assert Pow10(0) == 1 && Pow10(1) == 10 && Pow10(2) == 100 && Pow10(3) == 1000;
    assert Pow10(4) == 10 * Pow10(3) && Pow10(5) == 10 * Pow10(4) && Pow10(6) == 10 * Pow10(5);
  }

  /** A sign is refused as negative, before or after the dollar, whatever follows; and so is nothing at all. */
  lemma {:induction false} SignsRefused(s: string, rest: string)
    ensures Trim(s) == "-" + rest || Trim(s) == "$-" + rest ==> UsdcToAtomic(s) == Err(Negative)
    ensures Trim(s) == "" ==> UsdcToAtomic(s) == Err(Empty)
  {
    hide Trim, SplitDecimal, WithoutDollar, Scaled;
    assert ("-" + rest)[..1] == "-" && ("$-" + rest)[..2] == "$-";
  }

  /** Nothing else is accepted. */
  lemma {:induction false} AcceptedIsRead(s: string)
    requires UsdcToAtomic(s).Ok?
    ensures exists whole, fraction :: Reads(s, whole, fraction) && |fraction| <= USDC_DECIMALS
  {
    hide Trim, Scaled, AllDigits, IsDigit, SplitDecimal, StartsWith, WithoutDollar, Written;
    var t := Trim(s);
    var body := WithoutDollar(t);
    var (whole, fraction) := SplitDecimal(body).value;
    var point := BodyWritten(body, whole, fraction);
    var dollar := DollarWritten(t, whole, point, fraction);
    assert Reads(s, whole, fraction);
  }

  lemma {:induction false} DollarWritten(t: string, whole: string, point: bool, fraction: string)
      returns (dollar: bool)
    requires WithoutDollar(t) == whole + (if point then "." + fraction else "")
    ensures t == Written(dollar, whole, point, fraction)
  {
    dollar := StartsWith(t, "$");
    assert t == (if dollar then "$" else "") + WithoutDollar(t);
  }

  lemma {:induction false} BodyWritten(body: string, whole: string, fraction: string) returns (point: bool)
    requires SplitDecimal(body) == Some((whole, fraction))
    ensures (point || fraction == "") && body == whole + (if point then "." + fraction else "")
  {
    var n := LeadingDigits(body);
    point := n < |body|;
    if point { assert body == body[..n] + [body[n]] + body[n + 1..]; }
  }

  // ----- round trips -----

  lemma {:induction false} TrimKeeps(s: string)
    requires s != "" && !IsSpace(s[0]) && !IsSpace(s[|s| - 1])
    ensures Trim(s) == s
  {}

  lemma {:induction false} PaddedFraction(m: nat)
    requires m < SCALE
    ensures var f := Padded(Numeral(m)); |f| == USDC_DECIMALS && AllDigits(f) && Digits(f) == m
  {
    PowersOfTen(USDC_DECIMALS);
    NumeralLength(m, USDC_DECIMALS);
    var f := Numeral(m);
    DigitsAppend(Zeros(USDC_DECIMALS - |f|), f);
    DigitsOfZeros(USDC_DECIMALS - |f|);
  }

  /** An amount is always shown with six decimals, without superfluous zeros in front. */
  lemma {:induction false} PrintedForm(a: int) returns (whole: string, fraction: string)
    ensures AtomicToUsdc(a) == (if a < 0 then "-" else "") + Written(false, whole, true, fraction)
    ensures whole != "" && AllDigits(whole) && AllDigits(fraction) && |fraction| == 6
    ensures |whole| == 1 || whole[0] != '0'
    ensures Scaled(whole, fraction) == if a < 0 then -a else a
  {
    var magnitude := if a < 0 then -a else a;
    PaddedFraction(magnitude % SCALE);
    whole, fraction := Numeral(magnitude / SCALE), Padded(Numeral(magnitude % SCALE));
    hide Digits, Zeros, Numeral, Padded;
    assert fraction + Zeros(0) == fraction;
    assert Digits(whole) == magnitude / SCALE;
    assert Written(false, whole, true, fraction) == whole + "." + fraction;
    assert AtomicToUsdc(a) == (if a < 0 then "-" else "") + Written(false, whole, true, fraction);
    hide AtomicToUsdc, Written;
  }

  /** Printing an amount and reading it back is lossless; a negative amount is refused. */
  lemma {:induction false} RoundTrip(a: int)
    ensures UsdcToAtomic(AtomicToUsdc(a)) == if a < 0 then Err(Negative) else Ok(a)
  {
    var s := AtomicToUsdc(a);
    hide AtomicToUsdc, Digits, Zeros, Scaled, Trim, IsSpace;
    var whole, fraction := PrintedForm(a);
    assert IsDigit(whole[0]) && IsDigit(fraction[|fraction| - 1]);
    PrintedTrims(s, a < 0, whole, fraction);
    if a >= 0 { ReadsAs(s, false, whole, true, fraction); }
    hide SplitDecimal, WithoutDollar;
  }

  lemma {:induction false} PrintedTrims(s: string, negative: bool, whole: string, fraction: string)
    requires s == (if negative then "-" else "") + Written(false, whole, true, fraction)
    requires whole != "" && AllDigits(whole) && AllDigits(fraction) && fraction != ""
    ensures Trim(s) == s && (negative ==> StartsWith(s, "-"))
    ensures !negative ==> s == Written(false, whole, true, fraction)
  {
    assert IsDigit(whole[0]) && IsDigit(fraction[|fraction| - 1]);
    assert s[|s| - 1] == fraction[|fraction| - 1];
    assert s[0] == if negative then '-' else whole[0];
    TrimKeeps(s);
  }

  /** The wire form is lossless too. */
  lemma {:induction false} WireRoundTrip(a: nat)
    ensures AtomicToWire(a).Ok? && WireToAtomic(AtomicToWire(a).value) == Ok(a)
  {
    var s := Numeral(a);
    assert IsDigit(s[0]) && IsDigit(s[|s| - 1]);
    TrimKeeps(s);
  }

  /** The two forms agree: an integer on the wire is a million times smaller as a decimal. */
  lemma {:induction false} WireAndDecimalAgree(s: string, a: nat)
    requires WireToAtomic(s) == Ok(a)
    ensures UsdcToAtomic(s) == Ok(a * 1000000)
  {
    var t := Trim(s);
    hide Trim, Digits, SplitDecimal;
    assert t == Written(false, t, false, "");
    assert Reads(s, t, "");
    ExactValue(s, t, "");
    assert t + "" == t;
    assert Pow10(0) == 1;
    hide UsdcToAtomic;
  }
}
