/** The pieces of JavaScript semantics the frame handler leans on: the
    truthiness of optional strings, `a || b || c` chains, and the decimal
    text of a number as `toString()` and template literals produce it. */
module JsValues {
  import opened Wrappers

  /** A string-or-null is truthy when it is present and not empty. */
  predicate Truthy(s: Option<string>) {
    s.Some? && s.value != ""
  }

  /** Index `i` holds the first truthy value of `values`. */
  predicate FirstTruthyAt(values: seq<Option<string>>, i: int) {
    0 <= i < |values| && Truthy(values[i]) &&
    forall j :: 0 <= j < i ==> !Truthy(values[j])
  }

  /** What `values[0] || values[1] || ...` yields when some operand is
      truthy; `None` when none is. */
  function FirstTruthy(values: seq<Option<string>>): (r: Option<string>)
    ensures r.Some? ==> Truthy(r)
    ensures r.None? <==> forall i :: 0 <= i < |values| ==> !Truthy(values[i])
    ensures r.Some? ==> exists i :: FirstTruthyAt(values, i) && values[i] == r
  {
    if values == [] then None
    else if Truthy(values[0]) then
      assert FirstTruthyAt(values, 0);
      values[0]
    else
      var r := FirstTruthy(values[1..]);
      if r.Some? then
        var i :| FirstTruthyAt(values[1..], i) && values[1..][i] == r;
        assert FirstTruthyAt(values, i + 1);
        r
      else
        assert forall i :: 1 <= i < |values| ==> values[i] == values[1..][i - 1];
        r
  }

  /** `a || fallback` for an optional string and a string. */
  function Or(a: Option<string>, fallback: string): (r: string)
    ensures Truthy(a) ==> r == a.value
    ensures !Truthy(a) ==> r == fallback
  {
    if Truthy(a) then a.value else fallback
  }

  /** A chain `a || b || fallback` picks what the first truthy operand of
      `[a, b]` is, and the fallback when there is none. */
  lemma OrChainIsFirstTruthy(a: Option<string>, b: Option<string>, fallback: string)
    ensures Or(a, Or(b, fallback)) == FirstTruthy([a, b]).GetOr(fallback)
  {
  }

  predicate IsDigit(c: char) {
    '0' <= c <= '9'
  }

  function DigitChar(d: nat): (c: char)
    requires d < 10
    ensures IsDigit(c) && c as int - '0' as int == d
  {
    ('0' as int + d) as char
  }

  /** The decimal text of a non-negative integer: digits only, and no leading
      zero except for zero itself. */
  function NatToDecimal(n: nat): (s: string)
    ensures |s| > 0
    ensures forall i :: 0 <= i < |s| ==> IsDigit(s[i])
    ensures s[0] == '0' ==> n == 0
    decreases n
  {
    if n < 10 then [DigitChar(n)] else NatToDecimal(n / 10) + [DigitChar(n % 10)]
  }

  /** The value a string of decimal digits denotes. */
  function DecimalValue(s: string): nat
    requires forall i :: 0 <= i < |s| ==> IsDigit(s[i])
  {
    if s == [] then 0
    else
      assert IsDigit(s[|s| - 1]);
      DecimalValue(s[..|s| - 1]) * 10 + (s[|s| - 1] as int - '0' as int)
  }

  /** Reading back the decimal text of `n` gives `n`: the text identifies the
      number. */
  lemma {:induction false} DecimalRoundTrip(n: nat)
    ensures DecimalValue(NatToDecimal(n)) == n
    decreases n
  {
    if n >= 10 {
      var prefix := NatToDecimal(n / 10);
      var s := NatToDecimal(n);
      assert s == prefix + [DigitChar(n % 10)];
      assert s[..|s| - 1] == prefix;
      DecimalRoundTrip(n / 10);
    }
  }

  /** `String(n)` for an integral JavaScript number that is a safe integer
      (|n| <= 2^53 - 1); beyond that range JavaScript prints rounded digits
      or exponent form, which this function does not model. */
  function IntToString(n: int): (s: string)
    ensures |s| > 0
    ensures (s[0] == '-') <==> n < 0
    ensures n >= 0 ==> s == NatToDecimal(n)
    ensures n < 0 ==> s[1..] == NatToDecimal(-n)
  {
    if n < 0 then "-" + NatToDecimal(-n) else NatToDecimal(n)
  }

  /** Distinct numbers have distinct texts. */
  lemma IntToStringInjective(m: int, n: int)
    requires IntToString(m) == IntToString(n)
    ensures m == n
  {
    var sm, sn := IntToString(m), IntToString(n);
    if m < 0 {
      assert sm[1..] == sn[1..];
      DecimalRoundTrip(-m);
      DecimalRoundTrip(-n);
    } else {
      DecimalRoundTrip(m);
      DecimalRoundTrip(n);
    }
  }
}
