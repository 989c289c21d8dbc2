/** The few string rules of .NET that the card and render code relies on. */
module Text {
  import opened Wrappers

  /** `s.StartsWith(prefix)`, compared ordinally. */
  predicate StartsWith(s: string, prefix: string) {
    prefix <= s
  }

  /** `string.IsNullOrEmpty(s)` */
  predicate IsNullOrEmpty(s: Option<string>) {
    s.None? || s.value == ""
  }

  /** `char.IsWhiteSpace(c)`: the Unicode space separators, line and paragraph separators, and the control characters U+0009..U+000D and U+0085. */
  predicate IsWhiteSpace(c: char) {
    var n := c as int;
    || (9 <= n <= 13)
    || n == 0x20 || n == 0x85 || n == 0xA0 || n == 0x1680
    || (0x2000 <= n <= 0x200A)
    || n == 0x2028 || n == 0x2029 || n == 0x202F || n == 0x205F || n == 0x3000
  }

  /** `string.IsNullOrWhiteSpace(s)` */
  predicate IsNullOrWhiteSpace(s: Option<string>) {
    s.None? || forall i :: 0 <= i < |s.value| ==> IsWhiteSpace(s.value[i])
  }

  /** `a + b` in C#, where a null operand reads as the empty string. */
  function Concat(a: string, b: Option<string>): string {
    a + b.GetOr("")
  }

  // ---------------------------------------------------------------------
  // Decimal rendering of a non-negative int (string interpolation)
  // ---------------------------------------------------------------------

  function DigitChar(d: nat): char
    requires d < 10
  {
    ('0' as int + d) as char
  }

  /** `$"{n}"` for `n >= 0` */
  function NatToString(n: nat): string
    decreases n
  {
    if n < 10 then [DigitChar(n)] else NatToString(n / 10) + [DigitChar(n % 10)]
  }

  /** Different numbers render differently, so a rendered number can be read back. */
  lemma {:induction false} NatToStringInjective(a: nat, b: nat)
    requires NatToString(a) == NatToString(b)
    ensures a == b
    decreases a
  {
    if a < 10 && b < 10 {
      assert DigitChar(a) == NatToString(a)[0] == NatToString(b)[0] == DigitChar(b);
    } else if a >= 10 && b >= 10 {
      var sa, sb := NatToString(a / 10), NatToString(b / 10);
      assert sa + [DigitChar(a % 10)] == sb + [DigitChar(b % 10)];
      assert |sa| == |sb|;
      assert DigitChar(a % 10) == NatToString(a)[|sa|] == NatToString(b)[|sb|] == DigitChar(b % 10);
      assert sa == (sa + [DigitChar(a % 10)])[..|sa|];
      assert sb == (sb + [DigitChar(b % 10)])[..|sb|];
      NatToStringInjective(a / 10, b / 10);
    } else {
      NatToStringLength(if a < 10 then b else a);
    }
  }

  lemma {:induction false} NatToStringLength(n: nat)
    requires n >= 10
    ensures |NatToString(n)| >= 2
  {
    assert NatToString(n) == NatToString(n / 10) + [DigitChar(n % 10)];
  }

  // ---------------------------------------------------------------------
  // bool.ToString and bool.TryParse
  // ---------------------------------------------------------------------

  /** `b.ToString()` */
  function BoolToString(b: bool): string {
    if b then "True" else "False"
  }

  function ToLowerAscii(c: char): char {
    if 'A' <= c <= 'Z' then (c as int + 32) as char else c
  }

  predicate EqualsIgnoreCase(a: string, b: string) {
    |a| == |b| && forall i :: 0 <= i < |a| ==> ToLowerAscii(a[i]) == ToLowerAscii(b[i])
  }

  /** `bool.TryParse(s, out var r) ? r : null`: "true" or "false" in any letter case. */
  function ParseBool(s: Option<string>): (r: Option<bool>)
    ensures r == Some(true) ==> s.Some? && EqualsIgnoreCase(s.value, "true")
    ensures r == Some(false) ==> s.Some? && EqualsIgnoreCase(s.value, "false")
    ensures s.Some? && EqualsIgnoreCase(s.value, "true") ==> r == Some(true)
    ensures s.Some? && EqualsIgnoreCase(s.value, "false") ==> r == Some(false)
    ensures r.None? <==> s.None? || !(EqualsIgnoreCase(s.value, "true") || EqualsIgnoreCase(s.value, "false"))
  {
    if s.None? then None
    else if EqualsIgnoreCase(s.value, "true") then Some(true)
    else if EqualsIgnoreCase(s.value, "false") then Some(false)
    else None
  }

  /** What `ToString` writes for a bool, `TryParse` reads back. */
  lemma ParseBoolRoundTrip(b: bool)
    ensures ParseBool(Some(BoolToString(b))) == Some(b)
  {
    if b {
      assert EqualsIgnoreCase("True", "true");
    } else {
      assert !EqualsIgnoreCase("False", "true");
      assert EqualsIgnoreCase("False", "false");
    }
  }
}
