/**
 * The few JavaScript value conventions the handlers rely on: truthiness of an
 * optional string or number, and the decimal rendering of an id inside a URL
 * or a message.
 */
module JsValues {
  import opened Wrappers

  /** An optional string is truthy when it is present and not empty. */
  predicate Truthy(s: Option<string>) {
    s.Some? && s.value != ""
  }

  /** An optional number is truthy when it is present and not zero. */
  predicate TruthyId(n: Option<int>) {
    n.Some? && n.value != 0
  }

  /** `...(x && { key: x })`: the field is kept exactly when it is truthy. */
  function KeepTruthy(s: Option<string>): (r: Option<string>)
    ensures r.Some? <==> Truthy(s)
    ensures r.Some? ==> r == s
  {
    if Truthy(s) then s else None
  }

  /** An optional field is reported only when it is a non-empty string, and then as it was given. */
  predicate ReportedIfTruthy(reported: Option<string>, given: Option<string>) {
    (reported.Some? <==> Truthy(given)) && (reported.Some? ==> reported == given && reported.value != "")
  }

  function DigitChar(d: nat): (c: char)
    requires d < 10
    ensures '0' <= c <= '9'
  {
    (d + '0' as int) as char
  }

  /** Decimal digits of a natural number, most significant first. */
  function NatToString(n: nat): (s: string)
    ensures |s| >= 1
    ensures forall i :: 0 <= i < |s| ==> '0' <= s[i] <= '9'
    decreases n
  {
    if n < 10 then [DigitChar(n)] else NatToString(n / 10) + [DigitChar(n % 10)]
  }

  /** Template-literal rendering `${n}` of an integer. */
  function IntToString(n: int): (s: string)
    ensures |s| >= 1
    ensures (s[0] == '-') <==> n < 0
  {
    if n < 0 then "-" + NatToString(-n) else NatToString(n)
  }

  /** Template-literal rendering of an optional number: `${undefined}` is "undefined". */
  function OptIntToString(n: Option<int>): (s: string)
    ensures n.Some? ==> s == IntToString(n.value)
  {
    match n
    case Some(v) => IntToString(v)
    case None => "undefined"
  }

  predicate IsPrefix(p: string, s: string) {
    |p| <= |s| && s[..|p|] == p
  }

  predicate IsSuffix(p: string, s: string) {
    |p| <= |s| && s[|s| - |p|..] == p
  }

  /** Different numbers render differently: the decimal rendering can be read back. */
  lemma {:induction false} NatToStringInjective(a: nat, b: nat)
    requires NatToString(a) == NatToString(b)
    ensures a == b
    decreases a
  {
    var s := NatToString(a);
    if a >= 10 && b >= 10 {
      var sa, sb := NatToString(a / 10), NatToString(b / 10);
      assert s[..|s| - 1] == sa && NatToString(b)[..|s| - 1] == sb;
      NatToStringInjective(a / 10, b / 10);
    }
  }

  lemma IntToStringInjective(a: int, b: int)
    requires IntToString(a) == IntToString(b)
    ensures a == b
  {
    if a < 0 && b < 0 {
      assert IntToString(a)[1..] == NatToString(-a);
      assert IntToString(b)[1..] == NatToString(-b);
      NatToStringInjective(-a, -b);
    } else if a >= 0 && b >= 0 {
      NatToStringInjective(a, b);
    }
  }

  /** A number rendered between fixed text, as in a URL or a message, can be read back. */
  lemma FramedIntInjective(p: string, q: string, a: int, b: int)
    requires p + IntToString(a) + q == p + IntToString(b) + q
    ensures a == b
  {
    var x, y := IntToString(a), IntToString(b);
    assert |x| == |y|;
    assert x == (p + x + q)[|p|..|p| + |x|];
    assert y == (p + y + q)[|p|..|p| + |y|];
    IntToStringInjective(a, b);
  }
}
