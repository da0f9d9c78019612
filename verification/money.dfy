/** Currency rendering: integer cents shown as a dollar amount with exactly two
    decimals, as the replies print `cents / 100`. */
module Money {
  import opened Options
  import opened Text

  function Abs(x: int): nat {
    if x < 0 then -x else x
  }

  /** `"$"`, a minus sign for negative amounts, whole dollars without leading
      zeros, a point, and the cents as two digits: 2500 gives "$25.00" and
      -5 gives "$-0.05". */
  function FormatCents(cents: int): (r: string)
    ensures |r| >= 5 && r[0] == '$' && r[|r| - 3] == '.'
    ensures AllDigits(r[|r| - 2..])
    ensures (r[1] == '-') <==> cents < 0
    ensures var start := if cents < 0 then 2 else 1;
      && start < |r| - 3
      && AllDigits(r[start..|r| - 3])
      && (|r| - 3 - start == 1 || r[start] != '0')
  {
    var whole := NatToString(Abs(cents) / 100);
    var frac := PadNat(Abs(cents) % 100, 2);
    PadNatFits(Abs(cents) % 100, 2);
    "$" + (if cents < 0 then "-" else "") + whole + "." + frac
  }

  /** Reads `D.CC` (at least one whole-dollar digit, exactly two cent digits) as cents. */
  function ParseUnsigned(body: string): Option<nat> {
    if |body| < 4 || body[|body| - 3] != '.' then None
    else ParseDollarsCents(body[..|body| - 3], body[|body| - 2..])
  }

  /** Whole dollars and two cent digits, both all digits, as a number of cents. */
  function ParseDollarsCents(whole: string, frac: string): Option<nat> {
    if AllDigits(whole) && AllDigits(frac) then Some(DigitsValue(whole) * 100 + DigitsValue(frac))
    else None
  }

  /** Reads an amount written as `$[-]D.CC` back into cents; anything else is `None`. */
  function ParseCents(s: string): Option<int> {
    if |s| < 2 || s[0] != '$' then None
    else if s[1] == '-' then
      match ParseUnsigned(s[2..])
      case Some(v) => var n: int := v; Some(-n)
      case None => None
    else
      match ParseUnsigned(s[1..])
      case Some(v) => Some(v)
      case None => None
  }

  /** `D.CC` splits at the point three characters from the end. */
  lemma ParseUnsignedShape(whole: string, frac: string)
    requires |whole| >= 1 && |frac| == 2
    ensures ParseUnsigned(whole + "." + frac) == ParseDollarsCents(whole, frac)
  {
    var body := whole + "." + frac;
    assert body[|body| - 3] == '.';
    assert body[..|body| - 3] == whole;
    assert body[|body| - 2..] == frac;
  }

  /** Parsing a well-formed `$[-]D.CC` string recovers its sign and digits. */
  lemma ParseCentsShape(negative: bool, whole: string, frac: string)
    requires |whole| >= 1 && IsDigit(whole[0]) && |frac| == 2 && ParseDollarsCents(whole, frac).Some?
    ensures var v: int := ParseDollarsCents(whole, frac).value;
      ParseCents("$" + (if negative then "-" else "") + whole + "." + frac)
        == Some(if negative then -v else v)
  {
    ParseUnsignedShape(whole, frac);
    var body := whole + "." + frac;
    var sign := if negative then "-" else "";
    assert "$" + sign + whole + "." + frac == "$" + sign + body;
    assert body[0] == whole[0];
    ParseSigned(negative, body);
  }

  /** `$` then an optional minus sign then an unsigned amount. */
  lemma ParseSigned(negative: bool, body: string)
    requires ParseUnsigned(body).Some? && |body| > 0 && body[0] != '-'
    ensures var v: int := ParseUnsigned(body).value;
      ParseCents("$" + (if negative then "-" else "") + body) == Some(if negative then -v else v)
  {
    var s := "$" + (if negative then "-" else "") + body;
    if negative {
      assert s[0] == '$' && s[1] == '-' && s[2..] == body;
    } else {
      assert s[0] == '$' && s[1] == body[0] && s[1..] == body;
    }
  }

  /** Rendering loses nothing: the printed amount reads back as the same number of cents. */
  lemma ParseFormatCents(cents: int)
    ensures ParseCents(FormatCents(cents)) == Some(cents)
  {
    var q := Abs(cents) / 100;
    var m := Abs(cents) % 100;
    PadNatFits(m, 2);
    NatToStringValue(q);
    assert FormatCents(cents) == "$" + (if cents < 0 then "-" else "") + NatToString(q) + "." + PadNat(m, 2);
    assert ParseDollarsCents(NatToString(q), PadNat(m, 2)) == Some(q * 100 + m);
    ParseCentsShape(cents < 0, NatToString(q), PadNat(m, 2));
    assert q * 100 + m == Abs(cents);
  }

  /** A zero amount prints as "$0.00". */
  lemma ZeroCents()
    ensures FormatCents(0) == "$0.00"
  {
    assert NatToString(0) == "0";
    assert PadNat(0, 2) == "00";
  }

  /** Distinct amounts never print alike. */
  lemma FormatCentsInjective(a: int, b: int)
    requires FormatCents(a) == FormatCents(b)
    ensures a == b
  {
    ParseFormatCents(a);
    ParseFormatCents(b);
  }
}
