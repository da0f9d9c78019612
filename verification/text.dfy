/** String utilities shared by the formatters and the command interpreter:
    substring search, ASCII lower-casing, decimal digits, concatenation and joining. */
module Text {

  // ---------------------------------------------------------------------------
  // Substrings
  // ---------------------------------------------------------------------------

  /** `t` occurs in `s` as a contiguous run (Python's `t in s`). */
  predicate Contains(s: string, t: string)
    decreases |s|
  {
    |t| <= |s| && (s[..|t|] == t || Contains(s[1..], t))
  }

  /** `t` occurs in `s` starting at index `i`. */
  ghost predicate OccursAt(s: string, t: string, i: int) {
    0 <= i && i + |t| <= |s| && s[i..i + |t|] == t
  }

  /** The recursive search agrees with the positional definition of an occurrence. */
  lemma {:induction false} ContainsIffOccurs(s: string, t: string)
    ensures Contains(s, t) <==> exists i :: OccursAt(s, t, i)
    decreases |s|
  {
    if |t| <= |s| {
      if s[..|t|] == t {
        assert OccursAt(s, t, 0);
      } else {
        ContainsIffOccurs(s[1..], t);
        if Contains(s[1..], t) {
          var i :| OccursAt(s[1..], t, i);
          assert s[1..][i..i + |t|] == s[i + 1..i + 1 + |t|];
          assert OccursAt(s, t, i + 1);
        } else {
          forall i | 0 < i
            ensures !OccursAt(s, t, i)
          {
            if i + |t| <= |s| {
              assert s[1..][i - 1..i - 1 + |t|] == s[i..i + |t|];
              assert !OccursAt(s[1..], t, i - 1);
            }
          }
          assert s[0..|t|] == s[..|t|];
          assert !OccursAt(s, t, 0);
        }
      }
    } else {
      forall i | OccursAt(s, t, i)
        ensures false
      {
      }
    }
  }

  /** An occurrence at a known index is enough to show containment. */
  lemma ContainsAt(s: string, t: string, i: int)
    requires 0 <= i && i + |t| <= |s| && s[i..i + |t|] == t
    ensures Contains(s, t)
  {
    assert OccursAt(s, t, i);
    ContainsIffOccurs(s, t);
  }

  /** A string that lacks some character of `t` cannot contain `t`. */
  lemma MissingCharNotContained(s: string, t: string, c: char)
    requires c in t && c !in s
    ensures !Contains(s, t)
  {
    var k :| 0 <= k < |t| && t[k] == c;
    forall i
      ensures !OccursAt(s, t, i)
    {
      if 0 <= i && i + |t| <= |s| {
        assert s[i..i + |t|][k] == s[i + k];
      }
    }
    ContainsIffOccurs(s, t);
  }

  /** If `s` is `a + [t[k]] + b` and neither `a` nor `b` holds the character `t[k]`,
      the only place `t` could start is `|a| - k`; when `t` is not there either,
      `s` does not contain `t`. */
  lemma UniqueCharNotContained(s: string, t: string, k: nat, a: string, b: string)
    requires k < |t| && s == a + [t[k]] + b
    requires t[k] !in a && t[k] !in b
    requires |a| < k || |a| - k + |t| > |s| || s[|a| - k..|a| - k + |t|] != t
    ensures !Contains(s, t)
  {
    forall i
      ensures !OccursAt(s, t, i)
    {
      if 0 <= i && i + |t| <= |s| && i + k != |a| {
        assert s[i..i + |t|][k] == s[i + k];
        if i + k < |a| {
          assert s[i + k] == a[i + k];
        } else {
          assert s[i + k] == b[i + k - |a| - 1];
        }
      }
    }
    ContainsIffOccurs(s, t);
  }

  /** Containment is transitive: a substring of a substring is a substring. */
  lemma ContainsTransitive(s: string, u: string, t: string)
    requires Contains(s, u) && Contains(u, t)
    ensures Contains(s, t)
  {
    ContainsIffOccurs(s, u);
    ContainsIffOccurs(u, t);
    var i :| OccursAt(s, u, i);
    var j :| OccursAt(u, t, j);
    forall k | 0 <= k < |t|
      ensures s[i + j + k] == t[k]
    {
      assert u[j..j + |t|][k] == u[j + k];
      assert s[i..i + |u|][j + k] == s[i + j + k];
    }
    assert s[i + j..i + j + |t|] == t;
    ContainsAt(s, t, i + j);
  }

  /** Text stays found when more text is put on either side. */
  lemma ContainsInContext(a: string, s: string, b: string, t: string)
    requires Contains(s, t)
    ensures Contains(a + s + b, t)
  {
    ContainsIffOccurs(s, t);
    var i :| OccursAt(s, t, i);
    assert (a + s + b)[|a| + i..|a| + i + |t|] == s[i..i + |t|];
    ContainsAt(a + s + b, t, |a| + i);
  }

  /** Text stays found when more text is put before it. */
  lemma ContainsAfter(a: string, s: string, t: string)
    requires Contains(s, t)
    ensures Contains(a + s, t)
  {
    ContainsInContext(a, s, "", t);
    assert a + s + "" == a + s;
  }

  /** A string assembled around `t` contains `t`. */
  lemma ContainsPiece(s: string, a: string, t: string, b: string)
    requires s == a + t + b
    ensures Contains(s, t)
  {
    assert s[|a|..|a| + |t|] == t;
    ContainsAt(s, t, |a|);
  }

  // `+` groups to the left, so `a + t + b + c + d` and `a + (t + b + c + d)` are
  // different terms to the verifier. The next two lemmas do that regrouping once, on
  // variables, so that callers whose pieces are literal text need not do it on the
  // literals.

  /** The second of five pieces occurs in their concatenation. */
  lemma ContainsSecondOfFive(a: string, t: string, b: string, c: string, d: string)
    ensures Contains(a + t + b + c + d, t)
  {
    ContainsPiece(a + t + b + c + d, a, t, b + c + d);
  }

  /** Regrouping the last three of four pieces. */
  lemma AppendRegroup(a: string, b: string, c: string, d: string)
    ensures a + b + c + d == a + (b + c + d)
  {
  }

  /** Every string contains itself. */
  lemma ContainsSelf(s: string)
    ensures Contains(s, s)
  {
    ContainsAt(s, s, 0);
  }

  /** Some keyword of the list occurs in `s` (`any(k in s for k in keywords)`). */
  predicate MentionsAny(s: string, keywords: seq<string>) {
    exists k | 0 <= k < |keywords| :: Contains(s, keywords[k])
  }

  /** True when `t` begins with `p` (Python's `t.startswith(p)`). */
  predicate StartsWith(t: string, p: string) {
    |p| <= |t| && t[..|p|] == p
  }

  // ---------------------------------------------------------------------------
  // Lower-casing (ASCII letters only)
  // ---------------------------------------------------------------------------

  predicate IsUpper(c: char) {
    'A' <= c <= 'Z'
  }

  function LowerChar(c: char): char {
    if IsUpper(c) then (c as int + 32) as char else c
  }

  /** `s` with every ASCII capital replaced by its small letter (Python's `str.lower` on ASCII). */
  function Lower(s: string): (r: string)
    ensures |r| == |s|
    ensures forall i | 0 <= i < |s| :: !IsUpper(r[i])
    ensures forall i | 0 <= i < |s| :: !IsUpper(s[i]) ==> r[i] == s[i]
    ensures forall i | 0 <= i < |s| :: IsUpper(s[i]) ==> r[i] as int == s[i] as int + 32
  {
    seq(|s|, i requires 0 <= i < |s| => LowerChar(s[i]))
  }

  /** Lower-casing leaves no capital behind, so a second pass changes nothing. */
  lemma LowerIdempotent(s: string)
    ensures Lower(Lower(s)) == Lower(s)
    ensures forall i | 0 <= i < |s| :: !IsUpper(Lower(s)[i])
  {
  }

  /** A string without capitals is its own lower-case form. */
  lemma LowerOfLowercase(s: string)
    requires forall i | 0 <= i < |s| :: !IsUpper(s[i])
    ensures Lower(s) == s
  {
  }

  // ---------------------------------------------------------------------------
  // Concatenation, joining and the `response += ...` loop
  // ---------------------------------------------------------------------------

  /** All parts, in order, with nothing between them (Python's `"".join(parts)`). */
  function Concat(parts: seq<string>): string
    decreases |parts|
  {
    if |parts| == 0 then "" else parts[0] + Concat(parts[1..])
  }

  /** Each part of a concatenation occurs in it. */
  lemma {:induction false} ContainsPart(parts: seq<string>, k: nat)
    requires k < |parts|
    ensures Contains(Concat(parts), parts[k])
    decreases |parts|
  {
    var rest := Concat(parts[1..]);
    if k == 0 {
      ContainsPiece(Concat(parts), "", parts[0], rest);
    } else {
      ContainsPart(parts[1..], k - 1);
      ContainsInContext(parts[0], rest, "", parts[k]);
      assert parts[0] + rest + "" == Concat(parts);
    }
  }

  /** The parts with `sep` between neighbours (Python's `sep.join(parts)`). */
  function Join(parts: seq<string>, sep: string): string
    decreases |parts|
  {
    if |parts| == 0 then ""
    else if |parts| == 1 then parts[0]
    else parts[0] + sep + Join(parts[1..], sep)
  }

  /** Each part of a joined list occurs in it. */
  lemma {:induction false} JoinContainsPart(parts: seq<string>, sep: string, k: nat)
    requires k < |parts|
    ensures Contains(Join(parts, sep), parts[k])
    decreases |parts|
  {
    if |parts| == 1 {
      ContainsSelf(parts[0]);
    } else {
      var rest := Join(parts[1..], sep);
      if k == 0 {
        ContainsPiece(Join(parts, sep), "", parts[0], sep + rest);
      } else {
        JoinContainsPart(parts[1..], sep, k - 1);
        ContainsInContext(parts[0] + sep, rest, "", parts[k]);
        assert parts[0] + sep + rest + "" == Join(parts, sep);
      }
    }
  }

  /** `render` applied to each element, in order. */
  function RenderEach<T>(xs: seq<T>, render: T -> string): seq<string> {
    seq(|xs|, i requires 0 <= i < |xs| => render(xs[i]))
  }

  /** The accumulation loop `for x in xs: acc += render(x)`. */
  function AppendEach<T>(acc: string, xs: seq<T>, render: T -> string): string
    decreases |xs|
  {
    if |xs| == 0 then acc else AppendEach(acc + render(xs[0]), xs[1..], render)
  }

  /** Each rendered element occurs in any text built around the rendered list. */
  lemma RenderedPartInContext<T>(head: string, xs: seq<T>, render: T -> string, tail: string, k: nat)
    requires k < |xs|
    ensures Contains(head + Concat(RenderEach(xs, render)) + tail, render(xs[k]))
  {
    ContainsPart(RenderEach(xs, render), k);
    ContainsInContext(head, Concat(RenderEach(xs, render)), tail, render(xs[k]));
  }

  /** The accumulation loop appends exactly the rendered elements, in input order. */
  lemma {:induction false} AppendEachIsConcat<T>(acc: string, xs: seq<T>, render: T -> string)
    ensures AppendEach(acc, xs, render) == acc + Concat(RenderEach(xs, render))
    decreases |xs|
  {
    if |xs| > 0 {
      AppendEachIsConcat(acc + render(xs[0]), xs[1..], render);
      assert RenderEach(xs, render)[1..] == RenderEach(xs[1..], render);
    }
  }

  /** Appending `item(x) + sep` for every element of a non-empty list leaves the
      joined items followed by one dangling separator. */
  lemma {:induction false} AppendEachWithSeparator<T>(acc: string, xs: seq<T>, render: T -> string,
                                                      item: T -> string, sep: string)
    requires |xs| > 0
    requires forall i | 0 <= i < |xs| :: render(xs[i]) == item(xs[i]) + sep
    ensures AppendEach(acc, xs, render) == acc + Join(RenderEach(xs, item), sep) + sep
    decreases |xs|
  {
    var items := RenderEach(xs, item);
    assert render(xs[0]) == item(xs[0]) + sep;
    if |xs| == 1 {
      assert AppendEach(acc + render(xs[0]), xs[1..], render) == acc + render(xs[0]);
    } else {
      AppendEachWithSeparator(acc + render(xs[0]), xs[1..], render, item, sep);
      assert items[1..] == RenderEach(xs[1..], item);
      assert Join(items, sep) == items[0] + sep + Join(items[1..], sep);
    }
  }

  /** Two renderers that agree on every element give the same accumulated text. */
  lemma {:induction false} AppendEachPointwise<T>(acc: string, xs: seq<T>, f: T -> string, g: T -> string)
    requires forall i | 0 <= i < |xs| :: f(xs[i]) == g(xs[i])
    ensures AppendEach(acc, xs, f) == AppendEach(acc, xs, g)
    decreases |xs|
  {
    if |xs| > 0 {
      AppendEachPointwise(acc + f(xs[0]), xs[1..], f, g);
    }
  }

  function Min(a: int, b: int): int {
    if a <= b then a else b
  }

  // ---------------------------------------------------------------------------
  // Decimal digits
  // ---------------------------------------------------------------------------

  predicate IsDigit(c: char) {
    '0' <= c <= '9'
  }

  predicate AllDigits(s: string) {
    forall i | 0 <= i < |s| :: IsDigit(s[i])
  }

  function DigitChar(d: nat): char
    requires d < 10
  {
    ('0' as int + d) as char
  }

  function DigitValue(c: char): nat
    requires IsDigit(c)
  {
    c as int - '0' as int
  }

  function Pow10(n: nat): nat {
    if n == 0 then 1 else 10 * Pow10(n - 1)
  }

  /** The value of a string of decimal digits; the empty string reads as 0. */
  function DigitsValue(s: string): nat
    requires AllDigits(s)
    decreases |s|
  {
    if |s| == 0 then 0 else DigitsValue(s[..|s| - 1]) * 10 + DigitValue(s[|s| - 1])
  }

  /** Shortest decimal rendering of a natural number (Python's `str(n)` for `n >= 0`). */
  function NatToString(n: nat): (r: string)
    ensures |r| >= 1 && AllDigits(r)
    ensures r[0] == '0' <==> n == 0
    decreases n
  {
    if n < 10 then [DigitChar(n)] else NatToString(n / 10) + [DigitChar(n % 10)]
  }

  /** Reading back a rendered number gives the number. */
  lemma {:induction false} NatToStringValue(n: nat)
    ensures DigitsValue(NatToString(n)) == n
    decreases n
  {
    if n >= 10 {
      NatToStringValue(n / 10);
      var s := NatToString(n);
      assert s[..|s| - 1] == NatToString(n / 10);
    }
  }

  /** A number below `10^w` needs at most `w` digits. */
  lemma {:induction false} NatToStringLength(n: nat, w: nat)
    requires w >= 1 && n < Pow10(w)
    ensures |NatToString(n)| <= w
    decreases n
  {
    if n >= 10 {
      assert w >= 2;
      NatToStringLength(n / 10, w - 1);
    }
  }

  function Zeros(k: nat): string {
    seq(k, _ => '0')
  }

  /** `n` left-padded with zeros to at least `width` digits (the `%0<width>d` directive). */
  function PadNat(n: nat, width: nat): (r: string)
    ensures AllDigits(r)
  {
    var s := NatToString(n);
    if |s| < width then Zeros(width - |s|) + s else s
  }

  /** Leading zeros do not change the value of a digit string. */
  lemma {:induction false} ZerosValue(k: nat, s: string)
    requires AllDigits(s)
    ensures AllDigits(Zeros(k) + s) && DigitsValue(Zeros(k) + s) == DigitsValue(s)
    decreases |s|, k
  {
    var z := Zeros(k) + s;
    if |s| > 0 {
      assert z[..|z| - 1] == Zeros(k) + s[..|s| - 1];
      ZerosValue(k, s[..|s| - 1]);
    } else if k > 0 {
      assert z[..|z| - 1] == Zeros(k - 1) + s;
      ZerosValue(k - 1, s);
    }
  }

  /** A padded number has exactly `width` digits when it fits, and reads back as itself. */
  lemma PadNatFits(n: nat, width: nat)
    requires width >= 1 && n < Pow10(width)
    ensures |PadNat(n, width)| == width
    ensures DigitsValue(PadNat(n, width)) == n
  {
    NatToStringLength(n, width);
    NatToStringValue(n);
    var s := NatToString(n);
    if |s| < width {
      ZerosValue(width - |s|, s);
    }
  }
}
