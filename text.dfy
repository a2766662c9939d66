/** The parts of JavaScript's string and number handling that the views rely
    on: decimal digits, `String(n)` / `n.toString()`, the number syntax the
    forms accept, string comparison with `<` and `<=`, `toLowerCase` and
    `includes`. */
module Text {
  import opened Common

  predicate IsDigit(c: char) {
    '0' <= c <= '9'
  }

  predicate AllDigits(s: string) {
    forall i :: 0 <= i < |s| ==> IsDigit(s[i])
  }

  function DigitValue(c: char): nat
    requires IsDigit(c)
  {
    c as int - '0' as int
  }

  function DigitChar(d: nat): (c: char)
    requires d < 10
    ensures IsDigit(c) && DigitValue(c) == d
  {
    ('0' as int + d) as char
  }

  /** The number a string of decimal digits denotes; leading zeros are
      allowed, as in `"03"`, and the empty string denotes 0. */
  function Val(s: string): nat
    requires AllDigits(s)
    decreases |s|
  {
    if |s| == 0 then 0 else 10 * Val(s[..|s| - 1]) + DigitValue(s[|s| - 1])
  }

  /** `String(n)` for a non-negative integer: its decimal digits, with no
      leading zero. */
  function ShowNat(n: nat): (r: string)
    ensures 0 < |r| && AllDigits(r) && Val(r) == n
    ensures r[0] == '0' ==> r == "0"
    decreases n
  {
    if n < 10 then [DigitChar(n)]
    else
      var r := ShowNat(n / 10) + [DigitChar(n % 10)];
      assert r[..|r| - 1] == ShowNat(n / 10);
      r
  }

  /** The length of the longest prefix of `s` made of decimal digits. */
  function DigitRun(s: string): (k: nat)
    ensures k <= |s| && AllDigits(s[..k])
    ensures k < |s| ==> !IsDigit(s[k])
    decreases |s|
  {
    if |s| == 0 || !IsDigit(s[0]) then 0
    else
      var k := 1 + DigitRun(s[1..]);
      assert s[..k] == [s[0]] + s[1..][..k - 1];
      k
  }

  /** A digit string followed by text that does not start with a digit has
      exactly that digit string as its digit run. */
  lemma {:induction false} DigitRunAppend(a: string, b: string)
    requires AllDigits(a) && (|b| == 0 || !IsDigit(b[0]))
    ensures DigitRun(a + b) == |a|
    decreases |a|
  {
    if |a| == 0 {
      assert a + b == b;
    } else {
      assert (a + b)[1..] == a[1..] + b;
      DigitRunAppend(a[1..], b);
    }
  }

  predicate AllZeros(s: string) {
    forall i :: 0 <= i < |s| ==> s[i] == '0'
  }

  /** The cents that the digits after the decimal point denote: the first
      digit counts tens of cents, the second single cents, and any further
      digits must be zeros, or the number is not a whole number of cents. */
  function Cents(f: string): Option<nat>
    requires 0 < |f| && AllDigits(f)
  {
    if |f| == 1 then Some(10 * DigitValue(f[0]))
    else if AllZeros(f[2..]) then Some(10 * DigitValue(f[0]) + DigitValue(f[1]))
    else None
  }

  /** `parseFloat` of a non-negative amount as a `type="number"` field
      submits it: one or more digits, then optionally a decimal point and one
      or more digits; or a decimal point and one or more digits with no
      integer part, as in `".5"`. Amounts are counted in cents. */
  function ParseUnsigned(s: string): Option<int> {
    var k := DigitRun(s);
    if k == 0 then
      if 1 < |s| && s[0] == '.' && AllDigits(s[1..]) then WithCents(0, Cents(s[1..])) else None
    else if k == |s| then Some(100 * Val(s[..k]))
    else if s[k] == '.' && k + 1 < |s| && AllDigits(s[k + 1..]) then WithCents(Val(s[..k]), Cents(s[k + 1..]))
    else None
  }

  /** Euros and, when the fraction denotes whole cents, those cents. */
  function WithCents(euros: nat, cents: Option<nat>): Option<int> {
    if cents.Some? then Some(100 * euros + cents.value) else None
  }

  /** The amount syntax of the model: an optional minus sign, then an
      unsigned amount. Any other text is not a number (JavaScript's NaN),
      which is `None`. */
  function ParseAmount(s: string): Option<int> {
    if 0 < |s| && s[0] == '-' then
      match ParseUnsigned(s[1..])
      case Some(c) => Some(0 - c)
      case None => None
    else ParseUnsigned(s)
  }

  /** A whole number of euros reads as that many hundred cents. */
  lemma ParseWholeAmount(i: string)
    requires 0 < |i| && AllDigits(i)
    ensures ParseAmount(i) == Some(100 * Val(i))
  {
    DigitRunAppend(i, "");
    assert i + "" == i && i[..|i|] == i;
  }

  /** An amount with a decimal point is its euros in cents plus the cents
      of its fraction digits. */
  lemma ParseDecimalCents(i: string, f: string)
    requires 0 < |i| && AllDigits(i) && 0 < |f| && AllDigits(f)
    ensures ParseAmount(i + "." + f) == WithCents(Val(i), Cents(f))
  {
    var s := i + ("." + f);
    assert i + "." + f == s;
    DigitRunAppend(i, "." + f);
    assert s[0] == i[0] && s[..|i|] == i && s[|i|] == '.' && s[|i| + 1..] == f;
    assert ParseAmount(s) == ParseUnsigned(s);
    var k := DigitRun(s);
    assert k == |i| && 0 < k < |s| && s[k] == '.' && k + 1 < |s|;
  }

  /** An amount without an integer part is the cents of its fraction
      digits alone. */
  lemma ParseFractionOnly(f: string)
    requires 0 < |f| && AllDigits(f)
    ensures ParseAmount("." + f) == WithCents(0, Cents(f))
  {
    var s := "." + f;
    assert s[0] == '.' && s[1..] == f;
    assert DigitRun(s) == 0;
  }

  /** One fraction digit counts tens of cents, two count cents, and a third
      or later digit must be zero. With `ParseDecimalCents`, `"500.00"` is
      50000 cents and `"2500.5"` is 250050. */
  lemma CentsDigits(f: string)
    requires 0 < |f| && AllDigits(f)
    ensures |f| == 1 ==> Cents(f) == Some(10 * DigitValue(f[0]))
    ensures |f| >= 2 && AllZeros(f[2..]) ==> Cents(f) == Some(10 * DigitValue(f[0]) + DigitValue(f[1]))
    ensures |f| > 2 && !AllZeros(f[2..]) ==> Cents(f).None?
  {
  }

  /** The amount field's placeholder `"500.00"` is 500 euros, and a salary
      of `"2500.5"` is 2500 euros 50. */
  lemma DecimalAmounts()
    ensures ParseAmount("500.00") == Some(50000)
    ensures ParseAmount("2500.5") == Some(250050)
  {
    assert "500" + "." + "00" == "500.00" && "2500" + "." + "5" == "2500.5";
    assert Val("500") == 500 by {
      assert "500"[..2] == "50" && "50"[..1] == "5" && "5"[..0] == "";
    }
    assert Val("2500") == 2500 by {
      assert "2500"[..3] == "250" && "250"[..2] == "25" && "25"[..1] == "2" && "2"[..0] == "";
    }
    ParseDecimalCents("500", "00");
    CentsDigits("00");
    ParseDecimalCents("2500", "5");
    CentsDigits("5");
  }

  /** `".5"`, which a number field submits for half a euro, is 50 cents,
      and `"-.5"` is minus 50 cents. */
  lemma FractionOnlyAmounts()
    ensures ParseAmount(".5") == Some(50)
    ensures ParseAmount("-.5") == Some(-50)
  {
    assert "." + "5" == ".5" && "-" + ".5" == "-.5";
    ParseFractionOnly("5");
    CentsDigits("5");
    ParseNegativeAmount(".5");
  }

  /** A minus sign in front of an unsigned amount negates it. */
  lemma ParseNegativeAmount(s: string)
    requires |s| == 0 || s[0] != '-'
    ensures ParseAmount("-" + s) == (if ParseAmount(s).Some? then Some(0 - ParseAmount(s).value) else None)
  {
    assert ("-" + s)[1..] == s;
  }

  /** The decimal digits of cents below one euro as `toString` writes them:
      nothing for a whole amount, one digit when the cents are a multiple of
      ten, two digits otherwise. */
  function ShowCents(c: nat): string
    requires c < 100
  {
    if c == 0 then ""
    else if c % 10 == 0 then ['.', DigitChar(c / 10)]
    else ['.', DigitChar(c / 10), DigitChar(c % 10)]
  }

  /** `toString` of a non-negative amount given in cents. */
  function ShowUnsigned(c: nat): (r: string)
    ensures r != "" && r[0] != '-'
    ensures ParseUnsigned(r) == Some(c)
  {
    var w, f := ShowNat(c / 100), ShowCents(c % 100);
    var r := w + f;
    DigitRunAppend(w, f);
    assert r[..|w|] == w;
    assert f != "" ==> r[|w|] == '.' && r[|w| + 1..] == f[1..];
    r
  }

  /** `n.toString()` of an amount given in cents; parsing the text gives the
      amount back. */
  function ShowAmount(c: int): (r: string)
    ensures r != ""
    ensures ParseAmount(r) == Some(c)
  {
    if c < 0 then
      var r := "-" + ShowUnsigned(-c);
      assert r[1..] == ShowUnsigned(-c);
      r
    else ShowUnsigned(c)
  }

  /** JavaScript's `a < b` on strings: the first differing code unit decides,
      and a proper prefix is smaller than the longer string. */
  predicate Lt(a: string, b: string)
    decreases |a|
  {
    if |b| == 0 then false
    else if |a| == 0 then true
    else if a[0] != b[0] then a[0] < b[0]
    else Lt(a[1..], b[1..])
  }

  /** JavaScript's `a <= b` on strings, which it evaluates as `!(b < a)`. */
  predicate Le(a: string, b: string) {
    !Lt(b, a)
  }

  /** Comparing two concatenations whose first parts have equal length
      compares the first parts, and the second parts only on a tie. */
  lemma {:induction false} LtSplit(a1: string, a2: string, b1: string, b2: string)
    requires |a1| == |b1|
    ensures Lt(a1 + a2, b1 + b2) <==> Lt(a1, b1) || (a1 == b1 && Lt(a2, b2))
    decreases |a1|
  {
    if |a1| == 0 {
      assert a1 + a2 == a2 && b1 + b2 == b2;
    } else {
      var a, b := a1 + a2, b1 + b2;
      assert a[0] == a1[0] && b[0] == b1[0];
      if a1[0] == b1[0] {
        assert a[1..] == a1[1..] + a2 && b[1..] == b1[1..] + b2;
        assert a1 == [a1[0]] + a1[1..] && b1 == [b1[0]] + b1[1..];
        LtSplit(a1[1..], a2, b1[1..], b2);
      }
    }
  }

  /** `LtSplit` at a position `k` of two strings. */
  lemma LtAt(a: string, b: string, k: nat)
    requires k <= |a| && k <= |b|
    ensures Lt(a, b) <==> Lt(a[..k], b[..k]) || (a[..k] == b[..k] && Lt(a[k..], b[k..]))
  {
    assert a == a[..k] + a[k..] && b == b[..k] + b[k..];
    LtSplit(a[..k], a[k..], b[..k], b[k..]);
  }

  /** For digit strings of one length, string order is numeric order. */
  lemma {:induction false} DigitsOrder(a: string, b: string)
    requires |a| == |b| && AllDigits(a) && AllDigits(b)
    ensures Lt(a, b) <==> Val(a) < Val(b)
    ensures a == b <==> Val(a) == Val(b)
    decreases |a|
  {
    if |a| > 0 {
      var n := |a|;
      var ia, ib := a[..n - 1], b[..n - 1];
      var la, lb := a[n - 1], b[n - 1];
      assert a == ia + [la] && b == ib + [lb];
      LtSplit(ia, [la], ib, [lb]);
      assert Lt([la], [lb]) <==> la < lb;
      DigitsOrder(ia, ib);
      DigitsOrder(ib, ia);
    }
  }

  /** `toLowerCase` on one character, for the Latin-1 letters (A-Z and the
      accented capitals, umlauts included); every other character is kept. */
  function LowerChar(c: char): char {
    if 'A' <= c <= 'Z' || ('\U{00C0}' <= c <= '\U{00DE}' && c != '\U{00D7}')
    then (c as int + 32) as char
    else c
  }

  /** `toLowerCase`: each character lowered by `LowerChar`. */
  function Lower(s: string): (r: string)
    ensures |r| == |s|
    ensures forall i :: 0 <= i < |s| ==> r[i] == LowerChar(s[i])
  {
    seq(|s|, i requires 0 <= i < |s| => LowerChar(s[i]))
  }

  /** `s.includes(t)`: `t` occurs in `s` at some position. */
  predicate Contains(s: string, t: string)
    decreases |s|
  {
    t <= s || (|s| > 0 && Contains(s[1..], t))
  }

  /** `t` occurs in `s` starting at position `i`. */
  predicate OccursAt(s: string, t: string, i: int) {
    0 <= i && i + |t| <= |s| && s[i..i + |t|] == t
  }

  /** `Contains` agrees with the definition by positions. */
  lemma {:induction false} ContainsAt(s: string, t: string)
    ensures Contains(s, t) <==> exists i :: OccursAt(s, t, i)
    decreases |s|
  {
    if t <= s {
      assert OccursAt(s, t, 0);
    } else if |s| > 0 {
      ContainsAt(s[1..], t);
      if exists i :: OccursAt(s[1..], t, i) {
        var i :| OccursAt(s[1..], t, i);
        assert s[i + 1..i + 1 + |t|] == s[1..][i..i + |t|];
        assert OccursAt(s, t, i + 1);
      }
      if exists i :: OccursAt(s, t, i) {
        var i :| OccursAt(s, t, i);
        if i != 0 {
          assert s[1..][i - 1..i - 1 + |t|] == s[i..i + |t|];
          assert OccursAt(s[1..], t, i - 1);
        }
      }
    }
  }
}
