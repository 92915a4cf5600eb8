/**
 * The few Python string operations the code relies on:
 * `str(n)` of an integer, `s.split(c)[0]` and `s.split(c)[-1]`.
 */
module Text {

  predicate IsDigit(c: char) {
    '0' <= c <= '9'
  }

  predicate AllDigits(s: string) {
    forall i :: 0 <= i < |s| ==> IsDigit(s[i])
  }

  function DigitChar(d: nat): (c: char)
    requires d < 10
    ensures IsDigit(c) && (c as int) - ('0' as int) == d
  {
    (('0' as int) + d) as char
  }

  /** Decimal rendering of a natural number, no leading zeros. */
  function NatStr(n: nat): (s: string)
    ensures 1 <= |s| && AllDigits(s)
    ensures |s| > 1 ==> s[0] != '0'
    decreases n
  {
    if n < 10 then [DigitChar(n)] else NatStr(n / 10) + [DigitChar(n % 10)]
  }

  /** Python's `str(n)` for an `int`: a minus sign, then the digits of `|n|`. */
  function IntStr(n: int): (s: string)
    ensures 1 <= |s|
    ensures n >= 0 ==> AllDigits(s)
    ensures n < 0 ==> s[0] == '-' && AllDigits(s[1..])
  {
    if n < 0 then "-" + NatStr(-n) else NatStr(n)
  }

  /** Reads back a string of decimal digits. */
  function ParseNat(s: string): nat
    requires AllDigits(s)
  {
    if s == [] then 0
    else ParseNat(s[..|s| - 1]) * 10 + ((s[|s| - 1] as int) - ('0' as int))
  }

  /** Reads back what `IntStr` writes. */
  function ParseInt(s: string): int
    requires 1 <= |s|
    requires AllDigits(s) || (s[0] == '-' && AllDigits(s[1..]))
  {
    if s[0] == '-' then -(ParseNat(s[1..]) as int) else ParseNat(s)
  }

  lemma {:induction false} ParseNatStr(n: nat)
    ensures ParseNat(NatStr(n)) == n
    decreases n
  {
    if n >= 10 {
      var s := NatStr(n);
      assert s[..|s| - 1] == NatStr(n / 10);
      ParseNatStr(n / 10);
    }
  }

  /** `ParseInt` inverts `IntStr`, so `str` is injective on integers. */
  lemma ParseIntStr(n: int)
    ensures ParseInt(IntStr(n)) == n
  {
    if n < 0 {
      assert IntStr(n)[1..] == NatStr(-n);
      ParseNatStr(-n);
    } else {
      ParseNatStr(n);
    }
  }

  lemma IntStrInjective(a: int, b: int)
    ensures IntStr(a) == IntStr(b) <==> a == b
  {
    if IntStr(a) == IntStr(b) {
      ParseIntStr(a);
      ParseIntStr(b);
    }
  }

  /** `s.split(c)[0]`: the text before the first `c`, or all of `s`. */
  function Before(s: string, c: char): (r: string)
    ensures c !in r
    ensures r <= s
    ensures c in s ==> |r| < |s| && s[|r|] == c
    ensures c !in s ==> r == s
  {
    if s == [] then []
    else if s[0] == c then []
    else [s[0]] + Before(s[1..], c)
  }

  /**
   * `s.split(c)[-1]`: the text after the last `c`, or all of `s` when there
   * is none.
   */
  function AfterLast(s: string, c: char): (r: string)
    ensures c !in r
    ensures |r| <= |s| && r == s[|s| - |r|..]
    ensures c in s ==> |r| < |s| && s[|s| - |r| - 1] == c
    ensures c !in s ==> r == s
  {
    if s == [] then []
    else if s[|s| - 1] == c then []
    else AfterLast(s[..|s| - 1], c) + [s[|s| - 1]]
  }

  /** `(a + c + b).split(c)[0]` is `a` when `a` holds no `c`. */
  lemma BeforeConcat(a: string, c: char, b: string)
    requires c !in a
    ensures Before(a + [c] + b, c) == a
  {
    var s := a + [c] + b;
    var r := Before(s, c);
    assert s[|a|] == c;
    assert r == s[..|r|];
    assert r == s[..|a|] == a;
  }

  /** `(a + c + b).split(c)[-1]` is `b` when `b` holds no `c`. */
  lemma AfterLastConcat(a: string, c: char, b: string)
    requires c !in b
    ensures AfterLast(a + [c] + b, c) == b
  {
    var s := a + [c] + b;
    var r := AfterLast(s, c);
    assert s[|a|] == c;
    assert r == s[|s| - |b|..] == b;
  }

  /** The shape `str` gives an integer. */
  predicate IntSyntax(s: string) {
    1 <= |s| && (AllDigits(s) || (s[0] == '-' && AllDigits(s[1..])))
  }

  /** `str(n)` holds no character other than digits and a leading minus. */
  lemma IntStrChars(n: int, c: char)
    requires c != '-' && !IsDigit(c)
    ensures c !in IntStr(n)
  {
    var s := IntStr(n);
    assert forall i :: 0 <= i < |s| ==> s[i] == '-' || IsDigit(s[i]) by {
      forall i | 0 <= i < |s| ensures s[i] == '-' || IsDigit(s[i]) {
        if n < 0 && i > 0 {
          assert s[i] == s[1..][i - 1];
        }
      }
    }
  }

  /** Splitting a concatenation at the first part's length gives the parts back. */
  lemma PrefixSplit(p: string, x: string)
    ensures (p + x)[..|p|] == p && (p + x)[|p|..] == x
  {
  }
}
