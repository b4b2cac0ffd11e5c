/** Numbers as text: the digits that %d, %x and %.4f print, and how to read them back. */
module Decimal {

  predicate IsDigit(c: char) { '0' <= c <= '9' }

  ghost predicate AllDigits(s: string) { forall k :: 0 <= k < |s| ==> IsDigit(s[k]) }

  function Digit(d: nat): (c: char)
    requires d < 10
    ensures IsDigit(c)
  {
    '0' + d as char
  }

  function DigitValue(c: char): nat { if IsDigit(c) then c as nat - '0' as nat else 0 }

  /** The decimal digits of n. */
  function Print(n: nat): (s: string)
    ensures |s| > 0 && AllDigits(s)
    decreases n
  {
    if n < 10 then [Digit(n)] else Print(n / 10) + [Digit(n % 10)]
  }

  /** The number a string of digits stands for. */
  function Read(s: string): nat {
    if s == [] then 0 else 10 * Read(s[..|s| - 1]) + DigitValue(s[|s| - 1])
  }

  function TenTo(w: nat): nat { if w == 0 then 1 else 10 * TenTo(w - 1) }

  /** The last w digits of n, with leading zeros. */
  function PrintWidth(n: nat, w: nat): (s: string)
    ensures |s| == w && AllDigits(s)
  {
    if w == 0 then "" else PrintWidth(n / 10, w - 1) + [Digit(n % 10)]
  }

  function PrintInt(n: int): string { if n < 0 then "-" + Print(-n) else Print(n) }

  lemma DigitReadsBack(d: nat)
    requires d < 10
    ensures DigitValue(Digit(d)) == d
  {
  }

  lemma ReadSnoc(s: string, c: char)
    ensures Read(s + [c]) == 10 * Read(s) + DigitValue(c)
  {
  }

  /** Reading undoes printing. */
  lemma {:induction false} PrintReadsBack(n: nat)
    ensures Read(Print(n)) == n
    decreases n
  {
    DigitReadsBack(n % 10);
    if n < 10 {
      ReadSnoc("", Digit(n));
      assert Print(n) == "" + [Digit(n)];
    } else {
      PrintReadsBack(n / 10);
      ReadSnoc(Print(n / 10), Digit(n % 10));
    }
  }

  lemma {:induction false} PrintWidthReadsBack(n: nat, w: nat)
    requires n < TenTo(w)
    ensures Read(PrintWidth(n, w)) == n
  {
    if w > 0 {
      DigitReadsBack(n % 10);
      PrintWidthReadsBack(n / 10, w - 1);
      ReadSnoc(PrintWidth(n / 10, w - 1), Digit(n % 10));
    }
  }

  lemma PrintIntInjective(m: int, n: int)
    requires PrintInt(m) == PrintInt(n)
    ensures m == n
  {
    var k, l := if m < 0 then -m else m, if n < 0 then -n else n;
    PrintReadsBack(k);
    PrintReadsBack(l);
    assert PrintInt(m)[0] == '-' <==> m < 0;
    assert PrintInt(n)[0] == '-' <==> n < 0;
    if m < 0 && n < 0 { assert PrintInt(m)[1..] == Print(k) && PrintInt(n)[1..] == Print(l); }
  }

  /** At the first separator a text splits in one way only. */
  lemma SplitUnique(a: string, x: string, b: string, y: string, sep: char)
    requires sep !in a && sep !in b
    requires a + [sep] + x == b + [sep] + y
    ensures a == b && x == y
  {
    var s, t := a + [sep] + x, b + [sep] + y;
    assert s[|a|] == sep && t[|b|] == sep;
    assert a == s[..|a|] && b == t[..|b|];
    assert x == s[|a| + 1..] && y == t[|b| + 1..];
  }
}
