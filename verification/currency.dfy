/**
 * Money as text. Amounts are whole paise (hundredths of a rupee). `FormatCurrency` is how
 * the application shows an amount: a rupee sign, a minus sign when negative, the rupees
 * with a comma before every group of three digits counted from the right, a point and
 * two digits of paise. Invoice posting reads totals back from that text by keeping only
 * the characters `0-9` and `.`, which is where the sign of a negative amount is lost.
 */
module Currency {
  import opened Wrappers

  const Rupee: char := '\U{20B9}'

  predicate IsDigit(c: char) { '0' <= c <= '9' }

  predicate AllDigits(s: string) { forall i :: 0 <= i < |s| ==> IsDigit(s[i]) }

  function DigitChar(d: nat): (c: char)
    requires d < 10
    ensures IsDigit(c) && c as int - '0' as int == d
  {
    (('0' as int) + d) as char
  }

  /** The decimal numeral of `n`, without leading zeros ("0" for zero). */
  function Digits(n: nat): (s: string)
    ensures 1 <= |s| && AllDigits(s)
    ensures |s| > 1 ==> s[0] != '0'
    decreases n
  {
    if n < 10 then [DigitChar(n)] else Digits(n / 10) + [DigitChar(n % 10)]
  }

  /** The number a string of digits denotes. */
  function ValueOf(s: string): nat
    requires AllDigits(s)
    decreases |s|
  {
    if s == [] then 0 else 10 * ValueOf(s[..|s| - 1]) + (s[|s| - 1] as int - '0' as int)
  }

  /** Reading a numeral gives back the number it was written from. */
  lemma {:induction false} DigitsRoundTrip(n: nat)
    ensures ValueOf(Digits(n)) == n
    decreases n
  {
    if n >= 10 {
      var s := Digits(n);
      assert s[..|s| - 1] == Digits(n / 10);
      DigitsRoundTrip(n / 10);
    }
  }

  /** A comma before every complete group of three digits counted from the right. */
  function Group(ds: string): (r: string)
    requires AllDigits(ds)
    ensures |ds| > 0 ==> |r| == |ds| + (|ds| - 1) / 3
    ensures forall i :: 0 <= i < |r| ==> (r[i] == ',' <==> (|r| - i) % 4 == 0)
    ensures forall i :: 0 <= i < |r| ==> r[i] == ',' || IsDigit(r[i])
    decreases |ds|
  {
    if |ds| <= 3 then
      assert forall i :: 0 <= i < |ds| ==> IsDigit(ds[i]) && 0 < |ds| - i < 4;
      ds
    else
      var head, tail := ds[..|ds| - 3], ds[|ds| - 3..];
      var g := Group(head);
      GroupStep(g, tail);
      g + "," + tail
  }

  /** One more group: the commas of `g` keep their distance from the end, and the new
      comma is four places from it. */
  lemma GroupStep(g: string, tail: string)
    requires |tail| == 3 && AllDigits(tail)
    requires forall i :: 0 <= i < |g| ==> (g[i] == ',' <==> (|g| - i) % 4 == 0)
    requires forall i :: 0 <= i < |g| ==> g[i] == ',' || IsDigit(g[i])
    ensures var r := g + "," + tail;
      forall i :: 0 <= i < |r| ==> (r[i] == ',' <==> (|r| - i) % 4 == 0)
    ensures var r := g + "," + tail;
      forall i :: 0 <= i < |r| ==> r[i] == ',' || IsDigit(r[i])
  {
    var r := g + "," + tail;
    forall i | 0 <= i < |r|
      ensures r[i] == ',' <==> (|r| - i) % 4 == 0
      ensures r[i] == ',' || IsDigit(r[i])
    {
      if i < |g| {
        assert r[i] == g[i] && |r| - i == (|g| - i) + 4;
      } else if i > |g| {
        assert r[i] == tail[i - |g| - 1] && 0 < |r| - i < 4;
      }
    }
  }

  /** The numeral of the two paise digits, a leading zero included. */
  function Cents(c: nat): (s: string)
    requires c < 100
    ensures |s| == 2 && AllDigits(s) && ValueOf(s) == c
  {
    var s := [DigitChar(c / 10), DigitChar(c % 10)];
    assert s[..1] == [DigitChar(c / 10)] && s[..1][..0] == [];
    assert ValueOf(s[..1]) == c / 10;
    s
  }

  function Abs(x: int): nat { if x < 0 then -x else x }

  /** The display text: the rupee sign, the minus sign when `negative`, the grouped rupees,
      a point and the paise. */
  function Layout(negative: bool, rupees: string, paise: string): string {
    [Rupee] + (if negative then "-" else "") + rupees + "." + paise
  }

  /** How an amount of `paise` is displayed. */
  function FormatCurrency(paise: int): (r: string)
    ensures |r| >= 5 && r[0] == Rupee
    ensures r[1] == '-' <==> paise < 0
    ensures r[|r| - 3] == '.' && IsDigit(r[|r| - 2]) && IsDigit(r[|r| - 1])
  {
    var a := Abs(paise);
    var g, c := Group(Digits(a / 100)), Cents(a % 100);
    var r := Layout(paise < 0, g, c);
    assert r[1] == if paise < 0 then '-' else g[0];
    assert r[|r| - 2..] == c;
    r
  }

  /**
   * The characters of `s` that `keep` accepts, in order (`String.prototype.replace` with
   * a global negated character class). This is `Collections.Filter` on strings, kept
   * separate on purpose: without Filter's quantified contract, the proofs about the
   * display text need only `KeepAppend` and `KeepAll` and stay small.
   */
  function Keep(s: string, keep: char -> bool): string
    decreases |s|
  {
    if s == [] then [] else (if keep(s[0]) then [s[0]] else []) + Keep(s[1..], keep)
  }

  /** Keeping characters distributes over concatenation. */
  lemma {:induction false} KeepAppend(a: string, b: string, keep: char -> bool)
    ensures Keep(a + b, keep) == Keep(a, keep) + Keep(b, keep)
    decreases |a|
  {
    if a == [] {
      assert a + b == b;
    } else {
      var head := if keep(a[0]) then [a[0]] else [];
      assert (a + b)[0] == a[0] && (a + b)[1..] == a[1..] + b;
      assert Keep(a + b, keep) == head + Keep(a[1..] + b, keep);
      assert Keep(a, keep) == head + Keep(a[1..], keep);
      KeepAppend(a[1..], b, keep);
    }
  }

  /** A string every character of which is accepted is kept whole. */
  lemma {:induction false} KeepAll(s: string, keep: char -> bool)
    requires forall i :: 0 <= i < |s| ==> keep(s[i])
    ensures Keep(s, keep) == s
    decreases |s|
  {
    if s != [] {
      KeepAll(s[1..], keep);
    }
  }

  /** The characters the invoice form keeps when it reads an amount back. */
  predicate IsDecimalChar(c: char) { IsDigit(c) || c == '.' }

  /** The same, with the minus sign kept as well. */
  predicate IsSignedDecimalChar(c: char) { IsDecimalChar(c) || c == '-' }

  /** The amount with rupee digits `whole` and paise digits `frac`, when both are digits. */
  function PaiseOf(whole: string, frac: string): Option<nat> {
    if AllDigits(whole) && AllDigits(frac) then Some(100 * ValueOf(whole) + ValueOf(frac)) else None
  }

  /** Reads "<digits>.<two digits>" as paise; anything else is not an amount. */
  function ParseUnsigned(t: string): (r: Option<nat>)
    ensures r.Some? ==> |t| >= 4 && t[|t| - 3] == '.'
  {
    if |t| < 4 || t[|t| - 3] != '.' then None else PaiseOf(t[..|t| - 3], t[|t| - 2..])
  }

  /** Reads an optional minus sign followed by an unsigned amount. */
  function ParseSigned(t: string): Option<int> {
    if |t| > 0 && t[0] == '-' then
      match ParseUnsigned(t[1..])
      case None => None
      case Some(v) => Some(-(v as int))
    else
      match ParseUnsigned(t)
      case None => None
      case Some(v) => Some(v as int)
  }

  /** The amount posting reads back from displayed text: keep `0-9` and `.`, then parse. */
  function ReparseAsWritten(s: string): (r: Option<int>)
    ensures r.Some? ==> r.value >= 0
  {
    match ParseUnsigned(Keep(s, IsDecimalChar))
    case None => None
    case Some(v) => Some(v as int)
  }

  /** The same with the minus sign kept. */
  function Reparse(s: string): (r: Option<int>)
    ensures r.Some? && r.value < 0 ==> '-' in s
    ensures '-' !in s ==> r == ReparseAsWritten(s)
  {
    var t := Keep(s, IsSignedDecimalChar);
    KeepFrom(s, IsSignedDecimalChar);
    assert '-' !in s ==> t == Keep(s, IsDecimalChar) by {
      if '-' !in s { KeepSame(s, IsSignedDecimalChar, IsDecimalChar); }
    }
    ParseSigned(t)
  }

  /** Keeping adds nothing: every kept character is an accepted character of `s`. */
  lemma {:induction false} KeepFrom(s: string, keep: char -> bool)
    ensures forall c :: c in Keep(s, keep) ==> c in s && keep(c)
    decreases |s|
  {
    if s != [] {
      KeepFrom(s[1..], keep);
      assert forall c :: c in s[1..] ==> c in s;
    }
  }

  /** Two filters that agree on the characters of `s` keep the same characters. */
  lemma {:induction false} KeepSame(s: string, k1: char -> bool, k2: char -> bool)
    requires forall i :: 0 <= i < |s| ==> k1(s[i]) == k2(s[i])
    ensures Keep(s, k1) == Keep(s, k2)
    decreases |s|
  {
    if s != [] {
      KeepSame(s[1..], k1, k2);
    }
  }

  /** Removing the grouping commas gives back the digits. */
  lemma {:induction false} UngroupDigits(ds: string, keep: char -> bool)
    requires AllDigits(ds)
    requires forall c :: IsDigit(c) ==> keep(c)
    requires !keep(',')
    ensures Keep(Group(ds), keep) == ds
    decreases |ds|
  {
    if |ds| <= 3 {
      KeepAll(ds, keep);
    } else {
      var head, tail := ds[..|ds| - 3], ds[|ds| - 3..];
      UngroupDigits(head, keep);
      KeepAppend(Group(head) + ",", tail, keep);
      KeepAppend(Group(head), ",", keep);
      assert Keep(",", keep) == [];
      KeepAll(tail, keep);
      assert ds == head + tail;
    }
  }

  /** What is left of a displayed amount after filtering: the rupee sign and the commas go,
      the minus sign stays exactly when `keepSign` asks for it. */
  lemma FilteredFormat(paise: int, keep: char -> bool, keepSign: bool)
    requires forall c :: IsDecimalChar(c) ==> keep(c)
    requires !keep(',') && !keep(Rupee) && keep('-') == keepSign
    ensures var a := Abs(paise);
      Keep(FormatCurrency(paise), keep)
        == (if paise < 0 && keepSign then "-" else "") + Digits(a / 100) + "." + Cents(a % 100)
  {
    var a := Abs(paise);
    var g, c := Group(Digits(a / 100)), Cents(a % 100);
    assert FormatCurrency(paise) == Layout(paise < 0, g, c);
    KeepLayout(paise < 0, g, c, keep);
    UngroupDigits(Digits(a / 100), keep);
    KeepAll(c, keep);
  }

  /** Filtering the display text filters each of its parts. */
  lemma KeepLayout(negative: bool, rupees: string, paise: string, keep: char -> bool)
    requires keep('.') && !keep(Rupee)
    ensures Keep(Layout(negative, rupees, paise), keep)
      == (if negative && keep('-') then "-" else "") + Keep(rupees, keep) + "." + Keep(paise, keep)
  {
    var sign := if negative then "-" else "";
    var head := [Rupee] + sign;
    var whole := head + rupees;
    var point := whole + ".";
    assert Layout(negative, rupees, paise) == point + paise;
    KeepAppend(point, paise, keep);
    KeepAppend(whole, ".", keep);
    KeepAppend(head, rupees, keep);
    KeepAppend([Rupee], sign, keep);
    assert Keep([Rupee], keep) == [];
    assert Keep(".", keep) == ".";
    assert Keep(sign, keep) == (if negative && keep('-') then "-" else "");
  }

  /** "<digits>.<two digits>" reads as that many rupees and paise. */
  lemma ParseParts(d: string, c: string)
    requires 1 <= |d| && |c| == 2
    ensures ParseUnsigned(d + "." + c) == PaiseOf(d, c)
  {
    var point := d + ".";
    var t := point + c;
    assert |t| - 3 == |d| && |t| - 2 == |point|;
    assert t[|d|] == '.';
    assert t[..|d|] == d by {
      assert t[..|point|] == point;
      assert point[..|d|] == d;
    }
    assert t[|point|..] == c;
  }

  /** Reading "<digits>.<cents>" gives back the amount it was written from. */
  lemma ParseWritten(a: nat)
    ensures ParseUnsigned(Digits(a / 100) + "." + Cents(a % 100)) == Some(a)
  {
    ParseParts(Digits(a / 100), Cents(a % 100));
    DigitsRoundTrip(a / 100);
  }

  /** As written, reading back a displayed amount yields its magnitude: the sign is lost. */
  lemma ReparseDropsSign(paise: int)
    ensures ReparseAsWritten(FormatCurrency(paise)) == Some(Abs(paise))
  {
    var a := Abs(paise);
    var t := Digits(a / 100) + "." + Cents(a % 100);
    FilteredFormat(paise, IsDecimalChar, false);
    assert Keep(FormatCurrency(paise), IsDecimalChar) == "" + t == t;
    ParseWritten(a);
  }

  /** A discount line of -100.00 rupees is read back as +100.00. */
  lemma ReparseNegativeLine()
    ensures ReparseAsWritten(FormatCurrency(-10000)) == Some(10000)
  {
    ReparseDropsSign(-10000);
  }

  /** Keeping the minus sign, every displayed amount reads back as itself. */
  lemma ReparseRoundTrip(paise: int)
    ensures Reparse(FormatCurrency(paise)) == Some(paise)
  {
    var a := Abs(paise);
    FilteredFormat(paise, IsSignedDecimalChar, true);
    ParseWritten(a);
    var t := Digits(a / 100) + "." + Cents(a % 100);
    var kept := Keep(FormatCurrency(paise), IsSignedDecimalChar);
    if paise < 0 {
      assert kept == "-" + t;
      assert kept[1..] == t;
    } else {
      assert kept == "" + t == t;
      assert IsDigit(t[0]);
    }
  }
}
