/**
 * Money text as the bot renders and re-reads it: `toLocaleString("en-US")`
 * with 0 or 2 fraction digits, the "$ " prefix, and `parseFloat` of a
 * figure after currency symbols, commas and spaces are stripped.
 * Amounts are integers (whole units, or hundredths for 2-decimal figures).
 */
module Ledger {
  import opened Strings

  /** One line of a category analysis: name, money text, percentage text. */
  datatype AnalysisItem = AnalysisItem(category: string, amount: string, percentage: string)

  /** en-US thousands grouping of a non-negative integer. */
  function Grouped(n: nat): string
    decreases n
  {
    if n < 1000 then NatToString(n) else Grouped(n / 1000) + "," + Fixed(3, n % 1000)
  }

  /** `n.toLocaleString("en-US", {maximumFractionDigits: 0})` for an integer `n`. */
  function Whole(n: int): string
  {
    if n < 0 then "-" + Grouped(-n) else Grouped(n)
  }

  /** The money text `$ <n>` with 0 fraction digits. */
  function Money(n: int): string
  {
    "$ " + Whole(n)
  }

  /** `c.toLocaleString("en-US", {minimumFractionDigits: 2, maximumFractionDigits: 2})` for `c` hundredths. */
  function Hundredths(c: int): string
  {
    var m := if c < 0 then -c else c;
    (if c < 0 then "-" else "") + Grouped(m / 100) + "." + Fixed(2, m % 100)
  }

  /** `s` without the characters `drop` selects (a global `replace(/[...]/g, "")`). */
  function RemoveChars(s: string, drop: char -> bool): (r: string)
    ensures forall i :: 0 <= i < |r| ==> !drop(r[i])
    ensures |r| <= |s|
  {
    if s == [] then [] else (if drop(s[0]) then [] else [s[0]]) + RemoveChars(s[1..], drop)
  }

  lemma RemoveCharsConcat(a: string, b: string, drop: char -> bool)
    ensures RemoveChars(a + b, drop) == RemoveChars(a, drop) + RemoveChars(b, drop)
  {
    if a != [] {
      assert (a + b)[1..] == a[1..] + b;
      RemoveCharsConcat(a[1..], b, drop);
    } else {
      assert a + b == b;
    }
  }

  /** A dropped first character leaves no trace. */
  lemma DropHead(c: char, s: string, drop: char -> bool)
    requires drop(c)
    ensures RemoveChars([c] + s, drop) == RemoveChars(s, drop)
  {
    assert ([c] + s)[1..] == s;
  }

  /** A kept first character stays in front. */
  lemma KeepHead(c: char, s: string, drop: char -> bool)
    requires !drop(c)
    ensures RemoveChars([c] + s, drop) == [c] + RemoveChars(s, drop)
  {
    assert ([c] + s)[1..] == s;
  }

  lemma RemoveCharsKeep(s: string, drop: char -> bool)
    requires forall i :: 0 <= i < |s| ==> !drop(s[i])
    ensures RemoveChars(s, drop) == s
  {
  }

  /** The characters the analysis sort key strips: `[$,\s]`. */
  predicate SortKeyJunk(c: char)
  {
    c == '$' || c == ',' || IsSpace(c)
  }

  /** `parseFloat` of an optionally signed run of digits; `None` is NaN. */
  function ParseInteger(s: string): Option<int>
  {
    if |s| >= 2 && s[0] == '-' && AllDigits(s[1..]) then Some(-(ParseDigits(s[1..]) as int))
    else if |s| >= 1 && AllDigits(s) then Some(ParseDigits(s))
    else None
  }

  /** The key `parseFloat(item.amount.replace(/[$,\s]/g, ""))` the analysis lists are sorted by. */
  function SortKey(amount: string): Option<int>
  {
    ParseInteger(RemoveChars(amount, SortKeyJunk))
  }

  /** A set of characters a `replace` strips that holds the comma and no digit. */
  predicate StripsCommas(drop: char -> bool)
  {
    drop(',') && forall c :: IsDigit(c) ==> !drop(c)
  }

  /** Removing the grouping commas from the grouped text leaves the plain decimal digits. */
  lemma {:induction false} GroupedDigits(n: nat, drop: char -> bool)
    requires StripsCommas(drop)
    ensures RemoveChars(Grouped(n), drop) == NatToString(n)
    decreases n
  {
    if n < 1000 {
      NatToStringRoundTrip(n);
      DigitsKept(NatToString(n), drop);
    } else {
      GroupedDigits(n / 1000, drop);
      StripGroup(n, drop);
      SplitThousands(n);
    }
  }

  /** Stripping the commas from a grouped figure of four or more digits strips the
   *  leading groups and keeps the last three digits. */
  lemma StripGroup(n: nat, drop: char -> bool)
    requires n >= 1000 && StripsCommas(drop)
    ensures RemoveChars(Grouped(n), drop) == RemoveChars(Grouped(n / 1000), drop) + Fixed(3, n % 1000)
  {
    var g, f := Grouped(n / 1000), Fixed(3, n % 1000);
    assert Grouped(n) == g + ("," + f);
    StripComma(g, f, drop);
    FixedIsDigits(3, n % 1000);
    DigitsKept(f, drop);
  }

  lemma StripComma(g: string, f: string, drop: char -> bool)
    requires drop(',')
    ensures RemoveChars(g + ("," + f), drop) == RemoveChars(g, drop) + RemoveChars(f, drop)
  {
    assert "," + f == [','] + f;
    DropHead(',', f, drop);
    RemoveCharsConcat(g, "," + f, drop);
  }

  lemma DigitsKept(s: string, drop: char -> bool)
    requires AllDigits(s) && StripsCommas(drop)
    ensures RemoveChars(s, drop) == s
  {
    forall i | 0 <= i < |s| ensures !drop(s[i]) {
      assert IsDigit(s[i]);
    }
    RemoveCharsKeep(s, drop);
  }

  lemma FixedIsDigits(w: nat, n: nat)
    ensures AllDigits(Fixed(w, n))
  {
    if w > 0 { FixedIsDigits(w - 1, n / 10); }
  }

  /** The last three digits of `String(n)` are the zero-padded `n % 1000`. */
  lemma SplitThousands(n: nat)
    requires n >= 1000
    ensures NatToString(n) == NatToString(n / 1000) + Fixed(3, n % 1000)
  {
    assert Pow10(3) == 1000;
    NatSplit(n, 3);
  }

  /** Reading the sort key back from a rendered money text gives the amount it was rendered from. */
  lemma {:induction false} MoneySortKey(n: int)
    ensures SortKey(Money(n)) == Some(n)
  {
    var w := Whole(n);
    assert RemoveChars(Money(n), SortKeyJunk) == RemoveChars(w, SortKeyJunk) by {
      StripPrefix("$ ", w);
    }
    if n < 0 {
      var m: nat := -n;
      assert RemoveChars(w, SortKeyJunk) == "-" + NatToString(m) by {
        assert w == "-" + Grouped(m);
        StripPrefix("-", Grouped(m));
        GroupedDigits(m, SortKeyJunk);
      }
      ParseNegative(m);
    } else {
      var m: nat := n;
      assert RemoveChars(w, SortKeyJunk) == NatToString(m) by {
        assert w == Grouped(m);
        GroupedDigits(m, SortKeyJunk);
      }
      ParseNonNegative(m);
    }
  }

  lemma StripPrefix(p: string, s: string)
    requires p == "$ " || p == "-"
    ensures RemoveChars(p + s, SortKeyJunk) == (if p == "-" then "-" else "") + RemoveChars(s, SortKeyJunk)
  {
    if p == "$ " {
      assert p + s == ['$'] + ([' '] + s);
      DropHead(' ', s, SortKeyJunk);
      DropHead('$', [' '] + s, SortKeyJunk);
    } else {
      assert p + s == ['-'] + s;
      KeepHead('-', s, SortKeyJunk);
    }
  }

  lemma ParseNonNegative(m: nat)
    ensures ParseInteger(NatToString(m)) == Some(m)
  {
    NatToStringRoundTrip(m);
    var d := NatToString(m);
    assert IsDigit(d[0]);
  }

  lemma ParseNegative(m: nat)
    requires m > 0
    ensures ParseInteger("-" + NatToString(m)) == Some(-(m as int))
  {
    NatToStringRoundTrip(m);
    var t := "-" + NatToString(m);
    assert t[1..] == NatToString(m);
  }

  /** `parseFloat` of a figure stripped of symbols, commas and spaces (`D*(.D{1,2})?`),
   *  in hundredths; `None` is NaN (no digit at all). */
  function ParseHundredths(s: string): Option<int>
  {
    var k := DigitPrefix(s);
    var whole := s[..k];
    var rest := s[k..];
    var frac :=
      if |rest| >= 3 && rest[0] == '.' && IsDigit(rest[1]) && IsDigit(rest[2]) then Some(DigitValue(rest[1]) * 10 + DigitValue(rest[2]))
      else if |rest| >= 2 && rest[0] == '.' && IsDigit(rest[1]) then Some(DigitValue(rest[1]) * 10)
      else None;
    if k == 0 && frac.None? then None
    else Some(ParseDigits(whole) * 100 + (if frac.Some? then frac.value else 0))
  }

  /** Two fraction digits read back as their value. */
  lemma FixedTwoDigits(f: nat)
    requires f < 100
    ensures var r := Fixed(2, f);
            IsDigit(r[0]) && IsDigit(r[1]) && DigitValue(r[0]) * 10 + DigitValue(r[1]) == f
  {
    assert Fixed(2, f) == [DigitChar(f / 10 % 10)] + [DigitChar(f % 10)];
    DigitRoundTrip(f / 10);
    DigitRoundTrip(f % 10);
  }

  /** Decimal digits, a point and two fraction digits read back as hundredths. */
  lemma ParseHundredthsFixed(w: nat, f: nat)
    requires f < 100
    ensures ParseHundredths(NatToString(w) + ("." + Fixed(2, f))) == Some(w * 100 + f)
  {
    var n := NatToString(w);
    var rest := "." + Fixed(2, f);
    var s := n + rest;
    NatToStringRoundTrip(w);
    DigitPrefixConcat(n, rest);
    assert s[..|n|] == n && s[|n|..] == rest;
    FixedTwoDigits(f);
    assert rest[1] == Fixed(2, f)[0] && rest[2] == Fixed(2, f)[1];
    assert |rest| >= 3 && rest[0] == '.' && IsDigit(rest[1]) && IsDigit(rest[2]);
    assert ParseHundredths(s) == Some(ParseDigits(n) * 100 + (DigitValue(rest[1]) * 10 + DigitValue(rest[2])));
  }

  /** The digit prefix stops at the first character that is not a digit. */
  lemma {:induction false} DigitPrefixConcat(n: string, t: string)
    requires AllDigits(n) && t != [] && !IsDigit(t[0])
    ensures DigitPrefix(n + t) == |n|
    decreases |n|
  {
    if n == [] {
      assert n + t == t;
    } else {
      assert (n + t)[0] == n[0] && (n + t)[1..] == n[1..] + t;
      assert forall i :: 0 <= i < |n[1..]| ==> n[1..][i] == n[i + 1];
      DigitPrefixConcat(n[1..], t);
    }
  }

  /** Length of the longest all-digit prefix of `s`. */
  function DigitPrefix(s: string): (k: nat)
    ensures k <= |s| && AllDigits(s[..k]) && (k == |s| || !IsDigit(s[k]))
  {
    if s != [] && IsDigit(s[0]) then
      var k := 1 + DigitPrefix(s[1..]);
      assert s[..k] == [s[0]] + s[1..][..k - 1];
      k
    else 0
  }
}
