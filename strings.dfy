/**
 * String helpers with the JavaScript semantics the bot relies on:
 * `String.prototype.trim`, `includes`, `||` on optional strings,
 * decimal rendering of numbers and the `<`/`<=` order on strings.
 */
module Strings {

  datatype Option<T> = None | Some(value: T)
  {
    predicate IsFailure() { None? }

    function PropagateFailure<U>(): Option<U>
      requires None?
    {
      None
    }

    function Extract(): T
      requires Some?
    {
      value
    }
  }

  /** A value, or the error a JavaScript call throws instead of returning. */
  datatype Result<T> = Ok(value: T) | Err(error: string)

  /** JavaScript `o || d` on an optional string: a missing value and "" are both falsy. */
  function OrElse(o: Option<string>, d: string): string
  {
    if o.Some? && o.value != "" then o.value else d
  }

  /** The characters matched by the JavaScript `\s` class and removed by `trim`. */
  predicate IsSpace(c: char)
  {
    c == ' ' || c == '\t' || c == '\n' || c == '\r' || c == '\U{000B}' || c == '\U{000C}'
    || c == '\U{00A0}' || c == '\U{1680}' || ('\U{2000}' <= c <= '\U{200A}')
    || c == '\U{2028}' || c == '\U{2029}' || c == '\U{202F}' || c == '\U{205F}'
    || c == '\U{3000}' || c == '\U{FEFF}'
  }

  predicate AllSpace(s: string)
  {
    forall i :: 0 <= i < |s| ==> IsSpace(s[i])
  }

  /** `trimStart`: `s` without its leading whitespace. */
  function TrimStart(s: string): (r: string)
    ensures |r| <= |s|
    decreases |s|
  {
    if s != [] && IsSpace(s[0]) then TrimStart(s[1..]) else s
  }

  /** What `trimStart` removes is whitespace, and what it keeps is the suffix that does not
   *  begin with whitespace. */
  lemma {:induction false} TrimStartSuffix(s: string)
    ensures TrimStart(s) == s[|s| - |TrimStart(s)|..]
    ensures TrimStart(s) == [] || !IsSpace(TrimStart(s)[0])
    ensures AllSpace(s[..|s| - |TrimStart(s)|])
    decreases |s|
  {
    if s != [] && IsSpace(s[0]) {
      TrimStartSuffix(s[1..]);
      var k := |s| - |TrimStart(s)|;
      assert s[1..][k - 1..] == s[k..];
      forall i | 0 <= i < k ensures IsSpace(s[..k][i]) {
        if i > 0 { assert s[..k][i] == s[1..][..k - 1][i - 1]; }
      }
    }
  }

  /** `trimEnd`: `s` without its trailing whitespace. */
  function TrimEnd(s: string): (r: string)
    ensures |r| <= |s|
    decreases |s|
  {
    if s != [] && IsSpace(s[|s| - 1]) then TrimEnd(s[..|s| - 1]) else s
  }

  /** What `trimEnd` removes is whitespace, and what it keeps is the prefix that does not
   *  end with whitespace. */
  lemma {:induction false} TrimEndPrefix(s: string)
    ensures TrimEnd(s) == s[..|TrimEnd(s)|]
    ensures TrimEnd(s) == [] || !IsSpace(TrimEnd(s)[|TrimEnd(s)| - 1])
    ensures AllSpace(s[|TrimEnd(s)|..])
    decreases |s|
  {
    if s != [] && IsSpace(s[|s| - 1]) {
      var init := s[..|s| - 1];
      TrimEndPrefix(init);
      var k := |TrimEnd(s)|;
      assert init[..k] == s[..k];
      forall i | k <= i < |s| ensures IsSpace(s[i]) {
        if i < |s| - 1 { assert s[i] == init[k..][i - k]; }
      }
      assert forall i :: 0 <= i < |s[k..]| ==> s[k..][i] == s[k + i];
    }
  }

  /** `trim`: `s` with leading and trailing whitespace removed. */
  function Trim(s: string): string
  {
    TrimEnd(TrimStart(s))
  }

  /** `Trim(s)` is the slice `s[a..b]` with only whitespace outside it and none at its ends. */
  lemma TrimIsSlice(s: string) returns (a: nat, b: nat)
    ensures a <= b <= |s| && Trim(s) == s[a..b]
    ensures AllSpace(s[..a]) && AllSpace(s[b..])
    ensures Trim(s) == [] || (!IsSpace(Trim(s)[0]) && !IsSpace(Trim(s)[|Trim(s)| - 1]))
  {
    var t := TrimStart(s);
    TrimStartSuffix(s);
    TrimEndPrefix(t);
    a := |s| - |t|;
    b := a + |TrimEnd(t)|;
    assert t == s[a..];
    assert TrimEnd(t) == t[..b - a] == s[a..b];
    assert s[b..] == t[b - a..];
  }

  /** Neither end of `s` is whitespace. */
  predicate Unpadded(s: string)
  {
    s != [] && !IsSpace(s[0]) && !IsSpace(s[|s| - 1])
  }

  /** `trim` leaves a string without whitespace at its ends unchanged. */
  lemma TrimUnpadded(s: string)
    requires Unpadded(s)
    ensures Trim(s) == s
  {
  }

  /** A string trims to "" exactly when every character of it is whitespace. */
  lemma TrimEmptyIff(s: string)
    ensures Trim(s) == [] <==> AllSpace(s)
  {
    var a, b := TrimIsSlice(s);
    if Trim(s) == [] {
      assert a == b;
      forall i | 0 <= i < |s| ensures IsSpace(s[i]) {
        if i < a { assert s[..a][i] == s[i]; } else { assert s[b..][i - b] == s[i]; }
      }
    }
  }

  lemma TrimIdempotent(s: string)
    ensures Trim(Trim(s)) == Trim(s)
  {
    var a, b := TrimIsSlice(s);
    if Trim(s) != [] {
      TrimUnpadded(Trim(s));
    }
  }

  /** `s.startsWith(p)` */
  predicate StartsWith(s: string, p: string)
  {
    |p| <= |s| && s[..|p|] == p
  }

  /** `s.includes(t)` */
  predicate Contains(s: string, t: string)
    decreases |s|
  {
    StartsWith(s, t) || (s != [] && Contains(s[1..], t))
  }

  /** `t` occurs in `s` at offset `i`. */
  predicate OccursAt(s: string, t: string, i: int)
  {
    0 <= i <= |s| - |t| && s[i..i + |t|] == t
  }

  /** `Contains` holds exactly when `t` occurs at some offset of `s`. */
  lemma {:induction false} ContainsIff(s: string, t: string)
    ensures Contains(s, t) <==> exists i :: OccursAt(s, t, i)
    decreases |s|
  {
    if StartsWith(s, t) {
      assert OccursAt(s, t, 0);
    } else if s != [] {
      ContainsIff(s[1..], t);
      if exists i :: OccursAt(s, t, i) {
        var i :| OccursAt(s, t, i);
        assert OccursAt(s[1..], t, i - 1) by { assert s[1..][i - 1..i - 1 + |t|] == s[i..i + |t|]; }
      }
      if Contains(s[1..], t) {
        var i :| OccursAt(s[1..], t, i);
        assert OccursAt(s, t, i + 1) by { assert s[1..][i..i + |t|] == s[i + 1..i + 1 + |t|]; }
      }
    }
  }

  /** A string that lacks the first character of `t` does not contain `t`. */
  lemma ContainsChar(s: string, t: string)
    requires t != [] && forall i :: 0 <= i < |s| ==> s[i] != t[0]
    ensures !Contains(s, t)
  {
    ContainsIff(s, t);
    forall i ensures !OccursAt(s, t, i) {
      if 0 <= i <= |s| - |t| { assert s[i..i + |t|][0] == s[i]; }
    }
  }

  // ---- decimal digits ----

  function DigitChar(d: nat): char
    requires d < 10
  {
    "0123456789"[d]
  }

  predicate IsDigit(c: char)
  {
    '0' <= c <= '9'
  }

  function DigitValue(c: char): nat
    requires IsDigit(c)
  {
    (c as int - '0' as int) as nat
  }

  lemma DigitRoundTrip(d: nat)
    requires d < 10
    ensures IsDigit(DigitChar(d)) && DigitValue(DigitChar(d)) == d
  {
  }

  /** `String(n)` for a non-negative integer: its decimal digits, no leading zero. */
  function NatToString(n: nat): (r: string)
    ensures |r| >= 1
    decreases n
  {
    if n < 10 then [DigitChar(n)] else NatToString(n / 10) + [DigitChar(n % 10)]
  }

  /** `String(n)` for any integer. */
  function IntToString(n: int): string
  {
    if n < 0 then "-" + NatToString(-n) else NatToString(n)
  }

  predicate AllDigits(s: string)
  {
    forall i :: 0 <= i < |s| ==> IsDigit(s[i])
  }

  /** The value of a run of decimal digits ("" reads as 0). */
  function ParseDigits(s: string): nat
    requires AllDigits(s)
    decreases |s|
  {
    if s == [] then 0 else ParseDigits(s[..|s| - 1]) * 10 + DigitValue(s[|s| - 1])
  }

  /** `NatToString` renders digits only, with no leading zero, and reading them back gives `n`. */
  lemma {:induction false} NatToStringRoundTrip(n: nat)
    ensures AllDigits(NatToString(n)) && ParseDigits(NatToString(n)) == n
    ensures NatToString(n)[0] != '0' || n == 0
    decreases n
  {
    if n < 10 {
      DigitRoundTrip(n);
    } else {
      NatToStringRoundTrip(n / 10);
      DigitRoundTrip(n % 10);
      var s := NatToString(n);
      assert s[..|s| - 1] == NatToString(n / 10);
      assert s[0] == NatToString(n / 10)[0];
    }
  }

  lemma MulAtLeast(a: int, k: int)
    requires a > 0 && k >= 1
    ensures a * k >= a
  {
    if k > 1 { MulAtLeast(a, k - 1); assert a * k == a * (k - 1) + a; }
  }

  /** Euclidean division has a unique quotient and remainder. */
  lemma DivModUnique(n: int, a: int, x: int, y: int)
    requires a > 0 && 0 <= y < a && n == a * x + y
    ensures n / a == x && n % a == y
  {
    var q, r := n / a, n % a;
    assert a * (q - x) == y - r;
    if q - x >= 1 { MulAtLeast(a, q - x); }
    if x - q >= 1 { MulAtLeast(a, x - q); }
  }

  /** Dividing by `10 * p` is dividing by 10 and then by `p`, and the remainders line up. */
  lemma SplitArith(n: nat, p: nat)
    requires p >= 1 && n >= 10 * p
    ensures n / 10 == p * (n / (10 * p)) + n % (10 * p) / 10
    ensures n % 10 == n % (10 * p) % 10
    ensures n / 10 / p == n / (10 * p) && n / 10 % p == n % (10 * p) / 10
  {
    var q, r := n / (10 * p), n % (10 * p);
    assert n == 10 * (p * q) + r;
    assert r == 10 * (r / 10) + r % 10;
    assert n == 10 * (p * q + r / 10) + r % 10;
    DivModUnique(n, 10, p * q + r / 10, r % 10);
    assert r / 10 < p;
    DivModUnique(n / 10, p, q, r / 10);
  }

  /** The decimal text of `n` ends in the `k`-digit zero-padded `n % 10^k`, after the text of `n / 10^k`. */
  lemma {:induction false} NatSplit(n: nat, k: nat)
    requires n >= Pow10(k)
    ensures NatToString(n) == NatToString(n / Pow10(k)) + Fixed(k, n % Pow10(k))
    decreases k
  {
    if k > 0 {
      var p := Pow10(k - 1);
      SplitArith(n, p);
      NatSplit(n / 10, k - 1);
    }
  }

  /** Zero-padded fixed-width rendering: the last `w` decimal digits of `n`, most significant first. */
  function Fixed(w: nat, n: nat): (r: string)
    ensures |r| == w
  {
    if w == 0 then [] else Fixed(w - 1, n / 10) + [DigitChar(n % 10)]
  }

  /** `String(n).padStart(2, "0")` for `n < 100`. */
  function Pad2(n: nat): string
    requires n < 100
  {
    if n < 10 then "0" + NatToString(n) else NatToString(n)
  }

  /** The padded rendering is the two-digit fixed-width one. */
  lemma Pad2Fixed(n: nat)
    requires n < 100
    ensures Pad2(n) == Fixed(2, n)
  {
    var hi, lo := n / 10, n % 10;
    assert hi < 10 && hi % 10 == hi && hi / 10 == 0 && lo < 10;
    assert Fixed(1, hi) == [DigitChar(hi)];
    assert Fixed(2, n) == [DigitChar(hi)] + [DigitChar(lo)];
    if n >= 10 {
      assert NatToString(hi) == [DigitChar(hi)];
      assert NatToString(n) == [DigitChar(hi)] + [DigitChar(lo)];
    } else {
      assert hi == 0 && lo == n;
    }
  }

  /** For a four-digit number `String(n)` already has width four. */
  lemma FourDigits(n: nat)
    requires 1000 <= n <= 9999
    ensures NatToString(n) == Fixed(4, n)
  {
    var a, b, c := n / 10, n / 10 / 10, n / 10 / 10 / 10;
    assert 1 <= c < 10;
    assert NatToString(c) == [DigitChar(c)] == Fixed(1, c);
    assert NatToString(b) == NatToString(c) + [DigitChar(b % 10)] == Fixed(2, b);
    assert NatToString(a) == NatToString(b) + [DigitChar(a % 10)] == Fixed(3, a);
  }

  // ---- JavaScript string order (UTF-16 code units; the model's characters are BMP code points) ----

  /** `a <= b` on JavaScript strings. */
  predicate LexLe(a: string, b: string)
    decreases |a|
  {
    a == [] || (b != [] && (a[0] < b[0] || (a[0] == b[0] && LexLe(a[1..], b[1..]))))
  }

  predicate LexLt(a: string, b: string)
  {
    LexLe(a, b) && a != b
  }

  lemma {:induction false} LexLeRefl(a: string)
    ensures LexLe(a, a)
    decreases |a|
  {
    if a != [] { LexLeRefl(a[1..]); }
  }

  lemma {:induction false} LexLeAntisym(a: string, b: string)
    requires LexLe(a, b) && LexLe(b, a)
    ensures a == b
    decreases |a|
  {
    if a != [] {
      LexLeAntisym(a[1..], b[1..]);
      assert a == [a[0]] + a[1..] && b == [b[0]] + b[1..];
    }
  }

  /** Comparing two strings whose first parts have equal length compares the first parts first. */
  lemma {:induction false} LexLeConcat(a1: string, a2: string, b1: string, b2: string)
    requires |a1| == |b1|
    ensures LexLe(a1 + a2, b1 + b2) <==> (LexLt(a1, b1) || (a1 == b1 && LexLe(a2, b2)))
    decreases |a1|
  {
    if a1 != [] {
      assert (a1 + a2)[1..] == a1[1..] + a2 && (b1 + b2)[1..] == b1[1..] + b2;
      LexLeConcat(a1[1..], a2, b1[1..], b2);
      if a1[0] == b1[0] && a1[1..] == b1[1..] {
        assert a1 == [a1[0]] + a1[1..] && b1 == [b1[0]] + b1[1..];
      }
      if a1 == b1 { LexLeRefl(a1); }
      if a1[0] < b1[0] { assert a1 != b1; }
    } else {
      assert a1 + a2 == a2 && b1 + b2 == b2;
    }
  }

  lemma DigitCharOrder(x: nat, y: nat)
    requires x < 10 && y < 10
    ensures DigitChar(x) < DigitChar(y) <==> x < y
    ensures DigitChar(x) == DigitChar(y) <==> x == y
  {
  }

  function Pow10(w: nat): (p: nat)
    ensures p >= 1
  {
    if w == 0 then 1 else 10 * Pow10(w - 1)
  }

  /** Fixed-width digit strings are ordered as the numbers they render. */
  lemma {:induction false} FixedOrder(w: nat, x: nat, y: nat)
    requires x < Pow10(w) && y < Pow10(w)
    ensures LexLe(Fixed(w, x), Fixed(w, y)) <==> x <= y
    decreases w
  {
    if w > 0 {
      var p := Pow10(w - 1);
      assert x / 10 < p && y / 10 < p;
      FixedOrder(w - 1, x / 10, y / 10);
      LexLeConcat(Fixed(w - 1, x / 10), [DigitChar(x % 10)], Fixed(w - 1, y / 10), [DigitChar(y % 10)]);
      DigitCharOrder(x % 10, y % 10);
      FixedInjective(w - 1, x / 10, y / 10);
      if x / 10 == y / 10 {
        assert x <= y <==> x % 10 <= y % 10;
      } else {
        assert x / 10 < y / 10 <==> x < y;
      }
    }
  }

  lemma {:induction false} FixedInjective(w: nat, x: nat, y: nat)
    requires x < Pow10(w) && y < Pow10(w)
    ensures Fixed(w, x) == Fixed(w, y) <==> x == y
    decreases w
  {
    if w > 0 {
      FixedInjective(w - 1, x / 10, y / 10);
      DigitCharOrder(x % 10, y % 10);
      var fx, fy := Fixed(w, x), Fixed(w, y);
      if fx == fy {
        assert fx[..w - 1] == Fixed(w - 1, x / 10) && fy[..w - 1] == Fixed(w - 1, y / 10);
        assert fx[w - 1] == DigitChar(x % 10) && fy[w - 1] == DigitChar(y % 10);
      }
    } else {
      assert x == 0 && y == 0;
    }
  }
}
