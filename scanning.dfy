/**
 * Building blocks for the regular expressions of the reply parser, each
 * matching greedily at an offset `p` of a text `t`: a whitespace run, a
 * literal, a run of one character class, and a lazy scan to a character.
 */
module Scanning {
  import opened Strings

  /** The end of the maximal run of whitespace starting at `p` (`\s*`). */
  function SkipSpace(t: string, p: nat): (q: nat)
    requires p <= |t|
    ensures p <= q <= |t| && (q == |t| || !IsSpace(t[q]))
    ensures forall i :: p <= i < q ==> IsSpace(t[i])
    decreases |t| - p
  {
    if p < |t| && IsSpace(t[p]) then SkipSpace(t, p + 1) else p
  }

  /** The literal `w` at `p`. */
  function Lit(t: string, p: nat, w: string): (r: Option<nat>)
    requires p <= |t|
    ensures r.Some? ==> r.value == p + |w| <= |t| && forall i :: 0 <= i < |w| ==> t[p + i] == w[i]
    ensures r.None? ==> !(p + |w| <= |t| && forall i :: 0 <= i < |w| ==> t[p + i] == w[i])
    decreases |w|
  {
    if w == [] then Some(p)
    else if p < |t| && t[p] == w[0] then
      Lit(t, p + 1, w[1..])
    else None
  }

  /** The end of the maximal run of characters of class `cls` starting at `p`. */
  function Run(t: string, p: nat, cls: char -> bool): (q: nat)
    requires p <= |t|
    ensures p <= q <= |t| && (q == |t| || !cls(t[q]))
    ensures forall i :: p <= i < q ==> cls(t[i])
    decreases |t| - p
  {
    if p < |t| && cls(t[p]) then Run(t, p + 1, cls) else p
  }

  /** A non-empty maximal run (`cls+`). */
  function Run1(t: string, p: nat, cls: char -> bool): (r: Option<nat>)
    requires p <= |t|
    ensures r.Some? ==> p < r.value <= |t| && r.value == Run(t, p, cls)
  {
    var q := Run(t, p, cls);
    if q > p then Some(q) else None
  }

  /** Just past the first `c` at or after `p` (a lazy `[\s\S]*?` then `c`). */
  function SeekChar(t: string, p: nat, c: char): (r: Option<nat>)
    requires p <= |t|
    ensures r.Some? ==> p < r.value <= |t| && t[r.value - 1] == c
    ensures r.None? ==> forall i :: p <= i < |t| ==> t[i] != c
    decreases |t| - p
  {
    if p == |t| then None else if t[p] == c then Some(p + 1) else SeekChar(t, p + 1, c)
  }
}
