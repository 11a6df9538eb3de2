/**
 * `cleanMessageText`: the display text of a reply, obtained by a fixed chain
 * of global regular-expression replacements. Each expression of the chain is
 * a `Pattern`; `MatchAt` decides whether it matches at the start of a text
 * and how long the match is, following the backtracking order of JavaScript
 * regular expressions for that expression. `ReplaceAll` is `replace(/.../g, rep)`
 * and `ReplaceFirst` the non-global `replace`.
 */
module CleanText {
  import opened Strings
  import opened Scanning

  datatype Pattern =
    | CodeBlockJson   // a ``` fence, optional "json", spaces, a {...} or [...] body (lazy), spaces, a closing ```
    | JsonObject      // "{" up to the first "}"
    | IdArray         // "[" then one or more {"id":N} objects separated by commas, "]", an optional trailing comma
    | IdBeforeComma   // "[" one {"id":N} object "]" followed by a comma
    | EmptyBrackets   // "[ ]", optionally followed by ", [ ]"
    | CommaBrackets   // "[" spaces and commas only "]"
    | SpaceRun        // a maximal run of whitespace
    | LeadInAtEnd     // the lead-in sentence 以下是您本次的紀錄： followed only by whitespace up to the end
    | TypeMarker      // "[" one {"type":"..."} object "]", an optional trailing comma
    | IdTypePair      // an [{"id":N}] list, a comma, then a [{"type":"..."}] marker
    | OneCommaBrackets // "[" spaces "," spaces "]"
    | AnyBrackets     // "[" up to the first "]"
    | TrailingComma   // a comma followed only by whitespace up to the end
    | EmptyFence      // ``` spaces ```
    | EmptyJsonFence  // ```json spaces ```
    | Fence           // ```

  predicate NotQuote(c: char) { c != '"' }

  predicate SpaceOrComma(c: char) { IsSpace(c) || c == ',' }

  /** Just past the first `close` at or after `r` that is followed by spaces and a closing fence. */
  function CloseThenFence(t: string, r: nat, close: char): (res: Option<nat>)
    requires r <= |t|
    ensures res.Some? ==> r < res.value <= |t|
    decreases |t| - r
  {
    if r == |t| then None
    else if t[r] == close && Lit(t, SkipSpace(t, r + 1), "```").Some? then Lit(t, SkipSpace(t, r + 1), "```")
    else CloseThenFence(t, r + 1, close)
  }

  /** An object `{"id": N}` with optional spaces around its tokens. */
  function IdObject(t: string, p: nat): (r: Option<nat>)
    requires p <= |t|
    ensures r.Some? ==> p + 1 < r.value <= |t| && t[p] == '{' && t[r.value - 1] == '}'
  {
    var a :- Lit(t, p, "{");
    var b :- Lit(t, SkipSpace(t, a), "\"id\"");
    var c :- Lit(t, SkipSpace(t, b), ":");
    var d :- Run1(t, SkipSpace(t, c), IsDigit);
    Lit(t, SkipSpace(t, d), "}")
  }

  /** An object `{"type": "..."}` with a non-empty value without quotes. */
  function TypeObject(t: string, p: nat): (r: Option<nat>)
    requires p <= |t|
    ensures r.Some? ==> p + 1 < r.value <= |t| && t[p] == '{' && t[r.value - 1] == '}'
  {
    var a :- Lit(t, p, "{");
    var b :- Lit(t, SkipSpace(t, a), "\"type\"");
    var c :- Lit(t, SkipSpace(t, b), ":");
    var d :- Lit(t, SkipSpace(t, c), "\"");
    var e :- Run1(t, d, NotQuote);
    var f :- Lit(t, e, "\"");
    Lit(t, SkipSpace(t, f), "}")
  }

  /** One more `, {"id": N}` of an ID list. */
  function NextId(t: string, p: nat): (r: Option<nat>)
    requires p <= |t|
    ensures r.Some? ==> p < r.value <= |t|
  {
    var a :- Lit(t, SkipSpace(t, p), ",");
    IdObject(t, SkipSpace(t, a))
  }

  /** As many further IDs as follow (a greedy `(...)*`). */
  function MoreIds(t: string, p: nat): (q: nat)
    requires p <= |t|
    ensures p <= q <= |t|
    decreases |t| - p
  {
    var n := NextId(t, p);
    if n.Some? then MoreIds(t, n.value) else p
  }

  /** An optional `\s*,\s*` after `p`. */
  function OptComma(t: string, p: nat): (q: nat)
    requires p <= |t|
    ensures p <= q <= |t|
  {
    var e := SkipSpace(t, p);
    if Lit(t, e, ",").Some? then SkipSpace(t, e + 1) else p
  }

  /** An optional `, [ ]` after `p`. */
  function OptEmptyPair(t: string, p: nat): (q: nat)
    requires p <= |t|
    ensures p <= q <= |t|
  {
    var r := (var a :- Lit(t, p, ",");
              var b :- Lit(t, SkipSpace(t, a), "[");
              Lit(t, SkipSpace(t, b), "]"));
    if r.Some? then r.value else p
  }

  /** The length of the match of `pat` at the start of `t`, if it matches there. */
  function MatchAt(pat: Pattern, t: string): (r: Option<nat>)
    ensures r.Some? ==> 0 < r.value <= |t|
    ensures (pat == LeadInAtEnd || pat == TrailingComma) && r.Some? ==> r.value == |t|
    ensures pat == JsonObject ==> (r.Some? <==> t != [] && t[0] == '{' && '}' in t[1..])
  {
    match pat
    case CodeBlockJson => MatchCodeBlockJson(t)
    case JsonObject => MatchJsonObject(t)
    case IdArray => MatchIdArray(t)
    case IdBeforeComma => MatchIdBeforeComma(t)
    case EmptyBrackets => MatchEmptyBrackets(t)
    case CommaBrackets => MatchCommaBrackets(t)
    case SpaceRun => Run1(t, 0, IsSpace)
    case LeadInAtEnd => MatchToEnd(t, "以下是您本次的紀錄：")
    case TypeMarker => MatchTypeMarker(t)
    case IdTypePair => MatchIdTypePair(t)
    case OneCommaBrackets => MatchOneCommaBrackets(t)
    case AnyBrackets =>
      var a :- Lit(t, 0, "[");
      SeekChar(t, a, ']')
    case TrailingComma => MatchToEnd(t, ",")
    case EmptyFence => MatchEmptyFence(t, "```")
    case EmptyJsonFence => MatchEmptyFence(t, "```json")
    case Fence => Lit(t, 0, "```")
  }

  function MatchCodeBlockJson(t: string): (r: Option<nat>)
    ensures r.Some? ==> 0 < r.value <= |t|
  {
    var a :- Lit(t, 0, "```");
    var b := if Lit(t, a, "json").Some? then a + 4 else a;
    var c := SkipSpace(t, b);
    if c < |t| && (t[c] == '{' || t[c] == '[') then CloseThenFence(t, c + 1, if t[c] == '{' then '}' else ']')
    else None
  }

  function MatchJsonObject(t: string): (r: Option<nat>)
    ensures r.Some? ==> 0 < r.value <= |t|
    ensures r.Some? <==> t != [] && t[0] == '{' && '}' in t[1..]
  {
    var a :- Lit(t, 0, "{");
    var r := SeekChar(t, a, '}');
    assert r.Some? ==> t[1..][r.value - 2] == '}';
    assert r.None? ==> forall i :: 0 <= i < |t[1..]| ==> t[1..][i] == t[i + 1];
    r
  }

  function MatchIdArray(t: string): (r: Option<nat>)
    ensures r.Some? ==> 0 < r.value <= |t|
  {
    var a :- Lit(t, 0, "[");
    var b :- IdObject(t, SkipSpace(t, a));
    var c :- Lit(t, SkipSpace(t, MoreIds(t, b)), "]");
    Some(OptComma(t, c))
  }

  function MatchIdBeforeComma(t: string): (r: Option<nat>)
    ensures r.Some? ==> 0 < r.value <= |t|
  {
    var a :- Lit(t, 0, "[");
    var b :- IdObject(t, SkipSpace(t, a));
    var c :- Lit(t, SkipSpace(t, b), "]");
    Lit(t, SkipSpace(t, c), ",")
  }

  function MatchEmptyBrackets(t: string): (r: Option<nat>)
    ensures r.Some? ==> 0 < r.value <= |t|
  {
    var a :- Lit(t, 0, "[");
    var b :- Lit(t, SkipSpace(t, a), "]");
    Some(OptEmptyPair(t, SkipSpace(t, b)))
  }

  function MatchCommaBrackets(t: string): (r: Option<nat>)
    ensures r.Some? ==> 0 < r.value <= |t|
  {
    var a :- Lit(t, 0, "[");
    Lit(t, Run(t, a, SpaceOrComma), "]")
  }

  /** The non-empty literal `w` followed only by whitespace up to the end of `t`. */
  function MatchToEnd(t: string, w: string): (r: Option<nat>)
    requires w != []
    ensures r.Some? ==> 0 < r.value == |t|
  {
    var a :- Lit(t, 0, w);
    if SkipSpace(t, a) == |t| then Some(|t|) else None
  }

  function MatchTypeMarker(t: string): (r: Option<nat>)
    ensures r.Some? ==> 0 < r.value <= |t|
  {
    var a :- Lit(t, 0, "[");
    var b :- TypeObject(t, SkipSpace(t, a));
    var c :- Lit(t, SkipSpace(t, b), "]");
    Some(OptComma(t, c))
  }

  function MatchIdTypePair(t: string): (r: Option<nat>)
    ensures r.Some? ==> 0 < r.value <= |t|
  {
    var a :- Lit(t, 0, "[");
    var b :- IdObject(t, SkipSpace(t, a));
    var c :- Lit(t, SkipSpace(t, b), "]");
    var d :- Lit(t, SkipSpace(t, c), ",");
    var e :- Lit(t, SkipSpace(t, d), "[");
    var f :- TypeObject(t, SkipSpace(t, e));
    Lit(t, SkipSpace(t, f), "]")
  }

  function MatchOneCommaBrackets(t: string): (r: Option<nat>)
    ensures r.Some? ==> 0 < r.value <= |t|
  {
    var a :- Lit(t, 0, "[");
    var b :- Lit(t, SkipSpace(t, a), ",");
    Lit(t, SkipSpace(t, b), "]")
  }

  /** The non-empty fence opener `w`, whitespace, and a closing fence. */
  function MatchEmptyFence(t: string, w: string): (r: Option<nat>)
    requires w != []
    ensures r.Some? ==> 0 < r.value <= |t|
  {
    var a :- Lit(t, 0, w);
    Lit(t, SkipSpace(t, a), "```")
  }

  /** `t.replace(pat (global), rep)`: every match, scanning left to right, becomes `rep`. */
  function ReplaceAll(pat: Pattern, t: string, rep: string): (r: string)
    ensures forall c :: c in r ==> c in t || c in rep
    decreases |t|
  {
    if t == [] then []
    else
      var m := MatchAt(pat, t);
      var n := if m.Some? then m.value else 1;
      var rest := ReplaceAll(pat, t[n..], rep);
      assert forall c :: c in t[n..] ==> c in t;
      (if m.Some? then rep else [t[0]]) + rest
  }

  function RemoveAll(pat: Pattern, t: string): string
  {
    ReplaceAll(pat, t, "")
  }

  /** `t.replace(pat, rep)` without the global flag: the leftmost match only. */
  function ReplaceFirst(pat: Pattern, t: string, rep: string): string
    decreases |t|
  {
    if t == [] then []
    else if MatchAt(pat, t).Some? then rep + t[MatchAt(pat, t).value..]
    else [t[0]] + ReplaceFirst(pat, t[1..], rep)
  }

  // ---- the two revisions ----

  /** The current `cleanMessageText` of utils/difyMessageProcessor.js. */
  function CleanMessageText(message: Option<string>): (r: string)
    ensures message.None? || message == Some("") ==> r == ""
    ensures SingleSpaced(r)
    ensures NoPair(r, '{', '}')
  {
    if message.None? || message.value == "" then ""
    else
      var a := RemoveAll(CodeBlockJson, message.value);
      var b := RemoveAll(JsonObject, a);
      var c := RemoveAll(IdArray, b);
      var d := RemoveAll(IdBeforeComma, c);
      var e := RemoveAll(EmptyBrackets, d);
      var f := RemoveAll(CommaBrackets, e);
      ObjectsRemoved(a);
      KeepsNoPair(IdArray, b, "", '{', '}');
      KeepsNoPair(IdBeforeComma, c, "", '{', '}');
      KeepsNoPair(EmptyBrackets, d, "", '{', '}');
      KeepsNoPair(CommaBrackets, e, "", '{', '}');
      Finish(f, '{', '}');
      ReplaceFirst(LeadInAtEnd, Trim(ReplaceAll(SpaceRun, f, " ")), "")
  }

  /** The older `cleanMessageText` of server.js, which also strips type markers, every
   *  remaining bracket group, a trailing comma and stray fences. */
  function CleanMessageTextOld(message: Option<string>): (r: string)
    ensures message.None? || message == Some("") ==> r == ""
    ensures SingleSpaced(r)
    ensures NoPair(r, '{', '}') && NoPair(r, '[', ']')
  {
    if message.None? || message.value == "" then ""
    else
      var a := RemoveAll(CodeBlockJson, message.value);
      var b := RemoveAll(JsonObject, a);
      var c := RemoveAll(IdArray, b);
      var d := RemoveAll(TypeMarker, c);
      var e := RemoveAll(IdTypePair, d);
      var f := RemoveAll(EmptyBrackets, e);
      var g := RemoveAll(OneCommaBrackets, f);
      var h := RemoveAll(AnyBrackets, g);
      var i := RemoveAll(TrailingComma, h);
      var j := RemoveAll(EmptyFence, i);
      var k := RemoveAll(EmptyJsonFence, j);
      var l := RemoveAll(Fence, k);
      ObjectsRemoved(a);
      KeepsNoPair(IdArray, b, "", '{', '}');
      KeepsNoPair(TypeMarker, c, "", '{', '}');
      KeepsNoPair(IdTypePair, d, "", '{', '}');
      KeepsNoPair(EmptyBrackets, e, "", '{', '}');
      KeepsNoPair(OneCommaBrackets, f, "", '{', '}');
      KeepsNoPair(AnyBrackets, g, "", '{', '}');
      KeepsNoPair(TrailingComma, h, "", '{', '}');
      KeepsNoPair(EmptyFence, i, "", '{', '}');
      KeepsNoPair(EmptyJsonFence, j, "", '{', '}');
      KeepsNoPair(Fence, k, "", '{', '}');
      BracketsRemoved(g);
      KeepsNoPair(TrailingComma, h, "", '[', ']');
      KeepsNoPair(EmptyFence, i, "", '[', ']');
      KeepsNoPair(EmptyJsonFence, j, "", '[', ']');
      KeepsNoPair(Fence, k, "", '[', ']');
      Finish(l, '{', '}');
      Finish(l, '[', ']');
      ReplaceFirst(LeadInAtEnd, Trim(ReplaceAll(SpaceRun, l, " ")), "")
  }

  // ---- properties ----

  /** Every whitespace character is a plain space and no two are adjacent. */
  predicate SingleSpaced(s: string)
  {
    (forall i :: 0 <= i < |s| && IsSpace(s[i]) ==> s[i] == ' ')
    && (forall i :: 0 <= i < |s| - 1 ==> !(IsSpace(s[i]) && IsSpace(s[i + 1])))
  }

  /** No `o` is followed, anywhere later, by a `c`: no `o...c` group survives. */
  predicate NoPair(s: string, o: char, c: char)
  {
    forall i, j :: 0 <= i < j < |s| ==> !(s[i] == o && s[j] == c)
  }

  /** After the object step no `{` is followed by a `}`. */
  lemma {:induction false} ObjectsRemoved(t: string)
    ensures NoPair(RemoveAll(JsonObject, t), '{', '}')
    decreases |t|
  {
    if t != [] {
      var m := MatchAt(JsonObject, t);
      var n := if m.Some? then m.value else 1;
      ObjectsRemoved(t[n..]);
      var rest := RemoveAll(JsonObject, t[n..]);
      var r := RemoveAll(JsonObject, t);
      if m.None? {
        assert r == [t[0]] + rest;
        if t[0] == '{' {
          assert '}' !in t[1..];
          assert '}' !in rest;
        }
        forall i, j | 0 <= i < j < |r| ensures !(r[i] == '{' && r[j] == '}') {
          if i > 0 {
            assert r[i] == rest[i - 1] && r[j] == rest[j - 1];
          } else if t[0] == '{' {
            assert r[j] == rest[j - 1] && r[j] in rest;
          }
        }
      }
    }
  }

  /** After the any-bracket step no `[` is followed by a `]`. */
  lemma {:induction false} BracketsRemoved(t: string)
    ensures NoPair(RemoveAll(AnyBrackets, t), '[', ']')
    decreases |t|
  {
    if t != [] {
      var m := MatchAt(AnyBrackets, t);
      var n := if m.Some? then m.value else 1;
      BracketsRemoved(t[n..]);
      var rest := RemoveAll(AnyBrackets, t[n..]);
      var r := RemoveAll(AnyBrackets, t);
      if m.None? {
        assert r == [t[0]] + rest;
        if t[0] == '[' {
          forall c | c in t[1..] ensures c != ']' {
            var k :| 0 <= k < |t[1..]| && t[1..][k] == c;
            assert t[k + 1] == c;
          }
          assert ']' !in rest;
        }
        forall i, j | 0 <= i < j < |r| ensures !(r[i] == '[' && r[j] == ']') {
          if i > 0 {
            assert r[i] == rest[i - 1] && r[j] == rest[j - 1];
          } else if t[0] == '[' {
            assert r[j] == rest[j - 1] && r[j] in rest;
          }
        }
      }
    }
  }

  /** A replacement whose text lacks both characters cannot create an `o...c` group. */
  lemma {:induction false} KeepsNoPair(pat: Pattern, t: string, rep: string, o: char, c: char)
    requires NoPair(t, o, c) && o !in rep && c !in rep
    ensures NoPair(ReplaceAll(pat, t, rep), o, c)
    decreases |t|
  {
    if t != [] {
      var m := MatchAt(pat, t);
      var n := if m.Some? then m.value else 1;
      var u := t[n..];
      NoPairDrop(t, n, o, c);
      KeepsNoPair(pat, u, rep, o, c);
      var rest := ReplaceAll(pat, u, rep);
      var head := if m.Some? then rep else [t[0]];
      if m.None? && t[0] == o {
        forall k | 0 <= k < |u| ensures u[k] != c {
          assert u[k] == t[1 + k];
        }
        assert c !in rest;
      }
      NoPairJoin(head, rest, o, c);
    }
  }

  /** A suffix keeps the property. */
  lemma NoPairDrop(t: string, n: nat, o: char, c: char)
    requires NoPair(t, o, c) && n <= |t|
    ensures NoPair(t[n..], o, c)
  {
    var u := t[n..];
    forall i, j | 0 <= i < j < |u| ensures !(u[i] == o && u[j] == c) {
      assert u[i] == t[n + i] && u[j] == t[n + j];
    }
  }

  /** Two texts without a group join into one without, unless an `o` of the first meets a
   *  `c` of the second. */
  lemma NoPairJoin(head: string, rest: string, o: char, c: char)
    requires NoPair(head, o, c) && NoPair(rest, o, c)
    requires o in head ==> c !in rest
    ensures NoPair(head + rest, o, c)
  {
    var r := head + rest;
    forall i, j | 0 <= i < j < |r| ensures !(r[i] == o && r[j] == c) {
      if i >= |head| {
        assert r[i] == rest[i - |head|] && r[j] == rest[j - |head|];
      } else if j < |head| {
        assert r[i] == head[i] && r[j] == head[j];
      } else {
        assert r[i] == head[i] && r[j] == rest[j - |head|];
      }
    }
  }

  /** Collapsing whitespace runs leaves the text single-spaced, and a text that starts with a
   *  non-space keeps its first character. */
  lemma {:induction false} CollapseSpaced(t: string)
    ensures SingleSpaced(ReplaceAll(SpaceRun, t, " "))
    ensures t != [] && !IsSpace(t[0]) ==> ReplaceAll(SpaceRun, t, " ") != [] && ReplaceAll(SpaceRun, t, " ")[0] == t[0]
    decreases |t|
  {
    if t != [] {
      var m := MatchAt(SpaceRun, t);
      var n := if m.Some? then m.value else 1;
      var u := t[n..];
      CollapseSpaced(u);
      var rest := ReplaceAll(SpaceRun, u, " ");
      if m.Some? {
        assert n == Run(t, 0, IsSpace);
        assert u != [] ==> !IsSpace(u[0]);
        ConsSpaced(' ', rest);
      } else {
        ConsSpaced(t[0], rest);
      }
    }
  }

  /** Putting `x` in front of a single-spaced text keeps it single-spaced when `x` is not a
   *  space, or is a plain space before a non-space. */
  lemma ConsSpaced(x: char, rest: string)
    requires SingleSpaced(rest)
    requires IsSpace(x) ==> x == ' ' && (rest == [] || !IsSpace(rest[0]))
    ensures SingleSpaced([x] + rest)
  {
    var r := [x] + rest;
    assert forall i :: 1 <= i < |r| ==> r[i] == rest[i - 1];
  }

  /** A slice of a single-spaced, pair-free text is single-spaced and pair-free. */
  lemma SliceKeeps(s: string, a: nat, b: nat, o: char, c: char)
    requires a <= b <= |s|
    ensures SingleSpaced(s) ==> SingleSpaced(s[a..b])
    ensures NoPair(s, o, c) ==> NoPair(s[a..b], o, c)
  {
    var w := s[a..b];
    assert forall i :: 0 <= i < |w| ==> w[i] == s[a + i];
  }

  /** Dropping a trailing lead-in sentence keeps a prefix of the text. */
  lemma {:induction false} LeadInPrefix(t: string) returns (k: nat)
    ensures k <= |t| && ReplaceFirst(LeadInAtEnd, t, "") == t[..k]
    decreases |t|
  {
    if t == [] {
      k := 0;
    } else if MatchAt(LeadInAtEnd, t).Some? {
      k := 0;
    } else {
      var k1 := LeadInPrefix(t[1..]);
      k := k1 + 1;
      assert [t[0]] + t[1..][..k1] == t[..k];
    }
  }

  /** The last three steps (collapse, trim, lead-in removal) give a single-spaced text and keep
   *  a pair-free text pair-free. */
  lemma Finish(f: string, o: char, c: char)
    requires o != ' ' && c != ' '
    ensures SingleSpaced(ReplaceFirst(LeadInAtEnd, Trim(ReplaceAll(SpaceRun, f, " ")), ""))
    ensures NoPair(f, o, c) ==> NoPair(ReplaceFirst(LeadInAtEnd, Trim(ReplaceAll(SpaceRun, f, " ")), ""), o, c)
  {
    var g := ReplaceAll(SpaceRun, f, " ");
    CollapseSpaced(f);
    if NoPair(f, o, c) { KeepsNoPair(SpaceRun, f, " ", o, c); }
    var a, b := TrimIsSlice(g);
    SliceKeeps(g, a, b, o, c);
    var h := Trim(g);
    var k := LeadInPrefix(h);
    SliceKeeps(h, 0, k, o, c);
    assert h[..k] == h[0..k];
  }

  /** A text containing an `o` before a `c` never occurs inside a pair-free text. */
  lemma PairFreeExcludes(r: string, m: string, i: nat, j: nat, o: char, c: char)
    requires NoPair(r, o, c) && i < j < |m| && m[i] == o && m[j] == c
    ensures !Contains(r, m)
  {
    ContainsIff(r, m);
    assert forall k :: !OccursAt(r, m, k);
  }

  /** The type marker `[{"type": "x"}]` as the reply writes it. */
  function TypeMarkerText(x: string): string
  {
    "[{\"type\": \"" + x + "\"}]"
  }

  /** The record-ID marker `[{"id":n}]`. */
  function IdMarkerText(n: nat): string
  {
    "[{\"id\":" + NatToString(n) + "}]"
  }

  /** Although the current revision's comments say type markers are kept, none survives:
   *  the object step removes its braces and the empty-bracket step what is left. */
  lemma NoTypeMarker(message: Option<string>, x: string)
    ensures !Contains(CleanMessageText(message), TypeMarkerText(x))
  {
    var m := TypeMarkerText(x);
    assert m[1] == '{' && m[|m| - 2] == '}';
    PairFreeExcludes(CleanMessageText(message), m, 1, |m| - 2, '{', '}');
  }

  /** No record-ID marker survives either revision. */
  lemma NoIdMarker(message: Option<string>, n: nat)
    ensures !Contains(CleanMessageText(message), IdMarkerText(n))
    ensures !Contains(CleanMessageTextOld(message), IdMarkerText(n))
  {
    var m := IdMarkerText(n);
    assert m[1] == '{' && m[|m| - 2] == '}';
    PairFreeExcludes(CleanMessageText(message), m, 1, |m| - 2, '{', '}');
    PairFreeExcludes(CleanMessageTextOld(message), m, 1, |m| - 2, '{', '}');
  }

  /** The ID steps of the current revision run after every `{...}` is gone, so they never match:
   *  each of their matches holds a `{` before a `}`. */
  lemma {:induction false} IdStepsInert(t: string)
    requires NoPair(t, '{', '}')
    ensures RemoveAll(IdArray, t) == t && RemoveAll(IdBeforeComma, t) == t
    decreases |t|
  {
    if t != [] {
      IdMatchNeedsPair(t);
      var u := t[1..];
      assert NoPair(u, '{', '}') by {
        forall i, j | 0 <= i < j < |u| ensures !(u[i] == '{' && u[j] == '}') {
          assert u[i] == t[1 + i] && u[j] == t[1 + j];
        }
      }
      IdStepsInert(u);
    }
  }

  lemma IdMatchNeedsPair(t: string)
    requires NoPair(t, '{', '}')
    ensures MatchAt(IdArray, t).None? && MatchAt(IdBeforeComma, t).None?
  {
    if |t| >= 1 && t[0] == '[' {
      var p := SkipSpace(t, 1);
      var o := IdObject(t, p);
    }
  }
}
