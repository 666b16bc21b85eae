/** String operations with the JavaScript semantics the meal-plan code relies on:
    `includes`, global `replace`, `split`/`join`, `trim`, `padStart` and number formatting.
    Strings are sequences of Unicode characters; every character the code measures or searches
    (Hangul syllables, ASCII, U+2B1C) is a single UTF-16 code unit, so lengths and indices agree
    with JavaScript's. */
module Text {

  /** `t` is a prefix of `s`. */
  predicate IsPrefix(t: string, s: string) {
    |t| <= |s| && s[..|t|] == t
  }

  /** `s.includes(t)`: `t` occurs in `s`. */
  predicate Contains(s: string, t: string)
    decreases |s|
  {
    IsPrefix(t, s) || (s != [] && Contains(s[1..], t))
  }

  /** The recursive definition of `Contains` agrees with "occurs at some index". */
  lemma {:induction false} ContainsIff(s: string, t: string)
    ensures Contains(s, t) <==> exists i :: 0 <= i <= |s| && IsPrefix(t, s[i..])
  {
    if Contains(s, t) {
      if IsPrefix(t, s) {
        assert s[0..] == s;
      } else {
        ContainsIff(s[1..], t);
        var i :| 0 <= i <= |s[1..]| && IsPrefix(t, s[1..][i..]);
        assert s[1..][i..] == s[i + 1..];
      }
    }
    if exists i :: 0 <= i <= |s| && IsPrefix(t, s[i..]) {
      var i :| 0 <= i <= |s| && IsPrefix(t, s[i..]);
      if i == 0 {
        assert s[0..] == s;
      } else {
        assert s[1..][i - 1..] == s[i..];
        ContainsIff(s[1..], t);
      }
    }
  }

  /** Text appended after `a` keeps every occurrence in `a`. */
  lemma {:induction false} ContainsExtend(a: string, b: string, t: string)
    requires Contains(a, t)
    ensures Contains(a + b, t)
  {
    ContainsIff(a, t);
    var i :| 0 <= i <= |a| && IsPrefix(t, a[i..]);
    assert (a + b)[i..][..|t|] == a[i..][..|t|];
    ContainsAt(a + b, t, i);
  }

  /** An occurrence at a given index is an occurrence. */
  lemma {:induction false} ContainsAt(s: string, t: string, i: nat)
    requires i <= |s| && IsPrefix(t, s[i..])
    ensures Contains(s, t)
  {
    ContainsIff(s, t);
  }

  /** A text that does not hold the first character of `t` does not contain `t`. */
  lemma {:induction false} NotContainsHead(s: string, t: string)
    requires t != [] && t[0] !in s
    ensures !Contains(s, t)
  {
    ContainsIff(s, t);
    forall i | 0 <= i <= |s| && IsPrefix(t, s[i..]) ensures false {
      OccurrenceChars(t, s, i);
    }
  }

  /** Whatever occurs in a suffix of `s` occurs in `s`. */
  lemma {:induction false} ContainsSuffix(s: string, t: string, k: nat)
    requires k <= |s| && Contains(s[k..], t)
    ensures Contains(s, t)
  {
    if k > 0 {
      assert s[1..][k - 1..] == s[k..];
      ContainsSuffix(s[1..], t, k - 1);
    }
  }

  /** An occurrence in `a + b` lies in `b` or starts inside `a`. */
  lemma {:induction false} ContainsAppend(a: string, b: string, t: string)
    requires Contains(a + b, t)
    ensures Contains(b, t) || exists o :: 0 <= o < |a| && IsPrefix(t, (a + b)[o..])
  {
    if a == [] {
      assert a + b == b;
    } else if IsPrefix(t, a + b) {
      assert (a + b)[0..] == a + b;
    } else {
      assert (a + b)[1..] == a[1..] + b;
      ContainsAppend(a[1..], b, t);
      if !Contains(b, t) {
        var o :| 0 <= o < |a[1..]| && IsPrefix(t, (a[1..] + b)[o..]);
        assert (a[1..] + b)[o..] == (a + b)[o + 1..];
      }
    }
  }

  /** The first characters of a prefix and of the text it prefixes. */
  lemma {:induction false} PrefixHead(w: string, s: string)
    requires w != [] && IsPrefix(w, s)
    ensures w[0] == s[0] && w[0] in w && IsPrefix(w[1..], s[1..])
  {
    assert s[1..][..|w| - 1] == s[..|w|][1..];
  }

  /** The first two characters of an occurrence at index `o`. */
  lemma {:induction false} OccurrenceChars(t: string, s: string, o: nat)
    requires t != [] && o <= |s| && IsPrefix(t, s[o..])
    ensures o < |s| && t[0] == s[o]
    ensures |t| > 1 ==> o + 1 < |s| && t[1] == s[o + 1]
  {
    assert t[0] == s[o..][..|t|][0];
    if |t| > 1 { assert t[1] == s[o..][..|t|][1]; }
  }

  /** No character of `a` occurs in `b`. */
  predicate Disjoint(a: string, b: string) {
    forall c :: c in a ==> c !in b
  }

  /** The first characters of two disjoint texts. */
  lemma {:induction false} DisjointHeads(a: string, b: string)
    requires a != [] && b != [] && Disjoint(a, b)
    ensures a[0] !in b && a[0] !in b[1..] && b[0] !in a
  {
    assert a[0] in a;
    assert forall c :: c in b[1..] ==> c in b;
  }

  /** Prepending characters that do not occur in `t` creates no occurrence of `t`. */
  lemma {:induction false} PrependDisjoint(a: string, b: string, t: string)
    requires t != [] && Disjoint(a, t) && !Contains(b, t)
    ensures !Contains(a + b, t)
  {
    if a == [] {
      assert a + b == b;
    } else {
      assert (a + b)[1..] == a[1..] + b;
      assert forall c :: c in a[1..] ==> c in a;
      PrependDisjoint(a[1..], b, t);
      if IsPrefix(t, a + b) {
        PrefixHead(t, a + b);
        DisjointHeads(a, t);
      }
    }
  }

  // ---------------------------------------------------------------------------
  // Global replacement: `s.replace(/a1|a2|...(?!c)/g, rep)`

  /** A global regular expression made of literal alternatives `a1|a2|...`, tried in order at
      each position, optionally guarded by a negative look-ahead on the next character. */
  datatype Pattern = Pattern(alternatives: seq<string>, notFollowedBy: set<char>)

  /** The regular expression `/pat/g`. */
  function Literal(pat: string): Pattern {
    Pattern([pat], {})
  }

  /** Every alternative is non-empty (the expression never matches the empty string). */
  predicate ValidPattern(p: Pattern) {
    forall a :: a in p.alternatives ==> a != []
  }

  /** Alternative `a` matches at the start of `s`, look-ahead included. */
  predicate MatchesAt(a: string, ban: set<char>, s: string) {
    IsPrefix(a, s) && !(|a| < |s| && s[|a|] in ban)
  }

  /** Length of the first alternative that matches at the start of `s`; 0 when none does. */
  function MatchLength(alts: seq<string>, ban: set<char>, s: string): (n: nat)
    ensures n <= |s|
    ensures n > 0 ==> s[..n] in alts && MatchesAt(s[..n], ban, s)
  {
    if alts == [] then 0
    else if alts[0] != [] && MatchesAt(alts[0], ban, s) then |alts[0]|
    else MatchLength(alts[1..], ban, s)
  }

  /** With non-empty alternatives, no match is found exactly when no alternative matches. */
  lemma {:induction false} MatchLengthZero(alts: seq<string>, ban: set<char>, s: string)
    requires forall a :: a in alts ==> a != []
    ensures MatchLength(alts, ban, s) == 0 <==> forall a :: a in alts ==> !MatchesAt(a, ban, s)
  {
    if alts != [] {
      assert forall a :: a in alts[1..] ==> a in alts;
      MatchLengthZero(alts[1..], ban, s);
      assert forall a :: a in alts ==> a == alts[0] || a in alts[1..];
    }
  }

  /** `s.replace(p, rep)` for a global expression: scan left to right, replace each match
      and resume after it. */
  function ReplaceAll(s: string, p: Pattern, rep: string): string
    decreases |s|
  {
    if s == [] then []
    else
      var n := MatchLength(p.alternatives, p.notFollowedBy, s);
      if n > 0 then rep + ReplaceAll(s[n..], p, rep)
      else [s[0]] + ReplaceAll(s[1..], p, rep)
  }

  /** A prefix of the output that avoids the first character of the replacement is a prefix of
      the input: it lies in the run of characters copied before the first replacement. */
  lemma {:induction false} PrefixOfReplaced(x: string, p: Pattern, rep: string, w: string)
    requires rep != [] && rep[0] !in w
    requires IsPrefix(w, ReplaceAll(x, p, rep))
    ensures IsPrefix(w, x)
  {
    if x != [] && w != [] {
      var n := MatchLength(p.alternatives, p.notFollowedBy, x);
      if n > 0 {
        PrefixHead(w, ReplaceAll(x, p, rep));
      } else {
        var tail := ReplaceAll(x[1..], p, rep);
        assert ReplaceAll(x, p, rep) == [x[0]] + tail;
        assert IsPrefix(w[1..], tail);
        PrefixOfReplaced(x[1..], p, rep, w[1..]);
      }
    }
  }

  /** A prefix of the input made of characters that start no alternative is copied unchanged. */
  lemma {:induction false} KeepsPrefix(x: string, p: Pattern, rep: string, w: string)
    requires forall a :: a in p.alternatives ==> a == [] || a[0] !in w
    requires IsPrefix(w, x)
    ensures IsPrefix(w, ReplaceAll(x, p, rep))
  {
    if w != [] {
      var n := MatchLength(p.alternatives, p.notFollowedBy, x);
      if n > 0 {
        assert false;
      }
      assert ReplaceAll(x, p, rep) == [x[0]] + ReplaceAll(x[1..], p, rep);
      KeepsPrefix(x[1..], p, rep, w[1..]);
    }
  }

  /** Replacing with a text that shares no character with `t` creates no occurrence of `t`. */
  lemma {:induction false} NoNewOccurrence(s: string, p: Pattern, rep: string, t: string)
    requires rep != [] && t != [] && Disjoint(rep, t)
    requires !Contains(s, t)
    ensures !Contains(ReplaceAll(s, p, rep), t)
  {
    if s != [] {
      var n := MatchLength(p.alternatives, p.notFollowedBy, s);
      if n > 0 {
        var tail := ReplaceAll(s[n..], p, rep);
        if Contains(s[n..], t) { ContainsSuffix(s, t, n); }
        NoNewOccurrence(s[n..], p, rep, t);
        PrependDisjoint(rep, tail, t);
      } else {
        var tail := ReplaceAll(s[1..], p, rep);
        assert ReplaceAll(s, p, rep) == [s[0]] + tail;
        NoNewOccurrence(s[1..], p, rep, t);
        if IsPrefix(t, [s[0]] + tail) {
          PrefixHead(t, [s[0]] + tail);
          DisjointHeads(rep, t);
          PrefixOfReplaced(s[1..], p, rep, t[1..]);
        }
        assert ([s[0]] + tail)[1..] == tail;
      }
    }
  }

  /** No occurrence of `pat` can start inside `rep` and run on past it or stay inside it:
      wherever `rep` holds `pat[0]`, the next character of `rep` exists and differs from `pat[1]`. */
  predicate NoOverlapFrom(rep: string, pat: string) {
    |pat| > 0 &&
    forall o :: 0 <= o < |rep| && rep[o] == pat[0] ==> o + 1 < |rep| && 1 < |pat| && rep[o + 1] != pat[1]
  }

  /** `s.replace(/pat/g, rep)` leaves no occurrence of `pat`, provided the replacement cannot
      rebuild it with its neighbours. */
  lemma {:induction false} ReplaceRemoves(s: string, pat: string, rep: string)
    requires pat != [] && rep != []
    requires rep[0] !in pat[1..] && NoOverlapFrom(rep, pat)
    ensures !Contains(ReplaceAll(s, Literal(pat), rep), pat)
  {
    var p := Literal(pat);
    if s != [] {
      var n := MatchLength(p.alternatives, p.notFollowedBy, s);
      if n > 0 {
        var tail := ReplaceAll(s[n..], p, rep);
        ReplaceRemoves(s[n..], pat, rep);
        if Contains(rep + tail, pat) {
          ContainsAppend(rep, tail, pat);
          var o :| 0 <= o < |rep| && IsPrefix(pat, (rep + tail)[o..]);
          OccurrenceChars(pat, rep + tail, o);
        }
      } else {
        var tail := ReplaceAll(s[1..], p, rep);
        assert ReplaceAll(s, p, rep) == [s[0]] + tail;
        ReplaceRemoves(s[1..], pat, rep);
        MatchLengthZero(p.alternatives, p.notFollowedBy, s);
        assert !MatchesAt(pat, {}, s);
        PrefixBeforeReplace(s, pat, rep);
        assert ([s[0]] + tail)[1..] == tail;
      }
    }
  }

  /** An occurrence of `pat` at the start of the text after a kept first character was
      already there before the rest was rewritten, as long as `rep` does not start with a
      later character of `pat`. */
  lemma {:induction false} PrefixBeforeReplace(s: string, pat: string, rep: string)
    requires pat != [] && rep != [] && rep[0] !in pat[1..] && s != []
    ensures IsPrefix(pat, [s[0]] + ReplaceAll(s[1..], Literal(pat), rep)) ==> IsPrefix(pat, s)
  {
    var tail := ReplaceAll(s[1..], Literal(pat), rep);
    if IsPrefix(pat, [s[0]] + tail) {
      assert IsPrefix(pat[1..], tail);
      PrefixOfReplaced(s[1..], Literal(pat), rep, pat[1..]);
      assert s == [s[0]] + s[1..];
    }
  }

  /** Replacing every occurrence of a literal by a text of the same length keeps the length. */
  lemma {:induction false} ReplaceKeepsLength(s: string, pat: string, rep: string)
    requires |pat| == |rep|
    ensures |ReplaceAll(s, Literal(pat), rep)| == |s|
  {
    if s != [] {
      var n := MatchLength([pat], {}, s);
      if n > 0 {
        ReplaceKeepsLength(s[n..], pat, rep);
      } else {
        ReplaceKeepsLength(s[1..], pat, rep);
      }
    }
  }

  /** Every occurrence of `w` in `s` is immediately followed by the character `c`. */
  predicate AlwaysFollowedBy(s: string, w: string, c: char)
    decreases |s|
  {
    (IsPrefix(w, s) ==> |w| < |s| && s[|w|] == c) && (s != [] ==> AlwaysFollowedBy(s[1..], w, c))
  }

  /** The property holds of every suffix. */
  lemma {:induction false} AlwaysFollowedBySuffix(s: string, w: string, c: char, k: nat)
    requires k <= |s| && AlwaysFollowedBy(s, w, c)
    ensures AlwaysFollowedBy(s[k..], w, c)
  {
    if k > 0 {
      assert s[1..][k - 1..] == s[k..];
      AlwaysFollowedBySuffix(s[1..], w, c, k - 1);
    }
  }

  /** Prepending a text at no position of which `w` can start keeps the property. */
  lemma {:induction false} AlwaysFollowedByPrepend(a: string, b: string, w: string, c: char)
    requires w != [] && w[0] !in a
    requires AlwaysFollowedBy(b, w, c)
    ensures AlwaysFollowedBy(a + b, w, c)
  {
    if a == [] {
      assert a + b == b;
    } else {
      assert (a + b)[1..] == a[1..] + b;
      AlwaysFollowedByPrepend(a[1..], b, w, c);
    }
  }

  /** A replacement that shares no character with `w`, by an expression none of whose
      alternatives starts with a character of `w[1..]` or with `c`, keeps every occurrence
      of `w` followed by `c`. */
  lemma {:induction false} ReplaceKeepsFollowed(s: string, p: Pattern, rep: string, w: string, c: char)
    requires rep != [] && w != [] && Disjoint(rep, w)
    requires forall a :: a in p.alternatives ==> a == [] || a[0] !in w[1..] + [c]
    requires AlwaysFollowedBy(s, w, c)
    ensures AlwaysFollowedBy(ReplaceAll(s, p, rep), w, c)
  {
    if s != [] {
      var n := MatchLength(p.alternatives, p.notFollowedBy, s);
      if n > 0 {
        AlwaysFollowedBySuffix(s, w, c, n);
        ReplaceKeepsFollowed(s[n..], p, rep, w, c);
        AlwaysFollowedByPrepend(rep, ReplaceAll(s[n..], p, rep), w, c);
      } else {
        AlwaysFollowedBySuffix(s, w, c, 1);
        ReplaceKeepsFollowed(s[1..], p, rep, w, c);
        KeepsFollowedAfterCopy(s, p, rep, w, c);
      }
    }
  }

  /** The step of `ReplaceKeepsFollowed` where the first character is copied. */
  lemma {:induction false} KeepsFollowedAfterCopy(s: string, p: Pattern, rep: string, w: string, c: char)
    requires rep != [] && w != [] && Disjoint(rep, w)
    requires forall a :: a in p.alternatives ==> a == [] || a[0] !in w[1..] + [c]
    requires AlwaysFollowedBy(s, w, c) && s != []
    requires MatchLength(p.alternatives, p.notFollowedBy, s) == 0
    requires AlwaysFollowedBy(ReplaceAll(s[1..], p, rep), w, c)
    ensures AlwaysFollowedBy(ReplaceAll(s, p, rep), w, c)
  {
    var tail := ReplaceAll(s[1..], p, rep);
    var out := [s[0]] + tail;
    assert ReplaceAll(s, p, rep) == out;
    if IsPrefix(w, out) {
      PrefixHead(w, out);
      DisjointHeads(rep, w);
      PrefixOfReplaced(s[1..], p, rep, w[1..]);
      assert IsPrefix(w, s);
      var v := w[1..] + [c];
      assert IsPrefix(v, s[1..]);
      KeepsPrefix(s[1..], p, rep, v);
      assert out[|w|] == tail[|w| - 1] == v[|w| - 1] == c;
    }
    assert out[1..] == tail;
  }

  /** A text in which no alternative occurs is left as it is. */
  lemma {:induction false} ReplaceAbsent(s: string, p: Pattern, rep: string)
    requires ValidPattern(p)
    requires forall a :: a in p.alternatives ==> !Contains(s, a)
    ensures ReplaceAll(s, p, rep) == s
  {
    if s != [] {
      MatchLengthZero(p.alternatives, p.notFollowedBy, s);
      ReplaceAbsent(s[1..], p, rep);
      assert [s[0]] + s[1..] == s;
    }
  }

  /** `s.replace(/w(?!c)/g, rep)` leaves a text alone when every `w` in it is already
      followed by `c`. */
  lemma {:induction false} ReplaceFollowed(s: string, w: string, c: char, rep: string)
    requires w != [] && AlwaysFollowedBy(s, w, c)
    ensures ReplaceAll(s, Pattern([w], {c}), rep) == s
  {
    if s != [] {
      MatchLengthZero([w], {c}, s);
      ReplaceFollowed(s[1..], w, c, rep);
      assert [s[0]] + s[1..] == s;
    }
  }

  /** Where `w` does not occur, every occurrence of it is followed by anything. */
  lemma {:induction false} AbsentFollowed(s: string, w: string, c: char)
    requires !Contains(s, w)
    ensures AlwaysFollowedBy(s, w, c)
  {
    if s != [] {
      AbsentFollowed(s[1..], w, c);
    }
  }

  /** `s.replace(/w(?!c)/g, rep)` with a replacement that begins with `w` and then `c`, and
      holds `w[0]` nowhere else: afterwards every occurrence of `w` is followed by `c`. */
  lemma {:induction false} ReplaceMakesFollowed(s: string, w: string, c: char, rep: string)
    requires w != [] && |w| < |rep| && rep[..|w|] == w && rep[|w|] == c
    requires w[0] !in rep[1..]
    ensures AlwaysFollowedBy(ReplaceAll(s, Pattern([w], {c}), rep), w, c)
  {
    if s != [] {
      var n := MatchLength([w], {c}, s);
      if n > 0 {
        ReplaceMakesFollowed(s[n..], w, c, rep);
        FollowedAfterMatch(s, w, c, rep, n);
      } else {
        ReplaceMakesFollowed(s[1..], w, c, rep);
        FollowedAfterCopy(s, w, c, rep);
      }
    }
  }

  /** The step of `ReplaceMakesFollowed` where `w` is replaced at the start of `s`. */
  lemma {:induction false} FollowedAfterMatch(s: string, w: string, c: char, rep: string, n: nat)
    requires w != [] && |w| < |rep| && rep[..|w|] == w && rep[|w|] == c
    requires w[0] !in rep[1..]
    requires s != [] && n == MatchLength([w], {c}, s) && n > 0
    requires AlwaysFollowedBy(ReplaceAll(s[n..], Pattern([w], {c}), rep), w, c)
    ensures AlwaysFollowedBy(ReplaceAll(s, Pattern([w], {c}), rep), w, c)
  {
    var p := Pattern([w], {c});
    var tail := ReplaceAll(s[n..], p, rep);
    var out := rep + tail;
    assert ReplaceAll(s, p, rep) == out;
    AlwaysFollowedByPrepend(rep[1..], tail, w, c);
    assert out[1..] == rep[1..] + tail;
    assert out[|w|] == c;
    assert AlwaysFollowedBy(out[1..], w, c);
    assert AlwaysFollowedBy(out, w, c);
  }

  /** The step of `ReplaceMakesFollowed` where the first character of `s` is copied. */
  lemma {:induction false} FollowedAfterCopy(s: string, w: string, c: char, rep: string)
    requires w != [] && |w| < |rep| && rep[..|w|] == w && rep[|w|] == c
    requires w[0] !in rep[1..]
    requires s != [] && MatchLength([w], {c}, s) == 0
    requires AlwaysFollowedBy(ReplaceAll(s[1..], Pattern([w], {c}), rep), w, c)
    ensures AlwaysFollowedBy(ReplaceAll(s, Pattern([w], {c}), rep), w, c)
  {
    var p := Pattern([w], {c});
    var tail := ReplaceAll(s[1..], p, rep);
    var out := [s[0]] + tail;
    assert ReplaceAll(s, p, rep) == out;
    CopiedHeadFollowed(s, w, c, rep);
    assert out[1..] == tail;
    assert AlwaysFollowedBy(out, w, c);
  }

  /** In the step of `FollowedAfterCopy`, an occurrence of `w` at the copied character is
      followed by `c`. */
  lemma {:induction false} CopiedHeadFollowed(s: string, w: string, c: char, rep: string)
    requires w != [] && |w| < |rep| && rep[..|w|] == w && rep[|w|] == c
    requires w[0] !in rep[1..]
    requires s != [] && MatchLength([w], {c}, s) == 0
    ensures var out := [s[0]] + ReplaceAll(s[1..], Pattern([w], {c}), rep);
      IsPrefix(w, out) ==> |w| < |out| && out[|w|] == c
  {
    var p := Pattern([w], {c});
    var tail := ReplaceAll(s[1..], p, rep);
    var out := [s[0]] + tail;
    if IsPrefix(w, out) {
      var v := w[1..] + [c];
      assert v == rep[1..|w| + 1];
      assert forall x :: x in v ==> x in rep[1..];
      assert forall x :: x in w[1..] ==> x in v;
      PrefixHead(w, out);
      PrefixOfReplaced(s[1..], p, rep, w[1..]);
      assert IsPrefix(w, s);
      MatchLengthZero(p.alternatives, p.notFollowedBy, s);
      assert !MatchesAt(w, {c}, s);
      assert IsPrefix(v, s[1..]);
      KeepsPrefix(s[1..], p, rep, v);
      assert out[|w|] == tail[|w| - 1] == v[|w| - 1] == c;
    }
  }

  // ---------------------------------------------------------------------------
  // split, join, trim

  /** `parts.join(sep)`. */
  function Join(parts: seq<string>, sep: string): string {
    if parts == [] then ""
    else if |parts| == 1 then parts[0]
    else parts[0] + sep + Join(parts[1..], sep)
  }

  /** `s.split(sep)` for a non-empty separator: cut at each occurrence, scanning from the
      left and resuming after each cut. */
  function SplitOn(s: string, sep: string): (parts: seq<string>)
    requires sep != []
    ensures |parts| >= 1
    decreases |s|
  {
    if s == [] then [""]
    else if IsPrefix(sep, s) then [""] + SplitOn(s[|sep|..], sep)
    else
      var r := SplitOn(s[1..], sep);
      [[s[0]] + r[0]] + r[1..]
  }

  /** Joining the pieces of a split by `rep` is the global replacement of the separator. */
  lemma {:induction false} SplitJoinIsReplace(s: string, sep: string, rep: string)
    requires sep != []
    ensures Join(SplitOn(s, sep), rep) == ReplaceAll(s, Literal(sep), rep)
    decreases |s|
  {
    if s != [] {
      if IsPrefix(sep, s) {
        SplitJoinIsReplace(s[|sep|..], sep, rep);
        SplitJoinAtSep(s, sep, rep);
      } else {
        SplitJoinIsReplace(s[1..], sep, rep);
        SplitJoinCopy(s, sep, rep);
      }
    }
  }

  /** The step of `SplitJoinIsReplace` where the text starts with the separator. */
  lemma {:induction false} SplitJoinAtSep(s: string, sep: string, rep: string)
    requires sep != [] && IsPrefix(sep, s)
    requires Join(SplitOn(s[|sep|..], sep), rep) == ReplaceAll(s[|sep|..], Literal(sep), rep)
    ensures Join(SplitOn(s, sep), rep) == ReplaceAll(s, Literal(sep), rep)
  {
    assert MatchLength([sep], {}, s) == |sep|;
    var r := SplitOn(s[|sep|..], sep);
    assert ([""] + r)[1..] == r;
  }

  /** The step of `SplitJoinIsReplace` where the first character is copied. */
  lemma {:induction false} SplitJoinCopy(s: string, sep: string, rep: string)
    requires sep != [] && s != [] && !IsPrefix(sep, s)
    requires Join(SplitOn(s[1..], sep), rep) == ReplaceAll(s[1..], Literal(sep), rep)
    ensures Join(SplitOn(s, sep), rep) == ReplaceAll(s, Literal(sep), rep)
  {
    assert MatchLength([sep], {}, s) == 0;
    JoinExtendsHead([s[0]], SplitOn(s[1..], sep), rep);
  }

  /** Extending the first part extends the join at its front. */
  lemma {:induction false} JoinExtendsHead(x: string, r: seq<string>, sep: string)
    requires r != []
    ensures Join([x + r[0]] + r[1..], sep) == x + Join(r, sep)
  {
    var parts := [x + r[0]] + r[1..];
    if |r| > 1 {
      assert parts[1..] == r[1..];
    }
  }

  /** Every part of a join occurs in the joined text. */
  lemma {:induction false} JoinContainsParts(parts: seq<string>, sep: string, i: nat)
    requires i < |parts|
    ensures Contains(Join(parts, sep), parts[i])
  {
    if |parts| == 1 {
      ContainsAt(parts[0], parts[0], 0);
    } else {
      var rest := Join(parts[1..], sep);
      assert Join(parts, sep) == parts[0] + sep + rest;
      if i == 0 {
        assert IsPrefix(parts[0], parts[0] + sep + rest);
        ContainsAt(Join(parts, sep), parts[0], 0);
      } else {
        JoinContainsParts(parts[1..], sep, i - 1);
        assert Join(parts, sep)[|parts[0] + sep|..] == rest;
        ContainsSuffix(Join(parts, sep), parts[i], |parts[0] + sep|);
      }
    }
  }

  /** The characters of the JavaScript class `\s`, which is also what `trim` removes:
      white space and line terminators. */
  predicate IsSpace(c: char) {
    c == '\t' || c == '\n' || c == '\U{000B}' || c == '\U{000C}' || c == '\r' || c == ' '
    || c == '\U{00A0}' || c == '\U{1680}' || ('\U{2000}' <= c <= '\U{200A}')
    || c == '\U{2028}' || c == '\U{2029}' || c == '\U{202F}' || c == '\U{205F}'
    || c == '\U{3000}' || c == '\U{FEFF}'
  }

  /** `s.trimStart()`: the suffix of `s` after its leading white space. */
  function TrimStart(s: string): (r: string)
    ensures |r| <= |s| && r == s[|s| - |r|..]
    ensures r != [] ==> !IsSpace(r[0])
    ensures forall i :: 0 <= i < |s| - |r| ==> IsSpace(s[i])
  {
    if s != [] && IsSpace(s[0]) then
      var r := TrimStart(s[1..]);
      assert s[1..][|s| - 1 - |r|..] == s[|s| - |r|..];
      r
    else s
  }

  /** `s.trimEnd()`: the prefix of `s` before its trailing white space. */
  function TrimEnd(s: string): (r: string)
    ensures |r| <= |s| && r == s[..|r|]
    ensures r != [] ==> !IsSpace(r[|r| - 1])
    ensures forall i :: |r| <= i < |s| ==> IsSpace(s[i])
  {
    if s != [] && IsSpace(s[|s| - 1]) then
      var r := TrimEnd(s[..|s| - 1]);
      r
    else s
  }

  /** `s.trim()`. */
  function Trim(s: string): string {
    TrimEnd(TrimStart(s))
  }

  /** Index of the first `c` in `s`, or -1. */
  function IndexOf(s: string, c: char): (r: int)
    ensures -1 <= r < |s|
    ensures r >= 0 ==> s[r] == c && c !in s[..r]
    ensures r < 0 ==> c !in s
  {
    if s == [] then -1
    else if s[0] == c then 0
    else
      var r := IndexOf(s[1..], c);
      if r < 0 then -1
      else
        assert s[..r + 1] == [s[0]] + s[1..][..r];
        r + 1
  }

  /** `s.split(/\s*\+\s*\/)`: the separator is a `+` together with the white space on both
      sides of it; the leftmost match starts at the white-space run just before the first `+`. */
  function SplitOnPlus(s: string): (parts: seq<string>)
    ensures |parts| >= 1
    ensures forall i :: 0 <= i < |parts| ==> '+' !in parts[i]
    decreases |s|
  {
    var q := IndexOf(s, '+');
    if q < 0 then [s]
    else
      NoPlusBefore(s, q);
      [TrimEnd(s[..q])] + SplitOnPlus(TrimStart(s[q + 1..]))
  }

  /** The text before the first `+` holds no `+`, trimmed or not. */
  lemma {:induction false} NoPlusBefore(s: string, q: int)
    requires 0 <= q < |s| && q == IndexOf(s, '+')
    ensures '+' !in TrimEnd(s[..q])
  {
    var head := TrimEnd(s[..q]);
    assert head == s[..q][..|head|];
  }

  /** Trimming a text without white space changes nothing. */
  lemma {:induction false} NoSpaceTrimmed(s: string)
    requires forall i :: 0 <= i < |s| ==> !IsSpace(s[i])
    ensures TrimStart(s) == s && TrimEnd(s) == s
  {
  }

  /** A menu name with no white space is cut exactly at its `+` signs: joining the parts with
      `+` gives the name back. */
  lemma {:induction false} SplitOnPlusJoin(s: string)
    requires forall i :: 0 <= i < |s| ==> !IsSpace(s[i])
    ensures Join(SplitOnPlus(s), "+") == s
    decreases |s|
  {
    var q := IndexOf(s, '+');
    if q >= 0 {
      var head, rest := s[..q], s[q + 1..];
      NoSpaceTrimmed(head);
      NoSpaceTrimmed(rest);
      SplitOnPlusJoin(rest);
      var parts := SplitOnPlus(rest);
      assert SplitOnPlus(s) == [head] + parts;
      assert ([head] + parts)[1..] == parts;
      assert s == head + "+" + rest;
    }
  }

  // ---------------------------------------------------------------------------
  // Number formatting

  /** The ASCII digit for `d`. */
  function DigitChar(d: nat): (c: char)
    requires d < 10
    ensures '0' <= c <= '9'
  {
    (48 + d) as char
  }

  /** The value of an ASCII digit. */
  function DigitValue(c: char): (d: nat)
    requires '0' <= c <= '9'
    ensures d < 10 && DigitChar(d) == c
  {
    (c as int) - 48
  }

  /** `String(n)` for a non-negative integer: its decimal digits without leading zeros. */
  function NatToString(n: nat): (s: string)
    ensures 1 <= |s|
    ensures forall i :: 0 <= i < |s| ==> '0' <= s[i] <= '9'
    ensures (n < 10 <==> |s| == 1) && (|s| == 1 ==> s[0] == DigitChar(n))
    ensures 10 <= n < 100 ==> s == [DigitChar(n / 10), DigitChar(n % 10)]
  {
    if n < 10 then [DigitChar(n)] else NatToString(n / 10) + [DigitChar(n % 10)]
  }

  /** The value of a string of decimal digits. */
  function DigitsValue(s: string): nat
    requires forall i :: 0 <= i < |s| ==> '0' <= s[i] <= '9'
  {
    if s == [] then 0 else DigitsValue(s[..|s| - 1]) * 10 + DigitValue(s[|s| - 1])
  }

  /** Reading back the digits of `n` gives `n`. */
  lemma {:induction false} NatToStringRoundTrip(n: nat)
    ensures DigitsValue(NatToString(n)) == n
  {
    var s := NatToString(n);
    if n >= 10 {
      NatToStringRoundTrip(n / 10);
      assert s[..|s| - 1] == NatToString(n / 10);
    }
  }

  /** `String(i)` for an integer. */
  function IntToString(i: int): string {
    if i < 0 then "-" + NatToString(-i) else NatToString(i)
  }

  /** `s.padStart(width, c)` for a single-character fill. */
  function PadStart(s: string, width: nat, c: char): (r: string)
    ensures |r| == if |s| >= width then |s| else width
    ensures r[|r| - |s|..] == s
    ensures forall i :: 0 <= i < |r| - |s| ==> r[i] == c
  {
    if |s| >= width then s else seq(width - |s|, _ => c) + s
  }
}
