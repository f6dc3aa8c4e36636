/**
 * String helpers shared by every component of the wizard: the whitespace and
 * case predicates, `trim`, `toLowerCase`, the two whitespace-run replacements
 * (`replace(/\s+/g, '_')` and `replace(/\s+/g, '')`), the slug built from
 * them, `join` and `includes`.
 *
 * Whitespace is the ASCII part of the `\s` class (space, tab, line feed,
 * vertical tab, form feed, carriage return) and lower-casing maps only 'A'..'Z'.
 */
module Text {

  /** A value that may be absent. */
  datatype Option<T> = None | Some(value: T)

  predicate IsSpace(c: char) {
    c == ' ' || c == '\t' || c == '\n' || c == '\U{000B}' || c == '\U{000C}' || c == '\r'
  }

  predicate IsUpper(c: char) {
    'A' <= c <= 'Z'
  }

  predicate NoSpace(s: string) {
    forall i :: 0 <= i < |s| ==> !IsSpace(s[i])
  }

  predicate NoUpper(s: string) {
    forall i :: 0 <= i < |s| ==> !IsUpper(s[i])
  }

  predicate AllSpace(s: string) {
    forall i :: 0 <= i < |s| ==> IsSpace(s[i])
  }

  function LowerChar(c: char): (r: char)
    ensures !IsUpper(r)
    ensures IsSpace(r) <==> IsSpace(c)
    ensures IsUpper(c) ==> r as int == c as int + 32
    ensures !IsUpper(c) ==> r == c
  {
    if IsUpper(c) then (c as int + 32) as char else c
  }

  /** `String.prototype.toLowerCase`, restricted to ASCII letters. */
  function ToLower(s: string): (r: string)
    ensures |r| == |s|
    ensures forall i :: 0 <= i < |s| ==> r[i] == LowerChar(s[i])
  {
    if s == [] then [] else [LowerChar(s[0])] + ToLower(s[1..])
  }

  lemma ToLowerAppend(a: string, b: string)
    ensures ToLower(a + b) == ToLower(a) + ToLower(b)
  {
    var l, r := ToLower(a + b), ToLower(a) + ToLower(b);
    assert |l| == |r|;
    forall i | 0 <= i < |l|
      ensures l[i] == r[i]
    {
      if i < |a| {
        assert (a + b)[i] == a[i] && r[i] == ToLower(a)[i];
      } else {
        assert (a + b)[i] == b[i - |a|] && r[i] == ToLower(b)[i - |a|];
      }
    }
  }

  /** Lower-casing removes every upper-case letter, keeps every other character, and is idempotent. */
  lemma ToLowerProperties(s: string)
    ensures NoUpper(ToLower(s))
    ensures ToLower(ToLower(s)) == ToLower(s)
    ensures ToLower(s) == s <==> NoUpper(s)
    ensures NoSpace(s) <==> NoSpace(ToLower(s))
  {
    if NoUpper(s) {
      assert forall i :: 0 <= i < |s| ==> ToLower(s)[i] == s[i];
    }
    if ToLower(s) == s {
      assert forall i :: 0 <= i < |s| ==> !IsUpper(ToLower(s)[i]);
    }
  }

  // ---------------------------------------------------------------------------
  // Leading and trailing whitespace, trim

  /** The suffix of `s` that starts at its first non-whitespace character. */
  function DropLeadingSpaces(s: string): (r: string)
    ensures |r| <= |s| && r == s[|s| - |r|..]
    ensures forall k :: 0 <= k < |s| - |r| ==> IsSpace(s[k])
    ensures r == [] || !IsSpace(r[0])
  {
    if s != [] && IsSpace(s[0]) then DropLeadingSpaces(s[1..]) else s
  }

  /** The prefix of `s` that ends at its last non-whitespace character. */
  function DropTrailingSpaces(s: string): (r: string)
    ensures |r| <= |s| && r == s[..|r|]
    ensures forall k :: |r| <= k < |s| ==> IsSpace(s[k])
    ensures r == [] || !IsSpace(r[|r| - 1])
  {
    if s != [] && IsSpace(s[|s| - 1]) then DropTrailingSpaces(s[..|s| - 1]) else s
  }

  /** `String.prototype.trim`. */
  function Trim(s: string): (r: string)
    ensures r == [] || (!IsSpace(r[0]) && !IsSpace(r[|r| - 1]))
  {
    DropTrailingSpaces(DropLeadingSpaces(s))
  }

  /** `r` is `s` without the whitespace-only prefix `s[..i]` and a whitespace-only suffix. */
  predicate TrimmedAt(s: string, r: string, i: int) {
    0 <= i <= |s| - |r| && r == s[i..i + |r|] && AllSpace(s[..i]) && AllSpace(s[i + |r|..])
  }

  /** `DropLeadingSpaces` cuts off a whitespace-only prefix. */
  lemma DropLeadingSplit(s: string)
    ensures var d := DropLeadingSpaces(s); d == s[|s| - |d|..] && AllSpace(s[..|s| - |d|])
  {
    var d := DropLeadingSpaces(s);
    var pre := s[..|s| - |d|];
    forall k | 0 <= k < |pre|
      ensures IsSpace(pre[k])
    {
      assert pre[k] == s[k];
    }
  }

  /** `DropTrailingSpaces` cuts off a whitespace-only suffix. */
  lemma DropTrailingSplit(d: string)
    ensures var r := DropTrailingSpaces(d); r == d[..|r|] && AllSpace(d[|r|..])
  {
    var r := DropTrailingSpaces(d);
    var post := d[|r|..];
    forall k | 0 <= k < |post|
      ensures IsSpace(post[k])
    {
      assert post[k] == d[|r| + k];
    }
  }

  /** Cutting a whitespace-only prefix and then a whitespace-only suffix leaves an infix. */
  lemma InfixAfterCuts(s: string, d: string, r: string)
    requires |d| <= |s| && d == s[|s| - |d|..] && AllSpace(s[..|s| - |d|])
    requires |r| <= |d| && r == d[..|r|] && AllSpace(d[|r|..])
    ensures TrimmedAt(s, r, |s| - |d|)
  {
    var i := |s| - |d|;
    assert s[i..][..|r|] == s[i..i + |r|];
    assert s[i..][|r|..] == s[i + |r|..];
  }

  /** After a whitespace-only prefix is cut off, cutting the trailing whitespace leaves an infix. */
  lemma TrailingCutInfix(s: string, d: string)
    requires |d| <= |s| && d == s[|s| - |d|..] && AllSpace(s[..|s| - |d|])
    ensures TrimmedAt(s, DropTrailingSpaces(d), |s| - |d|)
  {
    DropTrailingSplit(d);
    InfixAfterCuts(s, d, DropTrailingSpaces(d));
  }

  /** `Trim(s)` is `s` with a whitespace-only prefix and a whitespace-only suffix cut off. */
  lemma TrimIsInfix(s: string)
    ensures TrimmedAt(s, Trim(s), |s| - |DropLeadingSpaces(s)|)
  {
    var d := DropLeadingSpaces(s);
    assert Trim(s) == DropTrailingSpaces(d);
    DropLeadingSplit(s);
    TrailingCutInfix(s, d);
  }

  /** A string trims to the empty string exactly when it is all whitespace. */
  lemma TrimBlank(s: string)
    ensures Trim(s) == [] <==> AllSpace(s)
  {
  }

  /** Trimming an already trimmed string changes nothing. */
  lemma TrimIdempotent(s: string)
    ensures Trim(Trim(s)) == Trim(s)
  {
    var t := Trim(s);
    if t != [] {
      assert !IsSpace(t[0]) && !IsSpace(t[|t| - 1]);
      assert DropLeadingSpaces(t) == t;
      assert DropTrailingSpaces(t) == t;
    }
  }

  // ---------------------------------------------------------------------------
  // Whitespace-run replacement and the slug

  /** `replace(/\s+/g, rep)`: every maximal run of whitespace becomes one copy of `rep`. */
  function ReplaceSpaceRuns(s: string, rep: string): string
    decreases |s|
  {
    if s == [] then []
    else if IsSpace(s[0]) then rep + ReplaceSpaceRuns(DropLeadingSpaces(s[1..]), rep)
    else [s[0]] + ReplaceSpaceRuns(s[1..], rep)
  }

  /** Without whitespace to replace, the replacement leaves the string as it is. */
  lemma {:induction false} ReplaceNoSpace(s: string, rep: string)
    requires NoSpace(s)
    ensures ReplaceSpaceRuns(s, rep) == s
  {
    if s != [] {
      ReplaceNoSpace(s[1..], rep);
    }
  }

  /** Concatenation keeps strings free of whitespace. */
  lemma NoSpaceAppend(a: string, b: string)
    requires NoSpace(a) && NoSpace(b)
    ensures NoSpace(a + b)
  {
    assert forall i :: 0 <= i < |a + b| ==> (a + b)[i] == if i < |a| then a[i] else b[i - |a|];
  }

  /** A whitespace-only prefix is dropped entirely when what follows does not begin with whitespace. */
  lemma {:induction false} DropSpacePrefix(u: string, t: string)
    requires AllSpace(u) && (t == [] || !IsSpace(t[0]))
    ensures DropLeadingSpaces(u + t) == t
    decreases |u|
  {
    if u == [] {
      assert u + t == t;
    } else {
      var rest := u[1..];
      AppendTail(u, t);
      forall k | 0 <= k < |rest|
        ensures IsSpace(rest[k])
      {
        assert rest[k] == u[k + 1];
      }
      DropSpacePrefix(rest, t);
    }
  }

  /**
   * Dropping the leading whitespace of a string that ends in a non-space stops
   * inside it: what follows is kept, and the result still ends in that character.
   */
  lemma {:induction false} DropLeadingAppend(u: string, v: string)
    requires u != [] && !IsSpace(u[|u| - 1])
    ensures DropLeadingSpaces(u + v) == DropLeadingSpaces(u) + v
    ensures DropLeadingSpaces(u) != [] && DropLeadingSpaces(u)[|DropLeadingSpaces(u)| - 1] == u[|u| - 1]
    decreases |u|
  {
    AppendTail(u, v);
    if IsSpace(u[0]) {
      var rest := u[1..];
      assert rest[|rest| - 1] == u[|u| - 1];
      DropLeadingAppend(rest, v);
    }
  }

  /** The first character and the rest of a concatenation whose left part is non-empty. */
  lemma AppendTail(a: string, m: string)
    requires a != []
    ensures (a + m)[0] == a[0] && (a + m)[1..] == a[1..] + m
  {
  }

  /** The replacement meets a whitespace character: the run it opens becomes one `rep`. */
  lemma ReplaceSpaceStep(s: string, rep: string, u: string)
    requires s != [] && IsSpace(s[0]) && DropLeadingSpaces(s[1..]) == u
    ensures ReplaceSpaceRuns(s, rep) == rep + ReplaceSpaceRuns(u, rep)
  {
  }

  /** The replacement meets any other character: it is kept. */
  lemma ReplaceCharStep(s: string, rep: string)
    requires s != [] && !IsSpace(s[0])
    ensures ReplaceSpaceRuns(s, rep) == [s[0]] + ReplaceSpaceRuns(s[1..], rep)
  {
  }

  /** The split step when `a` opens with whitespace, given the split for what follows its first run. */
  lemma SplitAfterRun(a: string, m: string, d: string, rep: string)
    requires a != [] && IsSpace(a[0])
    requires DropLeadingSpaces(a[1..]) == d && DropLeadingSpaces(a[1..] + m) == d + m
    requires ReplaceSpaceRuns(d + m, rep) == ReplaceSpaceRuns(d, rep) + ReplaceSpaceRuns(m, rep)
    ensures ReplaceSpaceRuns(a + m, rep) == ReplaceSpaceRuns(a, rep) + ReplaceSpaceRuns(m, rep)
  {
    var x := a + m;
    AppendTail(a, m);
    var b, c := ReplaceSpaceRuns(d, rep), ReplaceSpaceRuns(m, rep);
    ReplaceSpaceStep(x, rep, d + m);
    ReplaceSpaceStep(a, rep, d);
    AppendAssoc(rep, b, c);
  }

  /** The split step when `a` opens with another character, given the split for `a[1..]`. */
  lemma SplitAfterChar(a: string, m: string, rep: string)
    requires a != [] && !IsSpace(a[0])
    requires ReplaceSpaceRuns(a[1..] + m, rep) == ReplaceSpaceRuns(a[1..], rep) + ReplaceSpaceRuns(m, rep)
    ensures ReplaceSpaceRuns(a + m, rep) == ReplaceSpaceRuns(a, rep) + ReplaceSpaceRuns(m, rep)
  {
    var x, rest := a + m, a[1..];
    AppendTail(a, m);
    var b, c := ReplaceSpaceRuns(rest, rep), ReplaceSpaceRuns(m, rep);
    ReplaceCharStep(x, rep);
    ReplaceCharStep(a, rep);
    AppendAssoc([a[0]], b, c);
  }

  /** No run crosses the end of a string that ends in a non-space, so the replacement splits there. */
  lemma {:induction false} ReplaceSplit(a: string, m: string, rep: string)
    requires a == [] || !IsSpace(a[|a| - 1])
    ensures ReplaceSpaceRuns(a + m, rep) == ReplaceSpaceRuns(a, rep) + ReplaceSpaceRuns(m, rep)
    decreases |a|
  {
    if a == [] {
      assert a + m == m;
    } else if IsSpace(a[0]) {
      var rest := a[1..];
      assert rest[|rest| - 1] == a[|a| - 1];
      DropLeadingAppend(rest, m);
      var d := DropLeadingSpaces(rest);
      ReplaceSplit(d, m, rep);
      SplitAfterRun(a, m, d, rep);
    } else {
      var rest := a[1..];
      assert rest == [] || rest[|rest| - 1] == a[|a| - 1];
      ReplaceSplit(rest, m, rep);
      SplitAfterChar(a, m, rep);
    }
  }

  /** A whole run of whitespace at the front becomes a single `rep`. */
  lemma ReplaceRunStart(w: string, t: string, rep: string)
    requires w != [] && AllSpace(w)
    requires t == [] || !IsSpace(t[0])
    ensures ReplaceSpaceRuns(w + t, rep) == rep + ReplaceSpaceRuns(t, rep)
  {
    var x := w + t;
    var rest := w[1..];
    AppendTail(w, t);
    forall k | 0 <= k < |rest|
      ensures IsSpace(rest[k])
    {
      assert rest[k] == w[k + 1];
    }
    DropSpacePrefix(rest, t);
    ReplaceSpaceStep(x, rep, t);
  }

  /**
   * A maximal run of whitespace, however long, becomes exactly one copy of
   * `rep`; the text on either side is replaced independently.
   */
  lemma ReplaceRun(a: string, w: string, t: string, rep: string)
    requires w != [] && AllSpace(w)
    requires a == [] || !IsSpace(a[|a| - 1])
    requires t == [] || !IsSpace(t[0])
    ensures ReplaceSpaceRuns(a + w + t, rep) == ReplaceSpaceRuns(a, rep) + rep + ReplaceSpaceRuns(t, rep)
  {
    AppendAssoc(a, w, t);
    ReplaceSplit(a, w + t, rep);
    ReplaceRunStart(w, t, rep);
    AppendAssoc(ReplaceSpaceRuns(a, rep), rep, ReplaceSpaceRuns(t, rep));
  }

  /** With a whitespace-free replacement the result is whitespace-free and at most as long as the input. */
  lemma {:induction false} ReplaceRemovesSpace(s: string, rep: string)
    requires NoSpace(rep) && |rep| <= 1
    ensures NoSpace(ReplaceSpaceRuns(s, rep))
    ensures |ReplaceSpaceRuns(s, rep)| <= |s|
    decreases |s|
  {
    if s != [] {
      if IsSpace(s[0]) {
        var t := DropLeadingSpaces(s[1..]);
        ReplaceRemovesSpace(t, rep);
        var r := ReplaceSpaceRuns(t, rep);
        assert ReplaceSpaceRuns(s, rep) == rep + r;
        NoSpaceAppend(rep, r);
      } else {
        ReplaceRemovesSpace(s[1..], rep);
        var r := ReplaceSpaceRuns(s[1..], rep);
        assert ReplaceSpaceRuns(s, rep) == [s[0]] + r;
        NoSpaceAppend([s[0]], r);
      }
    }
  }

  lemma {:induction false} DropLeadingSpacesLower(s: string)
    ensures DropLeadingSpaces(ToLower(s)) == ToLower(DropLeadingSpaces(s))
  {
    if s != [] && IsSpace(s[0]) {
      assert ToLower(s)[1..] == ToLower(s[1..]);
      DropLeadingSpacesLower(s[1..]);
    }
  }

  /**
   * Lower-casing commutes with the whitespace replacement: the slug
   * (replace, then lower) equals the concept identifier (lower, then replace).
   */
  lemma {:induction false} ReplaceLowerCommute(s: string, rep: string)
    requires NoUpper(rep)
    ensures ReplaceSpaceRuns(ToLower(s), rep) == ToLower(ReplaceSpaceRuns(s, rep))
    decreases |s|
  {
    if s != [] {
      var ls := ToLower(s);
      assert ls[0] == LowerChar(s[0]) && ls[1..] == ToLower(s[1..]);
      ToLowerProperties(rep);
      if IsSpace(s[0]) {
        DropLeadingSpacesLower(s[1..]);
        ReplaceLowerCommute(DropLeadingSpaces(s[1..]), rep);
        ToLowerAppend(rep, ReplaceSpaceRuns(DropLeadingSpaces(s[1..]), rep));
      } else {
        ReplaceLowerCommute(s[1..], rep);
        ToLowerAppend([s[0]], ReplaceSpaceRuns(s[1..], rep));
      }
    }
  }

  /** The characters of `s` that are not whitespace, in order. */
  function NonSpaceChars(s: string): (r: string)
    ensures NoSpace(r) && |r| <= |s|
  {
    if s == [] then [] else (if IsSpace(s[0]) then [] else [s[0]]) + NonSpaceChars(s[1..])
  }

  lemma {:induction false} NonSpaceCharsOfSpaces(s: string)
    requires AllSpace(s)
    ensures NonSpaceChars(s) == []
  {
    if s != [] { NonSpaceCharsOfSpaces(s[1..]); }
  }

  lemma {:induction false} NonSpaceCharsAppend(a: string, b: string)
    ensures NonSpaceChars(a + b) == NonSpaceChars(a) + NonSpaceChars(b)
  {
    if a == [] {
      assert a + b == b;
    } else {
      assert (a + b)[1..] == a[1..] + b;
      NonSpaceCharsAppend(a[1..], b);
    }
  }

  /** `replace(/\s+/g, '')` deletes exactly the whitespace characters and keeps the rest in order. */
  lemma {:induction false} StripSpacesIsFilter(s: string)
    ensures ReplaceSpaceRuns(s, "") == NonSpaceChars(s)
    decreases |s|
  {
    if s != [] {
      if IsSpace(s[0]) {
        var d := DropLeadingSpaces(s[1..]);
        var n := |s[1..]| - |d|;
        assert s[1..] == s[1..][..n] + d;
        NonSpaceCharsOfSpaces(s[1..][..n]);
        NonSpaceCharsAppend(s[1..][..n], d);
        StripSpacesIsFilter(d);
      } else {
        StripSpacesIsFilter(s[1..]);
      }
    }
  }

  /** Concatenation keeps strings free of whitespace and of capitals. */
  lemma PlainAppend(a: string, b: string)
    requires NoSpace(a) && NoUpper(a) && NoSpace(b) && NoUpper(b)
    ensures NoSpace(a + b) && NoUpper(a + b)
  {
    assert forall i :: 0 <= i < |a + b| ==> (a + b)[i] == if i < |a| then a[i] else b[i - |a|];
  }

  /** The file-name slug `replace(/\s+/g, '_').toLowerCase()`. */
  function Slug(s: string): (r: string)
    ensures NoSpace(r) && NoUpper(r) && |r| <= |s|
  {
    ReplaceRemovesSpace(s, "_");
    ToLowerProperties(ReplaceSpaceRuns(s, "_"));
    ToLower(ReplaceSpaceRuns(s, "_"))
  }

  /** A file name: the slug of `s` followed by a fixed suffix such as an extension. */
  function SlugFileName(s: string, suffix: string): (r: string)
    requires NoSpace(suffix) && NoUpper(suffix)
    ensures |r| == |Slug(s)| + |suffix|
    ensures NoSpace(r) && NoUpper(r)
    ensures r[..|Slug(s)|] == Slug(s) && r[|Slug(s)|..] == suffix
  {
    PlainAppend(Slug(s), suffix);
    assert (Slug(s) + suffix)[..|Slug(s)|] == Slug(s);
    Slug(s) + suffix
  }

  /** The slug of a slug is the slug itself. */
  lemma SlugIdempotent(s: string)
    ensures Slug(Slug(s)) == Slug(s)
  {
    var t := Slug(s);
    ReplaceNoSpace(t, "_");
    ToLowerProperties(t);
  }

  /** The slug leaves a string unchanged apart from case exactly when the string has no whitespace. */
  lemma SlugIsLowerIff(s: string)
    ensures Slug(s) == ToLower(s) <==> NoSpace(s)
  {
    if NoSpace(s) {
      ReplaceNoSpace(s, "_");
    } else {
      ToLowerProperties(s);
      assert !NoSpace(ToLower(s));
    }
  }

  // ---------------------------------------------------------------------------
  // Array.prototype.join, concatenation, String.prototype.includes

  /** `p` occurs in `s` starting at position `i`. */
  predicate OccursAt(s: string, p: string, i: int) {
    0 <= i <= |s| - |p| && s[i..i + |p|] == p
  }

  /** An occurrence in `w` is an occurrence in `a + w`, shifted by `|a|`. */
  lemma OccursAfter(a: string, w: string, p: string, k: int)
    requires OccursAt(w, p, k)
    ensures OccursAt(a + w, p, |a| + k)
  {
    assert (a + w)[|a|..] == w;
  }

  /** An occurrence in `x` is an occurrence at the same position in `x + b`. */
  lemma OccursBefore(x: string, b: string, p: string, k: int)
    requires OccursAt(x, p, k)
    ensures OccursAt(x + b, p, k)
  {
    assert (x + b)[..|x|] == x;
  }

  /** An occurrence inside an occurrence: positions add up. */
  lemma OccursWithin(s: string, w: string, j: int, p: string, k: int)
    requires OccursAt(s, w, j) && OccursAt(w, p, k)
    ensures OccursAt(s, p, j + k)
  {
    forall t | 0 <= t < |p|
      ensures s[j + k..j + k + |p|][t] == p[t]
    {
      assert p[t] == w[k..k + |p|][t] == w[k + t];
      assert w[k + t] == s[j..j + |w|][k + t];
    }
  }

  /** The middle of a concatenation of three occurs right after the first. */
  lemma OccursMiddle(a: string, m: string, b: string)
    ensures OccursAt(a + m + b, m, |a|)
  {
    assert (a + m + b)[|a|..|a| + |m|] == m;
  }

  /**
   * Concatenation is associative.  Stated over plain strings so that a proof with
   * many sequence terms in scope can regroup a concatenation without extensionality.
   */
  lemma AppendAssoc(a: string, b: string, c: string)
    ensures a + (b + c) == a + b + c
  {
  }

  /** Two occurrences that touch form an occurrence of their concatenation `ab`. */
  lemma OccursAdjacent(s: string, a: string, b: string, ab: string, i: int)
    requires OccursAt(s, a, i) && OccursAt(s, b, i + |a|) && ab == a + b
    ensures OccursAt(s, ab, i) && |ab| == |a| + |b|
  {
    assert s[i..i + |a| + |b|] == s[i..i + |a|] + s[i + |a|..i + |a| + |b|];
  }

  /** `xs.join(sep)`. */
  function Join(xs: seq<string>, sep: string): string
    decreases |xs|
  {
    if xs == [] then "" else if |xs| == 1 then xs[0] else xs[0] + sep + Join(xs[1..], sep)
  }

  /** Where element `i` of `xs` begins in `Join(xs, sep)`. */
  function JoinOffset(xs: seq<string>, sep: string, i: nat): nat
    requires i <= |xs|
  {
    if i == 0 then 0 else JoinOffset(xs, sep, i - 1) + |xs[i - 1]| + |sep|
  }

  lemma {:induction false} JoinOffsetShift(xs: seq<string>, sep: string, i: nat)
    requires 0 < i <= |xs|
    ensures JoinOffset(xs, sep, i) == |xs[0]| + |sep| + JoinOffset(xs[1..], sep, i - 1)
  {
    if i > 1 { JoinOffsetShift(xs, sep, i - 1); }
  }

  /** Element `i` of `xs` sits in the joined string at `JoinOffset(xs, sep, i)`. */
  lemma {:induction false} JoinHasElement(xs: seq<string>, sep: string, i: nat)
    requires i < |xs|
    ensures OccursAt(Join(xs, sep), xs[i], JoinOffset(xs, sep, i))
    decreases |xs|
  {
    if |xs| > 1 {
      if i == 0 {
        OccursBefore(xs[0], sep, xs[0], 0);
        OccursBefore(xs[0] + sep, Join(xs[1..], sep), xs[0], 0);
      } else {
        JoinHasElement(xs[1..], sep, i - 1);
        JoinOffsetShift(xs, sep, i);
        OccursAfter(xs[0] + sep, Join(xs[1..], sep), xs[i], JoinOffset(xs[1..], sep, i - 1));
      }
    }
  }

  /** `Join` places the elements in strictly increasing positions: their order is kept. */
  lemma {:induction false} JoinOffsetIncreasing(xs: seq<string>, sep: string, i: nat, j: nat)
    requires i < j <= |xs|
    ensures JoinOffset(xs, sep, i) + |xs[i]| + |sep| <= JoinOffset(xs, sep, j)
    decreases j
  {
    if j > i + 1 { JoinOffsetIncreasing(xs, sep, i, j - 1); }
  }

  /** Between element `i` and element `i + 1` of the join stands exactly one copy of `sep`. */
  lemma {:induction false} JoinHasSeparator(xs: seq<string>, sep: string, i: nat)
    requires i + 1 < |xs|
    ensures OccursAt(Join(xs, sep), sep, JoinOffset(xs, sep, i) + |xs[i]|)
    decreases |xs|
  {
    var tail := Join(xs[1..], sep);
    assert Join(xs, sep) == xs[0] + sep + tail;
    if i == 0 {
      assert OccursAt(sep, sep, 0);
      OccursAfter(xs[0], sep, sep, 0);
      OccursBefore(xs[0] + sep, tail, sep, |xs[0]|);
    } else {
      JoinHasSeparator(xs[1..], sep, i - 1);
      JoinOffsetShift(xs, sep, i);
      assert xs[1..][i - 1] == xs[i];
      OccursAfter(xs[0] + sep, tail, sep, JoinOffset(xs[1..], sep, i - 1) + |xs[i]|);
    }
  }

  /** The join ends right after its last element. */
  lemma {:induction false} JoinLength(xs: seq<string>, sep: string)
    requires xs != []
    ensures |Join(xs, sep)| == JoinOffset(xs, sep, |xs| - 1) + |xs[|xs| - 1]|
    decreases |xs|
  {
    if |xs| > 1 {
      JoinLength(xs[1..], sep);
      JoinOffsetShift(xs, sep, |xs| - 1);
      assert xs[1..][|xs| - 2] == xs[|xs| - 1];
    }
  }

  /** Where `Join(xs, sep)` occurs at `o`, element `i` occurs at `o + JoinOffset(xs, sep, i)`. */
  lemma OccursJoinElement(s: string, xs: seq<string>, sep: string, o: int, i: nat)
    requires OccursAt(s, Join(xs, sep), o) && i < |xs|
    ensures OccursAt(s, xs[i], o + JoinOffset(xs, sep, i))
  {
    JoinHasElement(xs, sep, i);
    OccursWithin(s, Join(xs, sep), o, xs[i], JoinOffset(xs, sep, i));
  }

  /** Element `i` of `xs` ends within the joined string. */
  lemma JoinElementEnds(xs: seq<string>, sep: string, i: nat)
    requires i < |xs|
    ensures JoinOffset(xs, sep, i) + |xs[i]| <= |Join(xs, sep)|
  {
    JoinHasElement(xs, sep, i);
  }

  /** Counts the occurrences of `c` in `s`. */
  function CountChar(s: string, c: char): nat
  {
    if s == [] then 0 else (if s[0] == c then 1 else 0) + CountChar(s[1..], c)
  }

  lemma {:induction false} CountCharAppend(a: string, b: string, c: char)
    ensures CountChar(a + b, c) == CountChar(a, c) + CountChar(b, c)
  {
    if a == [] {
      assert a + b == b;
    } else {
      assert (a + b)[1..] == a[1..] + b;
      CountCharAppend(a[1..], b, c);
    }
  }

  lemma {:induction false} CountCharAbsent(s: string, c: char)
    requires forall i :: 0 <= i < |s| ==> s[i] != c
    ensures CountChar(s, c) == 0
  {
    if s != [] { CountCharAbsent(s[1..], c); }
  }

  /**
   * When neither the elements nor the separator's tail contain `c` and the
   * separator holds it once, the joined string holds `c` exactly once per gap.
   */
  lemma {:induction false} JoinCountsSeparators(xs: seq<string>, sep: string, c: char)
    requires |xs| > 0
    requires forall k :: 0 <= k < |xs| ==> CountChar(xs[k], c) == 0
    requires CountChar(sep, c) == 1
    ensures CountChar(Join(xs, sep), c) == |xs| - 1
    decreases |xs|
  {
    if |xs| > 1 {
      JoinCountsSeparators(xs[1..], sep, c);
      CountCharAppend(xs[0] + sep, Join(xs[1..], sep), c);
      CountCharAppend(xs[0], sep, c);
    }
  }

  /** `s.includes(p)`: `p` occurs in `s` at some position. */
  function Contains(s: string, p: string): bool
    decreases |s|
  {
    (|p| <= |s| && s[..|p|] == p) || (s != [] && Contains(s[1..], p))
  }

  /** `Contains` agrees with the positional definition of a substring. */
  lemma {:induction false} ContainsIff(s: string, p: string)
    ensures Contains(s, p) <==> exists i :: OccursAt(s, p, i)
    decreases |s|
  {
    if |p| <= |s| && s[..|p|] == p {
      assert OccursAt(s, p, 0);
    }
    if s != [] {
      ContainsIff(s[1..], p);
      if Contains(s[1..], p) {
        var i :| OccursAt(s[1..], p, i);
        assert s[i + 1..i + 1 + |p|] == s[1..][i..i + |p|];
        assert OccursAt(s, p, i + 1);
      }
      if exists i :: OccursAt(s, p, i) {
        var i :| OccursAt(s, p, i);
        if i > 0 {
          assert s[1..][i - 1..i - 1 + |p|] == s[i..i + |p|];
          assert OccursAt(s[1..], p, i - 1);
        }
      }
    }
  }

  /** The empty string is contained in every string. */
  lemma ContainsEmpty(s: string)
    ensures Contains(s, "")
  {
    assert s[..0] == "";
  }

  /** A character of the pattern that never occurs in `s` rules out a match. */
  lemma MissingCharNotContained(s: string, p: string, c: char)
    requires c in p && c !in s
    ensures !Contains(s, p)
  {
    ContainsIff(s, p);
  }

  // ---------------------------------------------------------------------------
  // Template literal interpolation of an integer

  function DigitChar(d: nat): (r: char)
    requires d < 10
    ensures '0' <= r <= '9' && r as int - '0' as int == d
  {
    ('0' as int + d) as char
  }

  /** Decimal digits of a natural number, without leading zeros. */
  function NatToString(n: nat): (r: string)
    ensures |r| > 0
    ensures forall i :: 0 <= i < |r| ==> '0' <= r[i] <= '9'
    decreases n
  {
    if n < 10 then [DigitChar(n)] else NatToString(n / 10) + [DigitChar(n % 10)]
  }

  /** The value of a string of decimal digits. */
  function ParseDigits(s: string): int
  {
    if s == [] then 0 else 10 * ParseDigits(s[..|s| - 1]) + (s[|s| - 1] as int - '0' as int)
  }

  /** Reading back the printed digits gives the number again. */
  lemma {:induction false} NatToStringRoundTrip(n: nat)
    ensures ParseDigits(NatToString(n)) == n
    decreases n
  {
    if n >= 10 {
      NatToStringRoundTrip(n / 10);
      var s := NatToString(n);
      assert s[..|s| - 1] == NatToString(n / 10);
    }
  }

  /** `${n}` for an integer `n`. */
  function IntToString(n: int): (r: string)
    ensures |r| > 0
    ensures n >= 0 ==> ParseDigits(r) == n
    ensures n < 0 ==> r[0] == '-' && ParseDigits(r[1..]) == -n
  {
    NatToStringRoundTrip(if n >= 0 then n else -n);
    if n >= 0 then NatToString(n) else "-" + NatToString(-n)
  }
}
