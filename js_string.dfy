/**
 * The two JavaScript string primitives the handlers use:
 * `String.prototype.replaceAll(pattern, "")` with a non-empty literal pattern, and
 * `String.prototype.split(separator)` with a one-character separator.
 * Strings are sequences of characters; no normalisation or case folding takes place.
 */
module JsString {

  /** `s.length`: the number of UTF-16 code units, so that a character beyond U+FFFF,
      stored as a surrogate pair, counts twice. */
  function Utf16Length(s: string): (n: nat)
    ensures |s| <= n <= 2 * |s|
    ensures (forall i :: 0 <= i < |s| ==> s[i] <= '\U{FFFF}') ==> n == |s|
    ensures (forall i :: 0 <= i < |s| ==> s[i] > '\U{FFFF}') ==> n == 2 * |s|
    decreases |s|
  {
    if s == [] then 0
    else (if s[0] <= '\U{FFFF}' then 1 else 2) + Utf16Length(s[1..])
  }

  lemma {:induction false} Utf16LengthAppend(a: string, b: string)
    ensures Utf16Length(a + b) == Utf16Length(a) + Utf16Length(b)
    decreases |a|
  {
    if a != [] {
      assert (a + b)[1..] == a[1..] + b;
      Utf16LengthAppend(a[1..], b);
    } else {
      assert a + b == b;
    }
  }

  /** A single character is one code unit up to U+FFFF and a surrogate pair beyond it; with
      `Utf16LengthAppend` this fixes the length of every string. */
  lemma Utf16LengthOfChar(c: char)
    ensures Utf16Length([c]) == if c <= '\U{FFFF}' then 1 else 2
  {
    assert [c][1..] == [];
  }

  /** `s.replaceAll(pat, "")`: occurrences of `pat` are found left to right and do not
      overlap; after a match the scan resumes right behind it. */
  function RemoveAll(s: string, pat: string): (r: string)
    requires pat != []
    ensures |r| <= |s|
    decreases |s|
  {
    if |s| < |pat| then s
    else if s[..|pat|] == pat then RemoveAll(s[|pat|..], pat)
    else [s[0]] + RemoveAll(s[1..], pat)
  }

  /** Removal never introduces a character, and removing a one-character pattern leaves none of it. */
  lemma {:induction false} RemoveAllKeepsOut(s: string, pat: string, c: char)
    requires pat != []
    ensures c !in s ==> c !in RemoveAll(s, pat)
    ensures pat == [c] ==> c !in RemoveAll(s, pat)
    decreases |s|
  {
    if |s| >= |pat| {
      if s[..|pat|] == pat {
        RemoveAllKeepsOut(s[|pat|..], pat, c);
        assert c !in s ==> c !in s[|pat|..];
      } else {
        RemoveAllKeepsOut(s[1..], pat, c);
        assert c !in s ==> c !in s[1..];
        assert pat == [c] ==> s[0] != c by {
          if pat == [c] { assert s[..1] == [s[0]]; }
        }
      }
    } else {
      assert pat == [c] ==> s == [];
    }
  }

  /** Removing a single character keeps every other character exactly as often as before. */
  lemma {:induction false} RemoveCharCounts(s: string, c: char)
    ensures multiset(RemoveAll(s, [c])) == multiset(s)[c := 0]
    decreases |s|
  {
    if s == [] {
    } else {
      RemoveCharCounts(s[1..], c);
      assert s == [s[0]] + s[1..];
      assert multiset(s) == multiset{s[0]} + multiset(s[1..]);
      if s[..1] == [c] {
        assert s[0] == c;
      } else {
        assert s[0] != c;
      }
    }
  }

  /** An occurrence at the very start is removed, and the scan resumes right behind it. */
  lemma RemoveAllAtMatch(pat: string, s: string)
    requires pat != []
    ensures RemoveAll(pat + s, pat) == RemoveAll(s, pat)
  {
    assert (pat + s)[..|pat|] == pat;
    assert (pat + s)[|pat|..] == s;
  }

  /** A string lacking one of the pattern's characters holds no occurrence and is left as it is. */
  lemma {:induction false} RemoveAllAbsent(s: string, pat: string, c: char)
    requires pat != [] && c in pat && c !in s
    ensures RemoveAll(s, pat) == s
    decreases |s|
  {
    if |s| >= |pat| {
      assert s[..|pat|] != pat;
      RemoveAllAbsent(s[1..], pat, c);
      assert s == [s[0]] + s[1..];
    }
  }

  /** A chain of `replaceAll(pat, "")` calls, one per pattern of `pats`, in order. */
  function RemoveEach(s: string, pats: seq<string>): (r: string)
    requires forall i :: 0 <= i < |pats| ==> pats[i] != []
    ensures |r| <= |s|
    decreases |pats|
  {
    if pats == [] then s else RemoveEach(RemoveAll(s, pats[0]), pats[1..])
  }

  /** A chain of removals splits at any point into two chains. */
  lemma {:induction false} RemoveEachAppend(s: string, a: seq<string>, b: seq<string>)
    requires forall i :: 0 <= i < |a| ==> a[i] != []
    requires forall i :: 0 <= i < |b| ==> b[i] != []
    ensures forall i :: 0 <= i < |a + b| ==> (a + b)[i] != []
    ensures RemoveEach(s, a + b) == RemoveEach(RemoveEach(s, a), b)
    decreases |a|
  {
    assert forall i :: 0 <= i < |a + b| ==> (a + b)[i] != [] by {
      forall i | 0 <= i < |a + b| ensures (a + b)[i] != [] {
        if i < |a| { assert (a + b)[i] == a[i]; } else { assert (a + b)[i] == b[i - |a|]; }
      }
    }
    if a == [] {
      assert a + b == b;
    } else {
      assert (a + b)[1..] == a[1..] + b;
      RemoveEachAppend(RemoveAll(s, a[0]), a[1..], b);
    }
  }

  /** Patterns that each miss a character of the string (`missing[i]` for `pats[i]`) leave it as it is. */
  lemma {:induction false} RemoveEachAbsent(s: string, pats: seq<string>, missing: string)
    requires |missing| == |pats|
    requires forall i :: 0 <= i < |pats| ==> pats[i] != [] && missing[i] in pats[i] && missing[i] !in s
    ensures RemoveEach(s, pats) == s
    decreases |pats|
  {
    if pats != [] {
      RemoveAllAbsent(s, pats[0], missing[0]);
      RemoveEachAbsent(s, pats[1..], missing[1..]);
    }
  }

  /** A character absent before a chain of removals is absent after it. */
  lemma {:induction false} RemoveEachKeepsOut(s: string, pats: seq<string>, c: char)
    requires forall i :: 0 <= i < |pats| ==> pats[i] != []
    requires c !in s
    ensures c !in RemoveEach(s, pats)
    decreases |pats|
  {
    if pats != [] {
      RemoveAllKeepsOut(s, pats[0], c);
      RemoveEachKeepsOut(RemoveAll(s, pats[0]), pats[1..], c);
    }
  }

  /** A chain that removes the one-character pattern [c] at some step leaves no c behind. */
  lemma {:induction false} RemoveEachRemovesChar(s: string, pats: seq<string>, k: nat, c: char)
    requires forall i :: 0 <= i < |pats| ==> pats[i] != []
    requires k < |pats| && pats[k] == [c]
    ensures c !in RemoveEach(s, pats)
    decreases |pats|
  {
    if k == 0 {
      RemoveAllKeepsOut(s, [c], c);
      RemoveEachKeepsOut(RemoveAll(s, [c]), pats[1..], c);
    } else {
      RemoveEachRemovesChar(RemoveAll(s, pats[0]), pats[1..], k - 1, c);
    }
  }

  /** A step that removes a character the string does not hold can be dropped from a chain. */
  lemma RemoveEachSkipsAbsentChar(s: string, before: seq<string>, c: char, after: seq<string>)
    requires forall i :: 0 <= i < |before| ==> before[i] != []
    requires forall i :: 0 <= i < |after| ==> after[i] != []
    requires c !in s
    ensures RemoveEach(s, before + ([[c]] + after)) == RemoveEach(s, before + after)
  {
    RemoveEachAppend(s, before, after);
    RemoveEachAppend(s, before, [[c]] + after);
    var b := RemoveEach(s, before);
    RemoveEachKeepsOut(s, before, c);
    RemoveEachAppend(b, [[c]], after);
    RemoveEachAbsent(b, [[c]], [c]);
  }

  /** A nonempty stretch holding no character of `pat` is never part of a match: the
      removal runs on both sides of it independently. */
  lemma RemoveAllAround(a: string, m: string, b: string, pat: string)
    requires pat != [] && m != []
    requires forall c :: c in m ==> c !in pat
    ensures RemoveAll(a + m + b, pat) == RemoveAll(a, pat) + m + RemoveAll(b, pat)
  {
    RemoveAllBefore(a, m, pat);
    RemoveAllConcat(a + m, b, pat);
  }

  lemma {:induction false} RemoveAllBefore(a: string, m: string, pat: string)
    requires pat != []
    requires forall c :: c in m ==> c !in pat
    ensures RemoveAll(a + m, pat) == RemoveAll(a, pat) + m
    decreases |a|
  {
    if |a| < |pat| <= |a + m| {
      // a match here would put m[0], which is not in pat, at index |a| of pat
      assert (a + m)[..|pat|][|a|] == m[0] && m[0] in m;
    }
    if |a + m| < |pat| {
    } else if (a + m)[..|pat|] == pat {
      assert a[..|pat|] == pat;
      assert (a + m)[|pat|..] == a[|pat|..] + m;
      RemoveAllBefore(a[|pat|..], m, pat);
    } else if a == [] {
      assert a + m == m;
      RemoveAllAbsent(m, pat, pat[0]);
    } else {
      assert (a + m)[1..] == a[1..] + m;
      RemoveAllBefore(a[1..], m, pat);
      if |a| >= |pat| {
        assert (a + m)[..|pat|] == a[..|pat|];
      }
    }
  }

  /** Cutting `x + y` inside `x` cuts `x`. */
  lemma ConcatSlices(x: string, y: string, k: nat)
    requires k <= |x|
    ensures (x + y)[..k] == x[..k] && (x + y)[k..] == x[k..] + y
  {
  }

  /** Without a match at the front, `replaceAll` keeps the first character and goes on. */
  lemma RemoveAllKeepsFirst(s: string, pat: string)
    requires pat != [] && s != []
    requires |s| < |pat| || s[..|pat|] != pat
    ensures RemoveAll(s, pat) == [s[0]] + RemoveAll(s[1..], pat)
  {
    if |s| < |pat| {
      assert RemoveAll(s[1..], pat) == s[1..];
      assert s == [s[0]] + s[1..];
    }
  }

  /** A match at the front of `x + y` lies inside `x` when the last character of `x` is
      not in the pattern. */
  lemma MatchInsideFirst(x: string, y: string, pat: string)
    requires pat != [] && x != [] && x[|x| - 1] !in pat
    requires |pat| <= |x + y| && (x + y)[..|pat|] == pat
    ensures |pat| < |x| && x[..|pat|] == pat
  {
    if |x| <= |pat| {
      SeamInsideMatch(x, y, pat);
    }
    ConcatSlices(x, y, |pat|);
  }

  /** A match at the front of `x + y` that reaches past `x` contains the last character of `x`. */
  lemma SeamInsideMatch(x: string, y: string, pat: string)
    requires x != [] && |x| <= |pat| <= |x + y| && (x + y)[..|pat|] == pat
    ensures pat[|x| - 1] == x[|x| - 1]
  {
    assert (x + y)[..|pat|][|x| - 1] == (x + y)[|x| - 1];
  }

  /** Removal runs on `x` and `y` separately when the last character of `x` is not in the
      pattern, so that no match straddles the seam. */
  lemma {:induction false} RemoveAllConcat(x: string, y: string, pat: string)
    requires pat != [] && x != [] && x[|x| - 1] !in pat
    ensures RemoveAll(x + y, pat) == RemoveAll(x, pat) + RemoveAll(y, pat)
    decreases |x|, 1
  {
    if |pat| <= |x + y| && (x + y)[..|pat|] == pat {
      RemoveAllConcatAtMatch(x, y, pat);
    } else {
      RemoveAllConcatNoMatch(x, y, pat);
    }
  }

  lemma {:induction false} RemoveAllConcatAtMatch(x: string, y: string, pat: string)
    requires pat != [] && x != [] && x[|x| - 1] !in pat
    requires |pat| <= |x + y| && (x + y)[..|pat|] == pat
    ensures RemoveAll(x + y, pat) == RemoveAll(x, pat) + RemoveAll(y, pat)
    decreases |x|, 0
  {
    MatchInsideFirst(x, y, pat);
    ConcatSlices(x, y, |pat|);
    RemoveAllConcat(x[|pat|..], y, pat);
  }

  lemma {:induction false} RemoveAllConcatNoMatch(x: string, y: string, pat: string)
    requires pat != [] && x != [] && x[|x| - 1] !in pat
    requires |x + y| < |pat| || (x + y)[..|pat|] != pat
    ensures RemoveAll(x + y, pat) == RemoveAll(x, pat) + RemoveAll(y, pat)
    decreases |x|, 0
  {
    NoMatchKeepsFirst(x, y, pat);
    var tail := x[1..];
    if tail == [] {
      assert tail + y == y && RemoveAll(tail, pat) == [];
    } else {
      assert tail[|tail| - 1] == x[|x| - 1];
      RemoveAllConcat(tail, y, pat);
    }
    ConsRegroup(x[0], RemoveAll(x + y, pat), RemoveAll(tail + y, pat),
                RemoveAll(x, pat), RemoveAll(tail, pat), RemoveAll(y, pat));
  }

  /** Sequence algebra for the step above, kept apart from the unfolding of `RemoveAll`. */
  lemma ConsRegroup(c: char, s: string, t: string, u: string, v: string, w: string)
    requires s == [c] + t && u == [c] + v && t == v + w
    ensures s == u + w
  {
  }

  /** Without a match at the front of `x + y`, its first character and that of `x` are kept. */
  lemma NoMatchKeepsFirst(x: string, y: string, pat: string)
    requires pat != [] && x != []
    requires |x + y| < |pat| || (x + y)[..|pat|] != pat
    ensures RemoveAll(x + y, pat) == [x[0]] + RemoveAll(x[1..] + y, pat)
    ensures RemoveAll(x, pat) == [x[0]] + RemoveAll(x[1..], pat)
  {
    RemoveAllKeepsFirst(x + y, pat);
    ConcatSlices(x, y, 1);
    if |pat| <= |x| {
      ConcatSlices(x, y, |pat|);
    }
    RemoveAllKeepsFirst(x, pat);
  }

  /** The same holds for a whole chain of removals whose patterns all avoid the stretch. */
  lemma {:induction false} RemoveEachAround(a: string, m: string, b: string, pats: seq<string>)
    requires m != []
    requires forall i :: 0 <= i < |pats| ==> pats[i] != []
    requires forall i, c :: 0 <= i < |pats| && c in m ==> c !in pats[i]
    ensures RemoveEach(a + m + b, pats) == RemoveEach(a, pats) + m + RemoveEach(b, pats)
    decreases |pats|
  {
    if pats != [] {
      RemoveAllAround(a, m, b, pats[0]);
      RemoveEachAround(RemoveAll(a, pats[0]), m, RemoveAll(b, pats[0]), pats[1..]);
    }
  }

  /** `s.split([sep])`: the pieces between separators, in order; an empty string gives [""]. */
  function Split(s: string, sep: char): (r: seq<string>)
    ensures |r| >= 1
    ensures forall i :: 0 <= i < |r| ==> sep !in r[i]
    ensures |r| == 1 <==> sep !in s
    decreases |s|
  {
    if s == [] then [[]]
    else
      var rest := Split(s[1..], sep);
      assert sep in s <==> s[0] == sep || sep in s[1..] by {
        assert s == [s[0]] + s[1..];
      }
      if s[0] == sep then [[]] + rest
      else [[s[0]] + rest[0]] + rest[1..]
  }

  /** `pieces.join([sep])`, the inverse of Split. */
  function Join(pieces: seq<string>, sep: char): (r: string)
    requires |pieces| >= 1
    ensures |r| >= |pieces| - 1
    ensures pieces[0] <= r
    ensures |pieces| >= 2 ==> |r| > |pieces[0]| && r[|pieces[0]|] == sep
    decreases |pieces|
  {
    if |pieces| == 1 then pieces[0]
    else pieces[0] + [sep] + Join(pieces[1..], sep)
  }

  /** Splitting loses nothing: joining the pieces gives the string back. */
  lemma {:induction false} JoinSplit(s: string, sep: char)
    ensures Join(Split(s, sep), sep) == s
    decreases |s|
  {
    if s != [] {
      JoinSplit(s[1..], sep);
      var rest := Split(s[1..], sep);
      if s[0] == sep {
        assert Split(s, sep)[1..] == rest;
      } else if |rest| == 1 {
        assert s == [s[0]] + s[1..];
      } else {
        var r := Split(s, sep);
        assert r[1..] == rest[1..];
        assert Join(rest, sep) == rest[0] + [sep] + Join(rest[1..], sep);
      }
    }
  }

  /** A piece without the separator followed by the separator starts a new piece. */
  lemma {:induction false} SplitAfterSeparator(a: string, sep: char, b: string)
    requires sep !in a
    ensures Split(a + [sep] + b, sep) == [a] + Split(b, sep)
    decreases |a|
  {
    if a == [] {
      assert a + [sep] + b == [sep] + b;
      assert ([sep] + b)[1..] == b;
    } else {
      SplitAfterSeparator(a[1..], sep, b);
      assert (a + [sep] + b)[1..] == a[1..] + [sep] + b;
      assert [a[0]] + a[1..] == a;
    }
  }

  /** A string without the separator is one piece. */
  lemma {:induction false} SplitWhole(s: string, sep: char)
    requires sep !in s
    ensures Split(s, sep) == [s]
    decreases |s|
  {
    if s != [] {
      SplitWhole(s[1..], sep);
      assert [s[0]] + s[1..] == s;
    }
  }

  /** Joining separator-free pieces and splitting again gives the same pieces. */
  lemma {:induction false} SplitJoin(pieces: seq<string>, sep: char)
    requires |pieces| >= 1
    requires forall i :: 0 <= i < |pieces| ==> sep !in pieces[i]
    ensures Split(Join(pieces, sep), sep) == pieces
    decreases |pieces|
  {
    if |pieces| == 1 {
      SplitWhole(pieces[0], sep);
    } else {
      SplitJoin(pieces[1..], sep);
      SplitAfterSeparator(pieces[0], sep, Join(pieces[1..], sep));
      assert [pieces[0]] + pieces[1..] == pieces;
    }
  }

  /** Only the empty string splits into the single empty piece. */
  lemma EmptyPieceOnlyFromEmpty(s: string, sep: char)
    ensures Split(s, sep) == [[]] <==> s == []
  {
    if Split(s, sep) == [[]] {
      JoinSplit(s, sep);
    }
  }
}
