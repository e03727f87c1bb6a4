/**
 * The Python `str` methods the repository-name parser relies on:
 * `strip()`, `rstrip(chars)`, `replace(old, "")` and `split(sep)`.
 */
module PyStr {

  /** The characters for which Python's `str.isspace()` holds. */
  predicate IsSpace(c: char) {
    c in {'\U{0020}', '\U{0009}', '\U{000A}', '\U{000D}', '\U{000B}', '\U{000C}', '\U{001C}', '\U{001D}',
          '\U{001E}', '\U{001F}', '\U{0085}', '\U{00A0}', '\U{1680}', '\U{2000}', '\U{2001}', '\U{2002}',
          '\U{2003}', '\U{2004}', '\U{2005}', '\U{2006}', '\U{2007}', '\U{2008}', '\U{2009}', '\U{200A}',
          '\U{2028}', '\U{2029}', '\U{202F}', '\U{205F}', '\U{3000}'}
  }

  /** `s` with every trailing character satisfying `p` removed. */
  function TrimEnd(s: string, p: char -> bool): (r: string)
    ensures r <= s
    ensures r == [] || !p(r[|r| - 1])
    ensures forall i :: |r| <= i < |s| ==> p(s[i])
  {
    if s == [] || !p(s[|s| - 1]) then s else TrimEnd(s[..|s| - 1], p)
  }

  /** `s` with every leading character satisfying `p` removed. */
  function TrimStart(s: string, p: char -> bool): (r: string)
    ensures |r| <= |s| && r == s[|s| - |r|..]
    ensures r == [] || !p(r[0])
    ensures forall i :: 0 <= i < |s| - |r| ==> p(s[i])
  {
    if s == [] || !p(s[0]) then s else TrimStart(s[1..], p)
  }

  /** Every character of `w` satisfies `p`. */
  predicate All(w: string, p: char -> bool) {
    forall k :: 0 <= k < |w| ==> p(w[k])
  }

  /** What `TrimStart` removes is a prefix of characters satisfying `p`. */
  lemma TrimStartParts(s: string, p: char -> bool)
    ensures var t := TrimStart(s, p); s == s[..|s| - |t|] + t && All(s[..|s| - |t|], p)
  {
    var t := TrimStart(s, p);
    var n := |s| - |t|;
    var pre := s[..n];
    assert t == s[n..];
    forall k | 0 <= k < |pre|
      ensures p(pre[k])
    {
      assert pre[k] == s[k];
    }
    assert s == pre + t;
  }

  /** What `TrimEnd` removes is a suffix of characters satisfying `p`. */
  lemma TrimEndParts(t: string, p: char -> bool)
    ensures var r := TrimEnd(t, p); t == r + t[|r|..] && All(t[|r|..], p)
  {
    var r := TrimEnd(t, p);
    var post := t[|r|..];
    forall k | 0 <= k < |post|
      ensures p(post[k])
    {
      assert post[k] == t[|r| + k];
    }
  }

  /** Trimming both ends leaves an infix padded on each side by characters
      satisfying `p`. */
  lemma TrimBothParts(s: string, p: char -> bool)
    ensures var r := TrimEnd(TrimStart(s, p), p);
      exists pre, post :: s == pre + (r + post) && All(pre, p) && All(post, p)
  {
    var t := TrimStart(s, p);
    var r := TrimEnd(t, p);
    TrimStartParts(s, p);
    TrimEndParts(t, p);
    var pre := s[..|s| - |t|];
    var post := t[|r|..];
    assert s == pre + (r + post);
  }

  /** Python's `s.strip()`: leading and trailing whitespace removed. The result
      neither starts nor ends with whitespace; `StripShape` says it is an infix
      of `s` with only whitespace around it. */
  function Strip(s: string): (r: string)
    ensures |r| <= |s|
    ensures r == [] || (!IsSpace(r[0]) && !IsSpace(r[|r| - 1]))
  {
    TrimEnd(TrimStart(s, IsSpace), IsSpace)
  }

  /** `Strip` removes whitespace only, and only at the two ends. */
  lemma StripShape(s: string)
    ensures exists pre, post :: s == pre + (Strip(s) + post) && All(pre, IsSpace) && All(post, IsSpace)
  {
    TrimBothParts(s, IsSpace);
  }

  /** Python's `s.rstrip(c)` for a single character `c`: the longest prefix of
      `s` not ending in `c`, every removed character being `c`. */
  function RStrip(s: string, c: char): (r: string)
    ensures r <= s
    ensures r == [] || r[|r| - 1] != c
    ensures forall i :: |r| <= i < |s| ==> s[i] == c
  {
    TrimEnd(s, x => x == c)
  }

  /** Python's `s.replace(pat, "")`: occurrences of `pat` found scanning left to
      right, without overlap, are deleted; text that the deletion brings together
      is not scanned again. */
  function RemoveAll(s: string, pat: string): (r: string)
    requires pat != []
    ensures |r| <= |s|
    decreases |s|
  {
    if |s| < |pat| then s
    else if s[..|pat|] == pat then RemoveAll(s[|pat|..], pat)
    else [s[0]] + RemoveAll(s[1..], pat)
  }

  /** Deletion adds no characters: a character absent from `s` is absent from
      the result. */
  lemma {:induction false} RemoveAllAddsNothing(s: string, pat: string, x: char)
    requires pat != [] && x !in s
    ensures x !in RemoveAll(s, pat)
    decreases |s|
  {
    if |s| >= |pat| {
      if s[..|pat|] == pat {
        assert forall i :: |pat| <= i < |s| ==> s[|pat|..][i - |pat|] == s[i];
        RemoveAllAddsNothing(s[|pat|..], pat, x);
      } else {
        assert forall i :: 1 <= i < |s| ==> s[1..][i - 1] == s[i];
        RemoveAllAddsNothing(s[1..], pat, x);
      }
    }
  }

  /** Python's `s.split(c)`: the maximal runs between occurrences of `c`; never empty. */
  function Split(s: string, c: char): (r: seq<string>)
    ensures |r| >= 1
    ensures forall i :: 0 <= i < |r| ==> c !in r[i]
  {
    if s == [] then [""]
    else
      var rest := Split(s[1..], c);
      if s[0] == c then [""] + rest else [[s[0]] + rest[0]] + rest[1..]
  }

  /** Python's `c.join(parts)`, the inverse of `Split`. */
  function Join(parts: seq<string>, c: char): string
    requires |parts| >= 1
  {
    if |parts| == 1 then parts[0] else parts[0] + [c] + Join(parts[1..], c)
  }

  /** Splitting loses nothing: the pieces joined back give the original string. */
  lemma {:induction false} JoinSplit(s: string, c: char)
    ensures Join(Split(s, c), c) == s
  {
    if s != [] {
      JoinSplit(s[1..], c);
      var rest := Split(s[1..], c);
      if s[0] != c {
        if |rest| == 1 {
        } else {
          calc {
            Join([[s[0]] + rest[0]] + rest[1..], c);
            ([s[0]] + rest[0]) + [c] + Join(rest[1..], c);
            [s[0]] + (rest[0] + [c] + Join(rest[1..], c));
            [s[0]] + Join(rest, c);
          }
        }
      }
    }
  }

  /** Joining pieces that do not contain the separator and splitting again gives
      back the pieces. */
  lemma {:induction false} SplitJoin(parts: seq<string>, c: char)
    requires |parts| >= 1
    requires forall i :: 0 <= i < |parts| ==> c !in parts[i]
    ensures Split(Join(parts, c), c) == parts
  {
    if |parts| == 1 {
      NoSeparator(parts[0], c);
    } else {
      SplitJoin(parts[1..], c);
      SplitPrefix(parts[0], Join(parts[1..], c), c);
    }
  }

  /** A string without the separator splits into itself. */
  lemma {:induction false} NoSeparator(s: string, c: char)
    requires c !in s
    ensures Split(s, c) == [s]
  {
    if s != [] {
      assert s[0] in s;
      NoSeparator(s[1..], c);
      assert [s[0]] + s[1..] == s;
    }
  }

  /** Splitting `a + [c] + b`, where `a` holds no `c`, gives `a` followed by the
      pieces of `b`. */
  lemma {:induction false} SplitPrefix(a: string, b: string, c: char)
    requires c !in a
    ensures Split(a + [c] + b, c) == [a] + Split(b, c)
  {
    if a == [] {
      assert ([c] + b)[1..] == b;
    } else {
      SplitPrefix(a[1..], b, c);
      assert (a + [c] + b)[1..] == a[1..] + [c] + b;
      assert [a[0]] + a[1..] == a;
    }
  }

  /** Joining splits off the last piece behind the last separator. */
  lemma {:induction false} JoinLast(parts: seq<string>, c: char)
    requires |parts| >= 2
    ensures Join(parts, c) == Join(parts[..|parts| - 1], c) + [c] + parts[|parts| - 1]
  {
    if |parts| > 2 {
      JoinLast(parts[1..], c);
      assert parts[1..][..|parts| - 2] == parts[..|parts| - 1][1..];
    }
  }

  /** The last piece of a split is the part of `s` after its last separator:
      a suffix of `s` that is either all of `s` or preceded by `c`. */
  lemma LastPiece(s: string, c: char)
    ensures var r := Split(s, c); var last := r[|r| - 1];
      |last| <= |s| && last == s[|s| - |last|..] &&
      (|last| == |s| || s[|s| - |last| - 1] == c)
  {
    var r := Split(s, c);
    JoinSplit(s, c);
    if |r| >= 2 {
      JoinLast(r, c);
      var front := Join(r[..|r| - 1], c);
      assert s == front + [c] + r[|r| - 1];
      assert s[|front| + 1..] == r[|r| - 1];
    }
  }

  /** A string whose ends are not whitespace is left alone by `Strip`. */
  lemma StripUnchanged(s: string)
    requires s != [] && !IsSpace(s[0]) && !IsSpace(s[|s| - 1])
    ensures Strip(s) == s
  {
  }

  /** A string that does not end in `c` is left alone by `RStrip`. */
  lemma RStripUnchanged(s: string, c: char)
    requires s != [] && s[|s| - 1] != c
    ensures RStrip(s, c) == s
  {
  }

  /** Leading characters that `p` holds for are all trimmed by `TrimStart`. */
  lemma {:induction false} TrimStartSkips(w: string, s: string, p: char -> bool)
    requires forall i :: 0 <= i < |w| ==> p(w[i])
    ensures TrimStart(w + s, p) == TrimStart(s, p)
  {
    if w == [] {
      assert w + s == s;
    } else {
      assert (w + s)[0] == w[0];
      assert (w + s)[1..] == w[1..] + s;
      TrimStartSkips(w[1..], s, p);
    }
  }

  /** Trailing characters that `p` holds for are all trimmed by `TrimEnd`. */
  lemma {:induction false} TrimEndSkips(s: string, w: string, p: char -> bool)
    requires forall i :: 0 <= i < |w| ==> p(w[i])
    ensures TrimEnd(s + w, p) == TrimEnd(s, p)
  {
    if w == [] {
      assert s + w == s;
    } else {
      var n := |s + w|;
      assert (s + w)[n - 1] == w[|w| - 1];
      assert (s + w)[..n - 1] == s + w[..|w| - 1];
      TrimEndSkips(s, w[..|w| - 1], p);
    }
  }

  /** Once `TrimStart` reaches a kept character, everything after it is kept. */
  lemma {:induction false} TrimStartKeepsTail(s: string, u: string, p: char -> bool)
    requires TrimStart(s, p) != []
    ensures TrimStart(s + u, p) == TrimStart(s, p) + u
  {
    assert s != [];
    assert (s + u)[0] == s[0];
    if p(s[0]) {
      assert (s + u)[1..] == s[1..] + u;
      TrimStartKeepsTail(s[1..], u, p);
    } else {
      assert TrimStart(s, p) == s;
      assert TrimStart(s + u, p) == s + u;
    }
  }

  /** Trailing copies of `c` are all removed by `RStrip(_, c)`. */
  lemma {:induction false} RStripSkips(s: string, w: string, c: char)
    requires forall i :: 0 <= i < |w| ==> w[i] == c
    ensures RStrip(s + w, c) == RStrip(s, c)
  {
    if w == [] {
      assert s + w == s;
    } else {
      var n := |s + w|;
      assert (s + w)[n - 1] == c;
      assert (s + w)[..n - 1] == s + w[..|w| - 1];
      RStripSkips(s, w[..|w| - 1], c);
    }
  }

  /** Whitespace around the text does not change what `Strip` gives. */
  lemma StripPadding(ws: string, s: string, ws2: string)
    requires forall i :: 0 <= i < |ws| ==> IsSpace(ws[i])
    requires forall i :: 0 <= i < |ws2| ==> IsSpace(ws2[i])
    ensures Strip(ws + s + ws2) == Strip(s)
  {
    assert ws + s + ws2 == ws + (s + ws2);
    TrimStartSkips(ws, s + ws2, IsSpace);
    var t := TrimStart(s, IsSpace);
    if t != [] {
      TrimStartKeepsTail(s, ws2, IsSpace);
      TrimEndSkips(t, ws2, IsSpace);
    } else {
      assert forall i :: 0 <= i < |s + ws2| ==> IsSpace((s + ws2)[i]) by {
        forall i | 0 <= i < |s + ws2|
          ensures IsSpace((s + ws2)[i])
        {
          if i < |s| {
            assert (s + ws2)[i] == s[i];
          } else {
            assert (s + ws2)[i] == ws2[i - |s|];
          }
        }
      }
      TrimStartSkips(s + ws2, [], IsSpace);
      assert s + ws2 + [] == s + ws2;
    }
  }

  /** Text whose last character `p` does not hold for is left alone by `TrimEnd`. */
  lemma TrimEndKeeps(x: string, p: char -> bool)
    requires x != [] && !p(x[|x| - 1])
    ensures TrimEnd(x, p) == x
  {
  }

  /** Text ending in '/' is left alone by the trailing whitespace trim. */
  lemma EndsInSlash(x: string)
    requires x != [] && x[|x| - 1] == '/'
    ensures TrimEnd(x, IsSpace) == x
  {
    assert !IsSpace('/');
  }

  /** Text ending in a character that is not whitespace keeps that character
      through the leading trim. */
  lemma TrimStartKeepsLast(s: string)
    requires s != [] && !IsSpace(s[|s| - 1])
    ensures var t := TrimStart(s, IsSpace); t != [] && t[|t| - 1] == s[|s| - 1]
  {
    var t := TrimStart(s, IsSpace);
    assert !IsSpace(s[|s| - 1]);
    assert |t| >= 1;
    assert t[|t| - 1] == s[|s| - 1];
  }

  /** A closing newline does not change what `Strip` gives. */
  lemma StripNewline(s: string)
    ensures Strip(s + "\n") == Strip(s)
  {
    assert IsSpace("\n"[0]);
    StripPadding("", s, "\n");
    assert "" + s == s;
  }

  /** Trailing '/'s after text that does not end in whitespace are kept by
      `Strip`. */
  lemma StripKeepsSlashes(s: string, slashes: string)
    requires s != [] && !IsSpace(s[|s| - 1])
    requires forall i :: 0 <= i < |slashes| ==> slashes[i] == '/'
    ensures Strip(s) != []
    ensures Strip(s + slashes) == Strip(s) + slashes
  {
    var t := TrimStart(s, IsSpace);
    TrimStartKeepsLast(s);
    TrimEndKeeps(t, IsSpace);
    TrimStartKeepsTail(s, slashes, IsSpace);
    if slashes != [] {
      EndsInSlash(t + slashes);
    } else {
      assert t + slashes == t;
    }
  }

  /** Text that cannot start an occurrence of `pat` (it lacks `pat`'s first
      character) passes through `RemoveAll` unchanged. */
  lemma {:induction false} RemoveAllSkips(a: string, b: string, pat: string)
    requires pat != [] && pat[0] !in a
    ensures RemoveAll(a + b, pat) == a + RemoveAll(b, pat)
  {
    if a == [] {
      assert a + b == b;
    } else {
      assert a[0] in a;
      assert (a + b)[1..] == a[1..] + b;
      if |a + b| < |pat| {
        RemoveAllShort(b, pat);
        assert RemoveAll(a + b, pat) == a + b;
      } else {
        assert (a + b)[..|pat|][0] == a[0];
        RemoveAllSkips(a[1..], b, pat);
        assert a == [a[0]] + a[1..];
      }
    }
  }

  /** An occurrence of `pat` at the front is deleted. */
  lemma RemoveAllDrops(pat: string, s: string)
    requires pat != []
    ensures RemoveAll(pat + s, pat) == RemoveAll(s, pat)
  {
    assert (pat + s)[..|pat|] == pat;
    assert (pat + s)[|pat|..] == s;
  }

  /** An occurrence of `pat` at the front of `a + [c] + b` lies wholly in `a`
      when `pat` does not contain `c`. */
  lemma MatchBeforeSeparator(a: string, c: char, b: string, pat: string)
    requires c !in pat
    requires |a + [c] + b| >= |pat| && (a + [c] + b)[..|pat|] == pat
    ensures |a| >= |pat| && a[..|pat|] == pat
  {
    var s := a + [c] + b;
    assert forall i :: 0 <= i < |pat| ==> s[i] == pat[i] != c;
    assert s[|a|] == c;
    assert forall i :: 0 <= i < |pat| ==> a[i] == s[i];
  }

  /** A separator that `pat` does not contain cuts `RemoveAll` in two: no
      occurrence of `pat` can straddle it. */
  lemma {:induction false} RemoveAllAround(a: string, c: char, b: string, pat: string)
    requires pat != [] && c !in pat
    ensures RemoveAll(a + [c] + b, pat) == RemoveAll(a, pat) + [c] + RemoveAll(b, pat)
    decreases |a|
  {
    if a == [] {
      AroundEmpty(c, b, pat);
    } else if |a + [c] + b| >= |pat| && (a + [c] + b)[..|pat|] == pat {
      MatchBeforeSeparator(a, c, b, pat);
      RemoveAllAround(a[|pat|..], c, b, pat);
      AroundMatch(a, c, b, pat);
    } else {
      RemoveAllAround(a[1..], c, b, pat);
      AroundKeep(a, c, b, pat);
    }
  }

  /** The step of `RemoveAllAround` where `a` starts with an occurrence of `pat`. */
  lemma AroundMatch(a: string, c: char, b: string, pat: string)
    requires pat != [] && |a| >= |pat| && a[..|pat|] == pat
    requires RemoveAll(a[|pat|..] + [c] + b, pat) == RemoveAll(a[|pat|..], pat) + [c] + RemoveAll(b, pat)
    ensures RemoveAll(a + [c] + b, pat) == RemoveAll(a, pat) + [c] + RemoveAll(b, pat)
  {
    SplitAt(a, c, b, |pat|);
    DropStep(a + [c] + b, a[|pat|..] + [c] + b, pat);
    DropStep(a, a[|pat|..], pat);
  }

  /** The step of `RemoveAllAround` where the first character is kept. */
  lemma AroundKeep(a: string, c: char, b: string, pat: string)
    requires pat != [] && a != []
    requires |a + [c] + b| < |pat| || (a + [c] + b)[..|pat|] != pat
    requires RemoveAll(a[1..] + [c] + b, pat) == RemoveAll(a[1..], pat) + [c] + RemoveAll(b, pat)
    ensures RemoveAll(a + [c] + b, pat) == RemoveAll(a, pat) + [c] + RemoveAll(b, pat)
  {
    SplitAt(a, c, b, 1);
    assert (a + [c] + b)[0] == a[0];
    HeadStep(a + [c] + b, a[0], a[1..] + [c] + b, pat);
    NoMatchInPrefix(a, c, b, pat);
    HeadStep(a, a[0], a[1..], pat);
    Regroup(a[0], RemoveAll(a[1..], pat), c, RemoveAll(b, pat));
  }

  /** The base case of `RemoveAllAround`: a separator that `pat` does not contain
      is kept at the front. */
  lemma AroundEmpty(c: char, b: string, pat: string)
    requires pat != [] && c !in pat
    ensures RemoveAll([] + [c] + b, pat) == RemoveAll([], pat) + [c] + RemoveAll(b, pat)
  {
    var s := [] + [c] + b;
    assert s[0] == c && s[1..] == b;
    if |s| >= |pat| {
      assert s[..|pat|][0] == c;
      assert pat[0] in pat;
    }
    HeadStep(s, c, b, pat);
    RemoveAllShort([], pat);
  }

  /** One step of `RemoveAll` that keeps the first character `x` of `s` and goes
      on with the rest `t`. */
  lemma HeadStep(s: string, x: char, t: string, pat: string)
    requires pat != [] && s != [] && s[0] == x && s[1..] == t
    requires |s| < |pat| || s[..|pat|] != pat
    ensures RemoveAll(s, pat) == [x] + RemoveAll(t, pat)
  {
    if |s| < |pat| {
      RemoveAllShort(t, pat);
      assert [s[0]] + s[1..] == s;
    }
  }

  /** One step of `RemoveAll` that deletes an occurrence at the front of `s` and
      goes on with the rest `t`. */
  lemma DropStep(s: string, t: string, pat: string)
    requires pat != [] && |s| >= |pat| && s[..|pat|] == pat && s[|pat|..] == t
    ensures RemoveAll(s, pat) == RemoveAll(t, pat)
  {
  }

  /** Cutting `a + [c] + b` inside `a`. */
  lemma SplitAt(a: string, c: char, b: string, n: nat)
    requires n <= |a|
    ensures (a + [c] + b)[n..] == a[n..] + [c] + b
    ensures (a + [c] + b)[..n] == a[..n]
  {
  }

  /** Concatenation regrouped around one element. */
  lemma Regroup<T>(x: T, p: seq<T>, c: T, q: seq<T>)
    ensures [x] + (p + [c] + q) == ([x] + p) + [c] + q
  {
  }

  /** Without an occurrence of `pat` at the front of `a + [c] + b`, there is
      none at the front of `a` either. */
  lemma NoMatchInPrefix(a: string, c: char, b: string, pat: string)
    requires |a + [c] + b| < |pat| || (a + [c] + b)[..|pat|] != pat
    ensures |a| < |pat| || a[..|pat|] != pat
  {
    if |a| >= |pat| {
      SplitAt(a, c, b, |pat|);
    }
  }

  /** Text shorter than the pattern holds no occurrence of it. */
  lemma RemoveAllShort(s: string, pat: string)
    requires pat != [] && |s| < |pat|
    ensures RemoveAll(s, pat) == s
  {
  }

  /** The last piece of a split at `c` is whatever follows the last `c`. */
  lemma LastPieceAfter(a: string, b: string, c: char)
    requires c !in b
    ensures var r := Split(a + [c] + b, c); r[|r| - 1] == b
  {
    var s := a + [c] + b;
    var r := Split(s, c);
    var last := r[|r| - 1];
    LastPiece(s, c);
    assert forall j :: |s| - |b| <= j < |s| ==> s[j] == b[j - (|s| - |b|)];
    assert forall j :: |s| - |last| <= j < |s| ==> s[j] == last[j - (|s| - |last|)];
    assert s[|a|] == c;
    assert |last| == |b|;
    assert s[|s| - |b|..] == b;
  }
}
