/**
 * The few Python string operations the module relies on: `str.strip()`,
 * `str.split()` (on runs of whitespace), `str.split(sep)` on one character,
 * and `sep.join(parts)`. Strings are sequences of Unicode scalar values.
 */
module PyText {

  /** `c.isspace()` in Python 3: the characters `strip()` and `split()` treat as white space. */
  predicate IsSpace(c: char) {
    || ('\t' <= c <= '\r')
    || ('\U{1C}' <= c <= '\U{1F}')
    || c == ' '
    || c == '\U{85}'
    || c == '\U{A0}'
    || c == '\U{1680}'
    || ('\U{2000}' <= c <= '\U{200A}')
    || c == '\U{2028}'
    || c == '\U{2029}'
    || c == '\U{202F}'
    || c == '\U{205F}'
    || c == '\U{3000}'
  }

  predicate AllSpace(s: string) {
    forall i :: 0 <= i < |s| ==> IsSpace(s[i])
  }

  /** A token of `split()`: non-empty and free of white space. */
  predicate IsWord(w: string) {
    w != [] && forall i :: 0 <= i < |w| ==> !IsSpace(w[i])
  }

  /** The first index at or after `i` that does not hold white space, or `|s|`. */
  function SkipSpace(s: string, i: nat): (k: nat)
    requires i <= |s|
    ensures i <= k <= |s|
    ensures forall m :: i <= m < k ==> IsSpace(s[m])
    ensures k == |s| || !IsSpace(s[k])
    decreases |s| - i
  {
    if i < |s| && IsSpace(s[i]) then SkipSpace(s, i + 1) else i
  }

  /** Scanning back from `j` but not below `lo`: the end of the last character that is not white space, or `lo`. */
  function SkipSpaceBack(s: string, lo: nat, j: nat): (k: nat)
    requires lo <= j <= |s|
    ensures lo <= k <= j
    ensures forall m :: k <= m < j ==> IsSpace(s[m])
    ensures k == lo || !IsSpace(s[k - 1])
    decreases j
  {
    if j > lo && IsSpace(s[j - 1]) then SkipSpaceBack(s, lo, j - 1) else j
  }

  /**
   * `s.strip()`: as in CPython, the start is found scanning forward and the
   * end scanning back. The result has white space at neither end, and
   * `StripIsInfix` places it in `s` between two runs of white space.
   */
  function Strip(s: string): (r: string)
    ensures |r| <= |s|
    ensures r == [] || (!IsSpace(r[0]) && !IsSpace(r[|r| - 1]))
  {
    var i := SkipSpace(s, 0);
    s[i..SkipSpaceBack(s, i, |s|)]
  }

  /**
   * `s.strip()` is the part of `s` between a leading and a trailing run of
   * white space; it starts at the first character that is not white space.
   */
  lemma {:induction false} StripIsInfix(s: string)
    ensures var r, i := Strip(s), SkipSpace(s, 0);
      && i + |r| <= |s|
      && r == s[i..i + |r|]
      && AllSpace(s[..i])
      && AllSpace(s[i + |r|..])
  {
    var i := SkipSpace(s, 0);
    var j := SkipSpaceBack(s, i, |s|);
    StripParts(s, i, j);
    assert i + |Strip(s)| == j;
  }

  /** A string made only of white space strips to nothing. */
  lemma {:induction false} StripAllSpace(s: string)
    requires AllSpace(s)
    ensures Strip(s) == ""
  {
  }

  /** Length of the run of non-space characters that starts `s`. */
  function WordLen(s: string): (k: nat)
    ensures k <= |s|
    ensures forall i :: 0 <= i < k ==> !IsSpace(s[i])
    ensures k == |s| || IsSpace(s[k])
  {
    if s == [] || IsSpace(s[0]) then 0 else 1 + WordLen(s[1..])
  }

  /** `s.split()`: the maximal runs of non-space characters, in order. */
  function Words(s: string): (r: seq<string>)
    ensures forall i :: 0 <= i < |r| ==> IsWord(r[i])
    ensures r == [] <==> AllSpace(s)
    decreases |s|
  {
    if s == [] then []
    else if IsSpace(s[0]) then Words(s[1..])
    else
      var k := WordLen(s);
      [s[..k]] + Words(s[k..])
  }

  /** `sep.join(parts)`: nothing for no parts, and the first part comes first. */
  function Join(sep: string, parts: seq<string>): (r: string)
    ensures parts == [] ==> r == ""
    ensures parts != [] ==> |parts[0]| <= |r| && r[..|parts[0]|] == parts[0]
  {
    if parts == [] then ""
    else if |parts| == 1 then parts[0]
    else parts[0] + sep + Join(sep, parts[1..])
  }

  /** `s.split(sep)` for a one-character separator: the pieces between separators, empty ones kept. */
  function SplitOn(s: string, sep: char): (r: seq<string>)
    ensures |r| >= 1
    ensures forall i :: 0 <= i < |r| ==> sep !in r[i]
  {
    if s == [] then [""]
    else
      var rest := SplitOn(s[1..], sep);
      if s[0] == sep then [""] + rest
      else [[s[0]] + rest[0]] + rest[1..]
  }

  /** `s` with every occurrence of `c` removed. */
  function Without(s: string, c: char): (r: string)
    ensures c !in r
  {
    if s == [] then ""
    else (if s[0] == c then "" else [s[0]]) + Without(s[1..], c)
  }

  /** Joining the pieces of `split(sep)` with `sep` gives back the string. */
  lemma {:induction false} JoinSplitOn(s: string, sep: char)
    ensures Join([sep], SplitOn(s, sep)) == s
  {
    if s != [] {
      var rest := SplitOn(s[1..], sep);
      JoinSplitOn(s[1..], sep);
      if s[0] == sep {
        assert SplitOn(s, sep) == [""] + rest;
      } else {
        var r := SplitOn(s, sep);
        assert r == [[s[0]] + rest[0]] + rest[1..];
        if |rest| == 1 {
          assert Join([sep], rest) == rest[0];
        } else {
          assert Join([sep], rest) == rest[0] + [sep] + Join([sep], rest[1..]);
          assert r[1..] == rest[1..];
        }
      }
    }
  }

  /** Joining the pieces of `split(sep)` with nothing is the string without its separators. */
  lemma {:induction false} ConcatSplitOn(s: string, sep: char)
    ensures Join("", SplitOn(s, sep)) == Without(s, sep)
  {
    if s != [] {
      var rest := SplitOn(s[1..], sep);
      ConcatSplitOn(s[1..], sep);
      if s[0] == sep {
        assert SplitOn(s, sep) == [""] + rest;
      } else {
        var r := SplitOn(s, sep);
        assert r == [[s[0]] + rest[0]] + rest[1..];
        if |rest| == 1 {
          assert Join("", rest) == rest[0];
        } else {
          assert Join("", rest) == rest[0] + "" + Join("", rest[1..]);
          assert r[1..] == rest[1..];
        }
      }
    }
  }

  /** Leading white space does not change `split()`. */
  lemma {:induction false} WordsPrependSpace(u: string, t: string)
    requires AllSpace(u)
    ensures Words(u + t) == Words(t)
  {
    if u == [] {
      assert u + t == t;
    } else {
      assert (u + t)[0] == u[0] && (u + t)[1..] == u[1..] + t;
      WordsPrependSpace(u[1..], t);
    }
  }

  /** A word ends at the end of `t` when only white space follows `t`. */
  lemma {:induction false} WordLenBeforeSpace(t: string, u: string)
    requires u == [] || IsSpace(u[0])
    ensures WordLen(t + u) == WordLen(t)
  {
    if t != [] && !IsSpace(t[0]) {
      assert (t + u)[1..] == t[1..] + u;
      WordLenBeforeSpace(t[1..], u);
    } else if t == [] {
      assert t + u == u;
    }
  }

  /** Trailing white space does not change `split()`. */
  lemma {:induction false} WordsAppendSpace(t: string, u: string)
    requires AllSpace(u)
    ensures Words(t + u) == Words(t)
    decreases |t|
  {
    if t == [] {
      assert t + u == u;
    } else if IsSpace(t[0]) {
      assert (t + u)[1..] == t[1..] + u;
      WordsAppendSpace(t[1..], u);
    } else {
      var k := WordLen(t);
      WordLenBeforeSpace(t, u);
      assert (t + u)[..k] == t[..k];
      assert (t + u)[k..] == t[k..] + u;
      WordsAppendSpace(t[k..], u);
    }
  }

  /** `s.strip().split()` and `s.split()` are the same list. */
  lemma {:induction false} WordsOfStrip(s: string)
    ensures Words(Strip(s)) == Words(s)
  {
    var i := SkipSpace(s, 0);
    var j := SkipSpaceBack(s, i, |s|);
    StripParts(s, i, j);
    WordsBetweenSpace(s[..i], Strip(s), s[j..], s);
  }

  /** `s` is the white space `strip()` drops at the front, the result, and the white space dropped at the back. */
  lemma {:induction false} StripParts(s: string, i: nat, j: nat)
    requires i == SkipSpace(s, 0) && j == SkipSpaceBack(s, i, |s|)
    ensures Strip(s) == s[i..j] && s == s[..i] + (Strip(s) + s[j..])
    ensures AllSpace(s[..i]) && AllSpace(s[j..])
  {
    assert Strip(s) == s[i..j];
    ThreeParts(s, i, j);
    SpaceAround(s, i, j);
  }

  /** A string is its three slices cut at `i` and `j`, put back together. */
  lemma {:induction false} ThreeParts(s: string, i: nat, j: nat)
    requires i <= j <= |s|
    ensures s == s[..i] + (s[i..j] + s[j..])
  {
  }

  /** White space up to `i` and from `j` on, as `AllSpace` of the two slices. */
  lemma {:induction false} SpaceAround(s: string, i: nat, j: nat)
    requires i <= j <= |s|
    requires forall m :: 0 <= m < i ==> IsSpace(s[m])
    requires forall m :: j <= m < |s| ==> IsSpace(s[m])
    ensures AllSpace(s[..i]) && AllSpace(s[j..])
  {
  }

  /** White space around `m` does not change `split()`. */
  lemma {:induction false} WordsBetweenSpace(a: string, m: string, b: string, s: string)
    requires s == a + (m + b) && AllSpace(a) && AllSpace(b)
    ensures Words(s) == Words(m)
  {
    WordsPrependSpace(a, m + b);
    WordsAppendSpace(m, b);
  }

  /** `split()` after a word followed by white space or the end yields that word first. */
  lemma {:induction false} WordsCons(w: string, rest: string)
    requires IsWord(w)
    requires rest == [] || IsSpace(rest[0])
    ensures Words(w + rest) == [w] + Words(rest)
  {
    WordLenBeforeSpace(w, rest);
    assert WordLen(w) == |w| by {
      assert w[..|w|] == w + [];
      WordLenBeforeSpace(w, []);
    }
    assert (w + rest)[..|w|] == w;
    assert (w + rest)[|w|..] == rest;
  }

  /** Round trip: splitting words joined by single spaces gives back the words. */
  lemma {:induction false} WordsOfJoin(ws: seq<string>)
    requires forall i :: 0 <= i < |ws| ==> IsWord(ws[i])
    ensures Words(Join(" ", ws)) == ws
  {
    if |ws| == 1 {
      WordsCons(ws[0], "");
      assert ws[0] + "" == ws[0];
    } else if |ws| > 1 {
      var tail := Join(" ", ws[1..]);
      WordsOfJoin(ws[1..]);
      assert Join(" ", ws) == ws[0] + (" " + tail);
      WordsCons(ws[0], " " + tail);
      assert (" " + tail)[1..] == tail;
    }
  }
}
