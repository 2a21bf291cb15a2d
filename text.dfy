/** The JavaScript string operations the core relies on: `includes`,
    `startsWith`, `indexOf`, `split(sep)[k]`, `trim` and `toUpperCase`. */
module Text {
  import opened Types

  /** `pat` occurs in `s` at index `i`. */
  predicate OccursAt(s: string, pat: string, i: nat)
  {
    i + |pat| <= |s| && s[i..i + |pat|] == pat
  }

  /** `s.includes(pat)` */
  predicate Contains(s: string, pat: string)
  {
    exists i: nat | i <= |s| :: OccursAt(s, pat, i)
  }

  /** `s.startsWith(pre)` */
  predicate StartsWith(s: string, pre: string)
  {
    |pre| <= |s| && s[..|pre|] == pre
  }

  /** `s.indexOf(pat)`, with `None` for -1. */
  function IndexOf(s: string, pat: string): (r: Option<nat>)
    ensures r.Some? ==> OccursAt(s, pat, r.value) && forall k: nat :: k < r.value ==> !OccursAt(s, pat, k)
    ensures r.None? <==> !Contains(s, pat)
    decreases |s|
  {
    if |s| < |pat| then
      assert forall k: nat :: k <= |s| ==> !OccursAt(s, pat, k);
      None
    else if s[..|pat|] == pat then Some(0)
    else
      match IndexOf(s[1..], pat)
      case None =>
        forall k: nat | 1 <= k <= |s| ensures !OccursAt(s, pat, k) {
          OccursInTail(s, pat, k);
        }
        None
      case Some(j) =>
        OccursInTail(s, pat, j + 1);
        forall k: nat | 1 <= k < j + 1 ensures !OccursAt(s, pat, k) {
          OccursInTail(s, pat, k);
        }
        Some(j + 1)
  }

  /** An occurrence past the first character is an occurrence in the tail. */
  lemma OccursInTail(s: string, pat: string, k: nat)
    requires 1 <= k && s != []
    ensures OccursAt(s, pat, k) <==> OccursAt(s[1..], pat, k - 1)
  {
    if k + |pat| <= |s| {
      var a, b := s[k..k + |pat|], s[1..][k - 1..k - 1 + |pat|];
      assert |a| == |b| && forall m :: 0 <= m < |a| ==> a[m] == s[k + m] == b[m];
      assert a == b;
    }
  }

  /** `s.split(pat)[0]`: the text before the first `pat`, or all of `s`. */
  function Before(s: string, pat: string): (r: string)
    requires pat != []
    ensures !Contains(s, pat) ==> r == s
    ensures Contains(s, pat) ==> OccursAt(s, pat, |r|) && !Contains(r, pat)
    ensures StartsWith(s, r)
  {
    match IndexOf(s, pat)
    case None => s
    case Some(i) =>
      assert forall k: nat :: k <= i && OccursAt(s[..i], pat, k) ==> OccursAt(s, pat, k) by {
        forall k: nat | k <= i && OccursAt(s[..i], pat, k) ensures OccursAt(s, pat, k) {
          var a, b := s[..i][k..k + |pat|], s[k..k + |pat|];
          assert |a| == |b| && forall m :: 0 <= m < |a| ==> a[m] == s[k + m] == b[m];
          assert a == b;
        }
      }
      s[..i]
  }

  /** The text after the first `pat`; `s.split(pat)[1]` is `Before(After(s, pat), pat)`. */
  function After(s: string, pat: string): (r: string)
    requires pat != [] && Contains(s, pat)
    ensures s == Before(s, pat) + pat + r
  {
    var i := IndexOf(s, pat).value;
    assert s == s[..i] + pat + s[i + |pat|..];
    s[i + |pat|..]
  }

  /** A one-character text occurs exactly when that character does. */
  lemma ContainsChar(s: string, c: char)
    ensures Contains(s, [c]) <==> c in s
  {
    if c in s {
      var i :| 0 <= i < |s| && s[i] == c;
      assert OccursAt(s, [c], i) by { assert s[i..i + 1] == [c]; }
    }
    if Contains(s, [c]) {
      var i: nat :| i <= |s| && OccursAt(s, [c], i);
      assert s[i] == s[i..i + 1][0];
    }
  }

  /** An occurrence with none before it is the first one. */
  lemma FirstOccurrence(s: string, pat: string, i: nat)
    requires pat != [] && OccursAt(s, pat, i)
    requires forall k: nat :: k < i ==> !OccursAt(s, pat, k)
    ensures IndexOf(s, pat) == Some(i)
    ensures Before(s, pat) == s[..i]
  {
    assert Contains(s, pat);
  }

  /** The last segment after a separator followed by separator-free text is that text. */
  lemma {:induction false} LastSegmentAfter(pre: string, sep: char, x: string)
    requires sep !in x
    ensures LastSegment(pre + [sep] + x, sep) == x
    decreases |x|
  {
    var s := pre + [sep] + x;
    if x == [] {
    } else {
      var init := x[..|x| - 1];
      assert s[..|s| - 1] == pre + [sep] + init;
      assert s[|s| - 1] == x[|x| - 1];
      LastSegmentAfter(pre, sep, init);
      assert init + [x[|x| - 1]] == x;
    }
  }

  /** `s.split(sep).pop()`: the text after the last `sep`, or all of `s`. */
  function LastSegment(s: string, sep: char): (r: string)
    ensures sep !in r
    ensures |r| <= |s| && s[|s| - |r|..] == r
    ensures |r| < |s| ==> s[|s| - |r| - 1] == sep
    decreases |s|
  {
    if s == [] || s[|s| - 1] == sep then []
    else
      var init := s[..|s| - 1];
      var t := LastSegment(init, sep);
      var r := t + [s[|s| - 1]];
      assert s[|s| - |r|..] == init[|init| - |t|..] + [s[|s| - 1]];
      assert |r| < |s| ==> s[|s| - |r| - 1] == init[|init| - |t| - 1];
      r
  }

  /** The characters `String.prototype.trim` strips that this model knows:
      space, tab, line feed, vertical tab, form feed, carriage return,
      no-break space and the byte-order mark. */
  predicate IsSpace(c: char)
  {
    c == ' ' || c == '\t' || c == '\n' || c == '\U{000B}' || c == '\U{000C}' || c == '\r'
    || c == '\U{00A0}' || c == '\U{FEFF}'
  }

  function TrimStart(s: string): (r: string)
    ensures |r| <= |s| && r == s[|s| - |r|..]
    ensures forall k :: 0 <= k < |s| - |r| ==> IsSpace(s[k])
    ensures r != [] ==> !IsSpace(r[0])
    decreases |s|
  {
    if s != [] && IsSpace(s[0]) then TrimStart(s[1..]) else s
  }

  function TrimEnd(s: string): (r: string)
    ensures |r| <= |s| && r == s[..|r|]
    ensures forall k :: |r| <= k < |s| ==> IsSpace(s[k])
    ensures r != [] ==> !IsSpace(r[|r| - 1])
    decreases |s|
  {
    if s != [] && IsSpace(s[|s| - 1]) then TrimEnd(s[..|s| - 1]) else s
  }

  /** `s.trim()`: the slice of `s` left after stripping white space at both ends. */
  function Trim(s: string): (r: string)
    ensures exists lo, hi :: 0 <= lo <= hi <= |s| && r == s[lo..hi]
              && (forall k :: 0 <= k < lo ==> IsSpace(s[k]))
              && (forall k :: hi <= k < |s| ==> IsSpace(s[k]))
    ensures r != [] ==> !IsSpace(r[0]) && !IsSpace(r[|r| - 1])
    ensures r == [] <==> forall k :: 0 <= k < |s| ==> IsSpace(s[k])
  {
    var a := TrimStart(s);
    var r := TrimEnd(a);
    var lo := |s| - |a|;
    assert r == s[lo..lo + |r|];
    assert r == [] ==> forall k :: 0 <= k < |s| ==> IsSpace(s[k]) by {
      if r == [] {
        assert |a| == 0;
      }
    }
    r
  }

  function UpperChar(c: char): char
  {
    if 'a' <= c <= 'z' then (c as int - 32) as char else c
  }

  /** `s.toUpperCase()` on ASCII letters. */
  function ToUpper(s: string): (r: string)
    ensures |r| == |s|
    ensures forall k :: 0 <= k < |s| ==> r[k] == UpperChar(s[k])
  {
    seq(|s|, k requires 0 <= k < |s| => UpperChar(s[k]))
  }
}
