/** Text primitives of the matching engine: JavaScript's `includes`/`indexOf`,
    `toLowerCase`/`toUpperCase` (ASCII letters only), `split` on a character
    class, `trim` and `join`, all over `string` = `seq<char>`. */
module Strings {

  /** JavaScript's `\s` class, which `trim` also strips: WhiteSpace and LineTerminator. */
  predicate IsSpace(c: char) {
    c == ' ' || c == '\t' || c == '\n' || c == '\r' || c == '\U{000B}' || c == '\U{000C}'
    || c == '\U{00A0}' || c == '\U{1680}' || ('\U{2000}' <= c <= '\U{200A}')
    || c == '\U{2028}' || c == '\U{2029}' || c == '\U{202F}' || c == '\U{205F}'
    || c == '\U{3000}' || c == '\U{FEFF}'
  }

  /** The sentence terminators of the class `[.!?]`. */
  predicate IsTerminator(c: char) {
    c == '.' || c == '!' || c == '?'
  }

  function Lower(c: char): char {
    if 'A' <= c <= 'Z' then (c as int + 32) as char else c
  }

  function Upper(c: char): char {
    if 'a' <= c <= 'z' then (c as int - 32) as char else c
  }

  function ToLower(s: string): string {
    seq(|s|, i requires 0 <= i < |s| => Lower(s[i]))
  }

  /** `s` is already in lower case: `toLowerCase` leaves it unchanged. */
  predicate IsLower(s: string) {
    forall i :: 0 <= i < |s| ==> Lower(s[i]) == s[i]
  }

  lemma ToLowerIsLower(s: string)
    ensures IsLower(ToLower(s))
  {
  }

  lemma LowerFixed(s: string)
    requires IsLower(s)
    ensures ToLower(s) == s
  {
  }

  /** `s.charAt(0).toUpperCase() + s.slice(1)`. Lower-casing undoes it. */
  function Capitalize(s: string): (r: string)
    ensures |r| == |s|
    ensures |s| > 0 ==> r[0] == Upper(s[0]) && r[1..] == s[1..]
    ensures ToLower(r) == ToLower(s)
  {
    if s == [] then [] else [Upper(s[0])] + s[1..]
  }

  /** `pat` occurs in `text` starting at index `i`. */
  predicate OccursAt(text: string, pat: string, i: int) {
    0 <= i && i + |pat| <= |text| && text[i..i + |pat|] == pat
  }

  /** `text.indexOf(pat, from)`: the first occurrence at or after `from`, or -1. */
  function IndexFrom(text: string, pat: string, from: nat): (r: int)
    ensures r == -1 || (from <= r && OccursAt(text, pat, r))
    ensures r == -1 ==> forall i :: from <= i ==> !OccursAt(text, pat, i)
    ensures r != -1 ==> forall i :: from <= i < r ==> !OccursAt(text, pat, i)
    decreases |text| - from
  {
    if from + |pat| > |text| then -1
    else if text[from..from + |pat|] == pat then from
    else IndexFrom(text, pat, from + 1)
  }

  /** `text.indexOf(pat)`. */
  function IndexOf(text: string, pat: string): (r: int)
    ensures r == -1 <==> forall i :: !OccursAt(text, pat, i)
    ensures r != -1 ==> OccursAt(text, pat, r) && forall i :: 0 <= i < r ==> !OccursAt(text, pat, i)
  {
    IndexFrom(text, pat, 0)
  }

  /** `pat` is a substring of `text`. */
  ghost predicate Substring(pat: string, text: string) {
    exists i :: OccursAt(text, pat, i)
  }

  /** `text.includes(pat)`. */
  function Includes(text: string, pat: string): (b: bool)
    ensures b == Substring(pat, text)
  {
    IndexOf(text, pat) != -1
  }

  lemma IncludesSelf(s: string)
    ensures Includes(s, s)
  {
    assert OccursAt(s, s, 0);
  }

  lemma IncludesMiddle(a: string, b: string, c: string)
    ensures Includes(a + b + c, b)
  {
    assert (a + b + c)[|a|..|a| + |b|] == b;
    assert OccursAt(a + b + c, b, |a|);
  }

  /** An occurrence inside the slice `t[lo..hi]` is an occurrence in `t`. */
  lemma OccursInSlice(t: string, lo: int, hi: int, pat: string, k: int)
    requires 0 <= lo <= hi <= |t|
    requires OccursAt(t[lo..hi], pat, k)
    ensures OccursAt(t, pat, lo + k)
  {
    var u := t[lo..hi];
    assert u[k..k + |pat|] == pat;
    forall m | 0 <= m < |pat| ensures t[lo + k + m] == pat[m] {
      assert u[k + m] == t[lo + k + m];
    }
    assert t[lo + k..lo + k + |pat|] == pat;
  }

  /** Being a substring is transitive. */
  lemma IncludesTrans(c: string, b: string, a: string)
    requires Includes(c, b) && Includes(b, a)
    ensures Includes(c, a)
  {
    var j :| OccursAt(c, b, j);
    var i :| OccursAt(b, a, i);
    OccursInSlice(c, j, j + |b|, a, i);
  }

  lemma SliceIncluded(t: string, lo: int, hi: int)
    requires 0 <= lo <= hi <= |t|
    ensures Includes(t, t[lo..hi])
  {
    assert OccursAt(t, t[lo..hi], lo);
  }

  /** No character of `s` satisfies `p`. */
  predicate NoneSatisfy(s: string, p: char -> bool) {
    forall i :: 0 <= i < |s| ==> !p(s[i])
  }

  lemma NoneSatisfySubstring(s: string, t: string, p: char -> bool)
    requires NoneSatisfy(s, p) && Includes(s, t)
    ensures NoneSatisfy(t, p)
  {
    var j :| OccursAt(s, t, j);
    forall i | 0 <= i < |t| ensures !p(t[i]) {
      assert t[i] == s[j + i];
    }
  }

  lemma LowerSubstring(s: string, t: string)
    requires IsLower(s) && Includes(s, t)
    ensures IsLower(t)
  {
    var j :| OccursAt(s, t, j);
    forall i | 0 <= i < |t| ensures Lower(t[i]) == t[i] {
      assert t[i] == s[j + i];
    }
  }

  /** Index of the first character of `s` at or after `from` that satisfies `p` (|s| if none). */
  function FirstFrom(s: string, from: nat, p: char -> bool): (i: nat)
    requires from <= |s|
    ensures from <= i <= |s|
    ensures forall k :: from <= k < i ==> !p(s[k])
    ensures i < |s| ==> p(s[i])
    decreases |s| - from
  {
    if from == |s| || p(s[from]) then from else FirstFrom(s, from + 1, p)
  }

  /** End of the run of characters satisfying `p` that starts at `from`. */
  function RunEnd(s: string, from: nat, p: char -> bool): (j: nat)
    requires from <= |s|
    ensures from <= j <= |s|
    ensures forall k :: from <= k < j ==> p(s[k])
    ensures j < |s| ==> !p(s[j])
    decreases |s| - from
  {
    if from == |s| || !p(s[from]) then from else RunEnd(s, from + 1, p)
  }

  lemma PrefixIncluded(s: string, i: int)
    requires 0 <= i <= |s|
    ensures Includes(s, s[..i])
  {
    assert OccursAt(s, s[..i], 0);
  }

  lemma SplitTail(s: string, j: int, rest: seq<string>)
    requires 0 <= j <= |s|
    requires forall k :: 0 <= k < |rest| ==> Includes(s[j..], rest[k])
    ensures forall k :: 0 <= k < |rest| ==> Includes(s, rest[k])
  {
    assert OccursAt(s, s[j..], j);
    forall k | 0 <= k < |rest| ensures Includes(s, rest[k]) {
      IncludesTrans(s, s[j..], rest[k]);
    }
  }

  /** `s.split(/[sep]+/)`: the pieces between maximal runs of separators; a
      leading or trailing run yields an empty first or last piece. */
  function Split(s: string, isSep: char -> bool): (pieces: seq<string>)
    ensures |pieces| >= 1
    ensures forall k :: 0 <= k < |pieces| ==> Includes(s, pieces[k]) && NoneSatisfy(pieces[k], isSep)
    ensures NoneSatisfy(s, isSep) ==> pieces == [s]
    decreases |s|
  {
    var i := FirstFrom(s, 0, isSep);
    if i == |s| then
      IncludesSelf(s);
      [s]
    else
      var j := RunEnd(s, i, isSep);
      var rest := Split(s[j..], isSep);
      SplitTail(s, j, rest);
      PrefixIncluded(s, i);
      [s[..i]] + rest
  }

  /** Every character of `s` satisfies `p`. */
  predicate AllSatisfy(s: string, p: char -> bool) {
    forall i :: 0 <= i < |s| ==> p(s[i])
  }

  /** `pieces[0] + gaps[0] + pieces[1] + gaps[1] + ... + pieces[n - 1]`. */
  function Interleave(pieces: seq<string>, gaps: seq<string>): string
    requires |pieces| == |gaps| + 1
  {
    if |pieces| == 1 then pieces[0]
    else pieces[0] + gaps[0] + Interleave(pieces[1..], gaps[1..])
  }

  /** `s` is `pieces` put back together with the non-empty separator runs
      `gaps` between them; only the first and the last piece may be empty. */
  ghost predicate Rebuilds(s: string, isSep: char -> bool, pieces: seq<string>, gaps: seq<string>) {
    && |pieces| == |gaps| + 1
    && Interleave(pieces, gaps) == s
    && (forall k :: 0 <= k < |gaps| ==> gaps[k] != [] && AllSatisfy(gaps[k], isSep))
    && (forall k :: 0 < k < |pieces| - 1 ==> pieces[k] != [])
  }

  /** The pieces of a split, with the separator runs between them, give back
      the whole string; with the pieces being free of separators, this makes
      them exactly the maximal separator-free runs of `s`. */
  lemma {:induction false} SplitRebuilds(s: string, isSep: char -> bool)
    ensures exists gaps :: Rebuilds(s, isSep, Split(s, isSep), gaps)
    decreases |s|
  {
    var i := FirstFrom(s, 0, isSep);
    if i == |s| {
      assert Split(s, isSep) == [s];
      assert Rebuilds(s, isSep, [s], []);
    } else {
      var j := RunEnd(s, i, isSep);
      var rest := Split(s[j..], isSep);
      SplitRebuilds(s[j..], isSep);
      var gaps :| Rebuilds(s[j..], isSep, rest, gaps);
      SplitUnfold(s, isSep);
      RunOfSeparators(s, isSep, i, j);
      if |rest| > 1 {
        SplitHead(s[j..], isSep);
        assert s[j..][0] == s[j];
      }
      RebuildsCons(s, isSep, i, j, rest, gaps);
    }
  }

  /** A leading piece and a separator run in front of a rebuilt rest. */
  lemma RebuildsCons(s: string, isSep: char -> bool, i: nat, j: nat, rest: seq<string>, gaps: seq<string>)
    requires i < j <= |s| && AllSatisfy(s[i..j], isSep)
    requires Rebuilds(s[j..], isSep, rest, gaps) && (|rest| > 1 ==> rest[0] != [])
    ensures Rebuilds(s, isSep, [s[..i]] + rest, [s[i..j]] + gaps)
  {
    var pieces := [s[..i]] + rest;
    var gaps2 := [s[i..j]] + gaps;
    assert pieces[1..] == rest && gaps2[1..] == gaps;
    assert Interleave(pieces, gaps2) == s[..i] + s[i..j] + s[j..];
    ThreeParts(s, i, j);
    forall k | 0 < k < |pieces| - 1 ensures pieces[k] != [] {
      assert pieces[k] == rest[k - 1];
    }
    forall k | 0 < k < |gaps2| ensures gaps2[k] != [] && AllSatisfy(gaps2[k], isSep) {
      assert gaps2[k] == gaps[k - 1];
    }
  }

  lemma RunOfSeparators(s: string, isSep: char -> bool, i: nat, j: nat)
    requires i < |s| && isSep(s[i]) && j == RunEnd(s, i, isSep)
    ensures i < j && AllSatisfy(s[i..j], isSep)
  {
    forall m | 0 <= m < j - i ensures isSep(s[i..j][m]) {
      assert s[i..j][m] == s[i + m];
    }
  }

  lemma SplitUnfold(s: string, isSep: char -> bool)
    requires FirstFrom(s, 0, isSep) < |s|
    ensures var i := FirstFrom(s, 0, isSep);
            Split(s, isSep) == [s[..i]] + Split(s[RunEnd(s, i, isSep)..], isSep)
  {
  }

  lemma SplitHead(t: string, isSep: char -> bool)
    ensures Split(t, isSep)[0] == t[..FirstFrom(t, 0, isSep)]
  {
  }

  lemma ThreeParts(s: string, i: int, j: int)
    requires 0 <= i <= j <= |s|
    ensures s[..i] + s[i..j] + s[j..] == s
  {
  }

  /** `s.trimStart()`: drops the leading white space. */
  function TrimStart(s: string): (r: string)
    ensures |r| <= |s| && r == s[|s| - |r|..]
    ensures forall k :: 0 <= k < |s| - |r| ==> IsSpace(s[k])
    ensures r != [] ==> !IsSpace(r[0])
  {
    if s != [] && IsSpace(s[0]) then TrimStart(s[1..]) else s
  }

  /** `s.trimEnd()`: drops the trailing white space. */
  function TrimEnd(s: string): (r: string)
    ensures |r| <= |s| && r == s[..|r|]
    ensures forall k :: |r| <= k < |s| ==> IsSpace(s[k])
    ensures r != [] ==> !IsSpace(r[|r| - 1])
  {
    if s != [] && IsSpace(s[|s| - 1]) then TrimEnd(s[..|s| - 1]) else s
  }

  /** `r` stands at `i` in `s` with only white space before and after it. */
  predicate StrippedAt(s: string, r: string, i: int) {
    && OccursAt(s, r, i)
    && (forall k :: 0 <= k < i ==> IsSpace(s[k]))
    && (forall k :: i + |r| <= k < |s| ==> IsSpace(s[k]))
  }

  /** `s.trim()`: what is left once the white space at both ends is stripped;
      it neither starts nor ends with white space, so no more could go. */
  function Trim(s: string): (r: string)
    ensures Includes(s, r)
    ensures exists i :: StrippedAt(s, r, i)
    ensures r != [] ==> !IsSpace(r[0]) && !IsSpace(r[|r| - 1])
  {
    var t := TrimStart(s);
    var r := TrimEnd(t);
    StripBoth(s);
    assert OccursAt(s, r, |s| - |t|);
    r
  }

  lemma StripBoth(s: string)
    ensures StrippedAt(s, TrimEnd(TrimStart(s)), |s| - |TrimStart(s)|)
  {
    var t := TrimStart(s);
    StripBothBy(s, t, TrimEnd(t), IsSpace);
  }

  /** `StripBoth` for any class of stripped characters `p`. */
  lemma StripBothBy(s: string, t: string, r: string, p: char -> bool)
    requires |t| <= |s| && t == s[|s| - |t|..] && forall k :: 0 <= k < |s| - |t| ==> p(s[k])
    requires |r| <= |t| && r == t[..|r|] && forall k :: |r| <= k < |t| ==> p(t[k])
    ensures OccursAt(s, r, |s| - |t|)
    ensures forall k :: 0 <= k < |s| - |t| ==> p(s[k])
    ensures forall k :: |s| - |t| + |r| <= k < |s| ==> p(s[k])
  {
    var a := |s| - |t|;
    assert s[a..a + |r|] == s[a..][..|r|];
    forall k | a + |r| <= k < |s| ensures p(s[k]) {
      assert s[k] == t[k - a];
    }
  }

  /** A printable ASCII character other than the space. */
  predicate Visible(c: char) {
    '!' <= c <= '~'
  }

  /** A vocabulary term: non-empty and starting and ending with a visible
      character, so without white space at either end. */
  predicate IsTerm(pat: string) {
    pat != [] && Visible(pat[0]) && Visible(pat[|pat| - 1])
  }

  /** The entries of the engine's vocabularies are terms. */
  type Term = s: string | IsTerm(s) witness "a"

  /** Trimming never cuts into an occurrence of a term. */
  lemma TrimKeepsTerm(s: string, pat: string)
    requires IsTerm(pat) && Includes(s, pat)
    ensures Includes(Trim(s), pat)
  {
    var p :| OccursAt(s, pat, p);
    VisibleNotSpace(pat[0]);
    VisibleNotSpace(pat[|pat| - 1]);
    var t := TrimStart(s);
    var q := p - (|s| - |t|);
    TrimStartKeeps(s, pat, p);
    TrimEndKeeps(t, pat, q);
    assert OccursAt(Trim(s), pat, q);
  }

  lemma VisibleNotSpace(c: char)
    requires Visible(c)
    ensures !IsSpace(c)
  {
  }

  lemma TrimStartKeeps(s: string, pat: string, p: int)
    requires OccursAt(s, pat, p) && pat != [] && !IsSpace(pat[0])
    ensures OccursAt(TrimStart(s), pat, p - (|s| - |TrimStart(s)|))
  {
    StartKeepsBy(s, TrimStart(s), pat, p, IsSpace);
  }

  /** `TrimStartKeeps` for any class of stripped characters `q`: cutting a run
      of `q` characters off the front keeps an occurrence that starts with a
      character outside `q`. */
  lemma StartKeepsBy(s: string, t: string, pat: string, p: int, q: char -> bool)
    requires |t| <= |s| && t == s[|s| - |t|..] && forall k :: 0 <= k < |s| - |t| ==> q(s[k])
    requires OccursAt(s, pat, p) && pat != [] && !q(pat[0])
    ensures OccursAt(t, pat, p - (|s| - |t|))
  {
    var a := |s| - |t|;
    assert s[p] == pat[0];
    assert a <= p;
    forall m | 0 <= m < |pat| ensures t[p - a + m] == pat[m] {
      assert t[p - a + m] == s[p + m];
      assert s[p..p + |pat|][m] == pat[m];
    }
    assert t[p - a..p - a + |pat|] == pat;
  }

  lemma TrimEndKeeps(t: string, pat: string, q: int)
    requires OccursAt(t, pat, q) && pat != [] && !IsSpace(pat[|pat| - 1])
    ensures OccursAt(TrimEnd(t), pat, q)
  {
    var r := TrimEnd(t);
    assert t[q + |pat| - 1] == t[q..q + |pat|][|pat| - 1];
    assert q + |pat| <= |r|;
    forall m | 0 <= m < |pat| ensures r[q + m] == pat[m] {
      assert r[q + m] == t[q + m];
      assert t[q..q + |pat|][m] == pat[m];
    }
    assert r[q..q + |pat|] == pat;
  }

  /** `xs.join(sep)`. */
  function Join(xs: seq<string>, sep: string): string {
    if xs == [] then []
    else if |xs| == 1 then xs[0]
    else xs[0] + sep + Join(xs[1..], sep)
  }

  /** Every joined string occurs in the result. */
  lemma {:induction false} JoinIncludes(xs: seq<string>, sep: string)
    ensures forall k :: 0 <= k < |xs| ==> Includes(Join(xs, sep), xs[k])
  {
    if |xs| == 1 {
      IncludesSelf(xs[0]);
    } else if |xs| > 1 {
      var rest := Join(xs[1..], sep);
      JoinIncludes(xs[1..], sep);
      IncludesMiddle([], xs[0], sep + rest);
      assert [] + xs[0] + (sep + rest) == xs[0] + sep + rest;
      forall k | 1 <= k < |xs| ensures Includes(xs[0] + sep + rest, xs[k]) {
        assert xs[k] == xs[1..][k - 1];
        IncludesMiddle(xs[0] + sep, rest, []);
        assert xs[0] + sep + rest + [] == xs[0] + sep + rest;
        IncludesTrans(xs[0] + sep + rest, rest, xs[k]);
      }
    }
  }
}
