/** String operations the bot relies on, restricted to ASCII.
    Python's `str.lower`, `str.upper`, `str.strip` and the regex class `\w`
    are Unicode-aware; here they act on ASCII characters only and leave
    every other character unchanged. */
module Text {

  predicate IsAsciiLetter(c: char) { 'a' <= c <= 'z' || 'A' <= c <= 'Z' }

  predicate IsDigit(c: char) { '0' <= c <= '9' }

  /** The regex class `\w`, restricted to ASCII. */
  predicate IsWordChar(c: char) { IsAsciiLetter(c) || IsDigit(c) || c == '_' }

  /** The whitespace `str.strip()` removes, restricted to ASCII: space, tab,
      line feed, vertical tab, form feed, carriage return and the four
      information separators 0x1C-0x1F. */
  predicate IsSpace(c: char) {
    c == ' ' || c == '\t' || c == '\n' || c == '\r' || c == '\U{B}' || c == '\U{C}'
    || ('\U{1C}' <= c <= '\U{1F}')
  }

  function LowerChar(c: char): char {
    if 'A' <= c <= 'Z' then (c as int - 'A' as int + 'a' as int) as char else c
  }

  function UpperChar(c: char): char {
    if 'a' <= c <= 'z' then (c as int - 'a' as int + 'A' as int) as char else c
  }

  /** `s.lower()` */
  function Lower(s: string): (r: string)
    ensures |r| == |s|
    ensures forall i :: 0 <= i < |s| ==> r[i] == LowerChar(s[i])
  {
    seq(|s|, i requires 0 <= i < |s| => LowerChar(s[i]))
  }

  /** `s.upper()` */
  function Upper(s: string): (r: string)
    ensures |r| == |s|
    ensures forall i :: 0 <= i < |s| ==> r[i] == UpperChar(s[i])
  {
    seq(|s|, i requires 0 <= i < |s| => UpperChar(s[i]))
  }

  /** Lowering a character keeps it a word character exactly when it was one,
      and never turns anything into '@' or out of it. */
  lemma LowerCharClass(c: char)
    ensures IsWordChar(LowerChar(c)) <==> IsWordChar(c)
    ensures LowerChar(c) == '@' <==> c == '@'
  {
  }

  predicate IsPrefix(p: string, s: string) {
    |p| <= |s| && s[..|p|] == p
  }

  /** Python's `p in s`: `p` occurs as a contiguous substring of `s`
      (the empty string occurs in every string). */
  predicate Contains(s: string, p: string)
    decreases |s|
  {
    IsPrefix(p, s) || (|s| > 0 && Contains(s[1..], p))
  }

  ghost predicate OccursAt(s: string, p: string, i: int) {
    0 <= i && i + |p| <= |s| && s[i..i + |p|] == p
  }

  /** The scanning definition of `Contains` agrees with "occurs at some position". */
  lemma {:induction false} ContainsIff(s: string, p: string)
    ensures Contains(s, p) <==> exists i :: OccursAt(s, p, i)
    decreases |s|
  {
    if IsPrefix(p, s) {
      assert OccursAt(s, p, 0);
    } else if |s| == 0 {
      assert forall i :: !OccursAt(s, p, i);
    } else {
      ContainsIff(s[1..], p);
      if Contains(s[1..], p) {
        var i :| OccursAt(s[1..], p, i);
        assert s[1..][i..i + |p|] == s[i + 1..i + 1 + |p|];
        assert OccursAt(s, p, i + 1);
      } else {
        forall i | 0 < i && OccursAt(s, p, i) ensures OccursAt(s[1..], p, i - 1) {
          var u, v := s[1..][i - 1..i - 1 + |p|], s[i..i + |p|];
          forall k | 0 <= k < |u| ensures u[k] == v[k] {
            assert u[k] == s[i + k];
          }
          assert u == v;
        }
        assert !OccursAt(s, p, 0);
      }
    }
  }

  /** A string without the first character of `p` does not contain `p`. */
  lemma {:induction false} NotContainsFirstChar(s: string, p: string)
    requires p != [] && p[0] !in s
    ensures !Contains(s, p)
    decreases |s|
  {
    if |s| > 0 {
      assert s[0] != p[0];
      assert forall c :: c in s[1..] ==> c in s;
      NotContainsFirstChar(s[1..], p);
    }
  }

  /** A witness position is enough to establish `Contains`. */
  lemma ContainsAt(s: string, p: string, i: int)
    requires OccursAt(s, p, i)
    ensures Contains(s, p)
  {
    ContainsIff(s, p);
  }

  /** Anything that occurs in a part of a string occurs in the whole. */
  lemma ContainsInConcat(a: string, b: string, c: string, p: string)
    requires Contains(b, p)
    ensures Contains(a + b + c, p)
  {
    ContainsIff(b, p);
    var i :| OccursAt(b, p, i);
    assert (a + b + c)[|a| + i..|a| + i + |p|] == b[i..i + |p|];
    ContainsAt(a + b + c, p, |a| + i);
  }

  /** `s.lstrip(c)` for a single character `c`: every leading `c` is removed. */
  function LStrip(s: string, c: char): (r: string)
    ensures |r| <= |s| && r == s[|s| - |r|..]
    ensures r == [] || r[0] != c
    ensures forall k :: 0 <= k < |s| - |r| ==> s[k] == c
  {
    if |s| > 0 && s[0] == c then LStrip(s[1..], c) else s
  }

  function TrimStart(s: string): (r: string)
    ensures |r| <= |s| && r == s[|s| - |r|..]
    ensures r == [] || !IsSpace(r[0])
    ensures forall k :: 0 <= k < |s| - |r| ==> IsSpace(s[k])
  {
    if |s| > 0 && IsSpace(s[0]) then TrimStart(s[1..]) else s
  }

  function TrimEnd(s: string): (r: string)
    ensures |r| <= |s| && r == s[..|r|]
    ensures r == [] || !IsSpace(r[|r| - 1])
    ensures forall k :: |r| <= k < |s| ==> IsSpace(s[k])
  {
    if |s| > 0 && IsSpace(s[|s| - 1]) then TrimEnd(s[..|s| - 1]) else s
  }

  /** `r` is the slice of `s` starting at `i`, and everything of `s` outside
      that slice is whitespace. */
  ghost predicate TrimmedSlice(s: string, r: string, i: int) {
    0 <= i <= |s| - |r| && r == s[i..i + |r|]
    && (forall k :: 0 <= k < i ==> IsSpace(s[k]))
    && (forall k :: i + |r| <= k < |s| ==> IsSpace(s[k]))
  }

  /** `s.strip()`: the slice of `s` that neither starts nor ends with
      whitespace, obtained by removing only whitespace from both ends. */
  function Strip(s: string): (r: string)
    ensures r == [] || (!IsSpace(r[0]) && !IsSpace(r[|r| - 1]))
    ensures exists i :: TrimmedSlice(s, r, i)
  {
    var t := TrimStart(s);
    var r := TrimEnd(t);
    var i := |s| - |t|;
    assert r == s[i..i + |r|];
    assert TrimmedSlice(s, r, i);
    r
  }

  /** Python's `s.replace(old, new)`: every non-overlapping occurrence of
      `pat`, scanning left to right, is replaced by `rep`. */
  function Replace(s: string, pat: string, rep: string): string
    requires pat != []
    decreases |s|
  {
    if |s| < |pat| then s
    else if s[..|pat|] == pat then rep + Replace(s[|pat|..], pat, rep)
    else [s[0]] + Replace(s[1..], pat, rep)
  }

  /** A string that does not contain `pat` is returned unchanged. */
  lemma {:induction false} ReplaceAbsent(s: string, pat: string, rep: string)
    requires pat != []
    requires !Contains(s, pat)
    ensures Replace(s, pat, rep) == s
    decreases |s|
  {
    if |s| >= |pat| {
      assert s[..|pat|] != pat;
      ReplaceAbsent(s[1..], pat, rep);
    }
  }

  /** In `x + pat + y` where no occurrence of `pat` starts inside `x`, the
      shown `pat` is the first occurrence: it is replaced by `rep`, the text
      before it is kept verbatim and the scan resumes after it. */
  lemma {:induction false} ReplaceFirst(x: string, pat: string, y: string, rep: string)
    requires pat != []
    requires forall k :: 0 <= k < |x| ==> !OccursAt(x + pat + y, pat, k)
    ensures Replace(x + pat + y, pat, rep) == x + rep + Replace(y, pat, rep)
    decreases |x|
  {
    var s := x + pat + y;
    if x == [] {
      assert s == pat + y;
      assert s[..|pat|] == pat;
      assert s[|pat|..] == y;
    } else {
      assert !OccursAt(s, pat, 0);
      assert s[..|pat|] != pat;
      assert Replace(s, pat, rep) == [s[0]] + Replace(s[1..], pat, rep);
      var t := x[1..] + pat + y;
      assert s[1..] == t;
      forall k | 0 <= k < |x[1..]| ensures !OccursAt(t, pat, k) {
        assert !OccursAt(s, pat, k + 1);
        assert t[k..k + |pat|] == s[k + 1..k + 1 + |pat|];
      }
      ReplaceFirst(x[1..], pat, y, rep);
      assert [x[0]] + (x[1..] + rep + Replace(y, pat, rep)) == x + rep + Replace(y, pat, rep);
    }
  }

  /** A prefix without the first character of `pat` starts no occurrence. */
  lemma NoOccurrenceBeforeFirstChar(x: string, pat: string, y: string)
    requires pat != [] && pat[0] !in x
    ensures forall k :: 0 <= k < |x| ==> !OccursAt(x + pat + y, pat, k)
  {
    forall k | 0 <= k < |x| ensures !OccursAt(x + pat + y, pat, k) {
      assert (x + pat + y)[k] == x[k];
    }
  }

  /** Whatever occurs in the text before the first occurrence of `pat` still
      occurs after the replacement. */
  lemma ReplaceKeepsPrefixText(x: string, pat: string, y: string, rep: string, q: string)
    requires pat != []
    requires forall k :: 0 <= k < |x| ==> !OccursAt(x + pat + y, pat, k)
    requires Contains(x, q)
    ensures Contains(Replace(x + pat + y, pat, rep), q)
  {
    ReplaceFirst(x, pat, y, rep);
    var rest := rep + Replace(y, pat, rep);
    assert x + rep + Replace(y, pat, rep) == [] + x + rest;
    ContainsInConcat([], x, rest, q);
  }
}
