/**
 * The JavaScript string operations the handler relies on: `trim()`,
 * `startsWith("/")`, and `join("\n")` over the lines of a list, together
 * with a splitter on line breaks that undoes the join.
 */
module Text {

  /** ECMAScript WhiteSpace and LineTerminator code points, which `trim()` strips. */
  predicate IsJsSpace(c: char) {
    || c == '\t' || c == '\U{000B}' || c == '\U{000C}' || c == ' ' || c == '\U{00A0}' || c == '\U{FEFF}'
    || c == '\U{1680}' || ('\U{2000}' <= c <= '\U{200A}') || c == '\U{202F}' || c == '\U{205F}'
    || c == '\U{3000}'
    || c == '\n' || c == '\r' || c == '\U{2028}' || c == '\U{2029}'
  }

  predicate AllSpace(s: string) {
    forall i | 0 <= i < |s| :: IsJsSpace(s[i])
  }

  /** Every character of s from position lo up to (not including) hi is white space. */
  predicate SpaceIn(s: string, lo: nat, hi: nat)
    requires lo <= hi <= |s|
  {
    forall k | lo <= k < hi :: IsJsSpace(s[k])
  }

  /** The end of the run of white space in s that starts at position i. */
  function LeadingSpaceEnd(s: string, i: nat): (j: nat)
    requires i <= |s|
    ensures i <= j <= |s| && SpaceIn(s, i, j)
    ensures j < |s| ==> !IsJsSpace(s[j])
    decreases |s| - i
  {
    if i < |s| && IsJsSpace(s[i]) then LeadingSpaceEnd(s, i + 1) else i
  }

  /** The start of the run of white space in s that ends at position j, not going below lo. */
  function TrailingSpaceStart(s: string, lo: nat, j: nat): (k: nat)
    requires lo <= j <= |s|
    ensures lo <= k <= j && SpaceIn(s, k, j)
    ensures k > lo ==> !IsJsSpace(s[k - 1])
    decreases j
  {
    if j > lo && IsJsSpace(s[j - 1]) then TrailingSpaceStart(s, lo, j - 1) else j
  }

  /**
   * `s.trim()`: the piece of s after its leading white space, with only white
   * space before and after it in s, and none at either of its own ends.
   */
  function Trim(s: string): (r: string)
    ensures var i := LeadingSpaceEnd(s, 0);
      && i + |r| <= |s| && r == s[i..i + |r|]
      && SpaceIn(s, 0, i) && SpaceIn(s, i + |r|, |s|)
    ensures r != [] ==> !IsJsSpace(r[0]) && !IsJsSpace(r[|r| - 1])
  {
    var i := LeadingSpaceEnd(s, 0);
    s[i..TrailingSpaceStart(s, i, |s|)]
  }

  /** Text made only of white space trims to the empty text. */
  lemma TrimAllSpace(s: string)
    requires AllSpace(s)
    ensures Trim(s) == ""
  {
  }

  /** `s.startsWith(p)`. */
  predicate StartsWith(s: string, p: string) {
    |p| <= |s| && s[..|p|] == p
  }

  /** s holds no line break. */
  predicate NoBreak(s: string) {
    forall i | 0 <= i < |s| :: s[i] != '\n'
  }

  /** `lines.join("\n")`. */
  function Join(lines: seq<string>): (r: string)
    ensures lines == [] ==> r == ""
    decreases |lines|
  {
    if |lines| == 0 then ""
    else if |lines| == 1 then lines[0]
    else lines[0] + "\n" + Join(lines[1..])
  }

  /** Position of the first line break in s, or |s| when there is none. */
  function LineEnd(s: string): (i: nat)
    ensures i <= |s| && NoBreak(s[..i])
    ensures i < |s| ==> s[i] == '\n'
    decreases |s|
  {
    if |s| == 0 || s[0] == '\n' then 0 else 1 + LineEnd(s[1..])
  }

  /** The lines of s: the pieces between its line breaks. */
  function Split(s: string): (lines: seq<string>)
    ensures |lines| >= 1
    ensures forall k | 0 <= k < |lines| :: NoBreak(lines[k])
    decreases |s|
  {
    var i := LineEnd(s);
    if i == |s| then [s] else [s[..i]] + Split(s[i + 1..])
  }

  /** Splitting `head + "\n" + rest` yields head followed by the lines of rest. */
  lemma SplitCons(head: string, rest: string)
    requires NoBreak(head)
    ensures Split(head + "\n" + rest) == [head] + Split(rest)
  {
    var s := head + "\n" + rest;
    LineEndAt(head, rest);
    assert s[..|head|] == head;
    assert s[|head| + 1..] == rest;
  }

  lemma {:induction false} LineEndAt(head: string, rest: string)
    requires NoBreak(head)
    ensures LineEnd(head + "\n" + rest) == |head|
    decreases |head|
  {
    if |head| > 0 {
      assert (head + "\n" + rest)[1..] == head[1..] + "\n" + rest;
      LineEndAt(head[1..], rest);
    }
  }

  /** Splitting undoes joining, for a non-empty list of lines with no line break inside them. */
  lemma {:induction false} SplitJoin(lines: seq<string>)
    requires |lines| >= 1
    requires forall k | 0 <= k < |lines| :: NoBreak(lines[k])
    ensures Split(Join(lines)) == lines
    decreases |lines|
  {
    if |lines| == 1 {
      assert LineEnd(lines[0]) == |lines[0]|;
    } else {
      SplitJoin(lines[1..]);
      SplitCons(lines[0], Join(lines[1..]));
    }
  }
}
