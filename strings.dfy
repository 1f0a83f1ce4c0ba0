/**
  The small part of JavaScript's string semantics that the parser, the validator and the
  scanner rely on: the whitespace class of regular expressions (which is also the set that
  `trim` removes), ASCII case folding, substring search, trimming, splitting on whitespace
  runs and collapsing them to one space.  Strings are sequences of characters.
*/
module Strings {

  datatype Option<+T> = None | Some(value: T)

  datatype Result<+T> = Ok(value: T) | Err(error: string)

  /** The characters matched by `\s` in a JavaScript regular expression. */
  predicate IsSpace(c: char) {
    c == ' ' || c == '\t' || c == '\n' || c == '\r' || c == '\U{B}' || c == '\U{C}'
    || c == '\U{A0}' || c == '\U{1680}' || ('\U{2000}' <= c <= '\U{200A}')
    || c == '\U{2028}' || c == '\U{2029}' || c == '\U{202F}' || c == '\U{205F}'
    || c == '\U{3000}' || c == '\U{FEFF}'
  }

  predicate IsDigit(c: char) { '0' <= c <= '9' }
  predicate IsUpper(c: char) { 'A' <= c <= 'Z' }
  predicate IsLower(c: char) { 'a' <= c <= 'z' }

  /** `\w`: the characters a regular-expression word boundary `\b` is defined by. */
  predicate IsWordChar(c: char) { IsUpper(c) || IsLower(c) || IsDigit(c) || c == '_' }

  ghost predicate AllSpace(s: string) {
    forall i :: 0 <= i < |s| ==> IsSpace(s[i])
  }

  function LowerChar(c: char): char {
    if IsUpper(c) then (c as int + 32) as char else c
  }

  function Lower(s: string): (r: string)
    ensures |r| == |s|
    ensures forall i :: 0 <= i < |s| ==> r[i] == LowerChar(s[i])
  {
    seq(|s|, i requires 0 <= i < |s| => LowerChar(s[i]))
  }

  function Min(a: int, b: int): int { if a <= b then a else b }
  function Max(a: int, b: int): int { if a >= b then a else b }

  /** The first `n` characters of `s`, or all of it: `s.substring(0, n)`. */
  function Prefix(s: string, n: nat): (r: string)
    ensures |r| == Min(n, |s|)
    ensures r <= s
  {
    if |s| <= n then s else s[..n]
  }

  predicate OccursAt(s: string, i: nat, p: string) {
    i + |p| <= |s| && s[i..i + |p|] == p
  }

  /** Case-insensitive occurrence, as a regular expression with the `i` flag sees it. */
  predicate OccursAtCI(s: string, i: nat, p: string) {
    i + |p| <= |s| && Lower(s[i..i + |p|]) == Lower(p)
  }

  /** The first position at or after `from` where `p` occurs in `s`. */
  function IndexFrom(s: string, p: string, from: nat): (r: Option<nat>)
    requires from <= |s|
    ensures r.Some? ==> from <= r.value && OccursAt(s, r.value, p)
    ensures forall k :: from <= k && (r.None? || k < r.value) ==> !OccursAt(s, k, p)
    decreases |s| - from
  {
    if OccursAt(s, from, p) then Some(from)
    else if from == |s| then None
    else IndexFrom(s, p, from + 1)
  }

  function IndexOf(s: string, p: string): (r: Option<nat>)
    ensures r.Some? ==> OccursAt(s, r.value, p)
    ensures forall k: nat :: (r.None? || k < r.value) ==> !OccursAt(s, k, p)
  {
    IndexFrom(s, p, 0)
  }

  /** `s.includes(p)`. */
  predicate Contains(s: string, p: string) {
    IndexOf(s, p).Some?
  }

  /** A case-insensitive regular-expression test of a pattern `p` without metacharacters. */
  predicate ContainsCI(s: string, p: string) {
    Contains(Lower(s), Lower(p))
  }

  lemma ContainsWitness(s: string, p: string, k: nat)
    requires OccursAt(s, k, p)
    ensures Contains(s, p)
  {
  }

  /** What a slice of `s` contains, `s` contains. */
  lemma ContainsInSlice(s: string, p: string, a: nat, b: nat)
    requires a <= b <= |s| && Contains(s[a..b], p)
    ensures Contains(s, p)
  {
    var k := IndexOf(s[a..b], p).value;
    assert s[a..b][k..k + |p|] == s[a + k..a + k + |p|];
    ContainsWitness(s, p, a + k);
  }

  /** A Markdown code fence, and the opening fence of a JSON block. */
  const Fence := "```"
  const JsonFence := "```json"

  /** End of the run of whitespace starting at `i`. */
  function SpaceRunEnd(s: string, i: nat): (j: nat)
    requires i <= |s|
    ensures i <= j <= |s|
    ensures forall k :: i <= k < j ==> IsSpace(s[k])
    ensures j == |s| || !IsSpace(s[j])
    decreases |s| - i
  {
    if i < |s| && IsSpace(s[i]) then SpaceRunEnd(s, i + 1) else i
  }

  /** End of the run of non-whitespace starting at `i`. */
  function WordRunEnd(s: string, i: nat): (j: nat)
    requires i <= |s|
    ensures i <= j <= |s|
    ensures forall k :: i <= k < j ==> !IsSpace(s[k])
    ensures j == |s| || IsSpace(s[j])
    decreases |s| - i
  {
    if i < |s| && !IsSpace(s[i]) then WordRunEnd(s, i + 1) else i
  }

  function TrimStart(s: string): (r: string)
    ensures |r| <= |s| && r == s[|s| - |r|..]
    ensures AllSpace(s[..|s| - |r|])
    ensures r == [] || !IsSpace(r[0])
  {
    var j := SpaceRunEnd(s, 0);
    assert forall k :: 0 <= k < j ==> s[..j][k] == s[k];
    s[j..]
  }

  function TrimEnd(s: string): (r: string)
    ensures |r| <= |s| && r == s[..|r|]
    ensures r == [] || !IsSpace(r[|r| - 1])
    ensures AllSpace(s[|r|..])
    decreases |s|
  {
    if |s| > 0 && IsSpace(s[|s| - 1]) then
      var r := TrimEnd(s[..|s| - 1]);
      assert s[|r|..] == s[..|s| - 1][|r|..] + [s[|s| - 1]];
      r
    else s
  }

  lemma SpaceHeadAndTail(s: string, a: nat)
    requires a <= |s| && AllSpace(s[..a]) && AllSpace(s[a..])
    ensures AllSpace(s)
  {
    forall k | 0 <= k < |s| ensures IsSpace(s[k]) {
      if k < a { assert s[k] == s[..a][k]; } else { assert s[k] == s[a..][k - a]; }
    }
  }

  /** `s.trim()`: a slice of `s` with the whitespace at both ends removed. */
  function Trim(s: string): (r: string)
    ensures exists a, b :: 0 <= a <= b <= |s| && r == s[a..b]
    ensures r == [] || (!IsSpace(r[0]) && !IsSpace(r[|r| - 1]))
    ensures r == [] <==> AllSpace(s)
  {
    var t := TrimStart(s);
    var a := SpaceRunEnd(s, 0);
    var r := TrimEnd(t);
    assert r == s[a..a + |r|];
    assert r == [] ==> AllSpace(s) by {
      if r == [] { SpaceHeadAndTail(s, a); }
    }
    r
  }

  /** Splitting on whitespace runs, from position `i` on: the pieces between maximal runs,
      with an empty first or last piece when `s` starts or ends with whitespace. */
  function SplitFrom(s: string, i: nat): (r: seq<string>)
    requires i <= |s|
    ensures |r| >= 1
    ensures forall k, c :: 0 <= k < |r| && c in r[k] ==> !IsSpace(c)
    decreases |s| - i
  {
    var j := WordRunEnd(s, i);
    if j == |s| then [s[i..]]
    else [s[i..j]] + SplitFrom(s, SpaceRunEnd(s, j))
  }

  function SplitWs(s: string): seq<string> {
    SplitFrom(s, 0)
  }

  function NonEmpty(pieces: seq<string>): (r: seq<string>)
    ensures |r| <= |pieces|
    ensures forall w :: w in r <==> w in pieces && w != []
  {
    if pieces == [] then []
    else (if pieces[0] == [] then [] else [pieces[0]]) + NonEmpty(pieces[1..])
  }

  /** The whitespace-separated words of `s`: the non-empty pieces of the split. */
  function Words(s: string): seq<string> {
    NonEmpty(SplitWs(s))
  }

  lemma {:induction false} WordsOfSpaceFrom(s: string, i: nat)
    requires i <= |s|
    ensures NonEmpty(SplitFrom(s, i)) == [] <==> AllSpace(s[i..])
    decreases |s| - i
  {
    var j := WordRunEnd(s, i);
    if j == |s| {
      assert SplitFrom(s, i) == [s[i..]];
      assert NonEmpty([s[i..]]) == (if s[i..] == [] then [] else [s[i..]]) + NonEmpty([]);
      if s[i..] != [] { assert !IsSpace(s[i..][0]); }
    } else {
      var rest := SplitFrom(s, SpaceRunEnd(s, j));
      assert SplitFrom(s, i) == [s[i..j]] + rest;
      assert NonEmpty([s[i..j]] + rest) == (if s[i..j] == [] then [] else [s[i..j]]) + NonEmpty(rest) by {
        assert ([s[i..j]] + rest)[1..] == rest;
      }
      WordsOfSpaceFrom(s, SpaceRunEnd(s, j));
      if j == i {
        SkipSpaces(s, i, SpaceRunEnd(s, j));
      } else {
        assert !IsSpace(s[i..][0]);
      }
    }
  }

  /** Skipping a run of whitespace does not change whether the rest is all whitespace. */
  lemma SkipSpaces(s: string, i: nat, e: nat)
    requires i <= e <= |s|
    requires forall k :: i <= k < e ==> IsSpace(s[k])
    ensures AllSpace(s[i..]) <==> AllSpace(s[e..])
  {
    if AllSpace(s[e..]) {
      forall k | 0 <= k < |s[i..]| ensures IsSpace(s[i..][k]) {
        if i + k >= e { assert s[i..][k] == s[e..][i + k - e]; }
      }
    }
  }

  /** `s` has no word exactly when it is all whitespace (including when it is empty). */
  lemma WordsEmptyIffAllSpace(s: string)
    ensures Words(s) == [] <==> AllSpace(s)
  {
    WordsOfSpaceFrom(s, 0);
    assert s[0..] == s;
  }

  /** Whitespace collapse: every maximal whitespace run becomes one space. */
  function Collapse(s: string): (r: string)
    ensures |r| <= |s|
    ensures AllSpace(r) <==> AllSpace(s)
    decreases |s|
  {
    if s == [] then []
    else if IsSpace(s[0]) then
      var e := SpaceRunEnd(s, 0);
      var r := [' '] + Collapse(s[e..]);
      SkipSpaces(s, 0, e);
      assert s[0..] == s;
      assert AllSpace(r) <==> AllSpace(r[1..]) by { assert r[1..] == Collapse(s[e..]); }
      r
    else
      var r := [s[0]] + Collapse(s[1..]);
      assert !IsSpace(r[0]);
      r
  }
}
