/**
  The global regular expressions of the content parser, each as a function that says
  whether, and how far, the expression matches when the search reaches position `i`.
  Backtracking has been resolved by hand: for each expression the greedy, lazy and
  alternative choices leave at most one match per start position.

  `Exec(f, s, from)` is one call of `exec` on a global expression whose `lastIndex` is
  `from`: the match with the leftmost start at or after `from`.  `AllMatches` is the list
  of matches a loop that calls `exec` until it returns null visits, and `ExecLoop` is that
  loop.
*/
module Patterns {
  import opened Strings

  /** A match `[start, end)` with its first capture group and, for quotes, the second. */
  datatype Match = Match(start: nat, end: nat, group: string, attribution: string)

  predicate WellFormed(s: string, i: nat, m: Match) {
    m.start == i && i < m.end <= |s|
  }

  /** End of the run of characters satisfying `f` that starts at `i`. */
  function RunEnd(s: string, i: nat, f: char -> bool): (j: nat)
    requires i <= |s|
    ensures i <= j <= |s|
    ensures forall k :: i <= k < j ==> f(s[k])
    ensures j == |s| || !f(s[j])
    decreases |s| - i
  {
    if i < |s| && f(s[i]) then RunEnd(s, i + 1, f) else i
  }

  predicate NotDot(c: char) { c != '.' }

  /** The first phrase of the list that occurs (ignoring case) at `i`. */
  function PhraseAt(s: string, i: nat, phrases: seq<string>): (r: Option<string>)
    ensures r.Some? ==> r.value in phrases && OccursAtCI(s, i, r.value)
    ensures r.None? ==> forall p :: p in phrases ==> !OccursAtCI(s, i, p)
  {
    if phrases == [] then None
    else if OccursAtCI(s, i, phrases[0]) then Some(phrases[0])
    else PhraseAt(s, i, phrases[1..])
  }

  function Whole(s: string, i: nat, e: nat): Match
    requires i <= e <= |s|
  {
    Match(i, e, s[i..e], [])
  }

  // ---------------------------------------------------------------------------
  // Statistics
  // ---------------------------------------------------------------------------

  /** After `,ddd` groups starting at `k`, taken greedily. */
  function GroupsEnd(s: string, k: nat): (e: nat)
    requires k <= |s|
    ensures k <= e <= |s|
    decreases |s| - k
  {
    if k + 4 <= |s| && s[k] == ',' && IsDigit(s[k + 1]) && IsDigit(s[k + 2]) && IsDigit(s[k + 3])
    then GroupsEnd(s, k + 4) else k
  }

  /** The three alternatives, tried in order: a percentage, a number with thousands
      separators, a number followed by million or billion. */
  function StatisticAt(s: string, i: nat): (r: Option<Match>)
    requires i <= |s|
    ensures r.Some? ==> WellFormed(s, i, r.value) && IsDigit(s[i])
  {
    var d := RunEnd(s, i, IsDigit);
    if d == i then None
    else
      var f := if d + 1 <= |s| then RunEnd(s, d + 1, IsDigit) else d + 1;
      var hasFraction := d < |s| && s[d] == '.' && f > d + 1;
      var number := if hasFraction then f else d;
      var groups := GroupsEnd(s, d);
      var sp := SpaceRunEnd(s, number);
      if d < |s| && s[d] == '%' then Some(Whole(s, i, d + 1))
      else if hasFraction && f < |s| && s[f] == '%' then Some(Whole(s, i, f + 1))
      else if d - i <= 3 && groups > d then Some(Whole(s, i, groups))
      else if OccursAtCI(s, sp, "million") || OccursAtCI(s, sp, "billion") then Some(Whole(s, i, sp + 7))
      else None
  }

  // ---------------------------------------------------------------------------
  // Phrase-led patterns
  // ---------------------------------------------------------------------------

  const ExamplePhrases := ["for example", "for instance", "such as", "e.g.", "like this", "here's an example"]

  /** A lead phrase followed by 10 to 200 characters other than a period (as many as there are). */
  function ExampleAt(s: string, i: nat): (r: Option<Match>)
    requires i <= |s|
    ensures r.Some? ==> WellFormed(s, i, r.value)
  {
    match PhraseAt(s, i, ExamplePhrases)
    case None => None
    case Some(p) =>
      var t := i + |p|;
      var run := RunEnd(s, t, NotDot) - t;
      if run < 10 then None else Some(Whole(s, i, t + Min(run, 200)))
  }

  const CtaPhrases := ["click here", "download", "get started", "sign up", "try now", "learn more",
                       "contact us", "buy now"]

  function CallToActionAt(s: string, i: nat): (r: Option<Match>)
    requires i <= |s|
    ensures r.Some? ==> WellFormed(s, i, r.value) && exists p :: p in CtaPhrases && OccursAtCI(s, i, p) && r.value.end == i + |p|
  {
    match PhraseAt(s, i, CtaPhrases)
    case None => None
    case Some(p) => Some(Whole(s, i, i + |p|))
  }

  const CredentialWords := ["certified", "phd", "mba", "master", "bachelor", "degree", "expert",
                            "specialist", "consultant"]

  function CredentialAt(s: string, i: nat): (r: Option<Match>)
    requires i <= |s|
    ensures r.Some? ==> WellFormed(s, i, r.value)
  {
    match PhraseAt(s, i, CredentialWords)
    case None => None
    case Some(p) => Some(Whole(s, i, i + |p|))
  }

  /** A case-study snippet as the expression accepts it: "case study" or "client success"
      alone, or "customer story" followed by 50 to 300 characters other than a period. */
  ghost predicate IsCaseStudySnippet(x: string) {
    (OccursAtCI(x, 0, "case study") && |x| == 10)
    || (OccursAtCI(x, 0, "client success") && |x| == 14)
    || (OccursAtCI(x, 0, "customer story") && 64 <= |x| <= 314
        && forall k :: 14 <= k < |x| ==> x[k] != '.')
  }

  function CaseStudyAt(s: string, i: nat): (r: Option<Match>)
    requires i <= |s|
    ensures r.Some? ==> WellFormed(s, i, r.value) && IsCaseStudySnippet(s[i..r.value.end])
  {
    if OccursAtCI(s, i, "case study") then
      assert s[i..i + 10][0..10] == s[i..i + 10];
      Some(Whole(s, i, i + 10))
    else if OccursAtCI(s, i, "client success") then
      assert s[i..i + 14][0..14] == s[i..i + 14];
      Some(Whole(s, i, i + 14))
    else if OccursAtCI(s, i, "customer story") then
      var run := RunEnd(s, i + 14, NotDot) - (i + 14);
      if run < 50 then None
      else
        var e := i + 14 + Min(run, 300);
        assert s[i..e][0..14] == s[i..i + 14];
        Some(Whole(s, i, e))
    else None
  }

  // ---------------------------------------------------------------------------
  // Citations in parentheses
  // ---------------------------------------------------------------------------

  /** No position of `[i, j)` starts an occurrence of the one-character string `[c]`, so
      `c` is not in the slice. */
  lemma NotInSlice(s: string, i: nat, j: nat, c: char)
    requires i <= j <= |s| && forall k :: i <= k < j ==> !OccursAt(s, k, [c])
    ensures c !in s[i..j]
  {
    forall k | i <= k < j ensures s[k] != c {
      assert !OccursAt(s, k, [c]);
      assert s[k..k + 1] == [s[k]];
    }
  }

  /** A year 20xx or one of the words study, research or source ends exactly at `j`,
      leaving at least one character other than a closing parenthesis between it and the
      opening parenthesis at `i`. */
  predicate CitationTail(s: string, i: nat, j: nat)
    requires i < j <= |s|
  {
    (j >= i + 6 && s[j - 4] == '2' && s[j - 3] == '0' && IsDigit(s[j - 2]) && IsDigit(s[j - 1]))
    || (j >= i + 7 && Lower(s[j - 5..j]) == "study")
    || (j >= i + 10 && Lower(s[j - 8..j]) == "research")
    || (j >= i + 8 && Lower(s[j - 6..j]) == "source")
  }

  /** An opening parenthesis, everything up to the first closing one, which must end in a
      year 20xx or in "study", "research" or "source".  The group is the inside. */
  function DataCitationAt(s: string, i: nat): (r: Option<Match>)
    requires i <= |s|
    ensures r.Some? ==> WellFormed(s, i, r.value) && ')' !in r.value.group && |r.value.group| >= 5
  {
    if i < |s| && s[i] == '(' then
      match IndexFrom(s, ")", i + 1)
      case None => None
      case Some(j) =>
        if CitationTail(s, i, j) then
          NotInSlice(s, i + 1, j, ')');
          Some(Match(i, j + 1, s[i + 1..j], []))
        else None
    else None
  }

  // ---------------------------------------------------------------------------
  // Years
  // ---------------------------------------------------------------------------

  predicate RecentYearAt(s: string, i: nat) {
    i + 4 <= |s| && s[i] == '2' && s[i + 1] == '0' && s[i + 2] == '2' && '3' <= s[i + 3] <= '5'
  }

  /** 2023, 2024 or 2025 as a whole word: word boundaries on both sides. */
  function YearAt(s: string, i: nat): (r: Option<Match>)
    requires i <= |s|
    ensures r.Some? ==> WellFormed(s, i, r.value) && r.value.end == i + 4
    ensures r.Some? <==> RecentYearAt(s, i) && (i == 0 || !IsWordChar(s[i - 1]))
                         && (i + 4 == |s| || !IsWordChar(s[i + 4]))
  {
    if RecentYearAt(s, i) && (i == 0 || !IsWordChar(s[i - 1])) && (i + 4 == |s| || !IsWordChar(s[i + 4]))
    then Some(Match(i, i + 4, s[i..i + 4], []))
    else None
  }

  const RecencyWords := ["data", "study", "research", "report"]

  /** The largest gap `k <= top` after which a recency word starts at `t + k`. */
  function LastRecencyWord(s: string, t: nat, top: nat): (r: Option<nat>)
    requires t + top <= |s|
    ensures r.Some? ==> r.value <= top && PhraseAt(s, t + r.value, RecencyWords).Some?
    decreases top
  {
    if PhraseAt(s, t + top, RecencyWords).Some? then Some(top)
    else if top == 0 then None
    else LastRecencyWord(s, t, top - 1)
  }

  /** A recent year, then at most 100 characters other than a period (greedy, so the last
      possible recency word is taken), then one of "data", "study", "research", "report". */
  function RecencyAt(s: string, i: nat): (r: Option<Match>)
    requires i <= |s|
    ensures r.Some? ==> WellFormed(s, i, r.value) && RecentYearAt(s, i)
  {
    if !RecentYearAt(s, i) then None
    else
      var t := i + 4;
      var top := Min(RunEnd(s, t, NotDot) - t, 100);
      match LastRecencyWord(s, t, top)
      case None => None
      case Some(k) =>
        var w := PhraseAt(s, t + k, RecencyWords).value;
        Some(Match(i, t + k + |w|, s[i..t + k + |w|], s[i..i + 4]))
  }

  // ---------------------------------------------------------------------------
  // Expert quotes
  // ---------------------------------------------------------------------------

  predicate IsDash(c: char) { c == '-' || c == '\U{2013}' || c == '\U{2014}' }

  /** A capitalised word (a capital, then at least one lower-case letter) at `a`: its end. */
  function CapWordAt(s: string, a: nat): (r: Option<nat>)
    requires a <= |s|
    ensures r.Some? ==> a + 2 <= r.value <= |s| && IsUpper(s[a])
    ensures r.Some? ==> forall k :: a < k < r.value ==> IsLower(s[k])
    ensures r.Some? ==> r.value == |s| || !IsLower(s[r.value])
  {
    if a + 1 < |s| && IsUpper(s[a]) && IsLower(s[a + 1]) then Some(RunEnd(s, a + 1, IsLower)) else None
  }

  /** Which character may follow which inside a run of capitalised words: a
      lower-case letter follows a letter, whitespace follows a lower-case letter or
      whitespace, and a capital follows whitespace. */
  predicate NameStep(prev: char, c: char) {
    (IsLower(c) && (IsUpper(prev) || IsLower(prev)))
    || (IsSpace(c) && (IsLower(prev) || IsSpace(prev)))
    || (IsUpper(c) && IsSpace(prev))
  }

  /** Capitalised words separated by whitespace, starting with a capital and ending in a
      lower-case letter. */
  ghost predicate IsNameText(x: string) {
    |x| >= 2 && IsUpper(x[0]) && IsLower(x[|x| - 1])
    && forall k :: 0 < k < |x| ==> NameStep(x[k - 1], x[k])
  }

  /** An attribution: at least two capitalised words, so it contains a whitespace character. */
  ghost predicate IsAttribution(x: string) {
    IsNameText(x) && exists k :: 0 < k < |x| && IsSpace(x[k])
  }

  /** Further whitespace-separated capitalised words from `e`, taken greedily: the end of
      the last word. */
  function MoreWords(s: string, a: nat, e: nat): (r: nat)
    requires a < e <= |s| && IsNameText(s[a..e])
    ensures e <= r <= |s| && IsNameText(s[a..r])
    ensures r > e ==> exists k :: a < k < r && IsSpace(s[k])
    decreases |s| - e
  {
    var sp := SpaceRunEnd(s, e);
    if sp > e then
      match CapWordAt(s, sp)
      case None => e
      case Some(w) =>
        NameGrows(s, a, e, sp, w);
        assert IsSpace(s[e]);
        MoreWords(s, a, w)
    else e
  }

  lemma NameGrows(s: string, a: nat, e: nat, sp: nat, w: nat)
    requires a < e < sp < w <= |s| && IsNameText(s[a..e])
    requires forall k :: e <= k < sp ==> IsSpace(s[k])
    requires IsUpper(s[sp]) && w >= sp + 2 && forall k :: sp < k < w ==> IsLower(s[k])
    ensures IsNameText(s[a..w])
  {
    var x := s[a..w];
    var y := s[a..e];
    forall k | 0 < k < |x| ensures NameStep(x[k - 1], x[k]) {
      if a + k < e {
        assert x[k - 1] == y[k - 1] && x[k] == y[k];
      } else if a + k == e {
        assert x[k - 1] == y[|y| - 1];
      }
    }
  }

  lemma FirstWordIsName(s: string, a: nat, w: nat)
    requires a + 2 <= w <= |s| && IsUpper(s[a]) && forall k :: a < k < w ==> IsLower(s[k])
    ensures IsNameText(s[a..w])
  {
    var x := s[a..w];
    forall k | 0 < k < |x| ensures NameStep(x[k - 1], x[k]) {
      assert x[k] == s[a + k] && x[k - 1] == s[a + k - 1];
    }
  }

  lemma SpaceInSlice(s: string, a: nat, e: nat, k: nat)
    requires a < k < e <= |s| && IsSpace(s[k])
    ensures exists j :: 0 < j < |s[a..e]| && IsSpace(s[a..e][j])
  {
    assert s[a..e][k - a] == s[k];
  }

  /** A dash, optional whitespace, then a name of at least two capitalised words:
      the start and end of the name. */
  function AttributionAt(s: string, g: nat): (r: Option<(nat, nat)>)
    requires g <= |s|
    ensures r.Some? ==> g < r.value.0 < r.value.1 <= |s| && IsAttribution(s[r.value.0..r.value.1])
  {
    if g < |s| && IsDash(s[g]) then
      var a := SpaceRunEnd(s, g + 1);
      match CapWordAt(s, a)
      case None => None
      case Some(w) =>
        FirstWordIsName(s, a, w);
        var e := MoreWords(s, a, w);
        if e > w then
          var k :| a < k < e && IsSpace(s[k]);
          SpaceInSlice(s, a, e, k);
          Some((a, e))
        else None
    else None
  }

  /** The gap of up to 150 arbitrary characters before the attribution is lazy: the first gap of 0, 1, ..., 150
      characters after which an attribution follows. */
  function LazyAttribution(s: string, g0: nat, k: nat): (r: Option<(nat, nat)>)
    requires g0 <= |s|
    ensures r.Some? ==> g0 < r.value.0 < r.value.1 <= |s| && IsAttribution(s[r.value.0..r.value.1])
    decreases 151 - k
  {
    if k > 150 || g0 + k > |s| then None
    else match AttributionAt(s, g0 + k)
      case Some(r) => Some(r)
      case None => LazyAttribution(s, g0, k + 1)
  }

  /** A double quote, at least 30 characters other than a double quote, the closing quote,
      then (after the shortest possible gap) a dash and an attribution. */
  function ExpertQuoteAt(s: string, i: nat): (r: Option<Match>)
    requires i <= |s|
    ensures r.Some? ==> WellFormed(s, i, r.value)
    ensures r.Some? ==> |r.value.group| >= 30 && '"' !in r.value.group && IsAttribution(r.value.attribution)
  {
    if i < |s| && s[i] == '"' then
      match IndexFrom(s, "\"", i + 1)
      case None => None
      case Some(j) =>
        if j - (i + 1) < 30 then None
        else match LazyAttribution(s, j + 1, 0)
          case None => None
          case Some(span) =>
            NotInSlice(s, i + 1, j, '"');
            Some(Match(i, span.1, s[i + 1..j], s[span.0..span.1]))
    else None
  }

  // ---------------------------------------------------------------------------
  // The exec loop
  // ---------------------------------------------------------------------------

  /** One of the expressions above: the match starting exactly at a position, if any. */
  type Matcher = (string, nat) --> Option<Match>

  /** A matcher is defined on every position of a string and its matches start there and
      end after it, within the string. */
  ghost predicate Sound(f: Matcher) {
    forall s: string, i: nat :: i <= |s| ==>
      f.requires(s, i) && (f(s, i).Some? ==> WellFormed(s, i, f(s, i).value))
  }

  lemma AllSound()
    ensures Sound(ExpertQuoteAt) && Sound(StatisticAt) && Sound(ExampleAt) && Sound(CallToActionAt)
    ensures Sound(DataCitationAt) && Sound(CaseStudyAt) && Sound(YearAt) && Sound(RecencyAt)
    ensures Sound(CredentialAt)
  {
  }

  /** `re.exec(s)` with `re.lastIndex == from`: the leftmost match starting at or after `from`. */
  function Exec(f: Matcher, s: string, from: nat): (r: Option<Match>)
    requires Sound(f) && from <= |s|
    ensures r.Some? ==> from <= r.value.start < r.value.end <= |s| && f(s, r.value.start) == r
    decreases |s| - from
  {
    if f(s, from).Some? then f(s, from)
    else if from == |s| then None
    else Exec(f, s, from + 1)
  }

  /** `Exec` finds the leftmost match: no match starts between `from` and the one it returns. */
  lemma {:induction false} ExecLeftmost(f: Matcher, s: string, from: nat, k: nat)
    requires Sound(f) && from <= k <= |s|
    requires Exec(f, s, from).None? || k < Exec(f, s, from).value.start
    ensures f(s, k).None?
    decreases |s| - from
  {
    if k > from {
      ExecLeftmost(f, s, from + 1, k);
    }
  }

  predicate ValidMatches(s: string, ms: seq<Match>) {
    forall k :: 0 <= k < |ms| ==> ms[k].start < ms[k].end <= |s|
  }

  /** The matches a global exec loop visits from `lastIndex == from` on, in order and
      without overlap. */
  function AllFrom(f: Matcher, s: string, from: nat): (r: seq<Match>)
    requires Sound(f) && from <= |s|
    ensures ValidMatches(s, r)
    ensures forall k :: 0 <= k < |r| ==> from <= r[k].start && f(s, r[k].start) == Some(r[k])
    ensures forall k :: 0 < k < |r| ==> r[k - 1].end <= r[k].start
    decreases |s| - from
  {
    match Exec(f, s, from)
    case None => []
    case Some(m) => [m] + AllFrom(f, s, m.end)
  }

  function AllMatches(f: Matcher, s: string): seq<Match>
    requires Sound(f)
  {
    AllFrom(f, s, 0)
  }

  /** A position the exec loop passes over without a match starting there lies strictly
      inside an earlier match. */
  lemma {:induction false} AllFromCovers(f: Matcher, s: string, from: nat, i: nat)
    requires Sound(f) && from <= i <= |s| && f(s, i).Some?
    ensures exists k :: 0 <= k < |AllFrom(f, s, from)| && AllFrom(f, s, from)[k].start <= i < AllFrom(f, s, from)[k].end
    decreases |s| - from
  {
    var r := AllFrom(f, s, from);
    match Exec(f, s, from)
    case None =>
      ExecLeftmost(f, s, from, i);
    case Some(x) =>
      assert r == [x] + AllFrom(f, s, x.end);
      if i < x.start {
        ExecLeftmost(f, s, from, i);
      } else if i < x.end {
        assert r[0].start <= i < r[0].end;
      } else {
        AllFromCovers(f, s, x.end, i);
        var k :| 0 <= k < |AllFrom(f, s, x.end)| && AllFrom(f, s, x.end)[k].start <= i < AllFrom(f, s, x.end)[k].end;
        assert r[k + 1] == AllFrom(f, s, x.end)[k];
      }
  }

  /** What an exec loop pushes for a match: defined for every match inside the text. */
  ghost predicate ItemDefined<T>(item: (string, Match) --> T) {
    forall s: string, m: Match :: m.start <= m.end <= |s| ==> item.requires(s, m)
  }

  function MapItems<T>(item: (string, Match) --> T, s: string, ms: seq<Match>): (r: seq<T>)
    requires ItemDefined(item) && ValidMatches(s, ms)
    ensures |r| == |ms|
    ensures forall k :: 0 <= k < |ms| ==> r[k] == item(s, ms[k])
  {
    seq(|ms|, k requires 0 <= k < |ms| => item(s, ms[k]))
  }

  /** `match[0]`. */
  function MatchedText(s: string, m: Match): string
    requires m.start <= m.end <= |s|
  {
    s[m.start..m.end]
  }

  /** `match[1]`. */
  function GroupOf(s: string, m: Match): string {
    m.group
  }

  /** Calls `exec` until it finds nothing, pushing `item` of each match. */
  method ExecLoop<T>(f: Matcher, text: string, item: (string, Match) --> T) returns (items: seq<T>)
    requires Sound(f) && ItemDefined(item)
    ensures items == MapItems(item, text, AllMatches(f, text))
  {
    items := [];
    ghost var seen: seq<Match> := [];
    var last := 0;
    var m := Exec(f, text, 0);
    while m.Some?
      invariant last <= |text| && m == Exec(f, text, last)
      invariant seen + AllFrom(f, text, last) == AllMatches(f, text)
      invariant ValidMatches(text, seen) && items == MapItems(item, text, seen)
      decreases |text| - last
    {
      var x := m.value;
      assert AllFrom(f, text, last) == [x] + AllFrom(f, text, x.end);
      assert seen + AllFrom(f, text, last) == (seen + [x]) + AllFrom(f, text, x.end);
      items := items + [item(text, x)];
      seen := seen + [x];
      last := x.end;
      m := Exec(f, text, last);
    }
  }
}
