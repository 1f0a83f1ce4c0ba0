/**
  Two deterministic pieces of the page scanner: the quality label given to an analysis
  score, and the extraction of the JSON text from a model reply that may wrap it in a
  Markdown code fence.
*/
module Scanner {
  import opened Strings

  // ---------------------------------------------------------------------------
  // Quality label
  // ---------------------------------------------------------------------------

  datatype Quality = Excellent | Good | Fair | Average | NeedsImprovement

  function Label(q: Quality): string {
    match q
    case Excellent => "excellent"
    case Good => "good"
    case Fair => "fair"
    case Average => "average"
    case NeedsImprovement => "needs-improvement"
  }

  /** The position of a label on the ladder, lowest first. */
  function Rank(q: Quality): nat {
    match q
    case NeedsImprovement => 0
    case Average => 1
    case Fair => 2
    case Good => 3
    case Excellent => 4
  }

  /** The quality ladder over the analysis score; a missing score fails every comparison. */
  function QualityOf(score: Option<real>): (q: Quality)
    ensures q == Excellent <==> score.Some? && score.value >= 90.0
    ensures q == Good <==> score.Some? && 80.0 <= score.value < 90.0
    ensures q == Fair <==> score.Some? && 70.0 <= score.value < 80.0
    ensures q == Average <==> score.Some? && 60.0 <= score.value < 70.0
    ensures q == NeedsImprovement <==> score.None? || score.value < 60.0
  {
    if score.Some? && score.value >= 90.0 then Excellent
    else if score.Some? && score.value >= 80.0 then Good
    else if score.Some? && score.value >= 70.0 then Fair
    else if score.Some? && score.value >= 60.0 then Average
    else NeedsImprovement
  }

  /** A higher score never gets a lower label. */
  lemma QualityMonotone(a: real, b: real)
    requires a <= b
    ensures Rank(QualityOf(Some(a))) <= Rank(QualityOf(Some(b)))
  {
  }

  /** The five labels are distinct strings, so the label determines the band. */
  lemma LabelsDistinct(p: Quality, q: Quality)
    ensures Label(p) == Label(q) <==> p == q
  {
    if p != q {
      assert Label(p)[0] != Label(q)[0] || |Label(p)| != |Label(q)|;
    }
  }

  // ---------------------------------------------------------------------------
  // JSON extraction
  // ---------------------------------------------------------------------------

  /** The first piece of a split on `sep`: everything before the first `sep`, or all of `s`. */
  function FirstPiece(s: string, sep: string): (r: string)
    requires |sep| > 0
    ensures |r| <= |s| && r == s[..|r|]
    ensures |r| == |s| || OccursAt(s, |r|, sep)
    ensures forall k: nat :: k < |r| ==> !OccursAt(s, k, sep)
  {
    match IndexOf(s, sep)
    case None => s
    case Some(i) => s[..i]
  }

  /** The second piece of a split on `sep`, for a text holding `sep`: everything between its first and its
      second occurrence, or up to the end. */
  function SecondPiece(s: string, sep: string): (r: string)
    requires |sep| > 0 && Contains(s, sep)
  {
    var i := IndexOf(s, sep).value;
    FirstPiece(s[i + |sep|..], sep)
  }

  /** `j` is the trimmed text from `s` up to `e`, which holds no fence and ends at the end
      of the reply or where a fence starts. */
  ghost predicate FencedSegment(t: string, s: nat, e: nat, j: string) {
    s <= e <= |t| && j == Trim(t[s..e]) && !Contains(t[s..e], Fence)
    && (e == |t| || OccursAt(t, e, Fence))
  }

  /** No fence starts between `s` and `e`. */
  ghost predicate NoFenceBetween(t: string, s: nat, e: nat) {
    forall k: nat :: s <= k < e ==> !OccursAt(t, k, Fence)
  }

  /** The two cuts of `split(sep)[1].split(fence)[0]` read from `s` on: `j` is where the
      first `sep` after `s` starts, or the end; `e` is where the first fence lying wholly
      before `j` starts, or `j`.  A fence that runs past `j` does not cut: in "a````json"
      the fence at 1 overlaps the `json` fence at 2, and the piece is "a`". */
  ghost predicate SplitEnds(t: string, s: nat, sep: string, j: nat, e: nat) {
    && s <= e <= j <= |t|
    && (j == |t| || OccursAt(t, j, sep))
    && (forall k: nat :: s <= k < j ==> !OccursAt(t, k, sep))
    && (e == j || (OccursAt(t, e, Fence) && e + |Fence| <= j))
    && (forall k: nat :: s <= k < e && k + |Fence| <= j ==> !OccursAt(t, k, Fence))
  }

  /** The cuts are determined by the text, the start and the separator. */
  lemma SplitEndsUnique(t: string, s: nat, sep: string, j1: nat, e1: nat, j2: nat, e2: nat)
    requires |sep| > 0
    requires SplitEnds(t, s, sep, j1, e1) && SplitEnds(t, s, sep, j2, e2)
    ensures j1 == j2 && e1 == e2
  {
  }

  /** The extraction from `s` on is the trimmed text up to the cuts of SplitEnds. */
  ghost predicate CutBetween(t: string, s: nat, sep: string, x: string) {
    exists j: nat, e: nat :: SplitEnds(t, s, sep, j, e) && x == Trim(t[s..e])
  }

  /** In "```json" + "a````json" the piece after the opening fence is "a`": the fence that
      starts at 8 runs past the next `json` fence, which starts at 9 and is the cut. */
  lemma OverlappingFenceDoesNotCut()
    ensures var t := "```json" + "a````json";
      SplitEnds(t, 7, JsonFence, 9, 9) && OccursAt(t, 8, Fence) && t[7..9] == "a`"
  {
    var t := "```json" + "a````json";
    assert t[9..16] == JsonFence;
    assert t[8..11] == Fence;
    assert !OccursAt(t, 7, JsonFence) by { assert t[7] != '`'; }
    assert !OccursAt(t, 8, JsonFence) by { assert t[11] != 'j'; }
  }

  /** Where the JSON starts: just after the first `json` fence, or else after the first fence. */
  function ContentStart(t: string): (s: nat)
    requires Contains(t, Fence)
    ensures s <= |t|
  {
    if Contains(t, JsonFence) then IndexOf(t, JsonFence).value + |JsonFence|
    else IndexOf(t, Fence).value + |Fence|
  }

  lemma JsonFenceHasFence(t: string)
    requires Contains(t, JsonFence)
    ensures Contains(t, Fence)
  {
    var i := IndexOf(t, JsonFence).value;
    assert t[i..i + |Fence|] == t[i..i + |JsonFence|][..|Fence|];
    ContainsWitness(t, Fence, i);
  }

  lemma OccursInSuffix(t: string, s: nat, k: nat, p: string)
    requires s <= |t|
    ensures OccursAt(t[s..], k, p) <==> OccursAt(t, s + k, p)
  {
    if s + k + |p| <= |t| {
      assert t[s..][k..k + |p|] == t[s + k..s + k + |p|];
    }
  }

  lemma OccursInPrefix(x: string, n: nat, k: nat, p: string)
    requires n <= |x| && k + |p| <= n
    ensures OccursAt(x[..n], k, p) <==> OccursAt(x, k, p)
  {
    assert x[..n][k..k + |p|] == x[k..k + |p|];
  }

  /** Within one text: cutting at the first `sep` (which starts with a fence) and then at
      the first fence leaves a fence-free prefix that ends at the end or where a fence starts. */
  lemma PieceShape(x: string, sep: string)
    requires |sep| >= |Fence| && sep[..|Fence|] == Fence
    ensures var seg := FirstPiece(FirstPiece(x, sep), Fence);
      && seg == x[..|seg|] && !Contains(seg, Fence)
      && (|seg| == |x| || OccursAt(x, |seg|, Fence))
  {
    var piece := FirstPiece(x, sep);
    var seg := FirstPiece(piece, Fence);
    var c := |seg|;
    if Contains(seg, Fence) {
      var k := IndexOf(seg, Fence).value;
      OccursInPrefix(piece, c, k, Fence);
    }
    if c < |piece| {
      OccursInPrefix(x, |piece|, c, Fence);
    } else if |piece| < |x| {
      assert x[c..c + |Fence|] == x[c..c + |sep|][..|Fence|];
    }
  }

  /** Cutting at the first fence twice leaves no fence before the cut. */
  lemma PieceFenceFree(x: string)
    ensures forall k: nat :: k < |FirstPiece(FirstPiece(x, Fence), Fence)| ==> !OccursAt(x, k, Fence)
  {
  }

  /** The split-based extraction after the first `sep` (a separator starting with a fence)
      is the trimmed text from just after that `sep` up to the end or to where a fence
      starts; with a plain fence as separator, that fence is the first one after the start. */
  lemma SegmentShape(t: string, sep: string) returns (e: nat)
    requires Contains(t, sep) && |sep| >= |Fence| && sep[..|Fence|] == Fence
    ensures FencedSegment(t, IndexOf(t, sep).value + |sep|, e, Trim(FirstPiece(SecondPiece(t, sep), Fence)))
    ensures sep == Fence ==> NoFenceBetween(t, IndexOf(t, sep).value + |sep|, e)
  {
    var s := IndexOf(t, sep).value + |sep|;
    e := SegmentShapeAt(t, s, sep, SecondPiece(t, sep));
    if sep == Fence {
      SegmentFenceFree(t, s, SecondPiece(t, sep));
    }
  }

  /** SegmentShape for the text from `s` on, whose first piece is `piece`, in the whole
      text's positions. */
  lemma SegmentShapeAt(t: string, s: nat, sep: string, piece: string) returns (e: nat)
    requires s <= |t| && |sep| >= |Fence| && sep[..|Fence|] == Fence
    requires piece == FirstPiece(t[s..], sep)
    ensures e == s + |FirstPiece(piece, Fence)|
    ensures FencedSegment(t, s, e, Trim(FirstPiece(piece, Fence)))
  {
    var rest := t[s..];
    var seg := FirstPiece(piece, Fence);
    PieceShape(rest, sep);
    e := s + |seg|;
    assert seg == t[s..e];
    assert !Contains(t[s..e], Fence) && Trim(seg) == Trim(t[s..e]);
    if |seg| < |rest| {
      OccursInSuffix(t, s, |seg|, Fence);
    }
    assert e == |t| || OccursAt(t, e, Fence);
  }

  /** With a plain fence as separator, no fence starts inside the segment. */
  lemma SegmentFenceFree(t: string, s: nat, piece: string)
    requires s <= |t| && piece == FirstPiece(t[s..], Fence)
    ensures NoFenceBetween(t, s, s + |FirstPiece(piece, Fence)|)
  {
    PieceFenceFree(t[s..]);
    PieceShape(t[s..], Fence);
    SuffixFenceFree(t, s, |FirstPiece(piece, Fence)|);
  }

  /** Within one text: the two cuts of the split, read from the start. */
  lemma PieceEnds(x: string, sep: string)
    requires |sep| > 0
    ensures SplitEnds(x, 0, sep, |FirstPiece(x, sep)|, |FirstPiece(FirstPiece(x, sep), Fence)|)
  {
    var piece := FirstPiece(x, sep);
    var seg := FirstPiece(piece, Fence);
    if |seg| < |piece| {
      OccursInPrefix(x, |piece|, |seg|, Fence);
    }
    forall k: nat | k < |seg| && k + |Fence| <= |piece| ensures !OccursAt(x, k, Fence) {
      OccursInPrefix(x, |piece|, k, Fence);
    }
  }

  /** Cuts read from `s` in the suffix are the same cuts, shifted, in the whole text. */
  lemma SplitEndsShift(t: string, s: nat, sep: string, j: nat, e: nat)
    requires s <= |t| && SplitEnds(t[s..], 0, sep, j, e)
    ensures SplitEnds(t, s, sep, s + j, s + e)
  {
    forall k: nat | s <= k < s + j ensures !OccursAt(t, k, sep) {
      OccursInSuffix(t, s, k - s, sep);
    }
    OccursInSuffix(t, s, j, sep);
    OccursInSuffix(t, s, e, Fence);
    forall k: nat | s <= k < s + e && k + |Fence| <= s + j ensures !OccursAt(t, k, Fence) {
      OccursInSuffix(t, s, k - s, Fence);
    }
  }

  /** The two cuts of the split of the text from `s` on, in the whole text's positions. */
  lemma SegmentEndsAt(t: string, s: nat, sep: string) returns (j: nat, e: nat)
    requires s <= |t| && |sep| > 0
    ensures SplitEnds(t, s, sep, j, e) && t[s..e] == FirstPiece(FirstPiece(t[s..], sep), Fence)
  {
    var rest := t[s..];
    var piece := FirstPiece(rest, sep);
    var seg := FirstPiece(piece, Fence);
    PieceEnds(rest, sep);
    SplitEndsShift(t, s, sep, |piece|, |seg|);
    j, e := s + |piece|, s + |seg|;
    assert seg == t[s..e];
  }

  /** The split-based extraction after the first `sep` ends exactly at the cuts SplitEnds
      describes. */
  lemma SegmentCut(t: string, sep: string)
    requires Contains(t, sep) && |sep| > 0
    ensures CutBetween(t, IndexOf(t, sep).value + |sep|, sep, Trim(FirstPiece(SecondPiece(t, sep), Fence)))
  {
    var s := IndexOf(t, sep).value + |sep|;
    var piece := SecondPiece(t, sep);
    var j, e := SegmentEndsAt(t, s, sep);
    CutWitness(t, s, sep, j, e, Trim(FirstPiece(piece, Fence)));
  }

  lemma CutWitness(t: string, s: nat, sep: string, j: nat, e: nat, x: string)
    requires SplitEnds(t, s, sep, j, e) && x == Trim(t[s..e])
    ensures CutBetween(t, s, sep, x)
  {
  }

  lemma SuffixFenceFree(t: string, s: nat, n: nat)
    requires s + n <= |t| && forall k: nat :: k < n ==> !OccursAt(t[s..], k, Fence)
    ensures NoFenceBetween(t, s, s + n)
  {
    forall k: nat | s <= k < s + n ensures !OccursAt(t, k, Fence) {
      OccursInSuffix(t, s, k - s, Fence);
    }
  }

  /** The trimmed text of a segment without fences holds none. */
  lemma SegmentHasNoFence(t: string, s: nat, e: nat, j: string)
    requires FencedSegment(t, s, e, j)
    ensures !Contains(j, Fence)
  {
    var x := t[s..e];
    var a, b :| 0 <= a <= b <= |x| && Trim(x) == x[a..b];
    if Contains(j, Fence) {
      ContainsInSlice(x, Fence, a, b);
    }
  }

  /** The fence extraction of `analyzeWithClaude`: the text inside the first `json` fence
      if there is one, else inside the first plain fence, else the reply unchanged. */
  method ExtractJson(responseText: string) returns (jsonText: string)
    ensures !Contains(responseText, Fence) ==> jsonText == responseText
    ensures Contains(responseText, Fence) ==>
      exists e :: FencedSegment(responseText, ContentStart(responseText), e, jsonText)
    ensures Contains(responseText, Fence) && !Contains(responseText, JsonFence) ==>
      exists e :: FencedSegment(responseText, ContentStart(responseText), e, jsonText)
                  && NoFenceBetween(responseText, ContentStart(responseText), e)
    ensures Contains(responseText, Fence) ==> !Contains(jsonText, Fence)
    ensures Contains(responseText, Fence) && Contains(responseText, JsonFence) ==>
      CutBetween(responseText, ContentStart(responseText), JsonFence, jsonText)
    ensures Contains(responseText, Fence) && !Contains(responseText, JsonFence) ==>
      CutBetween(responseText, ContentStart(responseText), Fence, jsonText)
  {
    jsonText := responseText;
    if Contains(responseText, JsonFence) {
      jsonText := Trim(FirstPiece(SecondPiece(responseText, JsonFence), Fence));
      JsonFenceHasFence(responseText);
      ghost var e := SegmentShape(responseText, JsonFence);
      SegmentCut(responseText, JsonFence);
      SegmentHasNoFence(responseText, ContentStart(responseText), e, jsonText);
    } else if Contains(responseText, Fence) {
      jsonText := Trim(FirstPiece(SecondPiece(responseText, Fence), Fence));
      ghost var e := SegmentShape(responseText, Fence);
      SegmentCut(responseText, Fence);
      SegmentHasNoFence(responseText, ContentStart(responseText), e, jsonText);
    }
  }
}
