/**
  The deterministic scoring engine: fifteen criteria, each an `if / else if` ladder of
  fixed integer thresholds over a few counts, grouped into GRAAF (50 points), CRAFT
  (30 points) and Technical SEO (20 points).

  The engine reads its inputs as JavaScript object fields.  A field that is never set is
  `undefined`, and every `>=` or `<=` comparison with `undefined` is false; `Num` models
  such a field.  Fields the parser always sets are plain naturals.
*/
module Scoring {
  import opened Strings

  /** A numeric field that may be missing (`None` is `undefined`, or `NaN`).  A present
      value is any JavaScript number, so an average such as 100.5 is one. */
  type Num = Option<real>

  predicate AtLeast(x: Num, k: int) { x.Some? && x.value >= k as real }
  predicate AtMost(x: Num, k: int) { x.Some? && x.value <= k as real }

  /** `x` is missing, or both are present and `x <= y`: every threshold `x` meets, `y` meets. */
  predicate NumLe(x: Num, y: Num) {
    x.None? || (y.Some? && x.value <= y.value)
  }

  /** The `schemaTypes` field as the engine may find it: missing, a number (which is what
      the parser stores there), or a list of schema.org type names. */
  datatype SchemaTypes = NoTypes | TypeCount(n: nat) | TypeList(types: seq<string>)

  /** The validated counts the engine reads (the validator's output). */
  datatype Validated = Validated(
    expertQuotes: Num, statistics: Num, sources: Num, caseStudies: Num, faqCount: Num)

  /** The parser counts the engine reads.  The parser never sets `lists`, `paragraphCount`,
      `avgParagraphLength`, `faqAvgWords` or `hasSchema`, and stores a number in `schemaTypes`. */
  datatype Metrics = Metrics(
    wordCount: nat, metaTitleLength: nat, metaDescLength: nat,
    h1Count: nat, h2Count: nat,
    tables: nat, comparisonTables: nat,
    images: nat, imagesWithAlt: nat,
    externalLinks: nat, internalLinks: nat,
    lists: Num, paragraphCount: Num, avgParagraphLength: Num, faqAvgWords: Num,
    hasSchema: Option<bool>, schemaTypes: SchemaTypes)

  /** One rung of a ladder: `lo <= x` (and `x <= hi` when there is an upper bound) earns `points`. */
  datatype Rung = Rung(lo: int, hi: Option<int>, points: nat)

  function From(lo: int, points: nat): Rung { Rung(lo, None, points) }
  function Band(lo: int, hi: int, points: nat): Rung { Rung(lo, Some(hi), points) }

  predicate Holds(x: Num, r: Rung) {
    AtLeast(x, r.lo) && (r.hi.None? || AtMost(x, r.hi.value))
  }

  function Top(rungs: seq<Rung>): nat {
    if rungs == [] then 0 else rungs[0].points
  }

  /** The highest number of points any rung offers. */
  function MaxPoints(rungs: seq<Rung>): nat {
    if rungs == [] then 0 else Max(rungs[0].points, MaxPoints(rungs[1..]))
  }

  /** An if / else-if chain that adds the points of a branch: the points of the first
      rung that holds, or 0 when none does. */
  function Ladder(x: Num, rungs: seq<Rung>): (p: nat)
    ensures p <= MaxPoints(rungs)
  {
    if rungs == [] then 0
    else if Holds(x, rungs[0]) then rungs[0].points
    else Ladder(x, rungs[1..])
  }

  /** A threshold table proper: no upper bounds, thresholds strictly falling, points falling. */
  ghost predicate Staircase(rungs: seq<Rung>) {
    (forall k :: 0 <= k < |rungs| ==> rungs[k].hi.None?) &&
    (forall k :: 0 < k < |rungs| ==> rungs[k].lo < rungs[k - 1].lo && rungs[k].points <= rungs[k - 1].points)
  }

  lemma {:induction false} StaircaseMax(rungs: seq<Rung>)
    requires Staircase(rungs)
    ensures MaxPoints(rungs) == Top(rungs)
  {
    if |rungs| > 1 {
      StaircaseMax(rungs[1..]);
    }
  }

  /** On a staircase, a larger count never earns fewer points. */
  lemma {:induction false} LadderMonotone(x: Num, y: Num, rungs: seq<Rung>)
    requires Staircase(rungs) && NumLe(x, y)
    ensures Ladder(x, rungs) <= Ladder(y, rungs)
  {
    if rungs != [] {
      if Holds(x, rungs[0]) {
        assert Holds(y, rungs[0]);
      } else if Holds(y, rungs[0]) {
        StaircaseMax(rungs[1..]);
      } else {
        LadderMonotone(x, y, rungs[1..]);
      }
    }
  }

  /** A two-rung ladder is an `if / else if` on its two rungs. */
  lemma Ladder2(x: Num, r0: Rung, r1: Rung)
    ensures Ladder(x, [r0, r1]) == if Holds(x, r0) then r0.points else if Holds(x, r1) then r1.points else 0
  {
    assert [r0, r1][1..] == [r1];
    assert [r1][1..] == [];
  }

  lemma Ladder3(x: Num, r0: Rung, r1: Rung, r2: Rung)
    ensures Ladder(x, [r0, r1, r2]) == if Holds(x, r0) then r0.points else Ladder(x, [r1, r2])
  {
    assert [r0, r1, r2][1..] == [r1, r2];
  }

  lemma Ladder4(x: Num, r0: Rung, r1: Rung, r2: Rung, r3: Rung)
    ensures Ladder(x, [r0, r1, r2, r3]) == if Holds(x, r0) then r0.points else Ladder(x, [r1, r2, r3])
  {
    assert [r0, r1, r2, r3][1..] == [r1, r2, r3];
  }

  function Bonus(b: bool, points: nat): nat { if b then points else 0 }

  predicate Truthy(b: Option<bool>) { b == Some(true) }

  /** `images > 0 && imagesWithAlt / images >= num / den`, in integer arithmetic. */
  predicate AltRatioAtLeast(c: Metrics, num: nat, den: nat) {
    c.images > 0 && den * c.imagesWithAlt >= num * c.images
  }

  // ---------------------------------------------------------------------------
  // Threshold tables
  // ---------------------------------------------------------------------------

  const TitleRungs := [Band(50, 60, 3), Band(40, 70, 2), From(30, 1)]
  const DescRungs := [Band(140, 160, 3), Band(120, 180, 2), From(100, 1)]

  // ---------------------------------------------------------------------------
  // GRAAF (50 points)
  // ---------------------------------------------------------------------------

  const CredQuoteRungs := [From(3, 4), From(2, 3), From(1, 2)]
  const CredStatRungs := [From(10, 3), From(5, 2), From(1, 1)]
  const CredSourceRungs := [From(5, 3), From(3, 2), From(1, 1)]

  /** Genuinely credible: validated quotes (up to 4), statistics (3) and sources (3). */
  function Credibility(v: Validated): (score: nat)
    ensures score <= 10
    ensures score == Ladder(v.expertQuotes, CredQuoteRungs) + Ladder(v.statistics, CredStatRungs)
                     + Ladder(v.sources, CredSourceRungs)
  {
    Min(Ladder(v.expertQuotes, CredQuoteRungs) + Ladder(v.statistics, CredStatRungs)
        + Ladder(v.sources, CredSourceRungs), 10)
  }

  const RelevanceWordRungs := [Band(1500, 3000, 3), From(800, 2), From(500, 1)]

  /** Relevance: title band, description band, word-count band, and 1 for five or more H2s. */
  function Relevance(c: Metrics): (score: nat)
    ensures score <= 10
    ensures score == Ladder(Some(c.metaTitleLength as real), TitleRungs) + Ladder(Some(c.metaDescLength as real), DescRungs)
                     + Ladder(Some(c.wordCount as real), RelevanceWordRungs) + Bonus(c.h2Count >= 5, 1)
  {
    Min(Ladder(Some(c.metaTitleLength as real), TitleRungs) + Ladder(Some(c.metaDescLength as real), DescRungs)
        + Ladder(Some(c.wordCount as real), RelevanceWordRungs) + Bonus(c.h2Count >= 5, 1), 10)
  }

  const ListRungs := [From(5, 3), From(3, 2), From(1, 1)]
  const ParagraphRungs := [From(20, 3), From(10, 2), From(5, 1)]
  const TableRungs := [From(3, 3), From(1, 2)]

  /** Actionability: lists, paragraphs, tables, and 1 for a comparison table. */
  function Actionability(c: Metrics): (score: nat)
    ensures score <= 10
    ensures score == Ladder(c.lists, ListRungs) + Ladder(c.paragraphCount, ParagraphRungs)
                     + Ladder(Some(c.tables as real), TableRungs) + Bonus(c.comparisonTables >= 1, 1)
  {
    Min(Ladder(c.lists, ListRungs) + Ladder(c.paragraphCount, ParagraphRungs)
        + Ladder(Some(c.tables as real), TableRungs) + Bonus(c.comparisonTables >= 1, 1), 10)
  }

  const AccStatRungs := [From(5, 3), From(3, 2), From(1, 1)]
  const AccCaseRungs := [From(2, 3), From(1, 2)]
  const AccSourceRungs := [From(3, 2), From(1, 1)]
  const AccLinkRungs := [From(5, 2), From(2, 1)]

  /** Accuracy: validated statistics, case studies and sources, and raw external links. */
  function Accuracy(v: Validated, c: Metrics): (score: nat)
    ensures score <= 10
    ensures score == Ladder(v.statistics, AccStatRungs) + Ladder(v.caseStudies, AccCaseRungs)
                     + Ladder(v.sources, AccSourceRungs) + Ladder(Some(c.externalLinks as real), AccLinkRungs)
  {
    Min(Ladder(v.statistics, AccStatRungs) + Ladder(v.caseStudies, AccCaseRungs)
        + Ladder(v.sources, AccSourceRungs) + Ladder(Some(c.externalLinks as real), AccLinkRungs), 10)
  }

  const DepthRungs := [From(2500, 3), From(1500, 2), From(800, 1)]
  const ImageRungs := [From(8, 3), From(5, 2), From(2, 1)]

  /** Points for alt-text coverage in freshness: ratio >= 0.9, 0.7, 0.5 gives 3, 2, 1. */
  function FreshAltPoints(c: Metrics): (p: nat)
    ensures p <= 3
    ensures c.images == 0 ==> p == 0
  {
    if c.images > 0 then
      if AltRatioAtLeast(c, 9, 10) then 3
      else if AltRatioAtLeast(c, 7, 10) then 2
      else if AltRatioAtLeast(c, 1, 2) then 1
      else 0
    else 0
  }

  /** Freshness: word depth, image count, alt coverage, and 1 when `hasSchema` is set. */
  function Freshness(c: Metrics): (score: nat)
    ensures score <= 10
    ensures score == Ladder(Some(c.wordCount as real), DepthRungs) + Ladder(Some(c.images as real), ImageRungs)
                     + FreshAltPoints(c) + Bonus(Truthy(c.hasSchema), 1)
  {
    Min(Ladder(Some(c.wordCount as real), DepthRungs) + Ladder(Some(c.images as real), ImageRungs)
        + FreshAltPoints(c) + Bonus(Truthy(c.hasSchema), 1), 10)
  }

  // ---------------------------------------------------------------------------
  // CRAFT (30 points)
  // ---------------------------------------------------------------------------

  const FluffWordRungs := [Band(1500, 3500, 3), Band(800, 5000, 2), From(500, 1)]
  const AvgParagraphRungs := [Band(40, 100, 2), Band(30, 150, 1)]
  const FluffParagraphRungs := [From(15, 2), From(8, 1)]

  /** Cut the fluff: word-count band, average-paragraph-length band, paragraph count. */
  function CutFluff(c: Metrics): (score: nat)
    ensures score <= 7
    ensures score == Ladder(Some(c.wordCount as real), FluffWordRungs) + Ladder(c.avgParagraphLength, AvgParagraphRungs)
                     + Ladder(c.paragraphCount, FluffParagraphRungs)
  {
    Min(Ladder(Some(c.wordCount as real), FluffWordRungs) + Ladder(c.avgParagraphLength, AvgParagraphRungs)
        + Ladder(c.paragraphCount, FluffParagraphRungs), 7)
  }

  /** Review and optimise: title band, description band, exactly one H1, five or more H2s. */
  function ReviewOptimize(c: Metrics): (score: nat)
    ensures score <= 8
    ensures score == Ladder(Some(c.metaTitleLength as real), TitleRungs) + Ladder(Some(c.metaDescLength as real), DescRungs)
                     + Bonus(c.h1Count == 1, 1) + Bonus(c.h2Count >= 5, 1)
  {
    Min(Ladder(Some(c.metaTitleLength as real), TitleRungs) + Ladder(Some(c.metaDescLength as real), DescRungs)
        + Bonus(c.h1Count == 1, 1) + Bonus(c.h2Count >= 5, 1), 8)
  }

  const VisualImageRungs := [From(8, 2), From(4, 1)]

  /** Points for alt-text coverage in add-visuals: ratio >= 0.8 gives 2, >= 0.5 gives 1. */
  function VisualAltPoints(c: Metrics): (p: nat)
    ensures p <= 2
    ensures c.images == 0 ==> p == 0
  {
    if AltRatioAtLeast(c, 4, 5) then 2 else if AltRatioAtLeast(c, 1, 2) then 1 else 0
  }

  /** Add visuals: image count, alt coverage, a table, a comparison table. */
  function AddVisuals(c: Metrics): (score: nat)
    ensures score <= 6
    ensures score == Ladder(Some(c.images as real), VisualImageRungs) + VisualAltPoints(c)
                     + Bonus(c.tables >= 1, 1) + Bonus(c.comparisonTables >= 1, 1)
  {
    Min(Ladder(Some(c.images as real), VisualImageRungs) + VisualAltPoints(c)
        + Bonus(c.tables >= 1, 1) + Bonus(c.comparisonTables >= 1, 1), 6)
  }

  /** `counts.schemaTypes.includes('FAQPage')` can be evaluated: the field is missing, a list,
      or the number 0 (falsy, so `.includes` is never reached).  A non-zero number makes
      `.includes` throw a TypeError. */
  predicate SchemaTypesReadable(c: Metrics) {
    !(c.schemaTypes.TypeCount? && c.schemaTypes.n > 0)
  }

  predicate ListsFaqPage(t: SchemaTypes) {
    t.TypeList? && "FAQPage" in t.types
  }

  const FaqRungs := [From(8, 3), From(5, 2), From(3, 1)]

  /** FAQ integration: validated FAQ count, 1 for answers averaging 80 words, 1 for an
      FAQPage schema type. */
  function FaqIntegration(v: Validated, c: Metrics): (score: nat)
    requires SchemaTypesReadable(c)
    ensures score <= 5
    ensures score == Ladder(v.faqCount, FaqRungs) + Bonus(AtLeast(c.faqAvgWords, 80), 1)
                     + Bonus(ListsFaqPage(c.schemaTypes), 1)
  {
    Min(Ladder(v.faqCount, FaqRungs) + Bonus(AtLeast(c.faqAvgWords, 80), 1)
        + Bonus(ListsFaqPage(c.schemaTypes), 1), 5)
  }

  const TrustQuoteRungs := [From(8, 2), From(4, 1)]

  /** Trust building: validated quotes, a validated case study, three external links. */
  function TrustBuilding(v: Validated, c: Metrics): (score: nat)
    ensures score <= 4
    ensures score == Ladder(v.expertQuotes, TrustQuoteRungs) + Bonus(AtLeast(v.caseStudies, 1), 1)
                     + Bonus(c.externalLinks >= 3, 1)
  {
    Min(Ladder(v.expertQuotes, TrustQuoteRungs) + Bonus(AtLeast(v.caseStudies, 1), 1)
        + Bonus(c.externalLinks >= 3, 1), 4)
  }

  // ---------------------------------------------------------------------------
  // Technical SEO (20 points)
  // ---------------------------------------------------------------------------

  const MetaTitleRungs := [Band(50, 60, 2), Band(40, 70, 1)]
  const MetaDescRungs := [Band(140, 160, 2), Band(120, 180, 1)]

  /** Meta optimisation: title band and description band, 2 points each. */
  function MetaOptimization(c: Metrics): (score: nat)
    ensures score <= 4
    ensures score == Ladder(Some(c.metaTitleLength as real), MetaTitleRungs) + Ladder(Some(c.metaDescLength as real), MetaDescRungs)
  {
    Min(Ladder(Some(c.metaTitleLength as real), MetaTitleRungs) + Ladder(Some(c.metaDescLength as real), MetaDescRungs), 4)
  }

  /** `counts.schemaTypes ? counts.schemaTypes.length : 0`: a list gives its length, a
      missing field or the number 0 gives 0, a non-zero number has no `length`. */
  function SchemaTypeCount(t: SchemaTypes): (n: Num)
    ensures t.TypeList? ==> n == Some(|t.types| as real)
    ensures n.None? <==> t.TypeCount? && t.n > 0
  {
    match t
    case NoTypes => Some(0.0)
    case TypeCount(k) => if k == 0 then Some(0.0) else None
    case TypeList(ts) => Some(|ts| as real)
  }

  /** Schema markup: nothing without `hasSchema`; otherwise 4, 3, 2 for three, two, one types. */
  function SchemaMarkup(c: Metrics): (score: nat)
    ensures !Truthy(c.hasSchema) ==> score == 0
    ensures Truthy(c.hasSchema) && c.schemaTypes.TypeList? ==>
      score == (if |c.schemaTypes.types| >= 3 then 4 else if |c.schemaTypes.types| == 2 then 3
                else if |c.schemaTypes.types| == 1 then 2 else 0)
    ensures c.schemaTypes.TypeCount? ==> score == 0
    ensures c.schemaTypes.NoTypes? ==> score == 0
  {
    if !Truthy(c.hasSchema) then 0
    else
      var types := SchemaTypeCount(c.schemaTypes);
      if AtLeast(types, 3) then 4
      else if AtLeast(types, 2) then 3
      else if AtLeast(types, 1) then 2
      else 0
  }

  const InternalLinkRungs := [From(30, 4), From(20, 3), From(10, 2), From(5, 1)]

  /** Internal linking: 4, 3, 2, 1 at 30, 20, 10, 5 internal links (no cap is applied). */
  function InternalLinking(c: Metrics): (score: nat)
    ensures score <= 4
  {
    Ladder(Some(c.internalLinks as real), InternalLinkRungs)
  }

  /** Heading hierarchy: 2 for exactly one H1, else 1 for several; 2 for five or more H2s,
      else 1 for three or four. */
  function HeadingHierarchy(c: Metrics): (score: nat)
    ensures score <= 4
    ensures score == (if c.h1Count == 1 then 2 else if c.h1Count > 1 then 1 else 0)
                     + (if c.h2Count >= 5 then 2 else if c.h2Count >= 3 then 1 else 0)
  {
    var h1 := if c.h1Count == 1 then 2 else if c.h1Count > 0 then 1 else 0;
    var h2 := if c.h2Count >= 5 then 2 else if c.h2Count >= 3 then 1 else 0;
    Min(h1 + h2, 4)
  }

  /** Mobile optimisation: 2 for alt coverage of at least 0.7, 2 for an average paragraph
      length of at most 120 words. */
  function MobileOptimization(c: Metrics): (score: nat)
    ensures score <= 4
    ensures score == Bonus(AltRatioAtLeast(c, 7, 10), 2) + Bonus(AtMost(c.avgParagraphLength, 120), 2)
  {
    Min(Bonus(AltRatioAtLeast(c, 7, 10), 2) + Bonus(AtMost(c.avgParagraphLength, 120), 2), 4)
  }

  // ---------------------------------------------------------------------------
  // The breakdown
  // ---------------------------------------------------------------------------

  datatype Graaf = Graaf(total: int, credibility: int, relevance: int, actionability: int,
                         accuracy: int, freshness: int)
  datatype Craft = Craft(total: int, cutFluff: int, reviewOptimize: int, addVisuals: int,
                         faqIntegration: int, trustBuilding: int)
  datatype Technical = Technical(total: int, metaOptimization: int, schemaMarkup: int,
                                 internalLinking: int, headingHierarchy: int, mobileOptimization: int)
  datatype ScoreBreakdown = ScoreBreakdown(total: int, graaf: Graaf, craft: Craft, technical: Technical)

  /** The GRAAF group: its total is the exact sum of its five criteria. */
  function GraafScore(v: Validated, c: Metrics): (g: Graaf)
    ensures g.total == g.credibility + g.relevance + g.actionability + g.accuracy + g.freshness
    ensures 0 <= g.credibility <= 10 && 0 <= g.relevance <= 10
    ensures 0 <= g.actionability <= 10 && 0 <= g.accuracy <= 10
    ensures 0 <= g.freshness <= 10
    ensures 0 <= g.total <= 50
  {
    Graaf(
      Credibility(v) + Relevance(c) + Actionability(c) + Accuracy(v, c) + Freshness(c),
      Credibility(v), Relevance(c), Actionability(c), Accuracy(v, c), Freshness(c))
  }

  /** The CRAFT group: its total is the exact sum of its five criteria. */
  function CraftScore(v: Validated, c: Metrics): (g: Craft)
    requires SchemaTypesReadable(c)
    ensures g.total == g.cutFluff + g.reviewOptimize + g.addVisuals + g.faqIntegration + g.trustBuilding
    ensures 0 <= g.cutFluff <= 7 && 0 <= g.reviewOptimize <= 8
    ensures 0 <= g.addVisuals <= 6 && 0 <= g.faqIntegration <= 5
    ensures 0 <= g.trustBuilding <= 4
    ensures 0 <= g.total <= 30
  {
    Craft(
      CutFluff(c) + ReviewOptimize(c) + AddVisuals(c) + FaqIntegration(v, c) + TrustBuilding(v, c),
      CutFluff(c), ReviewOptimize(c), AddVisuals(c), FaqIntegration(v, c), TrustBuilding(v, c))
  }

  /** The Technical SEO group: its total is the exact sum of its five criteria. */
  function TechnicalScore(c: Metrics): (g: Technical)
    ensures g.total == g.metaOptimization + g.schemaMarkup + g.internalLinking
                       + g.headingHierarchy + g.mobileOptimization
    ensures 0 <= g.metaOptimization <= 4 && 0 <= g.schemaMarkup <= 4
    ensures 0 <= g.internalLinking <= 4 && 0 <= g.headingHierarchy <= 4
    ensures 0 <= g.mobileOptimization <= 4
    ensures 0 <= g.total <= 20
  {
    Technical(
      MetaOptimization(c) + SchemaMarkup(c) + InternalLinking(c) + HeadingHierarchy(c)
      + MobileOptimization(c),
      MetaOptimization(c), SchemaMarkup(c), InternalLinking(c), HeadingHierarchy(c),
      MobileOptimization(c))
  }

  /** `calculateScore`.  Every criterion is an integer, so each `Math.round` is the identity:
      each group total is the exact sum of its five criteria and the total is the exact sum
      of the three groups. */
  function CalculateScore(v: Validated, c: Metrics): (r: ScoreBreakdown)
    requires SchemaTypesReadable(c)
    ensures 0 <= r.graaf.total <= 50 && 0 <= r.craft.total <= 30 && 0 <= r.technical.total <= 20
    ensures 0 <= r.total <= 100
    ensures r.total == r.graaf.total + r.craft.total + r.technical.total
    ensures r.graaf == GraafScore(v, c) && r.craft == CraftScore(v, c) && r.technical == TechnicalScore(c)
  {
    var graaf := GraafScore(v, c);
    var craft := CraftScore(v, c);
    var technical := TechnicalScore(c);
    ScoreBreakdown(graaf.total + craft.total + technical.total, graaf, craft, technical)
  }

  /** `calculateScore` with its failure made explicit: when `counts.schemaTypes` is a non-zero
      number, `calculateFAQIntegration` reaches `.includes` on it and the TypeError escapes
      the whole calculation; otherwise the breakdown is returned. */
  function CalculateScoreChecked(v: Validated, c: Metrics): (r: Result<ScoreBreakdown>)
    ensures r.Err? <==> c.schemaTypes.TypeCount? && c.schemaTypes.n > 0
    ensures r.Ok? ==> r.value == CalculateScore(v, c) && 0 <= r.value.total <= 100
  {
    if SchemaTypesReadable(c) then Ok(CalculateScore(v, c))
    else Err("TypeError: counts.schemaTypes.includes is not a function")
  }
}
