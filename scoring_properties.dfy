/**
  Properties of the scoring engine: which criteria are monotone in their counts, which
  are banded and therefore not, the zero-image guard, missing versus zero, and a page
  that earns every point.
*/
module ScoringProperties {
  import opened Strings
  import opened Scoring

  /** Every validated count of `v` is at most the matching count of `w`. */
  predicate ValidatedLe(v: Validated, w: Validated) {
    NumLe(v.expertQuotes, w.expertQuotes) && NumLe(v.statistics, w.statistics)
    && NumLe(v.sources, w.sources) && NumLe(v.caseStudies, w.caseStudies)
    && NumLe(v.faqCount, w.faqCount)
  }

  /** The monotone criteria's threshold tables are staircases. */
  lemma CredibilityStaircases()
    ensures Staircase(CredQuoteRungs) && Staircase(CredStatRungs) && Staircase(CredSourceRungs)
  {
  }

  lemma AccuracyStaircases()
    ensures Staircase(AccStatRungs) && Staircase(AccCaseRungs)
    ensures Staircase(AccSourceRungs) && Staircase(AccLinkRungs)
  {
  }

  lemma ActionabilityStaircases()
    ensures Staircase(ListRungs) && Staircase(ParagraphRungs) && Staircase(TableRungs)
  {
  }

  /** Credibility never falls when a validated count rises. */
  lemma CredibilityMonotone(v: Validated, w: Validated)
    requires ValidatedLe(v, w)
    ensures Credibility(v) <= Credibility(w)
  {
    CredibilityStaircases();
    LadderMonotone(v.expertQuotes, w.expertQuotes, CredQuoteRungs);
    LadderMonotone(v.statistics, w.statistics, CredStatRungs);
    LadderMonotone(v.sources, w.sources, CredSourceRungs);
  }

  /** Full credibility needs three quotes, ten statistics and five sources; no credit at all
      means none of the three counts reaches 1. */
  lemma CredibilityExtremes(v: Validated)
    ensures Credibility(v) == 10 <==>
      AtLeast(v.expertQuotes, 3) && AtLeast(v.statistics, 10) && AtLeast(v.sources, 5)
    ensures Credibility(v) == 0 <==>
      !AtLeast(v.expertQuotes, 1) && !AtLeast(v.statistics, 1) && !AtLeast(v.sources, 1)
  {
    Ladder3(v.expertQuotes, From(3, 4), From(2, 3), From(1, 2));
    Ladder2(v.expertQuotes, From(2, 3), From(1, 2));
    Ladder3(v.statistics, From(10, 3), From(5, 2), From(1, 1));
    Ladder2(v.statistics, From(5, 2), From(1, 1));
    Ladder3(v.sources, From(5, 3), From(3, 2), From(1, 1));
    Ladder2(v.sources, From(3, 2), From(1, 1));
  }

  /** The validation the hybrid-system test script feeds the engine (3 quotes, 3 statistics,
      5 sources) earns 4 + 1 + 3 credibility points. */
  lemma CredibilityOfTestValidation()
    ensures Credibility(Validated(Some(3.0), Some(3.0), Some(5.0), Some(1.0), Some(4.0))) == 8
  {
  }

  /** Accuracy never falls when a validated count or the external-link count rises. */
  lemma AccuracyMonotone(v: Validated, w: Validated, c: Metrics, d: Metrics)
    requires ValidatedLe(v, w) && c.externalLinks <= d.externalLinks
    ensures Accuracy(v, c) <= Accuracy(w, d)
  {
    AccuracyStaircases();
    LadderMonotone(v.statistics, w.statistics, AccStatRungs);
    LadderMonotone(v.caseStudies, w.caseStudies, AccCaseRungs);
    LadderMonotone(v.sources, w.sources, AccSourceRungs);
    LadderMonotone(Some(c.externalLinks as real), Some(d.externalLinks as real), AccLinkRungs);
  }

  /** Actionability never falls when lists, paragraphs, tables or comparison tables rise. */
  lemma ActionabilityMonotone(c: Metrics, d: Metrics)
    requires NumLe(c.lists, d.lists) && NumLe(c.paragraphCount, d.paragraphCount)
    requires c.tables <= d.tables && c.comparisonTables <= d.comparisonTables
    ensures Actionability(c) <= Actionability(d)
  {
    ActionabilityStaircases();
    LadderMonotone(c.lists, d.lists, ListRungs);
    LadderMonotone(c.paragraphCount, d.paragraphCount, ParagraphRungs);
    LadderMonotone(Some(c.tables as real), Some(d.tables as real), TableRungs);
  }

  /** FAQ integration never falls when the validated FAQ count or the average answer length
      rises (the schema types held fixed). */
  lemma FaqIntegrationMonotone(v: Validated, w: Validated, c: Metrics, d: Metrics)
    requires SchemaTypesReadable(c) && d.schemaTypes == c.schemaTypes
    requires NumLe(v.faqCount, w.faqCount) && NumLe(c.faqAvgWords, d.faqAvgWords)
    ensures FaqIntegration(v, c) <= FaqIntegration(w, d)
  {
    LadderMonotone(v.faqCount, w.faqCount, FaqRungs);
  }

  /** FAQ integration: three FAQ tiers, then one point each for long answers and for an
      FAQPage schema type. */
  lemma FaqIntegrationTiers(v: Validated, c: Metrics)
    requires SchemaTypesReadable(c)
    ensures FaqIntegration(v, c) ==
      (if AtLeast(v.faqCount, 8) then 3 else if AtLeast(v.faqCount, 5) then 2
       else if AtLeast(v.faqCount, 3) then 1 else 0)
      + (if AtLeast(c.faqAvgWords, 80) then 1 else 0)
      + (if c.schemaTypes.TypeList? && "FAQPage" in c.schemaTypes.types then 1 else 0)
  {
    Ladder3(v.faqCount, From(8, 3), From(5, 2), From(3, 1));
    Ladder2(v.faqCount, From(5, 2), From(3, 1));
  }

  /** Trust building never falls when validated quotes, case studies or external links rise. */
  lemma TrustBuildingMonotone(v: Validated, w: Validated, c: Metrics, d: Metrics)
    requires ValidatedLe(v, w) && c.externalLinks <= d.externalLinks
    ensures TrustBuilding(v, c) <= TrustBuilding(w, d)
  {
    LadderMonotone(v.expertQuotes, w.expertQuotes, TrustQuoteRungs);
  }

  /** Trust building: 2 or 1 for eight or four quotes, 1 for a case study, 1 for three
      external links. */
  lemma TrustBuildingTiers(v: Validated, c: Metrics)
    ensures TrustBuilding(v, c) ==
      (if AtLeast(v.expertQuotes, 8) then 2 else if AtLeast(v.expertQuotes, 4) then 1 else 0)
      + (if AtLeast(v.caseStudies, 1) then 1 else 0) + (if c.externalLinks >= 3 then 1 else 0)
  {
    Ladder2(v.expertQuotes, From(8, 2), From(4, 1));
  }

  /** Internal linking: 4, 3, 2, 1, 0 at the thresholds 30, 20, 10, 5, and monotone. */
  lemma InternalLinkingTiers(c: Metrics, d: Metrics)
    ensures InternalLinking(c) ==
      (if c.internalLinks >= 30 then 4 else if c.internalLinks >= 20 then 3
       else if c.internalLinks >= 10 then 2 else if c.internalLinks >= 5 then 1 else 0)
    ensures c.internalLinks <= d.internalLinks ==> InternalLinking(c) <= InternalLinking(d)
  {
    var n := Some(c.internalLinks as real);
    Ladder4(n, From(30, 4), From(20, 3), From(10, 2), From(5, 1));
    Ladder3(n, From(20, 3), From(10, 2), From(5, 1));
    Ladder2(n, From(10, 2), From(5, 1));
    if c.internalLinks <= d.internalLinks {
      LadderMonotone(Some(c.internalLinks as real), Some(d.internalLinks as real), InternalLinkRungs);
    }
  }

  /** The banded criteria are not monotone: with everything else fixed, 3000 words earn more
      relevance than 3001, and a 60-character title more than a 71-character one. */
  lemma RelevanceNotMonotone(c: Metrics)
    ensures Relevance(c.(wordCount := 3000)) == Relevance(c.(wordCount := 3001)) + 1
    ensures Relevance(c.(metaTitleLength := 60)) == Relevance(c.(metaTitleLength := 71)) + 2
  {
    Ladder3(Some(3000.0), Band(1500, 3000, 3), From(800, 2), From(500, 1));
    Ladder3(Some(3001.0), Band(1500, 3000, 3), From(800, 2), From(500, 1));
    Ladder2(Some(3001.0), From(800, 2), From(500, 1));
    Ladder3(Some(60.0), Band(50, 60, 3), Band(40, 70, 2), From(30, 1));
    Ladder3(Some(71.0), Band(50, 60, 3), Band(40, 70, 2), From(30, 1));
    Ladder2(Some(71.0), Band(40, 70, 2), From(30, 1));
  }

  /** Heading hierarchy is not monotone in the H1 count: one H1 earns more than two. */
  lemma HeadingHierarchyNotMonotone(c: Metrics)
    ensures HeadingHierarchy(c.(h1Count := 1)) == HeadingHierarchy(c.(h1Count := 2)) + 1
  {
  }

  /** Freshness is not monotone in the image count, because the alt-text ratio falls when
      an image without alt text is added: one described image beats two images, one described. */
  lemma FreshnessNotMonotoneInImages(c: Metrics)
    ensures Freshness(c.(images := 1, imagesWithAlt := 1)) == Freshness(c.(images := 2, imagesWithAlt := 1)) + 1
  {
    Ladder3(Some(1.0), From(8, 3), From(5, 2), From(2, 1));
    Ladder2(Some(1.0), From(5, 2), From(2, 1));
    Ladder3(Some(2.0), From(8, 3), From(5, 2), From(2, 1));
    Ladder2(Some(2.0), From(5, 2), From(2, 1));
  }

  /** With no images none of the three alt-ratio rules awards anything, whatever
      `imagesWithAlt` says: the ratio is never formed. */
  lemma NoImagesNoAltPoints(c: Metrics)
    requires c.images == 0
    ensures Freshness(c) == Ladder(Some(c.wordCount as real), DepthRungs) + Bonus(Truthy(c.hasSchema), 1)
    ensures AddVisuals(c) == Bonus(c.tables >= 1, 1) + Bonus(c.comparisonTables >= 1, 1)
    ensures MobileOptimization(c) == Bonus(AtMost(c.avgParagraphLength, 120), 2)
  {
    Ladder3(Some(0.0), From(8, 3), From(5, 2), From(2, 1));
    Ladder2(Some(0.0), From(5, 2), From(2, 1));
    Ladder2(Some(0.0), From(8, 2), From(4, 1));
  }

  /** A missing average paragraph length is not treated as 0: 0 earns the readability points
      of mobile optimisation, a missing field does not. */
  lemma MissingIsNotZero(c: Metrics)
    requires c.avgParagraphLength.None?
    ensures MobileOptimization(c.(avgParagraphLength := Some(0.0))) == MobileOptimization(c) + 2
  {
  }

  /** The two averages are real numbers, so a value just past a band's integer edge falls
      outside it: 100.5 words per paragraph earns the outer band's 1 point in cutting the
      fluff, not 2, and loses mobile optimisation's readability points past 120; an FAQ
      answer averaging 79.5 words misses the bonus that 80 earns. */
  lemma FractionalAveragesMissBands(v: Validated, c: Metrics)
    requires SchemaTypesReadable(c)
    ensures Ladder(Some(100.0), AvgParagraphRungs) == 2 && Ladder(Some(100.5), AvgParagraphRungs) == 1
    ensures MobileOptimization(c.(avgParagraphLength := Some(120.0)))
            == MobileOptimization(c.(avgParagraphLength := Some(120.5))) + 2
    ensures FaqIntegration(v, c.(faqAvgWords := Some(80.0))) == FaqIntegration(v, c.(faqAvgWords := Some(79.5))) + 1
  {
    Ladder2(Some(100.0), Band(40, 100, 2), Band(30, 150, 1));
    Ladder2(Some(100.5), Band(40, 100, 2), Band(30, 150, 1));
  }

  /** Schema markup scores 0 unless `hasSchema` is set, and never scores when the types are
      a number (the parser's form of the field). */
  lemma SchemaMarkupNeedsSchemaFlag(c: Metrics)
    ensures SchemaMarkup(c) > 0 ==> Truthy(c.hasSchema) && c.schemaTypes.TypeList? && |c.schemaTypes.types| >= 1
  {
  }

  /** Every validated count at its top tier. */
  predicate TopValidated(v: Validated) {
    AtLeast(v.expertQuotes, 8) && AtLeast(v.statistics, 10) && AtLeast(v.sources, 5)
    && AtLeast(v.caseStudies, 2) && AtLeast(v.faqCount, 8)
  }

  /** Every metric in a band or above a threshold that earns full points. */
  predicate TopMetrics(c: Metrics) {
    && 2500 <= c.wordCount <= 3000 && 50 <= c.metaTitleLength <= 60 && 140 <= c.metaDescLength <= 160
    && c.h1Count == 1 && c.h2Count >= 5 && c.tables >= 3 && c.comparisonTables >= 1
    && c.images >= 8 && c.imagesWithAlt == c.images && c.externalLinks >= 5 && c.internalLinks >= 30
    && AtLeast(c.lists, 5) && AtLeast(c.paragraphCount, 20)
    && AtLeast(c.avgParagraphLength, 40) && AtMost(c.avgParagraphLength, 100)
    && AtLeast(c.faqAvgWords, 80) && c.hasSchema == Some(true)
    && c.schemaTypes.TypeList? && |c.schemaTypes.types| >= 3 && "FAQPage" in c.schemaTypes.types
  }

  lemma TopGraaf(v: Validated, c: Metrics)
    requires TopValidated(v) && TopMetrics(c)
    ensures Credibility(v) == 10 && Relevance(c) == 10 && Actionability(c) == 10
    ensures Accuracy(v, c) == 10 && Freshness(c) == 10
  {
  }

  lemma TopCraft(v: Validated, c: Metrics)
    requires TopValidated(v) && TopMetrics(c)
    ensures CutFluff(c) == 7 && ReviewOptimize(c) == 8 && AddVisuals(c) == 6
    ensures FaqIntegration(v, c) == 5 && TrustBuilding(v, c) == 4
  {
  }

  lemma TopTechnical(c: Metrics)
    requires TopMetrics(c)
    ensures MetaOptimization(c) == 4 && SchemaMarkup(c) == 4 && InternalLinking(c) == 4
    ensures HeadingHierarchy(c) == 4 && MobileOptimization(c) == 4
  {
  }

  /** The tiers are reachable together: a page at the top of every table earns all 100 points. */
  lemma PerfectScore(v: Validated, c: Metrics)
    requires TopValidated(v) && TopMetrics(c)
    ensures CalculateScore(v, c).total == 100
  {
    TopGraaf(v, c);
    TopCraft(v, c);
    TopTechnical(c);
  }

  lemma PerfectScoreReachable()
    ensures exists v: Validated, c: Metrics :: SchemaTypesReadable(c) && CalculateScore(v, c).total == 100
  {
    assert TopValidated(Validated(Some(8.0), Some(10.0), Some(5.0), Some(2.0), Some(8.0)));
    assert TopMetrics(Metrics(2800, 55, 150, 1, 5, 3, 1, 8, 8, 5, 30, Some(5.0), Some(20.0), Some(50.0), Some(80.0),
                              Some(true), TypeList(["FAQPage", "Article", "Organization"])));
    var v: Validated :| TopValidated(v);
    var c: Metrics :| TopMetrics(c);
    PerfectScore(v, c);
  }
}
