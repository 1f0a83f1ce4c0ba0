/**
  The parser's counts fed straight into the scoring engine, as the hybrid pipeline does.
  Five of the metrics the engine reads are never produced by the parser and `schemaTypes`
  is always the number 0, so part of the 100 points can never be earned.
*/
module Pipeline {
  import opened Strings
  import opened Scoring
  import opened ContentParser
  import Validator

  lemma {:induction false} LadderOfMissing(rungs: seq<Rung>)
    ensures Ladder(None, rungs) == 0
  {
    if rungs != [] {
      LadderOfMissing(rungs[1..]);
    }
  }

  /** Parser counts reach the scoring engine with `schemaTypes` a number: scoring fails exactly
      when that number is non-zero, and the parser always records 0, so a parsed page is
      always scored. */
  lemma ParserFedScoreDefined(v: Validated, c: Counts)
    ensures CalculateScoreChecked(v, MetricsOf(c)).Ok? <==> c.schemaTypes == 0
  {
  }

  /** With parser counts, at most 81 points: lists and paragraph counts (6 points in
      actionability), `hasSchema` (1 in freshness), the paragraph measures (4 in cut-the-fluff),
      `faqAvgWords` and an FAQPage type (2 in FAQ integration), schema markup (4) and the
      paragraph length (2 in mobile optimisation) are out of reach. */
  lemma {:induction false} ParserFedScoreAtMost81(v: Validated, c: Counts)
    requires c.schemaTypes == 0
    ensures CalculateScore(v, MetricsOf(c)).total <= 81
  {
    ParserFedCriteria(v, c);
  }

  /** The criteria that lose points on parser counts, one by one. */
  lemma ParserFedCriteria(v: Validated, c: Counts)
    requires c.schemaTypes == 0
    ensures var m := MetricsOf(c);
      && Actionability(m) <= 4 && Freshness(m) <= 9 && CutFluff(m) <= 3
      && FaqIntegration(v, m) <= 3 && SchemaMarkup(m) == 0 && MobileOptimization(m) <= 2
  {
    var m := MetricsOf(c);
    LadderOfMissing(ListRungs);
    LadderOfMissing(ParagraphRungs);
    LadderOfMissing(AvgParagraphRungs);
    LadderOfMissing(FluffParagraphRungs);
  }

  /** With the fallback validation `sources` is missing as well, which costs 3 points of
      credibility and 2 of accuracy: at most 76. */
  lemma {:induction false} FallbackScoreAtMost76(c: Counts)
    requires c.schemaTypes == 0
    ensures CalculateScore(Validator.ValidatedOf(Validator.Fallback(c)), MetricsOf(c)).total <= 76
  {
    var v := Validator.ValidatedOf(Validator.Fallback(c));
    var m := MetricsOf(c);
    ParserFedCriteria(v, c);
    LadderOfMissing(CredSourceRungs);
    LadderOfMissing(AccSourceRungs);
    assert Credibility(v) <= 7;
    assert Accuracy(v, m) <= 8;
  }

  /** Parser counts of a long, well-built page: 2500 to 3000 words, a 50 to 60-character
      title, a 140 to 160-character description, one H1 and five H2s, three tables (one
      comparing), eight images all with alt text, five external and thirty internal links. */
  predicate RichPage(c: Counts) {
    && 2500 <= c.wordCount <= 3000 && 50 <= c.metaTitleLength <= 60 && 140 <= c.metaDescLength <= 160
    && c.h1Count == 1 && c.h2Count >= 5 && c.tables >= 3 && c.comparisonTables >= 1
    && c.images >= 8 && c.imagesWithAlt == c.images && c.externalLinks >= 5 && c.internalLinks >= 30
    && c.schemaTypes == 0
  }

  /** Every validated count at its top tier. */
  predicate TopValidation(v: Validated) {
    AtLeast(v.expertQuotes, 8) && AtLeast(v.statistics, 10) && AtLeast(v.sources, 5)
    && AtLeast(v.caseStudies, 2) && AtLeast(v.faqCount, 8)
  }

  /** What a rich page earns on the criteria that read only parser counts. */
  lemma RichPageContentCriteria(c: Counts)
    requires RichPage(c)
    ensures var m := MetricsOf(c);
      Relevance(m) == 10 && Actionability(m) == 4 && Freshness(m) == 9
      && CutFluff(m) == 3 && ReviewOptimize(m) == 8 && AddVisuals(m) == 6
  {
    LadderOfMissing(ListRungs);
    LadderOfMissing(ParagraphRungs);
    LadderOfMissing(AvgParagraphRungs);
    LadderOfMissing(FluffParagraphRungs);
  }

  lemma RichPageTechnicalCriteria(c: Counts)
    requires RichPage(c)
    ensures var m := MetricsOf(c);
      MetaOptimization(m) == 4 && SchemaMarkup(m) == 0 && InternalLinking(m) == 4
      && HeadingHierarchy(m) == 4 && MobileOptimization(m) == 2
  {
  }

  /** The bound of 81 is reached: a rich page with every validated count at its top tier. */
  lemma ParserFedMaximumReached(v: Validated, c: Counts)
    requires RichPage(c) && TopValidation(v)
    ensures CalculateScore(v, MetricsOf(c)).total == 81
  {
    RichPageContentCriteria(c);
    RichPageTechnicalCriteria(c);
    RichPageValidatedCriteria(v, c);
  }

  lemma RichPageValidatedCriteria(v: Validated, c: Counts)
    requires RichPage(c) && TopValidation(v)
    ensures var m := MetricsOf(c);
      Credibility(v) == 10 && Accuracy(v, m) == 10 && FaqIntegration(v, m) == 3 && TrustBuilding(v, m) == 4
  {
  }

  /** The bound of 76 is reached: a rich page whose parser counts are at the top tiers, left
      unvalidated. */
  lemma FallbackMaximumReached(c: Counts)
    requires RichPage(c)
    requires c.expertQuotes >= 8 && c.statistics >= 10 && c.caseStudies >= 2 && c.faqCount >= 8
    ensures CalculateScore(Validator.ValidatedOf(Validator.Fallback(c)), MetricsOf(c)).total == 76
  {
    RichPageContentCriteria(c);
    RichPageTechnicalCriteria(c);
    RichPageFallbackCriteria(c);
  }

  lemma RichPageFallbackCriteria(c: Counts)
    requires RichPage(c)
    requires c.expertQuotes >= 8 && c.statistics >= 10 && c.caseStudies >= 2 && c.faqCount >= 8
    ensures var v := Validator.ValidatedOf(Validator.Fallback(c));
      var m := MetricsOf(c);
      Credibility(v) == 7 && Accuracy(v, m) == 8 && FaqIntegration(v, m) == 3 && TrustBuilding(v, m) == 4
  {
    LadderOfMissing(CredSourceRungs);
    LadderOfMissing(AccSourceRungs);
  }
}
