/**
  `parseContent`: one pass of every extractor over a page, assembled into the parser
  output: the counts the scoring engine reads, capped snippet lists for the validator and
  a little metadata.

  The page is given as its element list (before scripts and styles are removed), the text
  of its body once they are removed, and the host name of the page address, which is
  `None` when the address does not parse.
*/
module ContentParser {
  import opened Strings
  import opened Patterns
  import opened TextExtractors
  import opened Dom
  import Scoring

  datatype Document = Document(elements: seq<Element>, bodyText: string, pageHost: Option<string>)

  datatype Counts = Counts(
    wordCount: nat,
    expertQuotes: nat, statistics: nat, sourceCitations: nat,
    keywordInTitle: nat, keywordInFirst100: nat, keywordDensity: nat, lsiKeywords: nat,
    stepByStep: nat, examples: nat, ctas: nat, toolsResources: nat,
    dataCitations: nat, caseStudies: nat, factSources: nat, publicationDate: nat,
    lastModified: nat, currentYearMentions: nat, dataRecency: nat, trendingTopics: nat,
    fleschScore: real, avgSentenceLength: real, longParagraphs: nat,
    metaTitleLength: nat, metaDescLength: nat,
    images: nat, imagesWithAlt: nat, videos: nat, tables: nat, comparisonTables: nat,
    faqCount: nat, faqSchema: nat,
    authorBio: nat, credentials: nat, testimonials: nat, authorityLinks: nat,
    h1Count: nat, h2Count: nat, h3Count: nat, headingHierarchy: nat,
    internalLinks: nat, externalLinks: nat, schemaTypes: nat,
    tableOfContents: nat, mobileResponsive: nat)

  datatype Snippets = Snippets(expertQuotes: seq<Quote>, statistics: seq<Stat>, caseStudies: seq<string>, faqs: seq<Faq>)

  datatype Metadata = Metadata(title: string, description: string, h1Text: string, wordCount: nat, readability: real)

  datatype ParserOutput = ParserOutput(url: string, counts: Counts, snippets: Snippets, metadata: Metadata)

  /** The body text with every whitespace run made one space, trimmed. */
  function CleanText(bodyText: string): (t: string)
    ensures AllSpace(t) <==> AllSpace(bodyText)
  {
    Trim(Collapse(bodyText))
  }

  /** `xs.slice(0, n)`. */
  function Take<T>(xs: seq<T>, n: nat): (r: seq<T>)
    ensures |r| == Min(n, |xs|) && r == xs[..|r|]
  {
    if |xs| <= n then xs else xs[..n]
  }

  function Flag(b: bool): nat { if b then 1 else 0 }

  /** The full extraction lists the snippets are cut from. */
  ghost function QuotesIn(t: string): seq<Quote> {
    AllSound();
    MapItems(QuoteOf, t, AllMatches(ExpertQuoteAt, t))
  }

  ghost function StatisticsIn(t: string): seq<Stat> {
    AllSound();
    MapItems(StatOf, t, AllMatches(StatisticAt, t))
  }

  ghost function CaseStudiesIn(t: string): seq<string> {
    AllSound();
    MapItems(MatchedText, t, AllMatches(CaseStudyAt, t))
  }

  ghost function CtaPhrasesIn(t: string): seq<string> {
    AllSound();
    MapItems(MatchedText, t, AllMatches(CallToActionAt, t))
  }

  ghost function ExamplesIn(t: string): seq<string> {
    AllSound();
    MapItems(MatchedText, t, AllMatches(ExampleAt, t))
  }

  ghost function DataCitationsIn(t: string): seq<string> {
    AllSound();
    MapItems(GroupOf, t, AllMatches(DataCitationAt, t))
  }

  ghost function YearMentionsIn(t: string): seq<string> {
    AllSound();
    MapItems(GroupOf, t, AllMatches(YearAt, t))
  }

  ghost function DataRecencyIn(t: string): seq<string> {
    AllSound();
    MapItems(MatchedText, t, AllMatches(RecencyAt, t))
  }

  ghost function CredentialsIn(t: string): seq<string> {
    AllSound();
    Distinct(MapItems(MatchedText, t, AllMatches(CredentialAt, t)))
  }

  function FaqsIn(els: seq<Element>): seq<Faq> {
    Pushed(Select(els, IsFaqCandidate), FaqItem)
  }

  /** The JSON-LD values of the page's JSON-LD scripts, in document order. */
  function LdBlocks(els: seq<Element>): (blocks: seq<LdBlock>)
    ensures |blocks| == |Select(els, IsLdScript)|
  {
    var scripts := Select(els, IsLdScript);
    seq(|scripts|, k requires 0 <= k < |scripts| => scripts[k].ld)
  }

  /** Calls to action: the trimmed texts of the call-to-action elements, then the phrases
      found in the text, without repeats, each at its first occurrence. */
  method ExtractCtas(els: seq<Element>, text: string) returns (ctas: seq<string>)
    ensures ctas == Distinct(Pushed(Select(els, IsCtaElement), CtaItem) + CtaPhrasesIn(text))
    ensures NoDuplicates(ctas)
    ensures forall x :: x in ctas <==> x in Pushed(Select(els, IsCtaElement), CtaItem) || x in CtaPhrasesIn(text)
  {
    var texts := ExtractCtaTexts(els);
    var phrases := ExtractCtaPhrases(text);
    ctas := Distinct(texts + phrases);
  }

  /** What the text-side extractors yield, as the parser output records it. */
  datatype TextSide = TextSide(
    expertQuotes: seq<Quote>, statistics: seq<Stat>, caseStudies: seq<string>,
    examples: nat, dataCitations: nat, yearMentions: nat, dataRecency: nat,
    trendingTopics: nat, lsiKeywords: nat, credentials: nat,
    flesch: real, avgSentenceLength: real)

  /** Each text-side result is what its extractor yields on the cleaned text. */
  ghost predicate TextSideOf(ts: TextSide, t: string) {
    && ts.expertQuotes == QuotesIn(t) && ts.statistics == StatisticsIn(t) && ts.caseStudies == CaseStudiesIn(t)
    && ts.examples == |ExamplesIn(t)| && ts.dataCitations == |DataCitationsIn(t)|
    && ts.yearMentions == |YearMentionsIn(t)| && ts.dataRecency == |DataRecencyIn(t)|
    && ts.credentials == |CredentialsIn(t)|
    && ts.trendingTopics == |PresentKeywords(t, TrendingKeywords)| && ts.lsiKeywords == |PresentKeywords(t, LsiTerms)|
    && ts.flesch == CalculateReadability(t).flesch && ts.avgSentenceLength == CalculateSentenceStats(t).avgLength
  }

  /** The text-side extractors, in the order the parser runs them. */
  method ExtractTextSide(t: string) returns (ts: TextSide)
    ensures TextSideOf(ts, t)
    ensures 0.0 <= ts.flesch <= 100.0
    ensures ts.trendingTopics <= |TrendingKeywords| && ts.lsiKeywords <= |LsiTerms|
  {
    var expertQuotes := ExtractExpertQuotes(t);
    var statistics := ExtractStatistics(t);
    var examples := ExtractExamples(t);
    var dataCitations := ExtractDataCitations(t);
    var caseStudies := ExtractCaseStudies(t);
    var yearMentions := ExtractYearMentions(t);
    var dataRecency := ExtractDataRecency(t);
    var trendingTopics := KeywordsIn(t, TrendingKeywords);
    var readability := CalculateReadability(t);
    var sentenceStats := CalculateSentenceStats(t);
    var lsiKeywords := KeywordsIn(t, LsiTerms);
    var credentials := ExtractCredentials(t);
    ts := TextSide(expertQuotes, statistics, caseStudies, |examples|, |dataCitations|, |yearMentions|,
                   |dataRecency|, |trendingTopics|, |lsiKeywords|, |credentials|,
                   readability.flesch, sentenceStats.avgLength);
  }

  /** The counts of the element-side lists built by `.each` loops. */
  datatype ListCounts = ListCounts(
    stepByStep: nat, toolsResources: nat, factSources: nat, authorityLinks: nat,
    videos: nat, testimonials: nat, tables: nat, comparisonTables: nat)

  ghost predicate ListCountsOf(lc: ListCounts, els: seq<Element>) {
    && lc.stepByStep == |Pushed(Select(els, IsStepCandidate), StepItem)|
    && lc.toolsResources == |Select(els, IsToolLink)|
    && lc.factSources == |Pushed(Select(els, IsLink), FactSourceItem)|
    && lc.authorityLinks == |Pushed(Select(els, IsLink), AuthorityItem)|
    && lc.videos == |Select(els, IsVideo)| && lc.testimonials == |Select(els, IsTestimonial)|
    && lc.tables == |Pushed(Select(els, IsTable), TableItem)|
    && lc.comparisonTables == |Pushed(Select(els, IsTable), ComparisonItem)|
  }

  method ExtractListCounts(els: seq<Element>) returns (lc: ListCounts)
    ensures ListCountsOf(lc, els)
    ensures lc.tables <= |Select(els, IsTable)| && lc.comparisonTables <= |Select(els, IsTable)|
  {
    var stepByStep := ExtractStepByStep(els);
    var toolsResources := ExtractToolsResources(els);
    var factSources := ExtractFactSources(els);
    var videos := ExtractVideos(els);
    var tables := ExtractTables(els);
    var comparisonTables := ExtractComparisonTables(els);
    var testimonials := ExtractTestimonials(els);
    var authorityLinks := ExtractAuthorityLinks(els);
    lc := ListCounts(|stepByStep|, |toolsResources|, |factSources|, |authorityLinks|,
                     |videos|, |testimonials|, |tables|, |comparisonTables|);
  }

  /** The single readings of the page: its title, description and first heading, the
      dates and author bio, the paragraph measures and the table of contents. */
  datatype PageFacts = PageFacts(
    title: string, description: string, h1Text: string,
    publicationDate: bool, lastModified: bool, authorBio: bool,
    longParagraphs: nat, h3Count: nat, tableOfContents: bool)

  ghost predicate PageFactsOf(pf: PageFacts, els: seq<Element>) {
    && pf.title == TextOf(Select(els, IsTitle)) && pf.h1Text == TextOf(Select(els, IsH1))
    && pf.description == FirstAttr(Select(els, IsDescriptionMeta), "content")
    && pf.publicationDate == FirstAccepted(els, PublicationSelectors, DateOf, IsNonEmpty).Some?
    && pf.lastModified == FirstAccepted(els, ModifiedSelectors, ModifiedOf, IsNonEmpty).Some?
    && pf.authorBio == FirstAccepted(els, AuthorSelectors, TrimmedText, IsLongBio).Some?
    && pf.longParagraphs == LongParagraphs(Select(els, IsParagraph))
    && pf.h3Count == |Select(els, IsH3)| && pf.tableOfContents == CheckTableOfContents(els)
  }

  method ExtractPageFacts(els: seq<Element>) returns (pf: PageFacts)
    ensures PageFactsOf(pf, els)
    ensures pf.longParagraphs <= |Select(els, IsParagraph)|
  {
    var title := TextOf(Select(els, IsTitle));
    var metaDescription := FirstAttr(Select(els, IsDescriptionMeta), "content");
    var h1Text := TextOf(Select(els, IsH1));
    var publicationDate := ExtractPublicationDate(els);
    var lastModified := ExtractLastModified(els);
    var paragraphStats := CalculateParagraphStats(els);
    var authorBio := ExtractAuthorBio(els);
    var tableOfContents := CheckTableOfContents(els);
    pf := PageFacts(
      title, metaDescription, h1Text, publicationDate.Some?, lastModified.Some?, authorBio.Some?,
      paragraphStats.longCount, |Select(els, IsH3)|, tableOfContents);
  }

  /** What the element-side extractors yield that the parser's guarantees are about. */
  datatype Measures = Measures(
    sourceCitations: nat, images: nat, imagesWithAlt: nat, faqs: seq<Faq>, faqSchema: bool,
    h1Count: nat, h2Count: nat, headingHierarchy: bool,
    externalLinks: nat, schemaTypes: nat, mobileResponsive: bool)

  ghost predicate MeasuresOf(ms: Measures, els: seq<Element>) {
    && ms.faqs == FaqsIn(els)
    && ms.images == |Select(els, IsImage)| && ms.imagesWithAlt == |WithAlt(Pushed(Select(els, IsImage), ImageItem))|
    && ms.sourceCitations == |Pushed(Select(els, IsExternalAnchor), CitationItem)|
    && ms.externalLinks == |Select(els, IsExternalAnchor)|
    && ms.h1Count == |Select(els, IsH1)| && ms.h2Count == |Select(els, IsH2)|
    && ms.headingHierarchy == (ms.h1Count == 1 && ms.h2Count > 0)
    && ms.mobileResponsive == CheckMobileResponsive(els)
    && ms.faqSchema == SomeBlockIsFaq(LdBlocks(els)) && ms.schemaTypes == |AllBlockTypes(LdBlocks(els))|
  }

  method ExtractMeasures(els: seq<Element>) returns (ms: Measures)
    ensures MeasuresOf(ms, els)
    ensures ms.imagesWithAlt <= ms.images && ms.sourceCitations <= ms.externalLinks
    ensures Select(els, IsLdScript) == [] ==> !ms.faqSchema && ms.schemaTypes == 0
  {
    var sourceCitations := ExtractSourceCitations(els);
    var images := ExtractImages(els);
    var faqs := ExtractFaqs(els);
    var faqSchema := CheckFaqSchema(LdBlocks(els));
    var headingHierarchy := CheckHeadingHierarchy(els);
    var schemaMarkup := ExtractSchemaMarkup(LdBlocks(els));
    var mobileResponsive := CheckMobileResponsive(els);
    ms := Measures(
      |sourceCitations|, |images|, |WithAlt(images)|, faqs, faqSchema,
      |Select(els, IsH1)|, |Select(els, IsH2)|, headingHierarchy,
      |Select(els, IsExternalAnchor)|, |schemaMarkup.types|, mobileResponsive);
  }

  /** The counts read from the cleaned text, each tied to its extractor. */
  ghost predicate TextCounts(c: Counts, t: string) {
    && c.wordCount == |Words(t)|
    && c.expertQuotes == |QuotesIn(t)| && c.statistics == |StatisticsIn(t)| && c.caseStudies == |CaseStudiesIn(t)|
    && c.examples == |ExamplesIn(t)| && c.dataCitations == |DataCitationsIn(t)|
    && c.currentYearMentions == |YearMentionsIn(t)| && c.dataRecency == |DataRecencyIn(t)|
    && c.credentials == |CredentialsIn(t)|
    && c.trendingTopics == |PresentKeywords(t, TrendingKeywords)| && c.lsiKeywords == |PresentKeywords(t, LsiTerms)|
    && c.fleschScore == CalculateReadability(t).flesch && c.avgSentenceLength == CalculateSentenceStats(t).avgLength
    && c.keywordInTitle == 0 && c.keywordInFirst100 == 0 && c.keywordDensity == 0
  }

  /** The counts read from the elements left once scripts and styles are gone, each tied to
      its extractor; `host` is the page's host name. */
  ghost predicate PageCounts(c: Counts, els: seq<Element>, t: string, host: string) {
    ListedCounts(c, els, t, host) && ReadCounts(c, els)
  }

  /** The counts of lists built by `.each` loops and of selections. */
  ghost predicate ListedCounts(c: Counts, els: seq<Element>, t: string, host: string) {
    && c.sourceCitations == |Pushed(Select(els, IsExternalAnchor), CitationItem)|
    && c.externalLinks == |Select(els, IsExternalAnchor)|
    && c.internalLinks == |Pushed(Select(els, IsLink), InternalItem(host))|
    && c.ctas == |Distinct(Pushed(Select(els, IsCtaElement), CtaItem) + CtaPhrasesIn(t))|
    && c.stepByStep == |Pushed(Select(els, IsStepCandidate), StepItem)|
    && c.toolsResources == |Select(els, IsToolLink)|
    && c.factSources == |Pushed(Select(els, IsLink), FactSourceItem)|
    && c.authorityLinks == |Pushed(Select(els, IsLink), AuthorityItem)|
    && c.videos == |Select(els, IsVideo)| && c.testimonials == |Select(els, IsTestimonial)|
    && c.tables == |Pushed(Select(els, IsTable), TableItem)|
    && c.comparisonTables == |Pushed(Select(els, IsTable), ComparisonItem)|
  }

  /** The counts of single readings of the page and of its headings, images and blocks. */
  ghost predicate ReadCounts(c: Counts, els: seq<Element>) {
    && c.publicationDate == Flag(FirstAccepted(els, PublicationSelectors, DateOf, IsNonEmpty).Some?)
    && c.lastModified == Flag(FirstAccepted(els, ModifiedSelectors, ModifiedOf, IsNonEmpty).Some?)
    && c.authorBio == Flag(FirstAccepted(els, AuthorSelectors, TrimmedText, IsLongBio).Some?)
    && c.longParagraphs == LongParagraphs(Select(els, IsParagraph))
    && c.metaTitleLength == |TextOf(Select(els, IsTitle))|
    && c.metaDescLength == |FirstAttr(Select(els, IsDescriptionMeta), "content")|
    && c.h3Count == |Select(els, IsH3)| && c.tableOfContents == Flag(CheckTableOfContents(els))
    && c.images == |Select(els, IsImage)| && c.imagesWithAlt == |WithAlt(Pushed(Select(els, IsImage), ImageItem))|
    && c.faqCount == |FaqsIn(els)|
    && c.h1Count == |Select(els, IsH1)| && c.h2Count == |Select(els, IsH2)|
    && c.headingHierarchy == Flag(c.h1Count == 1 && c.h2Count > 0)
    && c.mobileResponsive == Flag(CheckMobileResponsive(els))
    && c.faqSchema == Flag(SomeBlockIsFaq(LdBlocks(els))) && c.schemaTypes == |AllBlockTypes(LdBlocks(els))|
  }

  /** The `counts` record of the parser output, from the extractors' results. */
  function AssembleCounts(wordCount: nat, ts: TextSide, lc: ListCounts, pf: PageFacts, ms: Measures,
                          ctas: nat, internalLinks: nat): Counts {
    Counts(
      wordCount := wordCount,
      expertQuotes := |ts.expertQuotes|, statistics := |ts.statistics|, sourceCitations := ms.sourceCitations,
      keywordInTitle := 0, keywordInFirst100 := 0, keywordDensity := 0, lsiKeywords := ts.lsiKeywords,
      stepByStep := lc.stepByStep, examples := ts.examples, ctas := ctas, toolsResources := lc.toolsResources,
      dataCitations := ts.dataCitations, caseStudies := |ts.caseStudies|, factSources := lc.factSources,
      publicationDate := Flag(pf.publicationDate),
      lastModified := Flag(pf.lastModified), currentYearMentions := ts.yearMentions,
      dataRecency := ts.dataRecency, trendingTopics := ts.trendingTopics,
      fleschScore := ts.flesch, avgSentenceLength := ts.avgSentenceLength,
      longParagraphs := pf.longParagraphs,
      metaTitleLength := |pf.title|, metaDescLength := |pf.description|,
      images := ms.images, imagesWithAlt := ms.imagesWithAlt, videos := lc.videos,
      tables := lc.tables, comparisonTables := lc.comparisonTables,
      faqCount := |ms.faqs|, faqSchema := Flag(ms.faqSchema),
      authorBio := Flag(pf.authorBio), credentials := ts.credentials, testimonials := lc.testimonials,
      authorityLinks := lc.authorityLinks,
      h1Count := ms.h1Count, h2Count := ms.h2Count, h3Count := pf.h3Count, headingHierarchy := Flag(ms.headingHierarchy),
      internalLinks := internalLinks, externalLinks := ms.externalLinks, schemaTypes := ms.schemaTypes,
      tableOfContents := Flag(pf.tableOfContents), mobileResponsive := Flag(ms.mobileResponsive))
  }

  /** Assembled from the text-side results, every text count is tied to its extractor. */
  lemma AssembledTextCounts(t: string, ts: TextSide, lc: ListCounts, pf: PageFacts, ms: Measures,
                            ctas: nat, internalLinks: nat)
    requires TextSideOf(ts, t)
    ensures TextCounts(AssembleCounts(|Words(t)|, ts, lc, pf, ms, ctas, internalLinks), t)
  {
  }

  /** Assembled from the list counts, every listed count is tied to its extractor. */
  lemma AssembledListedCounts(t: string, els: seq<Element>, host: string, ts: TextSide, lc: ListCounts,
                              pf: PageFacts, ms: Measures)
    requires ListCountsOf(lc, els) && MeasuresOf(ms, els)
    ensures ListedCounts(AssembleCounts(|Words(t)|, ts, lc, pf, ms,
                                        |Distinct(Pushed(Select(els, IsCtaElement), CtaItem) + CtaPhrasesIn(t))|,
                                        |Pushed(Select(els, IsLink), InternalItem(host))|), els, t, host)
  {
  }

  /** Assembled from the page readings and measures, every other page count is tied to its
      extractor. */
  lemma AssembledReadCounts(els: seq<Element>, wordCount: nat, ts: TextSide, lc: ListCounts,
                            pf: PageFacts, ms: Measures, ctas: nat, internalLinks: nat)
    requires PageFactsOf(pf, els) && MeasuresOf(ms, els)
    ensures ReadCounts(AssembleCounts(wordCount, ts, lc, pf, ms, ctas, internalLinks), els)
  {
  }

  /** Runs every extractor.  The parse fails exactly when the page address has no host;
      otherwise each count is what its extractor yields, each snippet list is the start of
      the full extraction, and the JSON-LD results are empty because the scripts were removed
      first. */
  method ParseContent(doc: Document, url: string) returns (r: Result<ParserOutput>)
    ensures r.Err? <==> doc.pageHost.None?
    ensures r.Ok? ==>
      var o := r.value;
      var t := CleanText(doc.bodyText);
      var els := RemoveScriptsAndStyles(doc.elements);
      && o.url == url
      && TextCounts(o.counts, t) && PageCounts(o.counts, els, t, doc.pageHost.value)
      && o.metadata == Metadata(TextOf(Select(els, IsTitle)), FirstAttr(Select(els, IsDescriptionMeta), "content"),
                                TextOf(Select(els, IsH1)), o.counts.wordCount, o.counts.fleschScore)
      && (o.counts.wordCount == 0 <==> AllSpace(doc.bodyText))
      && o.snippets == Snippets(Take(QuotesIn(t), 10), Take(StatisticsIn(t), 10), Take(CaseStudiesIn(t), 5), Take(FaqsIn(els), 10))
      && o.counts.imagesWithAlt <= o.counts.images && o.counts.sourceCitations <= o.counts.externalLinks
      && o.counts.faqSchema == 0 && o.counts.schemaTypes == 0
      && 0.0 <= o.counts.fleschScore <= 100.0
  {
    if doc.pageHost.None? {
      // the page address is only parsed when internal links are collected, which
      // throws; no extractor has an effect, so failing first changes nothing
      return Err("Invalid URL");
    }
    var els := RemoveScriptsAndStyles(doc.elements);
    var cleanText := CleanText(doc.bodyText);
    var wordCount := |Words(cleanText)|;
    WordsEmptyIffAllSpace(cleanText);
    var ts := ExtractTextSide(cleanText);
    var ctas := ExtractCtas(els, cleanText);
    NoLdScriptsAfterRemoval(doc.elements);
    var lc := ExtractListCounts(els);
    var pf := ExtractPageFacts(els);
    var ms := ExtractMeasures(els);
    var internalLinks := ExtractInternalLinks(els, doc.pageHost.value);
    var counts := AssembleCounts(wordCount, ts, lc, pf, ms, |ctas|, |internalLinks|);
    AssembledTextCounts(cleanText, ts, lc, pf, ms, |ctas|, |internalLinks|);
    AssembledListedCounts(cleanText, els, doc.pageHost.value, ts, lc, pf, ms);
    AssembledReadCounts(els, wordCount, ts, lc, pf, ms, |ctas|, |internalLinks|);
    var snippets := Snippets(Take(ts.expertQuotes, 10), Take(ts.statistics, 10), Take(ts.caseStudies, 5), Take(ms.faqs, 10));
    var metadata := Metadata(pf.title, pf.description, pf.h1Text, wordCount, ts.flesch);
    r := Ok(ParserOutput(url, counts, snippets, metadata));
  }

  /** The counts as the scoring engine sees them: the fields the parser never sets are
      missing, and `schemaTypes` is a number. */
  function MetricsOf(c: Counts): Scoring.Metrics {
    Scoring.Metrics(
      c.wordCount, c.metaTitleLength, c.metaDescLength, c.h1Count, c.h2Count,
      c.tables, c.comparisonTables, c.images, c.imagesWithAlt, c.externalLinks, c.internalLinks,
      None, None, None, None, None, Scoring.TypeCount(c.schemaTypes))
  }
}
