# ContentScale hybrid scoring core, in Dafny

ContentScale scores a web page out of 100 for content quality and search optimisation, in
three steps:

1. A deterministic **content parser** (`parseContent`) reads the page. It counts expert
   quotes, statistics, case studies, FAQ items, images, tables, links, headings, JSON-LD
   schema and many more features. It also keeps a few capped snippet lists.
2. A **validator** asks a language model to reject detected snippets that do not meet the
   criteria, and maps its JSON answer back to validated counts. When the model call or the
   answer fails, it falls back to the parser's counts.
3. A deterministic **scoring engine** (`calculateScore`) turns the validated counts and the
   parser counts into fifteen criteria in three groups:
   - GRAAF: 50 points;
   - CRAFT: 30 points;
   - technical SEO: 20 points.

A separate **scanner** labels a model-produced score with a quality band, and extracts
the JSON text from a model reply that may wrap it in a Markdown code fence.

The project models these four pieces and proves what they promise.

| file | module | what it holds |
|---|---|---|
| `strings.dfy` | `Strings` | the JavaScript string behaviour the code relies on: the whitespace class, trimming, splitting on whitespace, collapsing whitespace, substring search, ASCII case folding |
| `scoring.dfy` | `Scoring` | the fifteen criteria as threshold ladders over possibly missing numbers, the three group totals and `CalculateScore` |
| `scoring_properties.dfy` | `ScoringProperties` | tiers, monotonicity (and where it fails), the alt-ratio guards, and a page that reaches 100 |
| `patterns.dfy` | `Patterns` | each global regular expression of the parser as a match-at-position function, the `exec` search, and the list of matches an `exec` loop visits |
| `text_extractors.dfy` | `TextExtractors` | the extractors over the cleaned text: quotes, statistics, examples, case studies, call-to-action phrases, years, recency, data citations, credentials, keyword lists, syllables, readability and sentence statistics |
| `dom.dfy` | `Dom` | the extractors over the page's elements (a flat list in document order standing for the HTML tree) and the two JSON-LD checks over pre-parsed JSON-LD values |
| `content_parser.dfy` | `ContentParser` | `parseContent`: every extractor, assembled into the counts, the snippets and the metadata |
| `validator.dfy` | `Validator` | the fallback record, fence stripping, the response mapping, the prompt's snippet reads and `validateContent` |
| `scanner.dfy` | `Scanner` | the quality ladder and the fenced-JSON extraction |
| `pipeline.dfy` | `Pipeline` | parser counts fed to the scoring engine: the largest score they can ever reach, with and without validation |

Conventions of the model:

- **Numbers.** A metric is a JavaScript number, so `Scoring.Num` holds a `real`: an
  average such as 100.5 words per paragraph is a value of its own, just outside a band
  that ends at 100.
- **Missing values.** A field that JavaScript reads as `undefined` is `None` in
  `Scoring.Num`. Every `>=` or `<=` comparison with it is false, so a missing value
  differs from 0. `parseContent` never sets six of the metrics the engine reads:
  - `lists`, `paragraphCount`, `avgParagraphLength`, `hasSchema` and `faqAvgWords`, which
    are missing;
  - `schemaTypes`, which it produces as a number, not as a list of type names.
- **Failures.** The errors the code throws are `Err` results, and a failed lookup is
  `None`.
- **Oracles.** The language-model call and `JSON.parse` are oracle functions passed in as
  parameters. The page's HTML is given already parsed, as elements. Each element carries:
  - its tag and attributes;
  - its text;
  - the text of its next sibling;
  - whether it has header cells;
  - the host name its link resolves to;
  - for JSON-LD scripts, the parsed value.

## Model

| member | source | states |
|---|---|---|
| Strings.Trim | src/content-parser-HYBRID.js:25 | the trimmed text is a slice of the input, starts and ends with non-whitespace, and is empty exactly when the input is all whitespace |
| Strings.Collapse | src/content-parser-HYBRID.js:25 | collapsing whitespace runs never lengthens the text and keeps it blank exactly when it was blank |
| Strings.WordsEmptyIffAllSpace | src/content-parser-HYBRID.js:28-29 | the text has no words exactly when it is all whitespace |
| Strings.Lower | src/content-parser-HYBRID.js:454 | lower-casing keeps the length and lowers every character on its own |
| Strings.TrimStart | src/content-parser-HYBRID.js:25 | a suffix of the text: everything cut off before it is whitespace, and it is empty or starts with non-whitespace, so exactly the leading whitespace run is removed |
| Strings.TrimEnd | src/content-parser-HYBRID.js:25 | a prefix of the text, not ending in whitespace, after which only whitespace follows |
| Strings.IndexOf | src/scanner.js:204-207 | the first occurrence of a substring: it occurs there and nowhere before |
| Strings.Prefix | src/content-parser-HYBRID.js:575 | taking at most `n` characters gives a prefix of length min(n, length) |
| Scoring.Ladder | src/deterministic-scoring-HYBRID.js:88-100 | an if / else-if chain earns the points of the first rung that holds, never more than its best rung |
| Scoring.LadderMonotone | src/deterministic-scoring-HYBRID.js:88-100 | on a staircase of thresholds (lower rungs need less, earn no more), a larger or equal count never earns fewer points; a missing count earns none |
| Scoring.StaircaseMax | src/deterministic-scoring-HYBRID.js:88-100 | on a staircase the best a ladder can earn is its first rung's points |
| Scoring.Credibility | src/deterministic-scoring-HYBRID.js:84-103 | at most 10; exactly the sum of the quote, statistic and source ladders, so the cap never bites |
| Scoring.Relevance | src/deterministic-scoring-HYBRID.js:108-131 | at most 10; the sum of the title, description and word-count bands plus 1 for at least five H2s |
| Scoring.Actionability | src/deterministic-scoring-HYBRID.js:136-157 | at most 10; the sum of the list, paragraph and table ladders plus 1 for a comparison table |
| Scoring.Accuracy | src/deterministic-scoring-HYBRID.js:162-183 | at most 10; the sum of the validated statistics, case-study and source ladders and the external-link ladder |
| Scoring.FreshAltPoints | src/deterministic-scoring-HYBRID.js:202-207 | alt-text points of freshness: at most 3, and 0 when there are no images |
| Scoring.Freshness | src/deterministic-scoring-HYBRID.js:188-213 | at most 10; word depth, image count, alt ratio and 1 for the schema flag |
| Scoring.CutFluff | src/deterministic-scoring-HYBRID.js:222-239 | at most 7; the word-count band, the average paragraph band and the paragraph count ladder |
| Scoring.ReviewOptimize | src/deterministic-scoring-HYBRID.js:244-264 | at most 8; title and description bands, 1 for exactly one H1, 1 for at least five H2s |
| Scoring.VisualAltPoints | src/deterministic-scoring-HYBRID.js:277-278 | alt-text points of visuals: at most 2, and 0 when there are no images |
| Scoring.AddVisuals | src/deterministic-scoring-HYBRID.js:269-287 | at most 6; image ladder, alt ratio, 1 for a table, 1 for a comparison table |
| Scoring.FaqIntegration | src/deterministic-scoring-HYBRID.js:292-307 | at most 5; validated FAQ ladder, 1 for an 80-word average answer, 1 when the type list holds `FAQPage`; requires that reading `includes` on `schemaTypes` does not throw |
| Scoring.TrustBuilding | src/deterministic-scoring-HYBRID.js:312-326 | at most 4; validated quote ladder, 1 for a case study, 1 for three external links |
| Scoring.MetaOptimization | src/deterministic-scoring-HYBRID.js:335-347 | at most 4; the title and description bands |
| Scoring.SchemaTypeCount | src/deterministic-scoring-HYBRID.js:355 | a type list counts its length; a number has no length, so a non-zero number reads as missing |
| Scoring.SchemaMarkup | src/deterministic-scoring-HYBRID.js:352-362 | 0 without the schema flag; otherwise 4/3/2/0 for at least 3, exactly 2, exactly 1 or no listed types; 0 when the types are missing or a number |
| Scoring.InternalLinking | src/deterministic-scoring-HYBRID.js:367-376 | at most 4 |
| Scoring.HeadingHierarchy | src/deterministic-scoring-HYBRID.js:381-393 | 2 for exactly one H1 or 1 for more, plus 2 for at least five H2s or 1 for three or four |
| Scoring.MobileOptimization | src/deterministic-scoring-HYBRID.js:398-408 | at most 4; 2 for a 70% alt ratio over at least one image, 2 for an average paragraph of at most 120 words |
| Scoring.GraafScore | src/deterministic-scoring-HYBRID.js:16-23 | each GRAAF criterion in [0, 10] and the group total, their exact sum, in [0, 50] |
| Scoring.CraftScore | src/deterministic-scoring-HYBRID.js:25-33 | each CRAFT criterion within its own cap and the group total, their exact sum, in [0, 30] |
| Scoring.TechnicalScore | src/deterministic-scoring-HYBRID.js:35-42 | each technical criterion in [0, 4] and the group total, their exact sum, in [0, 20] |
| Scoring.CalculateScore | src/deterministic-scoring-HYBRID.js:13-75 | every rounding is the identity: the total is the exact sum of the three group totals and lies in [0, 100], each group total in its own range |
| Scoring.CalculateScoreChecked | src/deterministic-scoring-HYBRID.js:13-75 | the calculation fails exactly when `schemaTypes` is a non-zero number (the TypeError at line 304); otherwise it is the breakdown, with its total in [0, 100] |
| ScoringProperties.CredibilityMonotone | src/deterministic-scoring-HYBRID.js:88-100 | credibility never falls when a validated count rises (or becomes present) |
| ScoringProperties.CredibilityExtremes | src/deterministic-scoring-HYBRID.js:88-102 | credibility is 10 exactly when quotes ≥ 3, statistics ≥ 10 and sources ≥ 5, and 0 exactly when none of the three reaches 1 |
| ScoringProperties.CredibilityOfTestValidation | src/test-hybrid-system.js:118-123 | the test's mock validation (3 quotes, 3 statistics, 5 sources) earns 8 credibility points |
| ScoringProperties.AccuracyMonotone | src/deterministic-scoring-HYBRID.js:166-180 | accuracy never falls when validated counts or external links rise |
| ScoringProperties.ActionabilityMonotone | src/deterministic-scoring-HYBRID.js:140-154 | actionability never falls when lists, paragraphs, tables or comparison tables rise |
| ScoringProperties.FaqIntegrationMonotone | src/deterministic-scoring-HYBRID.js:296-304 | FAQ integration never falls when the validated FAQ count or the answer length rises |
| ScoringProperties.FaqIntegrationTiers | src/deterministic-scoring-HYBRID.js:296-304 | FAQ integration is 3/2/1/0 for ≥8/≥5/≥3 FAQs, plus 1 for ≥80 answer words, plus 1 for `FAQPage` in the type list |
| ScoringProperties.TrustBuildingMonotone | src/deterministic-scoring-HYBRID.js:316-323 | trust building never falls when validated counts or external links rise |
| ScoringProperties.TrustBuildingTiers | src/deterministic-scoring-HYBRID.js:316-323 | trust is 2/1/0 for ≥8/≥4 quotes, plus 1 for a case study, plus 1 for three external links |
| ScoringProperties.InternalLinkingTiers | src/deterministic-scoring-HYBRID.js:367-376 | internal linking is 4/3/2/1/0 at 30/20/10/5 links, and never falls as links rise |
| ScoringProperties.RelevanceNotMonotone | src/deterministic-scoring-HYBRID.js:113-124 | relevance is not monotone: 3000 words score one point above 3001, a 60-character title two points above a 71-character one |
| ScoringProperties.HeadingHierarchyNotMonotone | src/deterministic-scoring-HYBRID.js:385-386 | one H1 scores a point above two |
| ScoringProperties.FreshnessNotMonotoneInImages | src/deterministic-scoring-HYBRID.js:197-206 | adding an image without alt text can lower freshness by a point |
| ScoringProperties.NoImagesNoAltPoints | src/deterministic-scoring-HYBRID.js:202 | with no images every alt-ratio rule (freshness, visuals, mobile) adds nothing, so no division happens |
| ScoringProperties.FractionalAveragesMissBands | src/deterministic-scoring-HYBRID.js:231-232 | a 100.5-word paragraph average earns the outer band's 1 point, not the 2 that 100 earns; mobile optimisation gives 2 points fewer at 120.5 than at 120; a 79.5-word FAQ average misses the bonus that 80 earns |
| ScoringProperties.MissingIsNotZero | src/deterministic-scoring-HYBRID.js:405 | a missing average paragraph length earns nothing, while 0 earns the 2 mobile points |
| ScoringProperties.SchemaMarkupNeedsSchemaFlag | src/deterministic-scoring-HYBRID.js:353-359 | schema markup scores only with the schema flag and at least one listed type |
| ScoringProperties.PerfectScore | src/deterministic-scoring-HYBRID.js:13-75 | every input at its top tier scores 100 |
| ScoringProperties.PerfectScoreReachable | src/deterministic-scoring-HYBRID.js:13-75 | some input scores exactly 100, so the range [0, 100] is tight |
| Patterns.ExpertQuoteAt | src/content-parser-HYBRID.js:221 | a quote match: a quoted text of at least 30 characters without `"`, then (lazily, within 150 characters) a dash and a name of at least two capitalised words |
| Patterns.StatisticAt | src/content-parser-HYBRID.js:238 | a statistic match starts with a digit and lies within the text |
| Patterns.ExampleAt | src/content-parser-HYBRID.js:290 | an example match lies within the text |
| Patterns.CallToActionAt | src/content-parser-HYBRID.js:308 | a match is one of the call-to-action phrases, in any case, and ends right after it |
| Patterns.CaseStudyAt | src/content-parser-HYBRID.js:343 | a match is a bare "case study" or "client success", or "customer story" followed by 50 to 300 characters that are not periods |
| Patterns.DataCitationAt | src/content-parser-HYBRID.js:331 | the captured citation has no closing parenthesis and is at least five characters long |
| Patterns.YearAt | src/content-parser-HYBRID.js:400 | a year match is four characters, and one exists exactly where 2023, 2024 or 2025 stands between word boundaries |
| Patterns.RecencyAt | src/content-parser-HYBRID.js:412 | a recency match starts with 2023, 2024 or 2025 |
| Patterns.CredentialAt | src/content-parser-HYBRID.js:619 | a credential match lies within the text |
| Patterns.AttributionAt | src/content-parser-HYBRID.js:221 | after a dash, optional spaces and at least two capitalised words separated by whitespace form the attribution |
| Patterns.LazyAttribution | src/content-parser-HYBRID.js:221 | the lazy gap of at most 150 characters: the first gap length after which an attribution follows |
| Patterns.MapItems | src/content-parser-HYBRID.js:225-228 | one item per visited match, in order |
| Patterns.Exec | src/content-parser-HYBRID.js:224 | one `exec` call: the match with the leftmost start at or after `lastIndex` |
| Patterns.ExecLeftmost | src/content-parser-HYBRID.js:224 | no match starts between `lastIndex` and the match `exec` returns |
| Patterns.AllFrom | src/content-parser-HYBRID.js:224-229 | the matches an `exec` loop visits are genuine matches, in order and without overlap |
| Patterns.AllFromCovers | src/content-parser-HYBRID.js:224-229 | every position where the expression matches lies inside a visited match |
| Patterns.ExecLoop | src/content-parser-HYBRID.js:224-229 | the loop that calls `exec` until it finds nothing collects exactly the visited matches, each mapped by the item function |
| TextExtractors.ExtractExpertQuotes | src/content-parser-HYBRID.js:217-232 | the visited quote matches; each quote has at least 30 characters, no `"`, and an attribution of capitalised words |
| TextExtractors.Window | src/content-parser-HYBRID.js:242 | the context window from 100 characters before the match to 200 after, clipped to the text: at most 300 characters |
| TextExtractors.StatOf | src/content-parser-HYBRID.js:242-248 | the value is the match; `hasSource` tests the window from 100 before to 200 after the match, while the kept context is at most the first 150 characters of that window |
| TextExtractors.ExtractStatistics | src/content-parser-HYBRID.js:234-253 | the visited statistic matches; each has a context of at most 150 characters and a value starting with a digit |
| TextExtractors.ExtractExamples | src/content-parser-HYBRID.js:288-298 | the visited example matches; each is an example phrase followed by 10 to 200 characters that are not periods |
| TextExtractors.ExtractCaseStudies | src/content-parser-HYBRID.js:341-351 | the visited case-study matches, each of one of the three shapes |
| TextExtractors.ExtractDataRecency | src/content-parser-HYBRID.js:410-420 | the visited recency matches, each starting with a recent year |
| TextExtractors.ExtractCtaPhrases | src/content-parser-HYBRID.js:308-312 | the visited call-to-action matches, each a listed phrase up to case |
| TextExtractors.ExtractYearMentions | src/content-parser-HYBRID.js:398-408 | the visited year matches' groups, each 2023, 2024 or 2025 |
| TextExtractors.YearsDoNotOverlap | src/content-parser-HYBRID.js:400 | two whole-word year matches never overlap |
| TextExtractors.YearMentionsComplete | src/content-parser-HYBRID.js:398-408 | every whole-word 2023 to 2025 in the text is a visited match, so no year mention is missed |
| TextExtractors.ExtractDataCitations | src/content-parser-HYBRID.js:327-339 | the visited citation groups, none holding a closing parenthesis |
| TextExtractors.Distinct | src/content-parser-HYBRID.js:626 | deduplication keeps exactly the values of the list, each once |
| TextExtractors.DistinctFirstOccurrenceOrder | src/content-parser-HYBRID.js:626 | the deduplicated values appear in the order of their first occurrences |
| TextExtractors.ExtractCredentials | src/content-parser-HYBRID.js:617-627 | the deduplicated credential matches: no duplicates, each a credential word up to case |
| TextExtractors.PresentKeywords | src/content-parser-HYBRID.js:426-430 | a keyword is found exactly when it is listed and occurs in the text ignoring case; the list order is kept |
| TextExtractors.KeywordsIn | src/content-parser-HYBRID.js:422-433 | the keyword loop pushes exactly the present keywords, in list order |
| TextExtractors.StripSuffix | src/content-parser-HYBRID.js:457 | at most three final characters are dropped, and the rest is a prefix |
| TextExtractors.StripSuffixLeftmost | src/content-parser-HYBRID.js:457 | what is dropped is a silent ending (a guard letter and "es", "ed", or a guard letter and "e") that runs to the end, and no earlier position starts one; nothing is dropped when no position does |
| TextExtractors.VowelGroups | src/content-parser-HYBRID.js:460 | counting runs of one or two vowels from a position never gives more than the characters left |
| TextExtractors.CountSyllables | src/content-parser-HYBRID.js:453-462 | at least 1; exactly 1 for words of at most three characters; never more than the word's length |
| TextExtractors.SyllablesOfFinalE | src/content-parser-HYBRID.js:457 | "make" has one syllable: a silent final e after a consonant is dropped |
| TextExtractors.SyllablesOfFinalLe | src/content-parser-HYBRID.js:457 | "table" has two: a final e after l is kept |
| TextExtractors.SyllablesOfFinalEd | src/content-parser-HYBRID.js:457-460 | "played" has one: the final ed is dropped and a vowel pair counts once |
| TextExtractors.SyllablesOfVowelPair | src/content-parser-HYBRID.js:460 | "reading" has two syllables |
| TextExtractors.Clamp | src/content-parser-HYBRID.js:447 | the result lies in [0, 100] and equals the input when that is already in range |
| TextExtractors.SplitSentencesFrom | src/content-parser-HYBRID.js:436 | splitting on runs of sentence terminators always yields at least one piece |
| TextExtractors.CalculateReadability | src/content-parser-HYBRID.js:435-451 | the reported Flesch value is clamped to [0, 100] and equals the raw formula when that is within range; the averages are non-negative, and syllables per word is at least 1 when there are words |
| TextExtractors.BlankTextReadsEasily | src/content-parser-HYBRID.js:440-447 | a blank text has no words and reads at 100 |
| TextExtractors.CountAbove | src/content-parser-HYBRID.js:469 | the number of sentences over a word limit is at most the number of sentences |
| TextExtractors.CalculateSentenceStats | src/content-parser-HYBRID.js:464-476 | counts the non-blank sentences; no more long sentences than sentences; average 0 without sentences and at least 1 with them; the average times the sentence count (1 when there are none) is the total of the sentences' word counts |
| Dom.Select | src/content-parser-HYBRID.js:512 | selecting elements in document order never yields more elements than the page has |
| Dom.SelectIff | src/content-parser-HYBRID.js:512 | an element is selected exactly when it is on the page and satisfies the selector |
| Dom.Each | src/content-parser-HYBRID.js:303-305 | one pass over the selected elements, pushing each item the callback produces |
| Dom.PushedIff | src/content-parser-HYBRID.js:303-305 | a value is pushed exactly when the callback produces it for some selected element |
| Dom.PushedOrdered | src/content-parser-HYBRID.js:303-305 | the pushed values are the callback's items at strictly increasing positions, covering every position where it produces one: document order and one entry per producing element |
| Dom.NoLdScriptsAfterRemoval | src/content-parser-HYBRID.js:20-21 | once scripts and styles are removed, no JSON-LD script is left |
| Dom.ExtractImages | src/content-parser-HYBRID.js:510-525 | one record per image with its `src` and `alt` (empty when missing); `hasAlt` exactly when the alt text is not blank |
| Dom.WithAlt | src/content-parser-HYBRID.js:169 | the images with alt text, never more than the images |
| Dom.ExtractTables | src/content-parser-HYBRID.js:537-551 | the records the `.each` loop pushes over the tables, in document order: one per table with header cells, carrying that table's index, and no other |
| Dom.ExtractComparisonTables | src/content-parser-HYBRID.js:553-564 | the indices the `.each` loop pushes, in document order: an index is present exactly when that table's text mentions a comparison |
| Dom.ExtractFaqs | src/content-parser-HYBRID.js:566-581 | every heading or `dt` whose trimmed text holds `?` and is longer than 10 characters gives an FAQ, and only those; answers are at most 200 characters |
| Dom.ExtractSourceCitations | src/content-parser-HYBRID.js:255-272 | every external anchor whose trimmed text has 6 to 199 characters gives a citation of its target and text, and only those, so never more than the external links |
| Dom.ExtractFactSources | src/content-parser-HYBRID.js:353-364 | the targets the `.each` loop pushes over the links, in document order, one per link mentioning a fact-source term: exactly those targets |
| Dom.ExtractAuthorityLinks | src/content-parser-HYBRID.js:639-650 | the targets the `.each` loop pushes over the links, in document order, one per link mentioning an authority term: exactly those targets |
| Dom.ExtractInternalLinks | src/content-parser-HYBRID.js:660-677 | the targets the `.each` loop pushes over the links, in document order, at most one per link: a target is kept exactly when its link resolves to the page's host |
| Dom.ExtractCtaTexts | src/content-parser-HYBRID.js:303-305 | the trimmed text of every call-to-action element, one per element |
| Dom.ExtractStepByStep | src/content-parser-HYBRID.js:274-286 | every ordered-list item or H2/H3 whose trimmed text reads as a step (a step number, a leading number with a period, or an ordinal word) is listed, and each step listed is such a non-blank text |
| Dom.ExtractToolsResources | src/content-parser-HYBRID.js:317-325 | the target of every tool, resource or download link |
| Dom.ExtractVideos | src/content-parser-HYBRID.js:527-535 | one non-empty entry per video: its source, or "embedded video" when it has none |
| Dom.ExtractTestimonials | src/content-parser-HYBRID.js:629-637 | one entry per testimonial element, in order: exactly the first 200 characters of its text, or all of it when shorter |
| Dom.CheckTableOfContents | src/content-parser-HYBRID.js:710-723 | true exactly when some element matches a table-of-contents selector |
| Dom.FirstAccepted | src/content-parser-HYBRID.js:374-378 | the first selector's reading that is accepted, or nothing exactly when no reading is accepted |
| Dom.FindFirst | src/content-parser-HYBRID.js:374-378 | the selector loop returns the first accepted reading, or nothing when no selector's reading is accepted |
| Dom.ExtractPublicationDate | src/content-parser-HYBRID.js:366-381 | the first non-empty reading over the date selectors in order; a date exactly when some selector yields a non-empty reading |
| Dom.ExtractLastModified | src/content-parser-HYBRID.js:383-396 | the first non-empty reading over the modification selectors in order; a date exactly when some selector yields one |
| Dom.ExtractAuthorBio | src/content-parser-HYBRID.js:601-615 | the first trimmed author text over the selectors in order that is longer than 50 characters; a bio exactly when one exists |
| Dom.LongParagraphs | src/content-parser-HYBRID.js:483-485 | the paragraphs over 150 whitespace pieces are at most all of them |
| Dom.CalculateParagraphStats | src/content-parser-HYBRID.js:478-491 | the paragraph count, and the number of paragraphs over 150 whitespace pieces, which is no larger |
| Dom.CheckHeadingHierarchy | src/content-parser-HYBRID.js:652-658 | true exactly when there is one H1 and at least one H2 |
| Dom.CheckMobileResponsive | src/content-parser-HYBRID.js:725-728 | true exactly when the first viewport's content holds `width=device-width`; false without a viewport |
| Dom.CheckFaqSchema | src/content-parser-HYBRID.js:583-599 | true exactly when some JSON-LD block declares `FAQPage` at its top or in its `@graph` before a lookup throws |
| Dom.CollectGraphTypes | src/content-parser-HYBRID.js:692-698 | the `@graph` loop pushes each entry's truthy (non-empty) type, up to the first `null` entry, where it throws; no pushed type is empty |
| Dom.CollectBlockTypes | src/content-parser-HYBRID.js:689-698 | the types one block pushes: its own type when truthy, then its `@graph` types; no pushed type is empty |
| Dom.ExtractSchemaMarkup | src/content-parser-HYBRID.js:679-708 | the pushed types of all blocks in order, none of them empty, with `count` equal to their number, duplicates included |
| Dom.FaqSchemaIffFaqPageType | src/content-parser-HYBRID.js:583-599 | the FAQ check passes exactly when the collected schema types include `FAQPage` |
| ContentParser.CleanText | src/content-parser-HYBRID.js:24-25 | the cleaned text is blank exactly when the body text is |
| ContentParser.Take | src/content-parser-HYBRID.js:197-200 | a snippet list is the first min(n, length) items of the full list |
| ContentParser.LdBlocks | src/content-parser-HYBRID.js:685-688 | one parsed block per JSON-LD script |
| ContentParser.ExtractPageFacts | src/content-parser-HYBRID.js:41-116 | the title and H1 text are the concatenated text of every matching element; the description is the first description tag's `content`; the date and bio flags are the first accepted readings; long paragraphs (at most the paragraphs), H3 count and table-of-contents flag are their extractors' results |
| ContentParser.ExtractCtas | src/content-parser-HYBRID.js:300-315 | element texts then text phrases, without duplicates: exactly the values of either list |
| ContentParser.ExtractTextSide | src/content-parser-HYBRID.js:36-78 | the quote, statistic and case-study lists are the full extractions; every other text count is the length of its extractor's full result; Flesch is in [0, 100]; keyword counts are at most the list sizes |
| ContentParser.ExtractMeasures | src/content-parser-HYBRID.js:88-117 | each measure is its extractor's result: images and those with alt text, citations and external links, FAQs, H1 and H2 counts, JSON-LD types; images with alt ≤ images; citations ≤ external links; heading flag exactly for one H1 and some H2; no JSON-LD scripts means no FAQ schema and no types |
| ContentParser.ExtractListCounts | src/content-parser-HYBRID.js:55-101 | the step, tool, fact-source, authority, video, testimonial, table and comparison-table counts are the lengths of their extractors' full results, the table counts at most the tables |
| ContentParser.AssembledTextCounts | src/content-parser-HYBRID.js:125-160 | the counts record carries each text-side result unchanged: word count, quote, statistic, case-study, example, citation, year, recency, credential, trending and LSI counts, Flesch and sentence length |
| ContentParser.AssembledListedCounts | src/content-parser-HYBRID.js:130-182 | the counts record carries each list length unchanged, including the de-duplicated CTAs and the internal links for the page's host |
| ContentParser.AssembledReadCounts | src/content-parser-HYBRID.js:150-193 | the counts record carries each single reading: the date and bio flags as 1/0, title and description lengths, paragraph, image, FAQ and heading counts, the heading, contents and mobile flags as 1/0, the JSON-LD results |
| ContentParser.ParseContent | src/content-parser-HYBRID.js:16-211 | fails exactly when the page address does not parse; otherwise every one of the 44 counts is its extractor's result on the cleaned text or the remaining elements (a list's length, a 0/1 flag, or a number), the keyword fields are 0, the metadata repeats the title, description, H1 text, word count and Flesch score; the word count is 0 exactly for blank text; each snippet list is its extraction's prefix (10/10/5/10); FAQ schema and schema types are 0 |
| Validator.Fallback | src/claude-validator-HYBRID.js:43-58 | the fallback copies the parser's quote, statistic, case-study and FAQ counts; `sources` is missing; the three rejection lists are empty with no FAQ entry; `fallback` is set |
| Validator.CleanResponse | src/claude-validator-HYBRID.js:179-183 | without a leading fence the cleaned text is the trimmed input; with one, no fence is left; either way only characters are deleted |
| Validator.StripFence | src/claude-validator-HYBRID.js:182 | removing every fence, with the newline right after it, never lengthens the text |
| Validator.CleanedIsSubsequence | src/claude-validator-HYBRID.js:179-183 | cleaning only ever deletes characters |
| Validator.CleanedHasNoFence | src/claude-validator-HYBRID.js:180-183 | after stripping, no fence remains; without a leading fence the text is only trimmed |
| Validator.StripWithoutFence | src/claude-validator-HYBRID.js:182 | a text without fences is left unchanged by fence stripping |
| Validator.StripIdempotent | src/claude-validator-HYBRID.js:182 | stripping fences twice is stripping once |
| Validator.Add | src/claude-validator-HYBRID.js:192 | the sum of two JSON numbers, missing when either is |
| Validator.OrEmpty | src/claude-validator-HYBRID.js:194-199 | a missing rejection list reads as the empty list, a present one as itself |
| Validator.FromParsed | src/claude-validator-HYBRID.js:187-200 | succeeds exactly when all four categories are present; maps each `validated` to its count, `sources` to quotes plus statistics, each missing `rejected` to the empty list; not a fallback |
| Validator.ParseValidationResponse | src/claude-validator-HYBRID.js:177-206 | succeeds exactly when the cleaned text parses into all four categories, with the mapped result; otherwise fails with the invalid-format error |
| Validator.FaqSnippets | src/claude-validator-HYBRID.js:80 | reading the FAQ snippets succeeds only under the name the parser uses, `faqs` |
| Validator.BuildPrompt | src/claude-validator-HYBRID.js:65-80 | reading the FAQ snippets under a missing name throws; otherwise at most 15 statistics and the first 10 FAQs are shown |
| Validator.ValidateWith | src/claude-validator-HYBRID.js:18-58 | a prompt failure escapes; otherwise a failed call or reply gives the fallback record, and a good reply its mapping |
| Validator.ValidateContentAsWritten | src/claude-validator-HYBRID.js:21 | the code as written always fails with the type error of reading the FAQ snippets |
| Validator.ValidateContent | src/claude-validator-HYBRID.js:18-58 | the corrected version: the fallback exactly when the call or the reply fails, else the mapped reply |
| Validator.ValidatedOf | src/deterministic-scoring-HYBRID.js:17-30 | the fields of the validation result the scoring engine reads |
| Scanner.QualityOf | src/scanner.js:264-267 | excellent from 90, good in [80, 90), fair in [70, 80), average in [60, 70), needs-improvement below 60 or without a score |
| Scanner.QualityMonotone | src/scanner.js:264-267 | a higher score never gets a lower label |
| Scanner.LabelsDistinct | src/scanner.js:264-267 | the five labels are distinct strings |
| Scanner.FirstPiece | src/scanner.js:205 | the first piece of a split is the prefix up to the first separator, or the whole text |
| Scanner.ExtractJson | src/scanner.js:203-208 | without a fence the reply is unchanged; otherwise the result is the trimmed text from after the first `json` fence (or else the first fence) up to the split's cut: the first fence lying wholly before the next separator's start, else that start, else the end; it holds no fence, and with a plain fence the cut is the first fence after the start |
| Scanner.SplitEndsUnique | src/scanner.js:205-207 | the two cuts of `split(sep)[1].split(fence)[0]` are determined by the text, the start and the separator |
| Scanner.SegmentCut | src/scanner.js:205-207 | the split-based extraction is the trimmed text between the start and the cut the split makes |
| Scanner.OverlappingFenceDoesNotCut | src/scanner.js:205 | in "```json" followed by "a````json" the piece is "a`": the fence at the second character overlaps the next `json` fence and does not cut |
| Pipeline.ParserFedScoreAtMost81 | src/test-hybrid-system.js:146 | scoring parser counts directly can never exceed 81 points |
| Pipeline.ParserFedScoreDefined | src/deterministic-scoring-HYBRID.js:304 | parser counts are scored without error exactly when their `schemaTypes` is 0, which the parser always records |
| Pipeline.ParserFedCriteria | src/deterministic-scoring-HYBRID.js:13-42 | on parser counts, actionability ≤ 4, freshness ≤ 9, cut-the-fluff ≤ 3, FAQ integration ≤ 3, schema markup 0 and mobile ≤ 2 |
| Pipeline.ParserFedMaximumReached | src/test-hybrid-system.js:146 | 81 is reached by a rich page with top validated counts |
| Pipeline.FallbackScoreAtMost76 | src/claude-validator-HYBRID.js:46-56 | scoring the fallback record with parser counts never exceeds 76, because `sources` is missing |
| Pipeline.FallbackMaximumReached | src/claude-validator-HYBRID.js:46-56 | 76 is reached by a rich page with top parser counts |

## Left out

- HTML parsing and CSS selector matching are not modelled. The page is given as a flat
  element list in document order. Each selector is a predicate on one element, and
  cheerio's `.text()` and `.next()` are fields of the element.
- URL resolution (`new URL`) is not modelled. Each link carries the host name it resolves
  to, or none. The page address is given only as its host name, or none when it does not
  parse.
- `JSON.parse` is an oracle in two places:
  - for JSON-LD blocks, it is given as the parsed value or as malformed;
  - for the validator's reply, it is a function passed in.
- The language-model calls and console logging are not modelled. The call is an oracle
  that returns a reply or fails.
- The prompt wording is not modelled, only the snippet reads that can throw.
- The Flesch formula is kept in `real` arithmetic, not in floating point. Only its clamp
  and its range are stated.
- Scoring.InternalLinking: its own contract states only the bound. The tiers and
  monotonicity are in ScoringProperties.InternalLinkingTiers.
- Scoring inputs are not coerced.
  - Only three shapes of `schemaTypes` are modelled: missing, a number, or a list of
    strings.
  - Counts are taken as numbers (reals), so strings or booleans in those fields are not
    modelled.
- JSON-LD values are not fully modelled.
  - Only a string `@type` is modelled. A non-string truthy type is read as having no type.
  - A truthy `@graph` that is not an array is modelled as throwing after the block's own
    type, which is what `forEach` does.
  - Other `@graph` values are modelled as absent.
- Validator.FromParsed: the validator's reply is simplified.
  - `validated` is a number or missing.
  - `rejected` is a list or missing. A truthy `rejected` that is not a list would be
    passed through as is, and the model does not capture that.
- Strings.Lower: case folding is ASCII only. Non-ASCII case-insensitive matches are not
  modelled.
- Regular expressions are not modelled in full.
  - Each regular expression of the parser is a hand-derived matcher, with backtracking
    resolved.
  - Unicode dashes in the quote pattern are the three dash characters the pattern lists.
  - The whitespace class is the one of JavaScript's `\s` and `trim`: tab, line feed, vertical
    tab, form feed, carriage return, space, U+00A0, U+1680, U+2000 to U+200A, U+2028,
    U+2029, U+202F, U+205F, U+3000 and U+FEFF.
- String lengths and positions count characters, not UTF-16 code units. A character
  outside the Basic Multilingual Plane counts once here and twice in JavaScript. The
  members affected:
  - ContentParser.ParseContent: `metaTitleLength` and `metaDescLength`, and so
    Scoring.MetaOptimization's bands;
  - Dom.ExtractFaqs and Dom.ExtractTestimonials: the 200-character caps;
  - TextExtractors.Window: the 100 characters before and 200 after a match;
  - Patterns.ExampleAt and Patterns.RecencyAt: the `{10,200}` and `{0,100}` runs in their
    patterns;
  - Dom.IsQuestion: the `> 10` length test;
  - Dom.ExtractAuthorBio: the `> 50` length test.
- Scoring.FaqIntegration: requires that `schemaTypes` is not a non-zero number, because
  `.includes` on a number throws a TypeError. Scoring.CalculateScoreChecked models that
  failure as an error result.
- `firstParagraph` (content-parser line 44) is computed but never used, so it is not
  modelled.
- The scanner's other parts are not modelled:
  - page fetching;
  - the model call;
  - `JSON.parse` of the extracted text;
  - the result record beyond the label.
- The remaining repository files are not part of this model:
  - the headless-browser fetcher, which is I/O and concurrency;
  - the admin setup script, the server notes and the debugging script;
  - the test driver, which only prints.

### Where the system's specification and the code differ

The model follows the code.

- The specification mentions behaviours the code does not have, so the model has none of
  them:
  - a parse success flag;
  - a 20-word minimum for FAQ answers;
  - `www.` normalisation of hosts;
  - lazy-load image attributes;
  - block-quotation quote detection;
  - deduplication of quotes by their first 50 characters;
  - a check that validated plus rejected equals detected, which the prompt requests but
    nothing enforces.
- The specification says parsing never throws. The code throws when the page address does
  not parse (`new URL` at content-parser line 662 is outside any `try`), and
  ContentParser.ParseContent returns an error then.
- The specification says an image has alt text only when its alt text exceeds a minimum
  length. The code requires only non-blank alt text.

## Findings

| source | as written | input that shows it | evidently intended | confidence | as-written member | corrected member |
|---|---|---|---|---|---|---|
| src/claude-validator-HYBRID.js:80 | The prompt builder reads `snippets.faqQuestions`, but the parser emits `snippets.faqs`, so `.slice` is called on `undefined`. The prompt is built at line 21, outside the `try`, so `validateContent` always rejects with a TypeError. Neither the model call nor the fallback is ever reached. | any parser output, e.g. the one for an empty page | read `snippets.faqs`: validate through the model, and fall back to the parser's counts when the call or the reply fails | high; not executed | Validator.ValidateContentAsWritten | Validator.ValidateContent |
