/**
  The text-side extractors of the content parser.  Each one runs over the collapsed body
  text: the regular-expression extractors as `exec` loops proved against
  `Patterns.AllMatches`, the keyword detectors as loops over their fixed lists, and the
  readability figures as functions.
*/
module TextExtractors {
  import opened Strings
  import opened Patterns

  datatype Quote = Quote(text: string, attribution: string)

  datatype Stat = Stat(value: string, hasSource: bool, context: string)

  // ---------------------------------------------------------------------------
  // Expert quotes
  // ---------------------------------------------------------------------------

  function QuoteOf(s: string, m: Match): Quote {
    Quote(m.group, m.attribution)
  }

  /** Every quoted passage is at least 30 characters without a double quote, attributed
      to a name of at least two capitalised words. */
  method ExtractExpertQuotes(text: string) returns (quotes: seq<Quote>)
    ensures Sound(ExpertQuoteAt)
    ensures quotes == MapItems(QuoteOf, text, AllMatches(ExpertQuoteAt, text))
    ensures forall q :: q in quotes ==> |q.text| >= 30 && '"' !in q.text && IsAttribution(q.attribution)
  {
    AllSound();
    quotes := ExecLoop(ExpertQuoteAt, text, QuoteOf);
    var ms := AllMatches(ExpertQuoteAt, text);
    forall k | 0 <= k < |ms| ensures |quotes[k].text| >= 30 && '"' !in quotes[k].text && IsAttribution(quotes[k].attribution) {
      assert ExpertQuoteAt(text, ms[k].start) == Some(ms[k]);
    }
  }

  // ---------------------------------------------------------------------------
  // Statistics
  // ---------------------------------------------------------------------------

  const SourcePhrases := ["according to", "source:", "study", "research", "survey"]

  /** A source phrase occurs in `s`, ignoring case. */
  predicate MentionsSource(s: string) {
    exists p :: p in SourcePhrases && ContainsCI(s, p)
  }

  /** The window `hasSource` looks at: from 100 characters before the match to 200 after
      its start, cut at the ends of the text. */
  function Window(t: string, i: nat): (w: string)
    requires i <= |t|
    ensures |w| <= 300
  {
    t[Max(0, i - 100)..Min(|t|, i + 200)]
  }

  /** What the statistics loop pushes for a match. */
  function StatOf(t: string, m: Match): (st: Stat)
    requires m.start <= m.end <= |t|
    ensures st.value == t[m.start..m.end]
    ensures |st.context| <= 150 && st.context <= Window(t, m.start)
    ensures st.hasSource <==> MentionsSource(Window(t, m.start))
  {
    var context := Window(t, m.start);
    Stat(t[m.start..m.end], MentionsSource(context), Prefix(context, 150))
  }

  /** Each statistic keeps at most 150 characters of context, the start of the window of up
      to 300 characters in which a source is looked for; its value starts with a digit. */
  method ExtractStatistics(text: string) returns (stats: seq<Stat>)
    ensures Sound(StatisticAt)
    ensures stats == MapItems(StatOf, text, AllMatches(StatisticAt, text))
    ensures forall st :: st in stats ==> |st.context| <= 150 && st.value != [] && IsDigit(st.value[0])
  {
    AllSound();
    stats := ExecLoop(StatisticAt, text, StatOf);
    var ms := AllMatches(StatisticAt, text);
    forall k | 0 <= k < |ms| ensures stats[k].value != [] && IsDigit(stats[k].value[0]) {
      assert StatisticAt(text, ms[k].start) == Some(ms[k]);
      assert stats[k].value[0] == text[ms[k].start];
    }
  }

  // ---------------------------------------------------------------------------
  // Extractors that keep the matched text
  // ---------------------------------------------------------------------------

  /** An example snippet: a lead phrase, then 10 to 200 characters none of which is a period. */
  ghost predicate IsExampleSnippet(x: string) {
    exists p :: p in ExamplePhrases && OccursAtCI(x, 0, p) && |p| + 10 <= |x| <= |p| + 200
      && forall k :: |p| <= k < |x| ==> x[k] != '.'
  }

  lemma ExampleMatchShape(s: string, i: nat)
    requires i <= |s| && ExampleAt(s, i).Some?
    ensures IsExampleSnippet(s[i..ExampleAt(s, i).value.end])
  {
    var p := PhraseAt(s, i, ExamplePhrases).value;
    var t := i + |p|;
    var e := t + Min(RunEnd(s, t, NotDot) - t, 200);
    assert e == ExampleAt(s, i).value.end;
    var x := s[i..e];
    assert x[0..|p|] == s[i..t];
    assert OccursAtCI(x, 0, p);
    forall k | |p| <= k < |x| ensures x[k] != '.' {
      assert x[k] == s[i + k];
      assert NotDot(s[i + k]);
    }
  }

  method ExtractExamples(text: string) returns (examples: seq<string>)
    ensures Sound(ExampleAt)
    ensures examples == MapItems(MatchedText, text, AllMatches(ExampleAt, text))
    ensures forall x :: x in examples ==> IsExampleSnippet(x)
  {
    AllSound();
    examples := ExecLoop(ExampleAt, text, MatchedText);
    var ms := AllMatches(ExampleAt, text);
    forall k | 0 <= k < |ms| ensures IsExampleSnippet(examples[k]) {
      assert ExampleAt(text, ms[k].start) == Some(ms[k]);
      ExampleMatchShape(text, ms[k].start);
    }
  }

  /** Case studies are bare "case study" or "client success" phrases, or "customer story"
      with 50 to 300 characters that are not periods. */
  method ExtractCaseStudies(text: string) returns (caseStudies: seq<string>)
    ensures Sound(CaseStudyAt)
    ensures caseStudies == MapItems(MatchedText, text, AllMatches(CaseStudyAt, text))
    ensures forall x :: x in caseStudies ==> IsCaseStudySnippet(x)
  {
    AllSound();
    caseStudies := ExecLoop(CaseStudyAt, text, MatchedText);
    var ms := AllMatches(CaseStudyAt, text);
    forall k | 0 <= k < |ms| ensures IsCaseStudySnippet(caseStudies[k]) {
      assert CaseStudyAt(text, ms[k].start) == Some(ms[k]);
    }
  }

  lemma RecencyMatchShape(s: string, i: nat)
    requires i <= |s| && RecencyAt(s, i).Some?
    ensures RecentYearAt(s[i..RecencyAt(s, i).value.end], 0)
  {
    var x := s[i..RecencyAt(s, i).value.end];
    assert x[0] == s[i] && x[1] == s[i + 1] && x[2] == s[i + 2] && x[3] == s[i + 3];
  }

  /** Recent-data mentions start with 2023, 2024 or 2025. */
  method ExtractDataRecency(text: string) returns (recentData: seq<string>)
    ensures Sound(RecencyAt)
    ensures recentData == MapItems(MatchedText, text, AllMatches(RecencyAt, text))
    ensures forall x :: x in recentData ==> RecentYearAt(x, 0)
  {
    AllSound();
    recentData := ExecLoop(RecencyAt, text, MatchedText);
    var ms := AllMatches(RecencyAt, text);
    forall k | 0 <= k < |ms| ensures RecentYearAt(recentData[k], 0) {
      assert RecencyAt(text, ms[k].start) == Some(ms[k]);
      RecencyMatchShape(text, ms[k].start);
    }
  }

  /** The phrase-list extractors find one of their phrases, in whatever case the text has. */
  ghost predicate IsPhraseOf(x: string, phrases: seq<string>) {
    exists p :: p in phrases && Lower(x) == Lower(p)
  }

  lemma PhraseMatchShape(s: string, i: nat, phrases: seq<string>)
    requires i <= |s| && PhraseAt(s, i, phrases).Some?
    ensures i + |PhraseAt(s, i, phrases).value| <= |s|
    ensures IsPhraseOf(s[i..i + |PhraseAt(s, i, phrases).value|], phrases)
  {
  }

  /** The call-to-action phrases of the text, before deduplication. */
  method ExtractCtaPhrases(text: string) returns (phrases: seq<string>)
    ensures Sound(CallToActionAt)
    ensures phrases == MapItems(MatchedText, text, AllMatches(CallToActionAt, text))
    ensures forall x :: x in phrases ==> IsPhraseOf(x, CtaPhrases)
  {
    AllSound();
    phrases := ExecLoop(CallToActionAt, text, MatchedText);
    CtaMatchesArePhrases(text);
  }

  lemma CtaMatchesArePhrases(text: string)
    requires Sound(CallToActionAt)
    ensures forall x :: x in MapItems(MatchedText, text, AllMatches(CallToActionAt, text)) ==>
      IsPhraseOf(x, CtaPhrases)
  {
    var ms := AllMatches(CallToActionAt, text);
    var phrases := MapItems(MatchedText, text, ms);
    forall k | 0 <= k < |ms| ensures IsPhraseOf(phrases[k], CtaPhrases) {
      assert CallToActionAt(text, ms[k].start) == Some(ms[k]);
      CtaMatchIsPhrase(text, ms[k]);
    }
  }

  lemma CtaMatchIsPhrase(text: string, m: Match)
    requires m.start <= |text| && CallToActionAt(text, m.start) == Some(m)
    ensures m.start <= m.end <= |text| && IsPhraseOf(MatchedText(text, m), CtaPhrases)
  {
    var p := PhraseAt(text, m.start, CtaPhrases);
    assert p.Some? && m.end == m.start + |p.value|;
    PhraseMatchIsPhrase(text, m, CtaPhrases);
  }

  /** A match spanning the phrase found at its start is that phrase, up to case. */
  lemma PhraseMatchIsPhrase(text: string, m: Match, phrases: seq<string>)
    requires m.start <= |text| && PhraseAt(text, m.start, phrases).Some?
    requires m.end == m.start + |PhraseAt(text, m.start, phrases).value|
    ensures m.start <= m.end <= |text| && IsPhraseOf(MatchedText(text, m), phrases)
  {
    PhraseMatchShape(text, m.start, phrases);
  }

  // ---------------------------------------------------------------------------
  // Years
  // ---------------------------------------------------------------------------

  /** Years are 2023, 2024 or 2025 only. */
  method ExtractYearMentions(text: string) returns (years: seq<string>)
    ensures Sound(YearAt)
    ensures years == MapItems(GroupOf, text, AllMatches(YearAt, text))
    ensures forall y :: y in years ==> y == "2023" || y == "2024" || y == "2025"
  {
    AllSound();
    years := ExecLoop(YearAt, text, GroupOf);
    var ms := AllMatches(YearAt, text);
    forall k | 0 <= k < |ms| ensures years[k] == "2023" || years[k] == "2024" || years[k] == "2025" {
      YearGroup(text, ms[k].start);
    }
  }

  /** The text a year match captures is one of the three years. */
  lemma YearGroup(text: string, i: nat)
    requires i <= |text| && YearAt(text, i).Some?
    ensures var g := YearAt(text, i).value.group; g == "2023" || g == "2024" || g == "2025"
  {
    assert YearAt(text, i).value.group == [text[i], text[i + 1], text[i + 2], text[i + 3]];
  }

  /** Two whole-word years cannot overlap. */
  lemma YearsDoNotOverlap(text: string, j: nat, i: nat)
    requires j <= i <= |text| && YearAt(text, j).Some? && YearAt(text, i).Some?
    requires i < YearAt(text, j).value.end
    ensures i == j
  {
    if j < i {
      assert false;
    }
  }

  /** Every whole-word 2023, 2024 or 2025 in the text is a year mention: the exec loop
      starts a match at each. */
  lemma YearMentionsComplete(text: string, i: nat)
    requires i <= |text| && YearAt(text, i).Some?
    ensures Sound(YearAt)
    ensures exists k :: 0 <= k < |AllMatches(YearAt, text)| && AllMatches(YearAt, text)[k].start == i
  {
    AllSound();
    var r := AllMatches(YearAt, text);
    AllFromCovers(YearAt, text, 0, i);
    var k :| 0 <= k < |r| && r[k].start <= i < r[k].end;
    assert YearAt(text, r[k].start) == Some(r[k]);
    YearsDoNotOverlap(text, r[k].start, i);
  }

  // ---------------------------------------------------------------------------
  // Data citations and credentials
  // ---------------------------------------------------------------------------

  /** Each data citation is the inside of a parenthesis without a closing parenthesis. */
  method ExtractDataCitations(text: string) returns (citations: seq<string>)
    ensures Sound(DataCitationAt)
    ensures citations == MapItems(GroupOf, text, AllMatches(DataCitationAt, text))
    ensures forall c :: c in citations ==> ')' !in c && |c| >= 5
  {
    AllSound();
    citations := ExecLoop(DataCitationAt, text, GroupOf);
    var ms := AllMatches(DataCitationAt, text);
    forall k | 0 <= k < |ms| ensures ')' !in citations[k] && |citations[k]| >= 5 {
      assert DataCitationAt(text, ms[k].start) == Some(ms[k]);
    }
  }

  predicate NoDuplicates<T(==)>(xs: seq<T>) {
    forall i, j :: 0 <= i < j < |xs| ==> xs[i] != xs[j]
  }

  /** Deduplication through a set: each value once, at its first occurrence. */
  function Distinct(xs: seq<string>): (r: seq<string>)
    ensures forall x :: x in r <==> x in xs
    ensures NoDuplicates(r)
    ensures |r| <= |xs|
  {
    if xs == [] then []
    else
      var d := Distinct(xs[..|xs| - 1]);
      var x := xs[|xs| - 1];
      assert forall y :: y in xs <==> y in xs[..|xs| - 1] || y == x by {
        assert xs == xs[..|xs| - 1] + [x];
      }
      if x in d then d else d + [x]
  }

  /** The index of the first occurrence of `x`. */
  function FirstIndex<T(==)>(xs: seq<T>, x: T): (k: nat)
    requires x in xs
    ensures k < |xs| && xs[k] == x && x !in xs[..k]
  {
    if xs[0] == x then 0 else 1 + FirstIndex(xs[1..], x)
  }

  lemma {:induction false} FirstIndexOfPrefix<T>(xs: seq<T>, n: nat, x: T)
    requires n <= |xs| && x in xs[..n]
    ensures FirstIndex(xs, x) == FirstIndex(xs[..n], x)
  {
    var a := FirstIndex(xs, x);
    var b := FirstIndex(xs[..n], x);
    assert xs[..n][b] == xs[b];
    if a != b {
      assert false;
    }
  }

  /** The deduplicated list keeps values in the order of their first occurrences. */
  lemma {:induction false} DistinctFirstOccurrenceOrder(xs: seq<string>)
    ensures forall i, j :: 0 <= i < j < |Distinct(xs)| ==>
      FirstIndex(xs, Distinct(xs)[i]) < FirstIndex(xs, Distinct(xs)[j])
  {
    if xs != [] {
      var n := |xs| - 1;
      var init := xs[..n];
      var d := Distinct(init);
      var x := xs[n];
      DistinctFirstOccurrenceOrder(init);
      assert xs[..n] == init;
      forall y | y in d ensures FirstIndex(xs, y) == FirstIndex(init, y) {
        FirstIndexOfPrefix(xs, n, y);
      }
      if x !in d {
        assert FirstIndex(xs, x) == n;
      }
    }
  }

  /** Credentials are deduplicated credential words, in the case of their first occurrence. */
  method ExtractCredentials(text: string) returns (credentials: seq<string>)
    ensures Sound(CredentialAt)
    ensures credentials == Distinct(MapItems(MatchedText, text, AllMatches(CredentialAt, text)))
    ensures NoDuplicates(credentials)
    ensures forall x :: x in credentials ==> IsPhraseOf(x, CredentialWords)
  {
    AllSound();
    var all := ExecLoop(CredentialAt, text, MatchedText);
    var ms := AllMatches(CredentialAt, text);
    forall k | 0 <= k < |ms| ensures IsPhraseOf(all[k], CredentialWords) {
      assert CredentialAt(text, ms[k].start) == Some(ms[k]);
      PhraseMatchShape(text, ms[k].start, CredentialWords);
    }
    credentials := Distinct(all);
  }

  // ---------------------------------------------------------------------------
  // Keyword detectors
  // ---------------------------------------------------------------------------

  const TrendingKeywords := ["AI", "ChatGPT", "machine learning", "automation", "cloud", "sustainability"]

  const LsiTerms := ["SEO", "optimization", "ranking", "content", "keywords", "traffic",
                     "search engine", "Google", "website", "page"]

  /** The keywords of the list that occur in the text, ignoring case, in list order. */
  function PresentKeywords(text: string, keywords: seq<string>): (r: seq<string>)
    ensures |r| <= |keywords|
    ensures forall k :: k in r <==> k in keywords && ContainsCI(text, k)
  {
    if keywords == [] then []
    else
      var rest := PresentKeywords(text, keywords[1..]);
      assert forall k :: k in keywords <==> k == keywords[0] || k in keywords[1..] by {
        assert keywords == [keywords[0]] + keywords[1..];
      }
      if ContainsCI(text, keywords[0]) then [keywords[0]] + rest else rest
  }

  /** Each keyword the text contains, ignoring case, in the order of the keyword list. */
  method KeywordsIn(text: string, keywords: seq<string>) returns (found: seq<string>)
    ensures found == PresentKeywords(text, keywords)
    ensures forall k :: k in found <==> k in keywords && ContainsCI(text, k)
  {
    found := [];
    var i := 0;
    while i < |keywords|
      invariant 0 <= i <= |keywords|
      invariant found + PresentKeywords(text, keywords[i..]) == PresentKeywords(text, keywords)
      decreases |keywords| - i
    {
      assert keywords[i..][1..] == keywords[i + 1..];
      if ContainsCI(text, keywords[i]) {
        found := found + [keywords[i]];
      }
      i := i + 1;
    }
    assert keywords[i..] == [];
  }

  // ---------------------------------------------------------------------------
  // Syllables and readability
  // ---------------------------------------------------------------------------

  predicate IsVowel(c: char) { c in "aeiouy" }
  predicate IsSuffixGuard(c: char) { c !in "laeiouy" }

  /** Drops one silent ending: "es" after a letter other than l or a vowel, "ed", or "e"
      after such a letter.  The regular expression takes the leftmost match that reaches
      the end, so the three-letter ending is tried before the two-letter ones. */
  function StripSuffix(w: string): (r: string)
    ensures |w| - 3 <= |r| <= |w| && r == w[..|r|]
  {
    var n := |w|;
    if n >= 3 && IsSuffixGuard(w[n - 3]) && w[n - 2] == 'e' && w[n - 1] == 's' then w[..n - 3]
    else if n >= 2 && w[n - 2] == 'e' && w[n - 1] == 'd' then w[..n - 2]
    else if n >= 2 && IsSuffixGuard(w[n - 2]) && w[n - 1] == 'e' then w[..n - 2]
    else w
  }

  /** One alternative of the silent-ending pattern matches `w` from position `k` to its end:
      a guard letter then "es", "ed", or a guard letter then "e". */
  predicate SilentEndingAt(w: string, k: nat)
  {
    (k + 3 == |w| && IsSuffixGuard(w[k]) && w[k + 1] == 'e' && w[k + 2] == 's')
    || (k + 2 == |w| && w[k] == 'e' && w[k + 1] == 'd')
    || (k + 2 == |w| && IsSuffixGuard(w[k]) && w[k + 1] == 'e')
  }

  /** StripSuffix removes exactly the leftmost silent ending that reaches the end of the
      word, or nothing when no position starts one. */
  lemma StripSuffixLeftmost(w: string)
    ensures StripSuffix(w) == w || SilentEndingAt(w, |StripSuffix(w)|)
    ensures forall k: nat :: k < |StripSuffix(w)| ==> !SilentEndingAt(w, k)
  {
  }

  /** The number of vowel groups from `i` on, a group being one vowel or two in a row
      (a run of three vowels is two groups). */
  function VowelGroups(w: string, i: nat): (n: nat)
    requires i <= |w|
    ensures n <= |w| - i
    decreases |w| - i
  {
    if i == |w| then 0
    else if !IsVowel(w[i]) then VowelGroups(w, i + 1)
    else if i + 1 < |w| && IsVowel(w[i + 1]) then 1 + VowelGroups(w, i + 2)
    else 1 + VowelGroups(w, i + 1)
  }

  /** At least one syllable; exactly one for words of at most three characters; never more
      than the word has characters. */
  function CountSyllables(word: string): (n: nat)
    ensures n >= 1
    ensures |word| <= 3 ==> n == 1
    ensures n <= Max(1, |word|)
  {
    var w := Lower(word);
    if |w| <= 3 then 1
    else
      var stripped := StripSuffix(w);
      var body := if |stripped| > 0 && stripped[0] == 'y' then stripped[1..] else stripped;
      var groups := VowelGroups(body, 0);
      if groups == 0 then 1 else groups
  }

  /** A silent final "e" after a consonant other than "l" is dropped; after "l" it is kept. */
  lemma SyllablesOfFinalE()
    ensures CountSyllables("make") == 1
  {
    assert Lower("make") == "make";
  }

  lemma SyllablesOfFinalLe()
    ensures CountSyllables("table") == 2
  {
    assert Lower("table") == "table";
  }

  /** A final "ed" is dropped, and a vowel pair counts once. */
  lemma SyllablesOfFinalEd()
    ensures CountSyllables("played") == 1
  {
    assert Lower("played") == "played";
  }

  lemma SyllablesOfVowelPair()
    ensures CountSyllables("reading") == 2
  {
    var w := "reading";
    assert Lower(w) == w && StripSuffix(w) == w;
    assert VowelGroups(w, 5) == 0 by { assert VowelGroups(w, 6) == 0; }
    assert VowelGroups(w, 3) == 1 by { assert VowelGroups(w, 4) == 1; }
    assert VowelGroups(w, 0) == 2 by { assert VowelGroups(w, 1) == 2; }
  }

  /** The pieces between runs of sentence terminators. */
  predicate IsTerminator(c: char) { c == '.' || c == '!' || c == '?' }

  function SplitSentencesFrom(s: string, i: nat): (r: seq<string>)
    requires i <= |s|
    ensures |r| >= 1
    decreases |s| - i
  {
    var j := RunEnd(s, i, c => !IsTerminator(c));
    if j == |s| then [s[i..]]
    else [s[i..j]] + SplitSentencesFrom(s, RunEnd(s, j, IsTerminator))
  }

  function NonBlank(pieces: seq<string>): (r: seq<string>)
    ensures |r| <= |pieces|
    ensures forall p :: p in r ==> !AllSpace(p)
  {
    if pieces == [] then []
    else (if Trim(pieces[0]) == [] then [] else [pieces[0]]) + NonBlank(pieces[1..])
  }

  /** The sentences of the text: the pieces between terminator runs that are not blank. */
  function Sentences(text: string): seq<string> {
    NonBlank(SplitSentencesFrom(text, 0))
  }

  /** `a / b` for a positive divisor. */
  function Ratio(a: nat, b: nat): (r: real)
    requires b > 0
    ensures r >= 0.0 && r * (b as real) == a as real
    ensures a >= b ==> r >= 1.0
  {
    RatioBounds(a, b);
    a as real / b as real
  }

  lemma RatioBounds(a: nat, b: nat)
    requires b > 0
    ensures a as real / b as real >= 0.0
    ensures a >= b ==> a as real / b as real >= 1.0
  {
  }

  function SyllableTotal(words: seq<string>): (n: nat)
    ensures n >= |words|
  {
    if words == [] then 0 else CountSyllables(words[0]) + SyllableTotal(words[1..])
  }

  function Clamp(x: real): (r: real)
    ensures 0.0 <= r <= 100.0
    ensures 0.0 <= x <= 100.0 ==> r == x
  {
    if x < 0.0 then 0.0 else if x > 100.0 then 100.0 else x
  }

  datatype Readability = Readability(flesch: real, avgSentenceLength: real, avgSyllablesPerWord: real)

  /** Flesch reading ease, clamped to [0, 100]; the averages divide by at least 1. */
  function CalculateReadability(text: string): (r: Readability)
    ensures 0.0 <= r.flesch <= 100.0
    ensures r.avgSentenceLength >= 0.0
    ensures Words(text) != [] ==> r.avgSyllablesPerWord >= 1.0
    ensures var raw := 206.835 - 1.015 * r.avgSentenceLength - 84.6 * r.avgSyllablesPerWord;
            0.0 <= raw <= 100.0 ==> r.flesch == raw
  {
    var sentences := Sentences(text);
    var words := Words(text);
    var syllables := SyllableTotal(words);
    var avgSentenceLength := Ratio(|words|, Max(|sentences|, 1));
    var avgSyllablesPerWord := Ratio(syllables, Max(|words|, 1));
    assert words != [] ==> syllables >= Max(|words|, 1);
    ReadabilityOf(avgSentenceLength, avgSyllablesPerWord)
  }

  /** The two averages with the clamped reading ease they give. */
  function ReadabilityOf(avgSentenceLength: real, avgSyllablesPerWord: real): (r: Readability)
    ensures r.avgSentenceLength == avgSentenceLength && r.avgSyllablesPerWord == avgSyllablesPerWord
    ensures 0.0 <= r.flesch <= 100.0
    ensures var raw := 206.835 - 1.015 * avgSentenceLength - 84.6 * avgSyllablesPerWord;
            0.0 <= raw <= 100.0 ==> r.flesch == raw
  {
    Readability(Clamp(206.835 - 1.015 * avgSentenceLength - 84.6 * avgSyllablesPerWord),
                avgSentenceLength, avgSyllablesPerWord)
  }

  /** Text without words has no sentences either, and reads as easily as the clamp allows. */
  lemma BlankTextReadsEasily(text: string)
    requires AllSpace(text)
    ensures CalculateReadability(text).flesch == 100.0
  {
    WordsEmptyIffAllSpace(text);
    var words := Words(text);
    assert |words| == 0 && SyllableTotal(words) == 0;
    RatioOfNothing(Max(|Sentences(text)|, 1));
    RatioOfNothing(Max(|words|, 1));
    assert Clamp(206.835 - 1.015 * 0.0 - 84.6 * 0.0) == 100.0;
  }

  lemma RatioOfNothing(b: nat)
    requires b > 0
    ensures Ratio(0, b) == 0.0
  {
  }

  function WordCounts(sentences: seq<string>): (r: seq<nat>)
    ensures |r| == |sentences|
    ensures forall k :: 0 <= k < |r| ==> r[k] == |SplitWs(sentences[k])| && r[k] >= 1
    ensures Sum(r) >= |r|
  {
    seq(|sentences|, k requires 0 <= k < |sentences| => |SplitWs(sentences[k])|)
  }

  function Sum(xs: seq<nat>): (n: nat)
    ensures (forall k :: 0 <= k < |xs| ==> xs[k] >= 1) ==> n >= |xs|
  {
    if xs == [] then 0 else xs[0] + Sum(xs[1..])
  }

  function CountAbove(xs: seq<nat>, limit: nat): (n: nat)
    ensures n <= |xs|
  {
    if xs == [] then 0 else (if xs[0] > limit then 1 else 0) + CountAbove(xs[1..], limit)
  }

  /** `avg` is `total` shared among `n` parts, or `total` itself when there are none. */
  ghost predicate IsAverage(avg: real, total: nat, n: nat)
  {
    avg * (Max(n, 1) as real) == total as real
  }

  lemma RatioIsAverage(total: nat, n: nat)
    ensures IsAverage(Ratio(total, Max(n, 1)), total, n)
  {
  }

  datatype SentenceStats = SentenceStats(count: nat, avgLength: real, longCount: nat)

  /** Sentence count, average words per sentence (each sentence's whitespace-split pieces, so
      at least one), and sentences over 25 words. */
  function CalculateSentenceStats(text: string): (r: SentenceStats)
    ensures r.count == |Sentences(text)|
    ensures r.longCount <= r.count
    ensures r.count == 0 ==> r.avgLength == 0.0
    ensures r.count > 0 ==> r.avgLength >= 1.0
    ensures IsAverage(r.avgLength, Sum(WordCounts(Sentences(text))), r.count)
  {
    var sentences := Sentences(text);
    var wordCounts := WordCounts(sentences);
    var total := Sum(wordCounts);
    var avgLength := Ratio(total, Max(|sentences|, 1));
    RatioIsAverage(total, |sentences|);
    SentenceStats(|sentences|, avgLength, CountAbove(wordCounts, 25))
  }
}
