/**
  The deterministic glue around the language-model validator: the fallback record used
  when validation fails, the clean-up of the model's reply, and the mapping from the
  parsed reply to the validated counts the scoring engine reads.

  The model call itself is an oracle (`ask`), and `JSON.parse` is an oracle (`parse`) that
  yields `None` when the text is not JSON and otherwise the parsed reply as a
  `ValidationJson`.
*/
module Validator {
  import opened Strings
  import opened TextExtractors
  import opened Dom
  import opened ContentParser
  import Scoring

  type Num = Scoring.Num

  /** One `{index, reason}` entry of a `rejected` array, passed through as it is. */
  datatype Rejection = Rejection(index: int, reason: string)

  /** One category of the parsed reply.  `validated` is `None` when the key is missing;
      `rejected` is `None` when the key is missing or holds a falsy value.  A category given
      as a number, string or boolean reads as `CategoryVerdict(None, None)`. */
  datatype CategoryVerdict = CategoryVerdict(validated: Num, rejected: Option<seq<Rejection>>)

  /** The parsed reply: a category is `None` when its key is missing or `null`. */
  datatype ValidationJson = ValidationJson(
    expertQuotes: Option<CategoryVerdict>, statistics: Option<CategoryVerdict>,
    caseStudies: Option<CategoryVerdict>, faqQuestions: Option<CategoryVerdict>)

  /** The rejection lists of a validation result; the fallback record has no FAQ entry. */
  datatype Rejections = Rejections(
    expertQuotes: seq<Rejection>, statistics: seq<Rejection>, caseStudies: seq<Rejection>,
    faqQuestions: Option<seq<Rejection>>)

  datatype ValidationResult = ValidationResult(
    expertQuotes: Num, statistics: Num, sources: Num, caseStudies: Num, faqCount: Num,
    rejections: Rejections, fallback: bool)

  // ---------------------------------------------------------------------------
  // The fallback record
  // ---------------------------------------------------------------------------

  /** The record returned when validation fails: the parser's own counts, unvalidated.
      It copies `counts.sources`, a field the parser never sets, so `sources` is missing. */
  function Fallback(counts: Counts): (r: ValidationResult)
    ensures r.fallback
    ensures r.expertQuotes == Some(counts.expertQuotes as real) && r.statistics == Some(counts.statistics as real)
    ensures r.caseStudies == Some(counts.caseStudies as real) && r.faqCount == Some(counts.faqCount as real)
    ensures r.sources.None?
    ensures r.rejections.expertQuotes == [] && r.rejections.statistics == [] && r.rejections.caseStudies == []
    ensures r.rejections.faqQuestions.None?
  {
    ValidationResult(
      Some(counts.expertQuotes as real), Some(counts.statistics as real), None, Some(counts.caseStudies as real),
      Some(counts.faqCount as real), Rejections([], [], [], None), true)
  }

  // ---------------------------------------------------------------------------
  // Cleaning the reply
  // ---------------------------------------------------------------------------

  /** A global replace of `f`, optionally followed by one newline, with nothing: scanning
      from the left, each occurrence (and the newline after it, if any) is dropped. */
  function StripFence(s: string, f: string): (r: string)
    requires |f| > 0
    ensures |r| <= |s|
    decreases |s|
  {
    if s == [] then []
    else if OccursAt(s, 0, f) then
      var rest := s[|f|..];
      if rest != [] && rest[0] == '\n' then StripFence(rest[1..], f) else StripFence(rest, f)
    else [s[0]] + StripFence(s[1..], f)
  }

  /** The reply text as it is handed to `JSON.parse`: trimmed, and when it then starts with
      a fence, with every `json` fence and every plain fence removed and trimmed again. */
  function CleanedResponse(text: string): string {
    var t := Trim(text);
    if OccursAt(t, 0, Fence) then Trim(StripFence(StripFence(t, JsonFence), Fence)) else t
  }

  /** The clean-up step of `parseValidationResponse`, reassigning the text step by step. */
  method CleanResponse(responseText: string) returns (cleanText: string)
    ensures cleanText == CleanedResponse(responseText)
    ensures !OccursAt(Trim(responseText), 0, Fence) ==> cleanText == Trim(responseText)
    ensures OccursAt(Trim(responseText), 0, Fence) ==> !Contains(cleanText, Fence)
    ensures IsSubsequence(cleanText, responseText)
  {
    cleanText := Trim(responseText);
    if OccursAt(cleanText, 0, Fence) {
      cleanText := StripFence(cleanText, JsonFence);
      cleanText := StripFence(cleanText, Fence);
      cleanText := Trim(cleanText);
    }
    CleanedHasNoFence(responseText);
    CleanedIsSubsequence(responseText);
  }

  /** `a` is `b` with some characters deleted. */
  predicate IsSubsequence(a: string, b: string)
    decreases |b|
  {
    if a == [] then true
    else if b == [] then false
    else (a[0] == b[0] && IsSubsequence(a[1..], b[1..])) || IsSubsequence(a, b[1..])
  }

  lemma {:induction false} SubsequenceTransitive(a: string, b: string, c: string)
    requires IsSubsequence(a, b) && IsSubsequence(b, c)
    ensures IsSubsequence(a, c)
    decreases |c|
  {
    if a != [] {
      assert b != [] && c != [];
      if IsSubsequence(b, c[1..]) {
        SubsequenceTransitive(a, b, c[1..]);
      } else if a[0] == b[0] && IsSubsequence(a[1..], b[1..]) {
        SubsequenceTransitive(a[1..], b[1..], c[1..]);
      } else {
        SubsequenceTransitive(a, b[1..], c[1..]);
      }
    }
  }

  /** Every slice of `s` is a subsequence of it. */
  lemma {:induction false} SliceIsSubsequence(s: string, a: nat, b: nat)
    requires a <= b <= |s|
    ensures IsSubsequence(s[a..b], s)
    decreases |s|
  {
    if a < b {
      if a > 0 {
        assert s[1..][a - 1..b - 1] == s[a..b];
        SliceIsSubsequence(s[1..], a - 1, b - 1);
      } else {
        assert s[1..][0..b - 1] == s[a..b][1..];
        SliceIsSubsequence(s[1..], 0, b - 1);
      }
    }
  }

  lemma TrimIsSubsequence(s: string)
    ensures IsSubsequence(Trim(s), s)
  {
    var a, b :| 0 <= a <= b <= |s| && Trim(s) == s[a..b];
    SliceIsSubsequence(s, a, b);
  }

  /** Stripping fences only deletes characters. */
  lemma {:induction false} StripIsSubsequence(s: string, f: string)
    requires |f| > 0
    ensures IsSubsequence(StripFence(s, f), s)
    decreases |s|
  {
    if s != [] {
      if OccursAt(s, 0, f) {
        var rest := s[|f|..];
        SliceIsSubsequence(s, |f|, |s|);
        assert s[|f|..|s|] == rest;
        if rest != [] && rest[0] == '\n' {
          StripIsSubsequence(rest[1..], f);
          SliceIsSubsequence(rest, 1, |rest|);
          assert rest[1..|rest|] == rest[1..];
          SubsequenceTransitive(StripFence(rest[1..], f), rest[1..], rest);
          SubsequenceTransitive(StripFence(rest[1..], f), rest, s);
        } else {
          StripIsSubsequence(rest, f);
          SubsequenceTransitive(StripFence(rest, f), rest, s);
        }
      } else {
        StripIsSubsequence(s[1..], f);
        var r := StripFence(s, f);
        assert r == [s[0]] + StripFence(s[1..], f);
        assert r[1..] == StripFence(s[1..], f);
      }
    }
  }

  /** The cleaned reply holds no character that was not in the reply. */
  lemma CleanedIsSubsequence(text: string)
    ensures IsSubsequence(CleanedResponse(text), text)
  {
    var t := Trim(text);
    TrimIsSubsequence(text);
    if OccursAt(t, 0, Fence) {
      var u := StripFence(t, JsonFence);
      var w := StripFence(u, Fence);
      StripIsSubsequence(t, JsonFence);
      StripIsSubsequence(u, Fence);
      TrimIsSubsequence(w);
      SubsequenceTransitive(u, t, text);
      SubsequenceTransitive(w, u, text);
      SubsequenceTransitive(Trim(w), w, text);
    }
  }

  /** `s` has no occurrence of a plain fence. */
  ghost predicate FenceFree(s: string) {
    forall k: nat :: !OccursAt(s, k, Fence)
  }

  lemma FenceFreeIffNotContains(s: string)
    ensures FenceFree(s) <==> !Contains(s, Fence)
  {
    if Contains(s, Fence) {
      assert OccursAt(s, IndexOf(s, Fence).value, Fence);
    }
  }

  /** Where `s` does not start with `f`, its first character is kept. */
  lemma KeptHead(s: string, f: string)
    requires |f| > 0 && s != [] && !OccursAt(s, 0, f)
    ensures StripFence(s, f) == [s[0]] + StripFence(s[1..], f)
  {
  }

  /** Removing every plain fence leaves none behind: a kept backtick is never directly
      followed by two more kept backticks, or the leftmost scan would have matched there. */
  lemma {:induction false} StripLeavesNoFence(s: string)
    ensures FenceFree(StripFence(s, Fence))
    decreases |s|
  {
    var r := StripFence(s, Fence);
    if s != [] {
      if OccursAt(s, 0, Fence) {
        var rest := s[|Fence|..];
        if rest != [] && rest[0] == '\n' {
          StripLeavesNoFence(rest[1..]);
        } else {
          StripLeavesNoFence(rest);
        }
      } else {
        var tail := StripFence(s[1..], Fence);
        KeptHead(s, Fence);
        StripLeavesNoFence(s[1..]);
        forall k: nat ensures !OccursAt(r, k, Fence) {
          if k > 0 && OccursAt(r, k, Fence) {
            assert r[k..k + |Fence|] == tail[k - 1..k - 1 + |Fence|];
            assert OccursAt(tail, k - 1, Fence);
          } else if k == 0 && OccursAt(r, 0, Fence) {
            NoTwoTicksAfterKeptTick(s);
          }
        }
      }
    }
  }

  /** The case analysis behind `StripLeavesNoFence`: a kept backtick at the front is not
      followed by two kept backticks. */
  lemma NoTwoTicksAfterKeptTick(s: string)
    requires s != [] && !OccursAt(s, 0, Fence)
    ensures !OccursAt(StripFence(s, Fence), 0, Fence)
  {
    KeptHead(s, Fence);
    if |s| > 1 && !OccursAt(s[1..], 0, Fence) {
      KeptHead(s[1..], Fence);
      if |s| > 2 && !OccursAt(s[2..], 0, Fence) {
        KeptHead(s[2..], Fence);
      }
    }
  }

  /** When the trimmed reply starts with a fence, the cleaned text holds no fence at all;
      otherwise it is the trimmed reply itself. */
  lemma CleanedHasNoFence(text: string)
    ensures OccursAt(Trim(text), 0, Fence) ==> !Contains(CleanedResponse(text), Fence)
    ensures !OccursAt(Trim(text), 0, Fence) ==> CleanedResponse(text) == Trim(text)
  {
    var t := Trim(text);
    if OccursAt(t, 0, Fence) {
      var w := StripFence(StripFence(t, JsonFence), Fence);
      StripLeavesNoFence(StripFence(t, JsonFence));
      FenceFreeIffNotContains(w);
      var a, b :| 0 <= a <= b <= |w| && Trim(w) == w[a..b];
      if Contains(Trim(w), Fence) {
        ContainsInSlice(w, Fence, a, b);
      }
    }
  }

  /** Stripping a plain fence from text without one changes nothing, so stripping is
      idempotent. */
  lemma {:induction false} StripWithoutFence(s: string)
    requires FenceFree(s)
    ensures StripFence(s, Fence) == s
    decreases |s|
  {
    if s != [] {
      assert !OccursAt(s, 0, Fence);
      assert FenceFree(s[1..]) by {
        forall k: nat ensures !OccursAt(s[1..], k, Fence) {
          if OccursAt(s[1..], k, Fence) {
            assert s[1..][k..k + |Fence|] == s[k + 1..k + 1 + |Fence|];
            assert OccursAt(s, k + 1, Fence);
          }
        }
      }
      StripWithoutFence(s[1..]);
    }
  }

  lemma StripIdempotent(s: string)
    ensures StripFence(StripFence(s, Fence), Fence) == StripFence(s, Fence)
  {
    StripLeavesNoFence(s);
    StripWithoutFence(StripFence(s, Fence));
  }

  // ---------------------------------------------------------------------------
  // Mapping the parsed reply
  // ---------------------------------------------------------------------------

  /** `a + b` on two JSON numbers: `NaN` (here `None`) when either is missing. */
  function Add(a: Num, b: Num): (r: Num)
    ensures r.Some? <==> a.Some? && b.Some?
    ensures r.Some? ==> r.value == a.value + b.value
  {
    if a.Some? && b.Some? then Some(a.value + b.value) else None
  }

  /** A missing `rejected` field reads as the empty list. */
  function OrEmpty(x: Option<seq<Rejection>>): (r: seq<Rejection>)
    ensures x.Some? ==> r == x.value
    ensures x.None? ==> r == []
  {
    if x.Some? then x.value else []
  }

  predicate HasAllCategories(p: ValidationJson) {
    p.expertQuotes.Some? && p.statistics.Some? && p.caseStudies.Some? && p.faqQuestions.Some?
  }

  /** The success record of `parseValidationResponse`; `None` when a category is missing,
      since reading `.validated` of it throws. */
  function FromParsed(p: ValidationJson): (r: Option<ValidationResult>)
    ensures r.Some? <==> HasAllCategories(p)
    ensures r.Some? ==>
      && r.value.expertQuotes == p.expertQuotes.value.validated
      && r.value.statistics == p.statistics.value.validated
      && r.value.caseStudies == p.caseStudies.value.validated
      && r.value.faqCount == p.faqQuestions.value.validated
      && r.value.sources == Add(p.expertQuotes.value.validated, p.statistics.value.validated)
      && r.value.rejections.expertQuotes == OrEmpty(p.expertQuotes.value.rejected)
      && r.value.rejections.statistics == OrEmpty(p.statistics.value.rejected)
      && r.value.rejections.caseStudies == OrEmpty(p.caseStudies.value.rejected)
      && r.value.rejections.faqQuestions == Some(OrEmpty(p.faqQuestions.value.rejected))
      && !r.value.fallback
  {
    if !HasAllCategories(p) then None
    else
      var eq := p.expertQuotes.value;
      var st := p.statistics.value;
      var cs := p.caseStudies.value;
      var fq := p.faqQuestions.value;
      Some(ValidationResult(
        eq.validated, st.validated, Add(eq.validated, st.validated), cs.validated, fq.validated,
        Rejections(OrEmpty(eq.rejected), OrEmpty(st.rejected), OrEmpty(cs.rejected), Some(OrEmpty(fq.rejected))),
        false))
  }

  /** What the reply means, if it parses: `JSON.parse` of the cleaned text, then the mapping. */
  function Interpret(responseText: string, parse: string -> Option<ValidationJson>): Option<ValidationResult> {
    var parsed := parse(CleanedResponse(responseText));
    if parsed.None? then None else FromParsed(parsed.value)
  }

  const InvalidFormat := "Invalid validation response format"

  /** `parseValidationResponse`: every failure, of `JSON.parse` or of a missing category,
      is rethrown as one error. */
  method ParseValidationResponse(responseText: string, parse: string -> Option<ValidationJson>)
    returns (r: Result<ValidationResult>)
    ensures r.Ok? <==> Interpret(responseText, parse).Some?
    ensures r.Ok? ==> r.value == Interpret(responseText, parse).value && !r.value.fallback
    ensures r.Err? ==> r.error == InvalidFormat
  {
    var cleanText := CleanResponse(responseText);
    var parsed := parse(cleanText);
    if parsed.None? {
      return Err(InvalidFormat);
    }
    var result := FromParsed(parsed.value);
    if result.None? {
      return Err(InvalidFormat);
    }
    r := Ok(result.value);
  }

  // ---------------------------------------------------------------------------
  // validateContent
  // ---------------------------------------------------------------------------

  /** The lists the prompt enumerates (its wording is not modelled): every quote, the
      first 15 statistics, every case study, and the first 10 FAQs. */
  datatype Prompt = Prompt(expertQuotes: seq<Quote>, statistics: seq<Stat>, caseStudies: seq<string>, faqs: seq<Faq>)

  /** The snippet list a property name reads: the parser's snippets hold `expertQuotes`,
      `statistics`, `caseStudies` and `faqs`, and any other name is `undefined`. */
  function FaqSnippets(s: Snippets, name: string): (r: Option<seq<Faq>>)
    ensures r.Some? <==> name == "faqs"
  {
    if name == "faqs" then Some(s.faqs) else None
  }

  const TypeErrorSlice := "Cannot read properties of undefined (reading 'slice')"

  /** `buildValidationPrompt`, reading the FAQ snippets under `faqKey`; calling `.slice` on
      a missing list throws. */
  function BuildPrompt(s: Snippets, faqKey: string): (r: Result<Prompt>)
    ensures r.Ok? <==> faqKey == "faqs"
    ensures r.Ok? ==> |r.value.statistics| <= 15 && |r.value.faqs| <= 10
    ensures r.Ok? ==> r.value.faqs == Take(s.faqs, 10) && r.value.expertQuotes == s.expertQuotes
    ensures r.Err? ==> r.error == TypeErrorSlice
  {
    var faqs := FaqSnippets(s, faqKey);
    if faqs.None? then Err(TypeErrorSlice)
    else Ok(Prompt(s.expertQuotes, Take(s.statistics, 15), s.caseStudies, Take(faqs.value, 10)))
  }

  /** `validateContent` with the FAQ snippets read under `faqKey`.  The prompt is built
      before the `try`, so an error there escapes; inside it, a failed model call or an
      unusable reply yields the fallback record, anything else the parsed one. */
  method ValidateWith(
    output: ParserOutput, faqKey: string, ask: Prompt -> Option<string>,
    parse: string -> Option<ValidationJson>)
    returns (r: Result<ValidationResult>)
    ensures r.Err? <==> BuildPrompt(output.snippets, faqKey).Err?
    ensures r.Err? ==> r.error == BuildPrompt(output.snippets, faqKey).error
    ensures r.Ok? ==>
      var reply := ask(BuildPrompt(output.snippets, faqKey).value);
      && (r.value.fallback <==> reply.None? || Interpret(reply.value, parse).None?)
      && (r.value.fallback ==> r.value == Fallback(output.counts))
      && (!r.value.fallback ==> r.value == Interpret(reply.value, parse).value)
  {
    var prompt := BuildPrompt(output.snippets, faqKey);
    if prompt.Err? {
      return Err(prompt.error);
    }
    var reply := ask(prompt.value);
    if reply.None? {
      return Ok(Fallback(output.counts));
    }
    var parsed := ParseValidationResponse(reply.value, parse);
    if parsed.Err? {
      return Ok(Fallback(output.counts));
    }
    r := Ok(parsed.value);
  }

  /** `validateContent` as written: the prompt reads `snippets.faqQuestions`, which the
      parser does not produce, so the call always rejects, and neither the model nor the
      fallback is ever reached. */
  method ValidateContentAsWritten(
    output: ParserOutput, ask: Prompt -> Option<string>, parse: string -> Option<ValidationJson>)
    returns (r: Result<ValidationResult>)
    ensures r.Err? && r.error == TypeErrorSlice
  {
    r := ValidateWith(output, "faqQuestions", ask, parse);
  }

  /** `validateContent` reading the FAQ snippets the parser does produce: it never fails;
      a failed model call or an unusable reply yields the fallback record. */
  method ValidateContent(
    output: ParserOutput, ask: Prompt -> Option<string>, parse: string -> Option<ValidationJson>)
    returns (r: ValidationResult)
    ensures
      var reply := ask(BuildPrompt(output.snippets, "faqs").value);
      && (r.fallback <==> reply.None? || Interpret(reply.value, parse).None?)
      && (r.fallback ==> r == Fallback(output.counts))
      && (!r.fallback ==> r == Interpret(reply.value, parse).value)
  {
    var result := ValidateWith(output, "faqs", ask, parse);
    r := result.value;
  }

  /** The validated counts as the scoring engine reads them. */
  function ValidatedOf(v: ValidationResult): (s: Scoring.Validated)
    ensures s.expertQuotes == v.expertQuotes && s.statistics == v.statistics && s.sources == v.sources
    ensures s.caseStudies == v.caseStudies && s.faqCount == v.faqCount
  {
    Scoring.Validated(v.expertQuotes, v.statistics, v.sources, v.caseStudies, v.faqCount)
  }
}
