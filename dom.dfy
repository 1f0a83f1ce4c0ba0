/**
  The DOM-side extractors of the content parser, over a flat list of elements in document
  order instead of a parsed HTML tree.  A CSS selector becomes a predicate on one element,
  `$(selector)` the elements that satisfy it (`Select`), and `.each` a loop over them that
  pushes zero or one item per element (`Each`).

  What the tree would have supplied is carried on each element: its text (as `.text()`
  gives it, after script and style elements are gone), the text of its next sibling
  element, whether it contains `th` or `thead` cells, whether it lies inside an `ol`, the host name its `href` resolves to
  against the page address, and, for a JSON-LD script, the parsed JSON.
*/
module Dom {
  import opened Strings

  // ---------------------------------------------------------------------------
  // JSON-LD values, as far as the schema checks look into them
  // ---------------------------------------------------------------------------

  /** An entry of an `@graph` array: `null`, or a value whose `@type` is looked up. */
  datatype LdItem = ItemNull | ItemObject(itemType: Option<string>)

  /** The `@graph` member: absent or falsy, an array, or some other truthy value. */
  datatype LdGraph = NoGraph | GraphArray(items: seq<LdItem>) | GraphOther

  /** The parsed script body: a parse error, `null`, or a value with an optional string
      `@type` and a `@graph`. */
  datatype LdBlock = Malformed | LdNull | LdObject(ldType: Option<string>, graph: LdGraph)

  datatype Element = Element(
    tag: string,
    attrs: map<string, string>,
    text: string,
    nextText: string,
    hasHeaderCells: bool,
    inOrderedList: bool,
    linkHost: Option<string>,
    ld: LdBlock)

  /** An attribute value, or the empty string when it is missing or empty. */
  function Attr(e: Element, name: string): string {
    if name in e.attrs then e.attrs[name] else ""
  }

  // ---------------------------------------------------------------------------
  // Selection and the .each loop
  // ---------------------------------------------------------------------------

  /** The elements a selector matches, in document order. */
  function Select(els: seq<Element>, sel: Element -> bool): (r: seq<Element>)
    ensures |r| <= |els|
  {
    if els == [] then [] else (if sel(els[0]) then [els[0]] else []) + Select(els[1..], sel)
  }

  /** An element is selected exactly when it is on the page and satisfies the selector. */
  lemma {:induction false} SelectIff(els: seq<Element>, sel: Element -> bool, e: Element)
    ensures e in Select(els, sel) <==> e in els && sel(e)
  {
    if els != [] {
      SelectIff(els[1..], sel, e);
      assert e in els <==> e == els[0] || e in els[1..] by {
        assert els == [els[0]] + els[1..];
      }
    }
  }

  /** A selection is empty exactly when no element satisfies the selector. */
  lemma SelectEmptyIff(els: seq<Element>, sel: Element -> bool)
    ensures Select(els, sel) == [] <==> forall e :: e in els ==> !sel(e)
  {
    var r := Select(els, sel);
    if r != [] {
      SelectIff(els, sel, r[0]);
    } else {
      forall e | e in els ensures !sel(e) {
        SelectIff(els, sel, e);
      }
    }
  }

  /** Every selected element satisfies the selector. */
  lemma SelectedSatisfies(els: seq<Element>, sel: Element -> bool, k: nat)
    requires k < |Select(els, sel)|
    ensures sel(Select(els, sel)[k])
  {
    SelectIff(els, sel, Select(els, sel)[k]);
  }

  /** What a `.each` loop pushes, given for each selected element and its index among the
      selected ones the item it pushes, if any. */
  function Pushed<T>(matched: seq<Element>, item: (nat, Element) -> Option<T>): (r: seq<T>)
    ensures |r| <= |matched|
  {
    if matched == [] then []
    else
      var n := |matched| - 1;
      var rest := Pushed(matched[..n], item);
      match item(n, matched[n])
      case Some(x) => rest + [x]
      case None => rest
  }

  /** Everything pushed is the item of some selected element. */
  lemma {:induction false} PushedSound<T>(matched: seq<Element>, item: (nat, Element) -> Option<T>, x: T)
    requires x in Pushed(matched, item)
    ensures exists k :: 0 <= k < |matched| && item(k, matched[k]) == Some(x)
  {
    var n := |matched| - 1;
    var init := matched[..n];
    if x in Pushed(init, item) {
      PushedSound(init, item, x);
      var k :| 0 <= k < |init| && item(k, init[k]) == Some(x);
      assert init[k] == matched[k];
    } else {
      assert item(n, matched[n]) == Some(x);
    }
  }

  /** Every item of a selected element is pushed. */
  lemma {:induction false} PushedComplete<T>(matched: seq<Element>, item: (nat, Element) -> Option<T>, k: nat)
    requires k < |matched| && item(k, matched[k]).Some?
    ensures item(k, matched[k]).value in Pushed(matched, item)
  {
    var n := |matched| - 1;
    if k < n {
      assert matched[..n][k] == matched[k];
      PushedComplete(matched[..n], item, k);
    }
  }

  /** When every selected element yields an item, the pushed list is those items in order. */
  lemma {:induction false} PushedTotal<T>(matched: seq<Element>, item: (nat, Element) -> Option<T>)
    requires forall k :: 0 <= k < |matched| ==> item(k, matched[k]).Some?
    ensures |Pushed(matched, item)| == |matched|
    ensures forall k :: 0 <= k < |matched| ==> item(k, matched[k]) == Some(Pushed(matched, item)[k])
  {
    if matched != [] {
      var n := |matched| - 1;
      var init := matched[..n];
      assert forall k :: 0 <= k < n ==> init[k] == matched[k];
      PushedTotal(init, item);
    }
  }

  /** Something is pushed exactly when it is the item of some selected element. */
  lemma PushedIff<T>(matched: seq<Element>, item: (nat, Element) -> Option<T>, x: T)
    ensures x in Pushed(matched, item) <==> exists k :: 0 <= k < |matched| && item(k, matched[k]) == Some(x)
  {
    if x in Pushed(matched, item) {
      PushedSound(matched, item, x);
    } else if exists k :: 0 <= k < |matched| && item(k, matched[k]) == Some(x) {
      var k :| 0 <= k < |matched| && item(k, matched[k]) == Some(x);
      PushedComplete(matched, item, k);
    }
  }

  /** `idx` lists, in increasing order, the positions of the selected elements that yield
      an item, and `r` holds those items in the same order. */
  ghost predicate ItemsAt<T>(r: seq<T>, matched: seq<Element>, item: (nat, Element) -> Option<T>, idx: seq<nat>) {
    && |idx| == |r|
    && (forall j :: 0 <= j < |idx| ==> idx[j] < |matched| && item(idx[j], matched[idx[j]]) == Some(r[j]))
    && (forall j, j' :: 0 <= j < j' < |idx| ==> idx[j] < idx[j'])
    && (forall k :: 0 <= k < |matched| && item(k, matched[k]).Some? ==> k in idx)
  }

  /** The pushed list is the items of the yielding elements in document order, one each:
      its length is the number of yielding elements. */
  lemma {:induction false} PushedOrdered<T>(matched: seq<Element>, item: (nat, Element) -> Option<T>)
    returns (idx: seq<nat>)
    ensures ItemsAt(Pushed(matched, item), matched, item, idx)
  {
    if matched == [] {
      idx := [];
    } else {
      var n := |matched| - 1;
      var idx0 := PushedOrdered(matched[..n], item);
      idx := ItemsAtStep(matched, item, idx0);
    }
  }

  /** One more element: its item, if any, is pushed at its own position, after the others. */
  lemma ItemsAtStep<T>(matched: seq<Element>, item: (nat, Element) -> Option<T>, idx0: seq<nat>)
    returns (idx: seq<nat>)
    requires matched != []
    requires ItemsAt(Pushed(matched[..|matched| - 1], item), matched[..|matched| - 1], item, idx0)
    ensures ItemsAt(Pushed(matched, item), matched, item, idx)
  {
    var n := |matched| - 1;
    var init := matched[..n];
    var r0 := Pushed(init, item);
    assert forall k :: 0 <= k < n ==> init[k] == matched[k];
    match item(n, matched[n])
    case Some(x) =>
      idx := idx0 + [n];
      var r := r0 + [x];
      assert Pushed(matched, item) == r;
      forall j | 0 <= j < |idx|
        ensures idx[j] < |matched| && item(idx[j], matched[idx[j]]) == Some(r[j])
      {
        if j < |idx0| { assert idx[j] == idx0[j] && r[j] == r0[j]; }
      }
    case None =>
      idx := idx0;
  }

  /** `$(selector).each(...)`: one pass over the selected elements. */
  method Each<T>(els: seq<Element>, sel: Element -> bool, item: (nat, Element) -> Option<T>)
    returns (out: seq<T>)
    ensures out == Pushed(Select(els, sel), item)
  {
    var matched := Select(els, sel);
    out := [];
    var i := 0;
    while i < |matched|
      invariant 0 <= i <= |matched|
      invariant out == Pushed(matched[..i], item)
    {
      assert matched[..i + 1][..i] == matched[..i];
      match item(i, matched[i]) {
        case Some(x) => out := out + [x];
        case None =>
      }
      i := i + 1;
    }
    assert matched[..i] == matched;
  }

  // ---------------------------------------------------------------------------
  // Selectors
  // ---------------------------------------------------------------------------

  predicate IsH1(e: Element) { e.tag == "h1" }
  predicate IsH2(e: Element) { e.tag == "h2" }
  predicate IsH3(e: Element) { e.tag == "h3" }
  predicate IsTitle(e: Element) { e.tag == "title" }
  predicate IsDescriptionMeta(e: Element) { e.tag == "meta" && Attr(e, "name") == "description" }
  predicate IsImage(e: Element) { e.tag == "img" }
  predicate IsTable(e: Element) { e.tag == "table" }
  predicate IsParagraph(e: Element) { e.tag == "p" }
  predicate IsFaqCandidate(e: Element) { e.tag in ["h2", "h3", "h4", "dt"] }

  /** An anchor with a target. */
  predicate IsLink(e: Element) { e.tag == "a" && "href" in e.attrs }

  /** An anchor whose target starts with "http": the anchors counted as external links. */
  predicate IsExternalAnchor(e: Element) { IsLink(e) && OccursAt(e.attrs["href"], 0, "http") }

  /** A script element of type JSON-LD. */
  predicate IsLdScript(e: Element) { e.tag == "script" && Attr(e, "type") == "application/ld+json" }

  /** A button, an anchor of class "button", or any element whose class attribute contains
      "cta"; a class list holding the class cta also contains the substring, so the class
      selector adds nothing to the substring selector. */
  predicate IsCtaElement(e: Element) {
    e.tag == "button" || (e.tag == "a" && "button" in Words(Attr(e, "class"))) || Contains(Attr(e, "class"), "cta")
  }

  predicate KeptAfterRemoval(e: Element) { e.tag != "script" && e.tag != "style" }

  /** The elements left once every `script` and `style` element is removed. */
  function RemoveScriptsAndStyles(els: seq<Element>): seq<Element> {
    Select(els, KeptAfterRemoval)
  }

  /** After the removal no JSON-LD script is left to inspect. */
  lemma NoLdScriptsAfterRemoval(els: seq<Element>)
    ensures Select(RemoveScriptsAndStyles(els), IsLdScript) == []
  {
    forall e | e in RemoveScriptsAndStyles(els) ensures !IsLdScript(e) {
      SelectIff(els, KeptAfterRemoval, e);
    }
    SelectEmptyIff(RemoveScriptsAndStyles(els), IsLdScript);
  }

  /** `.text()` of a selection: the texts of the selected elements, concatenated. */
  function TextOf(els: seq<Element>): string {
    if els == [] then [] else els[0].text + TextOf(els[1..])
  }

  /** `.attr(name)` of a selection, read on its first element, or the empty string. */
  function FirstAttr(els: seq<Element>, name: string): string {
    if els == [] then "" else Attr(els[0], name)
  }

  // ---------------------------------------------------------------------------
  // Images
  // ---------------------------------------------------------------------------

  datatype Image = Image(src: string, alt: string, hasAlt: bool)

  function ImageItem(i: nat, e: Element): Option<Image> {
    var alt := Attr(e, "alt");
    Some(Image(Attr(e, "src"), alt, |Trim(alt)| > 0))
  }

  /** One record per `img`, in document order; an image has alt text exactly when its
      trimmed alt attribute is non-empty. */
  method ExtractImages(els: seq<Element>) returns (images: seq<Image>)
    ensures images == Pushed(Select(els, IsImage), ImageItem)
    ensures |images| == |Select(els, IsImage)|
    ensures forall k :: 0 <= k < |images| ==>
      images[k].src == Attr(Select(els, IsImage)[k], "src") && images[k].alt == Attr(Select(els, IsImage)[k], "alt")
      && (images[k].hasAlt <==> !AllSpace(images[k].alt))
  {
    images := Each(els, IsImage, ImageItem);
    PushedTotal(Select(els, IsImage), ImageItem);
  }

  /** The images with alt text. */
  function WithAlt(images: seq<Image>): (r: seq<Image>)
    ensures |r| <= |images|
    ensures forall img :: img in r <==> img in images && img.hasAlt
  {
    if images == [] then []
    else
      assert forall x :: x in images <==> x == images[0] || x in images[1..] by {
        assert images == [images[0]] + images[1..];
      }
      (if images[0].hasAlt then [images[0]] else []) + WithAlt(images[1..])
  }

  // ---------------------------------------------------------------------------
  // Tables
  // ---------------------------------------------------------------------------

  datatype TableInfo = TableInfo(index: nat, hasHeaders: bool)

  function TableItem(i: nat, e: Element): Option<TableInfo> {
    if e.hasHeaderCells then Some(TableInfo(i, true)) else None
  }

  /** The tables with header cells, by their index among all tables. */
  method ExtractTables(els: seq<Element>) returns (tables: seq<TableInfo>)
    ensures tables == Pushed(Select(els, IsTable), TableItem)
    ensures forall t :: t in tables <==>
      t.hasHeaders && t.index < |Select(els, IsTable)| && Select(els, IsTable)[t.index].hasHeaderCells
  {
    tables := Each(els, IsTable, TableItem);
    var matched := Select(els, IsTable);
    forall t ensures t in tables <==> t.hasHeaders && t.index < |matched| && matched[t.index].hasHeaderCells {
      PushedIff(matched, TableItem, t);
      if t.hasHeaders && t.index < |matched| && matched[t.index].hasHeaderCells {
        assert TableItem(t.index, matched[t.index]) == Some(t);
      }
    }
  }

  const ComparisonWords := ["vs", "versus", "comparison", "compare"]

  predicate MentionsComparison(text: string) {
    exists w :: w in ComparisonWords && ContainsCI(text, w)
  }

  function ComparisonItem(i: nat, e: Element): Option<nat> {
    if MentionsComparison(e.text) then Some(i) else None
  }

  /** The indices of the tables whose text mentions a comparison, ignoring case. */
  method ExtractComparisonTables(els: seq<Element>) returns (indices: seq<nat>)
    ensures indices == Pushed(Select(els, IsTable), ComparisonItem)
    ensures forall i: nat :: i in indices <==>
      (i < |Select(els, IsTable)| && MentionsComparison(Select(els, IsTable)[i].text))
  {
    indices := Each(els, IsTable, ComparisonItem);
    var matched := Select(els, IsTable);
    forall i: nat ensures i in indices <==> (i < |matched| && MentionsComparison(matched[i].text)) {
      PushedIff(matched, ComparisonItem, i);
      if i < |matched| && MentionsComparison(matched[i].text) {
        assert ComparisonItem(i, matched[i]) == Some(i);
      }
    }
  }

  // ---------------------------------------------------------------------------
  // FAQs
  // ---------------------------------------------------------------------------

  datatype Faq = Faq(question: string, answer: string)

  /** A question: text with a question mark, longer than ten characters. */
  predicate IsQuestion(q: string) { Contains(q, "?") && |q| > 10 }

  function FaqItem(i: nat, e: Element): Option<Faq> {
    var q := Trim(e.text);
    if IsQuestion(q) then Some(Faq(q, Prefix(e.nextText, 200))) else None
  }

  /** Each FAQ comes from an `h2`, `h3`, `h4` or `dt` whose trimmed text is a question; its
      answer is the start, at most 200 characters, of the next sibling's text.  Every such
      element yields one. */
  method ExtractFaqs(els: seq<Element>) returns (faqs: seq<Faq>)
    ensures faqs == Pushed(Select(els, IsFaqCandidate), FaqItem)
    ensures |faqs| <= |Select(els, IsFaqCandidate)|
    ensures forall f :: f in faqs ==> IsQuestion(f.question) && |f.answer| <= 200
    ensures forall k :: 0 <= k < |Select(els, IsFaqCandidate)| && IsQuestion(Trim(Select(els, IsFaqCandidate)[k].text)) ==>
      FaqItem(k, Select(els, IsFaqCandidate)[k]).value in faqs
  {
    faqs := Each(els, IsFaqCandidate, FaqItem);
    var matched := Select(els, IsFaqCandidate);
    forall f | f in faqs ensures IsQuestion(f.question) && |f.answer| <= 200 {
      PushedSound(matched, FaqItem, f);
    }
    forall k | 0 <= k < |matched| && IsQuestion(Trim(matched[k].text)) ensures FaqItem(k, matched[k]).value in faqs {
      PushedComplete(matched, FaqItem, k);
    }
  }

  // ---------------------------------------------------------------------------
  // Links
  // ---------------------------------------------------------------------------

  datatype Citation = Citation(url: string, text: string)

  function CitationItem(i: nat, e: Element): Option<Citation> {
    var t := Trim(e.text);
    if 5 < |t| < 200 then Some(Citation(Attr(e, "href"), t)) else None
  }

  /** Citations are the external anchors whose trimmed text has 6 to 199 characters, so
      there are never more of them than external links. */
  method ExtractSourceCitations(els: seq<Element>) returns (citations: seq<Citation>)
    ensures citations == Pushed(Select(els, IsExternalAnchor), CitationItem)
    ensures |citations| <= |Select(els, IsExternalAnchor)|
    ensures forall c :: c in citations ==> 5 < |c.text| < 200 && OccursAt(c.url, 0, "http")
    ensures forall k :: 0 <= k < |Select(els, IsExternalAnchor)| && 5 < |Trim(Select(els, IsExternalAnchor)[k].text)| < 200 ==>
      Citation(Attr(Select(els, IsExternalAnchor)[k], "href"), Trim(Select(els, IsExternalAnchor)[k].text)) in citations
  {
    citations := Each(els, IsExternalAnchor, CitationItem);
    var matched := Select(els, IsExternalAnchor);
    forall c | c in citations ensures 5 < |c.text| < 200 && OccursAt(c.url, 0, "http") {
      PushedSound(matched, CitationItem, c);
      var k :| 0 <= k < |matched| && CitationItem(k, matched[k]) == Some(c);
      SelectedSatisfies(els, IsExternalAnchor, k);
    }
    forall k | 0 <= k < |matched| && 5 < |Trim(matched[k].text)| < 200
      ensures Citation(Attr(matched[k], "href"), Trim(matched[k].text)) in citations
    {
      PushedComplete(matched, CitationItem, k);
    }
  }

  const FactSourceTerms := [".gov", ".edu", "research", "study", "journal"]
  const AuthorityTerms := [".gov", ".edu", ".org", "research", "institute", "university"]

  /** The element's `href` contains one of the terms, ignoring case. */
  predicate HrefMentions(e: Element, terms: seq<string>) {
    exists w :: w in terms && ContainsCI(Attr(e, "href"), w)
  }

  function FactSourceItem(i: nat, e: Element): Option<string> {
    if HrefMentions(e, FactSourceTerms) then Some(Attr(e, "href")) else None
  }

  function AuthorityItem(i: nat, e: Element): Option<string> {
    if HrefMentions(e, AuthorityTerms) then Some(Attr(e, "href")) else None
  }

  /** A link target is listed exactly when some link has it and mentions one of the terms. */
  ghost predicate ListsLinksMentioning(out: seq<string>, links: seq<Element>, terms: seq<string>) {
    forall h :: h in out <==> exists k :: 0 <= k < |links| && HrefMentions(links[k], terms) && Attr(links[k], "href") == h
  }

  /** The link targets on government, education, research, study or journal addresses. */
  method ExtractFactSources(els: seq<Element>) returns (sources: seq<string>)
    ensures sources == Pushed(Select(els, IsLink), FactSourceItem)
    ensures ListsLinksMentioning(sources, Select(els, IsLink), FactSourceTerms)
  {
    sources := Each(els, IsLink, FactSourceItem);
    var matched := Select(els, IsLink);
    forall h ensures h in sources <==>
      exists k :: 0 <= k < |matched| && HrefMentions(matched[k], FactSourceTerms) && Attr(matched[k], "href") == h
    {
      PushedIff(matched, FactSourceItem, h);
    }
  }

  /** The link targets on government, education, organisation, research, institute or
      university addresses. */
  method ExtractAuthorityLinks(els: seq<Element>) returns (links: seq<string>)
    ensures links == Pushed(Select(els, IsLink), AuthorityItem)
    ensures ListsLinksMentioning(links, Select(els, IsLink), AuthorityTerms)
  {
    links := Each(els, IsLink, AuthorityItem);
    var matched := Select(els, IsLink);
    forall h ensures h in links <==>
      exists k :: 0 <= k < |matched| && HrefMentions(matched[k], AuthorityTerms) && Attr(matched[k], "href") == h
    {
      PushedIff(matched, AuthorityItem, h);
    }
  }

  function InternalItem(domain: string): (nat, Element) -> Option<string> {
    (i: nat, e: Element) => if e.linkHost == Some(domain) then Some(Attr(e, "href")) else None
  }

  /** The links whose target resolves to the page's own host; a target that does not
      resolve is skipped. */
  method ExtractInternalLinks(els: seq<Element>, domain: string) returns (links: seq<string>)
    ensures links == Pushed(Select(els, IsLink), InternalItem(domain))
    ensures |links| <= |Select(els, IsLink)|
    ensures forall h :: h in links <==>
      exists k :: 0 <= k < |Select(els, IsLink)| && Select(els, IsLink)[k].linkHost == Some(domain)
        && Attr(Select(els, IsLink)[k], "href") == h
  {
    links := Each(els, IsLink, InternalItem(domain));
    var matched := Select(els, IsLink);
    forall h ensures h in links <==>
      exists k :: 0 <= k < |matched| && matched[k].linkHost == Some(domain) && Attr(matched[k], "href") == h
    {
      PushedIff(matched, InternalItem(domain), h);
    }
  }

  // ---------------------------------------------------------------------------
  // Calls to action
  // ---------------------------------------------------------------------------

  function CtaItem(i: nat, e: Element): Option<string> {
    Some(Trim(e.text))
  }

  /** The trimmed texts of the call-to-action elements, in document order. */
  method ExtractCtaTexts(els: seq<Element>) returns (texts: seq<string>)
    ensures texts == Pushed(Select(els, IsCtaElement), CtaItem)
    ensures |texts| == |Select(els, IsCtaElement)|
    ensures forall k :: 0 <= k < |texts| ==> texts[k] == Trim(Select(els, IsCtaElement)[k].text)
  {
    texts := Each(els, IsCtaElement, CtaItem);
    PushedTotal(Select(els, IsCtaElement), CtaItem);
  }

  // ---------------------------------------------------------------------------
  // Steps, tools, videos, testimonials, table of contents
  // ---------------------------------------------------------------------------

  /** `ol li, h2, h3`. */
  predicate IsStepCandidate(e: Element) { (e.tag == "li" && e.inOrderedList) || e.tag == "h2" || e.tag == "h3" }

  /** `step`, optional whitespace and a digit, at `i`, ignoring case. */
  predicate StepNumberAt(t: string, i: nat)
    requires i <= |t|
  {
    OccursAtCI(t, i, "step") && var j := SpaceRunEnd(t, i + 4); j < |t| && IsDigit(t[j])
  }

  /** A leading run of digits followed by a full stop. */
  predicate NumberedItem(t: string) {
    var j := DigitRunEnd(t, 0); 0 < j < |t| && t[j] == '.'
  }

  function DigitRunEnd(s: string, i: nat): (j: nat)
    requires i <= |s|
    ensures i <= j <= |s|
    ensures forall k :: i <= k < j ==> IsDigit(s[k])
    ensures j == |s| || !IsDigit(s[j])
    decreases |s| - i
  {
    if i < |s| && IsDigit(s[i]) then DigitRunEnd(s, i + 1) else i
  }

  const OrdinalWords := ["first", "second", "third", "finally"]

  /** The step-marker test on a trimmed text: a step number anywhere, a numbered-item
      prefix, or an ordinal word anywhere, ignoring case. */
  predicate IsStepText(t: string) {
    (exists i :: 0 <= i <= |t| && StepNumberAt(t, i))
    || NumberedItem(t)
    || exists w :: w in OrdinalWords && ContainsCI(t, w)
  }

  function StepItem(i: nat, e: Element): Option<string> {
    var t := Trim(e.text);
    if IsStepText(t) then Some(t) else None
  }

  /** The trimmed texts of ordered-list items and `h2`/`h3` headings that read as steps. */
  method ExtractStepByStep(els: seq<Element>) returns (steps: seq<string>)
    ensures steps == Pushed(Select(els, IsStepCandidate), StepItem)
    ensures |steps| <= |Select(els, IsStepCandidate)|
    ensures forall x :: x in steps ==> IsStepText(x) && !AllSpace(x)
    ensures forall k :: 0 <= k < |Select(els, IsStepCandidate)| && IsStepText(Trim(Select(els, IsStepCandidate)[k].text)) ==>
      Trim(Select(els, IsStepCandidate)[k].text) in steps
  {
    steps := Each(els, IsStepCandidate, StepItem);
    var matched := Select(els, IsStepCandidate);
    forall x | x in steps ensures IsStepText(x) && !AllSpace(x) {
      PushedSound(matched, StepItem, x);
      var k :| 0 <= k < |matched| && StepItem(k, matched[k]) == Some(x);
      StepItemShape(k, matched[k]);
    }
    forall k | 0 <= k < |matched| && IsStepText(Trim(matched[k].text)) ensures Trim(matched[k].text) in steps {
      PushedComplete(matched, StepItem, k);
    }
  }

  /** A step is a non-blank text: the empty text reads as no step. */
  lemma StepItemShape(i: nat, e: Element)
    requires StepItem(i, e).Some?
    ensures IsStepText(StepItem(i, e).value) && !AllSpace(StepItem(i, e).value)
  {
    var x := Trim(e.text);
    if x == [] {
      assert !NumberedItem(x) && !StepNumberAt(x, 0);
      assert forall w :: w in OrdinalWords ==> !ContainsCI(x, w);
    }
  }

  const ToolTerms := ["tool", "resource", "download"]

  /** Links whose target contains "tool", "resource" or "download", case-sensitively. */
  predicate IsToolLink(e: Element) {
    IsLink(e) && exists w :: w in ToolTerms && Contains(e.attrs["href"], w)
  }

  function HrefItem(i: nat, e: Element): Option<string> {
    Some(Attr(e, "href"))
  }

  /** The targets of the links to tools, resources and downloads, in document order. */
  method ExtractToolsResources(els: seq<Element>) returns (tools: seq<string>)
    ensures |tools| == |Select(els, IsToolLink)|
    ensures forall k :: 0 <= k < |tools| ==>
      tools[k] == Attr(Select(els, IsToolLink)[k], "href") && exists w :: w in ToolTerms && Contains(tools[k], w)
  {
    tools := Each(els, IsToolLink, HrefItem);
    var matched := Select(els, IsToolLink);
    PushedTotal(matched, HrefItem);
    forall k | 0 <= k < |tools| ensures exists w :: w in ToolTerms && Contains(tools[k], w) {
      SelectedSatisfies(els, IsToolLink, k);
    }
  }

  /** A video element, or an embedded frame whose source mentions youtube or vimeo. */
  predicate IsVideo(e: Element) {
    e.tag == "video" || (e.tag == "iframe" && (Contains(Attr(e, "src"), "youtube") || Contains(Attr(e, "src"), "vimeo")))
  }

  function VideoItem(i: nat, e: Element): Option<string> {
    var src := Attr(e, "src");
    Some(if src != "" then src else "embedded video")
  }

  /** One entry per video element or YouTube/Vimeo frame: its source, or a placeholder when
      it has none. */
  method ExtractVideos(els: seq<Element>) returns (videos: seq<string>)
    ensures |videos| == |Select(els, IsVideo)|
    ensures forall k :: 0 <= k < |videos| ==>
      videos[k] != [] && (videos[k] == Attr(Select(els, IsVideo)[k], "src")
                          || (Attr(Select(els, IsVideo)[k], "src") == "" && videos[k] == "embedded video"))
  {
    videos := Each(els, IsVideo, VideoItem);
    PushedTotal(Select(els, IsVideo), VideoItem);
  }

  /** The class attribute contains "testimonial" or "review"; a class word is also a
      substring of the class attribute, so the substring selectors cover the class ones. */
  predicate IsTestimonial(e: Element) {
    Contains(Attr(e, "class"), "testimonial") || Contains(Attr(e, "class"), "review")
  }

  function TestimonialItem(i: nat, e: Element): Option<string> {
    Some(Prefix(e.text, 200))
  }

  /** The first 200 characters of each testimonial or review element. */
  method ExtractTestimonials(els: seq<Element>) returns (testimonials: seq<string>)
    ensures |testimonials| == |Select(els, IsTestimonial)|
    ensures forall k :: 0 <= k < |testimonials| ==>
      testimonials[k] == Prefix(Select(els, IsTestimonial)[k].text, 200)
  {
    testimonials := Each(els, IsTestimonial, TestimonialItem);
    PushedTotal(Select(els, IsTestimonial), TestimonialItem);
  }

  /** The table-of-contents selectors, in the order they are tried. */
  predicate IsTocElement(e: Element) {
    Contains(Attr(e, "class"), "toc") || Contains(Attr(e, "id"), "toc")
    || "table-of-contents" in Words(Attr(e, "class")) || Attr(e, "id") == "table-of-contents"
  }

  /** Some element matches one of the table-of-contents selectors. */
  function CheckTableOfContents(els: seq<Element>): (found: bool)
    ensures found <==> exists e :: e in els && IsTocElement(e)
  {
    SelectEmptyIff(els, IsTocElement);
    Select(els, IsTocElement) != []
  }

  // ---------------------------------------------------------------------------
  // First-match selector loops: publication date, last modified, author bio
  // ---------------------------------------------------------------------------

  /** A value read off the first element a selector matches, or the empty string when it
      matches none (the text of an empty selection). */
  function ReadFirst(els: seq<Element>, sel: Element -> bool, read: Element -> string): string {
    var m := Select(els, sel);
    if m == [] then "" else read(m[0])
  }

  /** Tries the selectors in order and returns the first value that is accepted. */
  function FirstAccepted(els: seq<Element>, sels: seq<Element -> bool>, read: Element -> string, accept: string -> bool): (r: Option<string>)
    ensures r.Some? ==> accept(r.value) && exists k :: 0 <= k < |sels| && r.value == ReadFirst(els, sels[k], read)
    ensures r.None? <==> forall k :: 0 <= k < |sels| ==> !accept(ReadFirst(els, sels[k], read))
  {
    if sels == [] then None
    else
      var v := ReadFirst(els, sels[0], read);
      if accept(v) then Some(v)
      else
        var rest := FirstAccepted(els, sels[1..], read, accept);
        assert forall k :: 1 <= k < |sels| ==> sels[k] == sels[1..][k - 1];
        rest
  }

  /** The selector loop with its early return. */
  method FindFirst(els: seq<Element>, sels: seq<Element -> bool>, read: Element -> string, accept: string -> bool)
    returns (r: Option<string>)
    ensures r == FirstAccepted(els, sels, read, accept)
  {
    var i := 0;
    while i < |sels|
      invariant 0 <= i <= |sels|
      invariant FirstAccepted(els, sels[i..], read, accept) == FirstAccepted(els, sels, read, accept)
    {
      assert sels[i..][1..] == sels[i + 1..];
      var v := ReadFirst(els, sels[i], read);
      if accept(v) {
        return Some(v);
      }
      i := i + 1;
    }
    return None;
  }

  predicate IsTimeWithDatetime(e: Element) { e.tag == "time" && "datetime" in e.attrs }
  predicate HasClassWord(e: Element, w: string) { w in Words(Attr(e, "class")) }
  predicate IsPublishedMeta(e: Element) { e.tag == "meta" && Attr(e, "property") == "article:published_time" }
  predicate IsModifiedMeta(e: Element) { e.tag == "meta" && Attr(e, "property") == "article:modified_time" }

  const PublicationSelectors: seq<Element -> bool> := [
    IsTimeWithDatetime, e => HasClassWord(e, "published"), e => HasClassWord(e, "date"),
    e => Contains(Attr(e, "class"), "date"), IsPublishedMeta]

  const ModifiedSelectors: seq<Element -> bool> := [
    IsModifiedMeta, e => HasClassWord(e, "updated"), e => HasClassWord(e, "modified")]

  const AuthorSelectors: seq<Element -> bool> := [
    e => HasClassWord(e, "author-bio"), e => HasClassWord(e, "author"),
    e => Contains(Attr(e, "class"), "author"), e => Attr(e, "rel") == "author"]

  /** The `datetime` attribute, else the `content` attribute, else the text. */
  function DateOf(e: Element): string {
    if Attr(e, "datetime") != "" then Attr(e, "datetime")
    else if Attr(e, "content") != "" then Attr(e, "content")
    else e.text
  }

  /** The `content` attribute, else the text. */
  function ModifiedOf(e: Element): string {
    if Attr(e, "content") != "" then Attr(e, "content") else e.text
  }

  function TrimmedText(e: Element): string { Trim(e.text) }

  predicate IsNonEmpty(s: string) { s != "" }
  predicate IsLongBio(s: string) { |s| > 50 }

  /** The first non-empty date the publication selectors yield. */
  method ExtractPublicationDate(els: seq<Element>) returns (date: Option<string>)
    ensures date == FirstAccepted(els, PublicationSelectors, DateOf, IsNonEmpty)
    ensures date.Some? ==> date.value != "" && exists k :: 0 <= k < |PublicationSelectors| && date.value == ReadFirst(els, PublicationSelectors[k], DateOf)
    ensures date.None? <==> forall k :: 0 <= k < |PublicationSelectors| ==> ReadFirst(els, PublicationSelectors[k], DateOf) == ""
  {
    date := FindFirst(els, PublicationSelectors, DateOf, IsNonEmpty);
  }

  /** The first non-empty date the modification selectors yield. */
  method ExtractLastModified(els: seq<Element>) returns (date: Option<string>)
    ensures date == FirstAccepted(els, ModifiedSelectors, ModifiedOf, IsNonEmpty)
    ensures date.Some? ==> date.value != "" && exists k :: 0 <= k < |ModifiedSelectors| && date.value == ReadFirst(els, ModifiedSelectors[k], ModifiedOf)
    ensures date.None? <==> forall k :: 0 <= k < |ModifiedSelectors| ==> ReadFirst(els, ModifiedSelectors[k], ModifiedOf) == ""
  {
    date := FindFirst(els, ModifiedSelectors, ModifiedOf, IsNonEmpty);
  }

  /** The first author text, trimmed, longer than 50 characters. */
  method ExtractAuthorBio(els: seq<Element>) returns (bio: Option<string>)
    ensures bio == FirstAccepted(els, AuthorSelectors, TrimmedText, IsLongBio)
    ensures bio.Some? ==> |bio.value| > 50 && exists k :: 0 <= k < |AuthorSelectors| && bio.value == ReadFirst(els, AuthorSelectors[k], TrimmedText)
    ensures bio.None? <==> forall k :: 0 <= k < |AuthorSelectors| ==> |ReadFirst(els, AuthorSelectors[k], TrimmedText)| <= 50
  {
    bio := FindFirst(els, AuthorSelectors, TrimmedText, IsLongBio);
  }

  // ---------------------------------------------------------------------------
  // Paragraphs, headings, viewport
  // ---------------------------------------------------------------------------

  /** The paragraphs whose text splits into more than 150 pieces on whitespace. */
  function LongParagraphs(ps: seq<Element>): (n: nat)
    ensures n <= |ps|
  {
    if ps == [] then 0
    else LongParagraphs(ps[..|ps| - 1]) + (if |SplitWs(ps[|ps| - 1].text)| > 150 then 1 else 0)
  }

  lemma LongParagraphsStep(ps: seq<Element>, i: nat)
    requires i < |ps|
    ensures LongParagraphs(ps[..i + 1])
      == LongParagraphs(ps[..i]) + (if |SplitWs(ps[i].text)| > 150 then 1 else 0)
  {
    assert ps[..i + 1][..i] == ps[..i];
  }

  datatype ParagraphStats = ParagraphStats(count: nat, longCount: nat)

  /** Counts the paragraphs, and the long ones. */
  method CalculateParagraphStats(els: seq<Element>) returns (stats: ParagraphStats)
    ensures stats.count == |Select(els, IsParagraph)|
    ensures stats.longCount == LongParagraphs(Select(els, IsParagraph))
    ensures stats.longCount <= stats.count
  {
    var paragraphs := Select(els, IsParagraph);
    var longCount := 0;
    var i := 0;
    while i < |paragraphs|
      invariant 0 <= i <= |paragraphs|
      invariant longCount == LongParagraphs(paragraphs[..i])
    {
      LongParagraphsStep(paragraphs, i);
      if |SplitWs(paragraphs[i].text)| > 150 {
        longCount := longCount + 1;
      }
      i := i + 1;
    }
    assert paragraphs[..i] == paragraphs;
    stats := ParagraphStats(|paragraphs|, longCount);
  }

  /** Exactly one `h1` and at least one `h2`. */
  function CheckHeadingHierarchy(els: seq<Element>): (ok: bool)
    ensures ok <==> |Select(els, IsH1)| == 1 && |Select(els, IsH2)| > 0
  {
    |Select(els, IsH1)| == 1 && |Select(els, IsH2)| > 0
  }

  predicate IsViewportMeta(e: Element) { e.tag == "meta" && Attr(e, "name") == "viewport" }

  /** The first viewport meta element's content holds `width=device-width`; a missing
      viewport or content reads as the empty string, which does not. */
  function CheckMobileResponsive(els: seq<Element>): (ok: bool)
    ensures ok <==> Contains(FirstAttr(Select(els, IsViewportMeta), "content"), "width=device-width")
    ensures Select(els, IsViewportMeta) == [] ==> !ok
  {
    Contains(FirstAttr(Select(els, IsViewportMeta), "content"), "width=device-width")
  }

  // ---------------------------------------------------------------------------
  // JSON-LD schema checks
  // ---------------------------------------------------------------------------

  /** Whether an `@graph` array has an `FAQPage` entry, scanning left to right; `None` when
      a `null` entry is reached first (reading its `@type` throws). */
  function GraphHasFaq(items: seq<LdItem>): Option<bool> {
    if items == [] then Some(false)
    else match items[0]
      case ItemNull => None
      case ItemObject(t) => if t == Some("FAQPage") then Some(true) else GraphHasFaq(items[1..])
  }

  /** The FAQ test of one block; `None` when it throws (and the block is skipped). */
  function FaqVerdict(b: LdBlock): Option<bool> {
    match b
    case Malformed => None
    case LdNull => None
    case LdObject(t, g) =>
      if t == Some("FAQPage") then Some(true)
      else if g.GraphArray? then GraphHasFaq(g.items)
      else Some(false)
  }

  /** Some block passes the FAQ test. */
  ghost predicate SomeBlockIsFaq(blocks: seq<LdBlock>) {
    exists k :: 0 <= k < |blocks| && FaqVerdict(blocks[k]) == Some(true)
  }

  /** `checkFAQSchema`: some block declares an `FAQPage`, at the top or in its `@graph`. */
  method CheckFaqSchema(blocks: seq<LdBlock>) returns (hasFaqSchema: bool)
    ensures hasFaqSchema <==> SomeBlockIsFaq(blocks)
  {
    hasFaqSchema := false;
    var i := 0;
    while i < |blocks|
      invariant 0 <= i <= |blocks|
      invariant hasFaqSchema <==> exists k :: 0 <= k < i && FaqVerdict(blocks[k]) == Some(true)
    {
      if FaqVerdict(blocks[i]) == Some(true) {
        hasFaqSchema := true;
      }
      i := i + 1;
    }
  }

  /** A truthy `@type`: present and not the empty string. */
  predicate HasType(t: Option<string>) { t.Some? && t.value != "" }

  /** The truthy `@type`s of graph entries up to the first `null` one, where the loop throws. */
  function GraphTypes(items: seq<LdItem>): (r: seq<string>)
    ensures forall x :: x in r ==> x != ""
  {
    if items == [] then []
    else match items[0]
      case ItemNull => []
      case ItemObject(t) => (if HasType(t) then [t.value] else []) + GraphTypes(items[1..])
  }

  /** The types one block contributes: its own `@type`, then those of its `@graph` array; a
      non-array `@graph` throws after the block's own type is in. */
  function BlockTypes(b: LdBlock): (r: seq<string>)
    ensures forall x :: x in r ==> x != ""
  {
    match b
    case Malformed => []
    case LdNull => []
    case LdObject(t, g) =>
      (if HasType(t) then [t.value] else []) + (if g.GraphArray? then GraphTypes(g.items) else [])
  }

  function AllBlockTypes(blocks: seq<LdBlock>): (r: seq<string>)
    ensures forall x :: x in r ==> x != ""
  {
    if blocks == [] then [] else AllBlockTypes(blocks[..|blocks| - 1]) + BlockTypes(blocks[|blocks| - 1])
  }

  datatype SchemaMarkup = SchemaMarkup(types: seq<string>, count: nat)

  /** The `@graph` loop: pushes each entry's type until a `null` entry throws. */
  method CollectGraphTypes(items: seq<LdItem>) returns (types: seq<string>)
    ensures types == GraphTypes(items)
  {
    types := [];
    var j := 0;
    while j < |items|
      invariant 0 <= j <= |items|
      invariant types + GraphTypes(items[j..]) == GraphTypes(items)
    {
      assert items[j..][1..] == items[j + 1..];
      if items[j].ItemNull? {
        return;
      }
      var t := items[j].itemType;
      if HasType(t) {
        types := types + [t.value];
      }
      j := j + 1;
    }
  }

  /** The pushes one block makes: its own `@type`, then the `@graph` loop. */
  method CollectBlockTypes(b: LdBlock) returns (types: seq<string>)
    ensures types == BlockTypes(b)
  {
    types := [];
    if b.LdObject? {
      if HasType(b.ldType) {
        types := [b.ldType.value];
      }
      if b.graph.GraphArray? {
        var more := CollectGraphTypes(b.graph.items);
        types := types + more;
      }
    }
  }

  /** Collects the types of every block; `count` counts every push, so a type that occurs
      twice is counted twice. */
  method ExtractSchemaMarkup(blocks: seq<LdBlock>) returns (schemas: SchemaMarkup)
    ensures schemas.types == AllBlockTypes(blocks)
    ensures schemas.count == |schemas.types|
    ensures forall x :: x in schemas.types ==> x != ""
  {
    var types: seq<string> := [];
    var count := 0;
    var i := 0;
    while i < |blocks|
      invariant 0 <= i <= |blocks|
      invariant types == AllBlockTypes(blocks[..i]) && count == |types|
    {
      assert blocks[..i + 1][..i] == blocks[..i];
      var own := CollectBlockTypes(blocks[i]);
      types := types + own;
      count := count + |own|;
      i := i + 1;
    }
    assert blocks[..i] == blocks;
    schemas := SchemaMarkup(types, count);
  }

  lemma GraphFaqIffType(items: seq<LdItem>)
    ensures GraphHasFaq(items) == Some(true) <==> "FAQPage" in GraphTypes(items)
  {
    if items != [] && items[0].ItemObject? {
      GraphFaqIffType(items[1..]);
    }
  }

  lemma BlockFaqIffType(b: LdBlock)
    ensures FaqVerdict(b) == Some(true) <==> "FAQPage" in BlockTypes(b)
  {
    if b.LdObject? && b.graph.GraphArray? {
      GraphFaqIffType(b.graph.items);
    }
  }

  lemma SomeBlockIsFaqSplit(blocks: seq<LdBlock>)
    requires blocks != []
    ensures SomeBlockIsFaq(blocks)
      <==> SomeBlockIsFaq(blocks[..|blocks| - 1]) || FaqVerdict(blocks[|blocks| - 1]) == Some(true)
  {
    var n := |blocks| - 1;
    assert forall k :: 0 <= k < n ==> blocks[..n][k] == blocks[k];
  }

  /** The two schema checks agree: the FAQ check passes exactly when the collected types
      include `FAQPage`, because both stop at the same failing lookups. */
  lemma {:induction false} FaqSchemaIffFaqPageType(blocks: seq<LdBlock>)
    ensures SomeBlockIsFaq(blocks) <==> "FAQPage" in AllBlockTypes(blocks)
  {
    if blocks != [] {
      var n := |blocks| - 1;
      FaqSchemaIffFaqPageType(blocks[..n]);
      BlockFaqIffType(blocks[n]);
      SomeBlockIsFaqSplit(blocks);
    }
  }
}
