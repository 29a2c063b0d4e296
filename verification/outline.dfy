/**
 The heading classifier of `extract_headings` (Adobe/extract_outline.py
 lines 9-108) as a pure fold. The PDF library's block/line/span nesting is
 flattened: a page is the sequence of its spans in reading order, and a
 document is the sequence of its pages. A span keeps its raw text and one
 bit of its font name: whether the name contains "Bold".

 `Step` handles one span (lines 38-100), `RunPage` folds it over a page,
 `EndPage` is the title capture after each page (lines 102-104), and
 `ExtractHeadings` assembles the result (lines 106-108).
 */
module Outline {
  import opened PyStr
  import opened Patterns

  datatype Option<T> = None | Some(value: T)

  datatype Level = H1 | H2 | H3

  /** One outline entry; `text` is the dedup key followed by one space. */
  datatype Heading = Heading(level: Level, text: string, page: nat)

  datatype Span = Span(text: string, bold: bool)

  type Page = seq<Span>

  type Document = seq<Page>

  /** The local variables the loop of `extract_headings` carries. */
  datatype State = State(
    headings: seq<Heading>,      // headings
    titleBuffer: seq<string>,    // title_buffer
    title: Option<string>,       // title
    titleFound: bool,            // title_found
    seen: set<string>,           // seen_headings
    tocPage: Option<nat>,        // toc_page_num
    inTocPage: bool,             // in_toc_page
    pending: Option<string>)     // pending_h1_number

  datatype Result = Result(title: string, outline: seq<Heading>)

  const Initial: State := State([], [], None, false, {}, None, false, None)

  const IgnoreWords: set<string> := {"Version", "Date", "Remarks", "Identifier"}
  const IgnoreNumbers: set<string> := {"0.1", "0.2", "0.3", "0.7", "0.8", "1.0"}
  const NamedSections: seq<string> := ["Revision History", "Acknowledgements", "References"]
  const TocMarker: string := "Table of Contents"
  const CopyrightChar: char := '\U{A9}'
  const CopyrightSign: string := [CopyrightChar]
  const Bullet: char := '\U{2022}'

  /** The filters of lines 40-52: a stripped text for which this holds is
      dropped before any rule looks at it. */
  predicate Boilerplate(clean: string) {
    || clean == ""
    || Contains(clean, CopyrightSign) || Contains(clean, "Copyright")
    || clean in IgnoreWords || clean in IgnoreNumbers
    || StartsWith(clean, "0.")
    || (forall i :: 0 <= i < |clean| ==> clean[i] == '.' || clean[i] == Bullet)
    || Digits(clean)
  }

  /** Python truthiness of `pending_h1_number` (None and "" are false). */
  predicate Truthy(o: Option<string>) {
    o.Some? && o.value != ""
  }

  /** Whether the TOC suppression of line 67 is active on `page`. */
  predicate OnTocPage(st: State, page: nat) {
    st.inTocPage && st.tocPage == Some(page)
  }

  /** The dedup-then-append idiom repeated at lines 61-63, 77-79, 85-87,
      91-93 and 97-99. */
  function Record(st: State, level: Level, key: string, page: nat): (r: State)
    ensures r.headings == st.headings || r.headings == st.headings + [Heading(level, key + " ", page)]
    ensures r == st.(headings := r.headings, seen := r.seen)
  {
    if key in st.seen then st
    else st.(headings := st.headings + [Heading(level, key + " ", page)], seen := st.seen + {key})
  }

  /** The first-match-wins rules of lines 59-100, applied to a span that
      passed the filters and whose text `clean` is already stripped. */
  function Rules(st: State, page: nat, clean: string, bold: bool): (r: State)
    ensures st.headings <= r.headings && |r.headings| <= |st.headings| + 1
    ensures |r.headings| > |st.headings| ==>
              var h := r.headings[|st.headings|];
              h.page == page && h.level != H3 && (h.level == H2 <==> !bold)
    ensures r.title == st.title && r.titleFound == st.titleFound && r.titleBuffer == st.titleBuffer
    ensures !bold ==> r.pending == st.pending
  {
    ThreeLevelIsTwoLevelHere(clean);
    if clean == TocMarker && bold then
      Record(st, H1, clean, page).(tocPage := Some(page), inTocPage := true)
    else if OnTocPage(st, page) && (TwoLevelNumber(clean) || ThreeLevelNumber(clean)) then
      st
    else if bold && NumberDot(clean) then
      st.(pending := Some(clean))
    else if Truthy(st.pending) && bold then
      Record(st, H1, st.pending.value + " " + clean, page).(pending := None)
    else if bold && (NumberThenText(clean) || clean in NamedSections) then
      Record(st, H1, clean, page)
    else if TwoLevelNumber(clean) then
      Record(st, H2, clean, page)
    else if ThreeLevelNumber(clean) then
      Record(st, H3, clean, page)
    else
      st
  }

  /** One span of page `page` (lines 38-100). At most one entry is added,
      on the current page; it is H2 exactly when the span is not bold, and
      never H3. The title is untouched; the title buffer grows only on
      page 0 and only for bold spans; a span that is not bold never
      touches the pending number; a filtered span changes nothing. */
  function Step(st: State, page: nat, span: Span): (r: State)
    ensures Boilerplate(Strip(span.text)) ==> r == st
    ensures st.headings <= r.headings && |r.headings| <= |st.headings| + 1
    ensures |r.headings| > |st.headings| ==>
              var h := r.headings[|st.headings|];
              h.page == page && h.level != H3 && (h.level == H2 <==> !span.bold)
    ensures r.title == st.title && r.titleFound == st.titleFound
    ensures r.titleBuffer == st.titleBuffer || (page == 0 && span.bold && r.titleBuffer == st.titleBuffer + [span.text])
    ensures !span.bold ==> r.pending == st.pending && r.titleBuffer == st.titleBuffer
  {
    var clean := Strip(span.text);
    if Boilerplate(clean) then st
    else Rules(BufferTitle(st, page, span), page, clean, span.bold)
  }

  /** Lines 56-57: a bold span on page 0 adds its raw text to the title
      buffer; nothing else changes. */
  function BufferTitle(st: State, page: nat, span: Span): (r: State)
    ensures r == st.(titleBuffer := r.titleBuffer)
    ensures r.titleBuffer == st.titleBuffer || (page == 0 && span.bold && r.titleBuffer == st.titleBuffer + [span.text])
  {
    if page == 0 && span.bold then st.(titleBuffer := st.titleBuffer + [span.text]) else st
  }

  /** The computable form of `Patterns.ThreeLevelIsTwoLevel`. */
  lemma ThreeLevelIsTwoLevelHere(s: string)
    ensures ThreeLevelNumber(s) ==> TwoLevelNumber(s)
  {
    if ThreeLevelNumber(s) {
      ThreeLevelAgrees(s);
      ThreeLevelIsTwoLevel(s);
      TwoLevelAgrees(s);
    }
  }

  /** The spans of one page, in order. */
  function RunPage(st: State, page: nat, spans: seq<Span>): State
    decreases |spans|
  {
    if spans == [] then st
    else Step(RunPage(st, page, spans[..|spans| - 1]), page, spans[|spans| - 1])
  }

  /** Lines 102-104: after page 0, a non-empty title buffer becomes the title. */
  function EndPage(st: State, page: nat): (r: State)
    ensures r == st.(title := r.title, titleFound := r.titleFound)
    ensures page != 0 || st.titleFound ==> r == st
    ensures r.titleFound <==> st.titleFound || (page == 0 && st.titleBuffer != [])
  {
    if page == 0 && st.titleBuffer != [] && !st.titleFound then
      st.(title := Some(Concat(st.titleBuffer) + " "), titleFound := true)
    else st
  }

  /** The state after the first `n` pages. */
  function RunPages(doc: Document, n: nat): State
    requires n <= |doc|
  {
    if n == 0 then Initial
    else EndPage(RunPage(RunPages(doc, n - 1), n - 1, doc[n - 1]), n - 1)
  }

  /** The page loop advanced by one page. */
  lemma RunPagesNext(doc: Document, n: nat)
    requires n < |doc|
    ensures RunPages(doc, n + 1) == EndPage(RunPage(RunPages(doc, n), n, doc[n]), n)
  {
  }

  /** The span loop advanced by one span. */
  lemma RunPageNext(st: State, page: nat, spans: seq<Span>, i: nat)
    requires i < |spans|
    ensures RunPage(st, page, spans[..i + 1]) == Step(RunPage(st, page, spans[..i]), page, spans[i])
  {
    assert spans[..i + 1][..i] == spans[..i];
  }

  /** Lines 106-108: `title if title else ""` and the ordered headings. */
  function ExtractHeadings(doc: Document): Result {
    var st := RunPages(doc, |doc|);
    Result(if st.title.Some? && st.title.value != "" then st.title.value else "", st.headings)
  }
}
