/**
 Small documents worked through the classifier: what it makes of a bold
 title split over two spans, a section number and its label in separate
 bold spans, a plain two-level number, the same number under a "Table of
 Contents" marker, and the boilerplate the filters drop.
 */
module Scenarios {
  import opened PyStr
  import opened Patterns
  import opened Outline
  import opened OutlineProps

  lemma StripsTo(s: string, t: string, b: string)
    requires s == t + b && AllSpace(b) && IsTrimmed(t)
    ensures Strip(s) == t
  {
    StripBetweenSpace([], t, b);
    assert [] + t + b == s;
  }

  /** A document whose first page is empty is in the initial state after it. */
  lemma EmptyFirstPage(doc: Document)
    requires |doc| >= 1 && doc[0] == []
    ensures RunPages(doc, 1) == Initial
  {
    assert RunPage(Initial, 0, doc[0]) == Initial;
  }

  /** A one-span page. */
  lemma SingleSpanPage(st: State, page: nat, spans: seq<Span>)
    requires |spans| == 1
    ensures RunPage(st, page, spans) == Step(st, page, spans[0])
  {
    assert spans[..0] == [];
  }

  /** A two-span page. */
  lemma TwoSpanPage(st: State, page: nat, spans: seq<Span>)
    requires |spans| == 2
    ensures RunPage(st, page, spans) == Step(Step(st, page, spans[0]), page, spans[1])
  {
    var first := spans[..1];
    assert RunPage(st, page, spans) == Step(RunPage(st, page, first), page, spans[1]);
    SingleSpanPage(st, page, first);
  }

  /** A two-page document with an empty first page: no title, and the
      outline of its second page. */
  lemma SecondPageOnly(doc: Document)
    requires |doc| == 2 && doc[0] == []
    ensures ExtractHeadings(doc) == Result("", RunPage(Initial, 1, doc[1]).headings)
  {
    EmptyFirstPage(doc);
    var st := RunPage(Initial, 1, doc[1]);
    RunPageKeepsTitle(Initial, 1, doc[1]);
    assert RunPages(doc, 2) == EndPage(st, 1) == st;
  }

  /** A one-page document. */
  lemma FirstPageOnly(doc: Document)
    requires |doc| == 1
    ensures var st := EndPage(RunPage(Initial, 0, doc[0]), 0);
      ExtractHeadings(doc) == Result(if st.title.Some? && st.title.value != "" then st.title.value else "", st.headings)
  {
    assert RunPages(doc, 1) == EndPage(RunPage(RunPages(doc, 0), 0, doc[0]), 0);
  }

  // ----- facts about the literal texts -----
  // A literal reaches these lemmas through a parameter constrained by
  // `requires`: Dafny unfolds functions applied to literal arguments without
  // bound, which makes the proofs slow when the literal is written inline.

  /** A word followed by one space strips to the word, and a word that has
      no 'C', no copyright sign and no leading digit, dot or bullet, and is
      not an ignored word, passes the filters. */
  lemma SpacedWordFacts(raw: string, w: string)
    requires raw == w + " " && w != "" && IsTrimmed(w)
    requires 'C' !in w && CopyrightChar !in w && w !in IgnoreWords
    requires !IsDigit(w[0]) && w[0] != '.' && w[0] != Bullet
    ensures Strip(raw) == w && !Boilerplate(w)
  {
    StripsTo(raw, w, " ");
    NotBoilerplateWhen(w);
  }

  lemma ThreeDotFacts(s: string)
    requires s == "3."
    ensures Strip(s) == s && NumberDot(s) && !StartsWith(s, "0.")
  {
    StripsTo(s, s, "");
    DigitEndIs(s, 0, 1);
    assert s[..2][0] == '3';
  }

  lemma OverviewFacts(s: string)
    requires s == "Overview"
    ensures Strip(s) == s && !Boilerplate(s)
    ensures s != TocMarker && !NumberDot(s) && !TwoLevelNumber(s)
  {
    StripsTo(s, s, "");
    NotBoilerplateWhen(s);
    assert s[0] == 'O' && TocMarker[0] == 'T';
    DigitEndIs(s, 0, 0);
  }

  lemma ScopeFacts(s: string)
    requires s == "2.1 Scope"
    ensures Strip(s) == s && TwoLevelNumber(s) && !Boilerplate(s)
  {
    StripsTo(s, s, "");
    DigitEndIs(s, 0, 1);
    DigitEndIs(s, 2, 3);
    NoCopyright(s);
    ScopeNotIgnored(s);
  }

  lemma ScopeNotIgnored(s: string)
    requires s == "2.1 Scope"
    ensures !(s == "" || s in IgnoreWords || s in IgnoreNumbers || StartsWith(s, "0.") || Digits(s)
              || (forall i :: 0 <= i < |s| ==> s[i] == '.' || s[i] == Bullet))
  {
    assert s[..2][0] == '2';
    assert !IsDigit(s[1]);
    assert s[0] != '.' && s[0] != Bullet;
  }

  // ----- the scenarios -----

  /** Bold "Annual " and "Report " on the first page give the title
      "Annual Report  " (the buffered raw texts plus one space) and no
      outline entries. */
  lemma AnnualReportTitle(doc: Document)
    requires doc == [[Span("Annual ", true), Span("Report ", true)]]
    ensures ExtractHeadings(doc) == Result("Annual Report  ", [])
  {
    AnnualReportPage(doc[0]);
    FirstPageOnly(doc);
    AnnualReportEnd(Initial.(titleBuffer := ["Annual ", "Report "]));
  }

  lemma AnnualReportPage(spans: seq<Span>)
    requires spans == [Span("Annual ", true), Span("Report ", true)]
    ensures RunPage(Initial, 0, spans) == Initial.(titleBuffer := ["Annual ", "Report "])
  {
    AnnualStep(spans[0], "Annual");
    ReportStep(spans[1], "Report");
    TwoSpanPage(Initial, 0, spans);
  }

  lemma AnnualReportEnd(st: State)
    requires st == Initial.(titleBuffer := ["Annual ", "Report "])
    ensures EndPage(st, 0) == st.(title := Some("Annual Report  "), titleFound := true)
  {
    TwoPartConcat(st.titleBuffer[0], st.titleBuffer[1]);
    assert st.titleBuffer == [st.titleBuffer[0], st.titleBuffer[1]];
    assert Concat(st.titleBuffer) == "Annual Report ";
    assert Concat(st.titleBuffer) + " " == "Annual Report  ";
  }

  lemma TwoPartConcat(x: string, y: string)
    ensures Concat([x, y]) == x + y
  {
    assert [x, y][..1] == [x];
    assert [x][..0] == [];
    assert Concat([x]) == Concat([]) + x;
    assert "" + x == x;
  }

  /** `BoldWordStep` for a span holding one plain word and a space. */
  lemma BoldSpacedWordStep(st: State, page: nat, span: Span, w: string)
    requires span.bold && span.text == w + " " && w != "" && IsTrimmed(w)
    requires 'C' !in w && CopyrightChar !in w && w !in IgnoreWords
    requires !IsDigit(w[0]) && w[0] != '.' && w[0] != Bullet
    requires w != TocMarker && w !in NamedSections && !Truthy(st.pending)
    ensures Step(st, page, span) == BufferTitle(st, page, span)
  {
    SpacedWordFacts(span.text, w);
    BoldWordStep(st, page, span);
  }

  lemma AnnualStep(a: Span, w: string)
    requires a == Span("Annual ", true) && w == "Annual"
    ensures Step(Initial, 0, a) == Initial.(titleBuffer := ["Annual "])
  {
    assert w[0] == 'A' && TocMarker[0] == 'T';
    BoldSpacedWordStep(Initial, 0, a, w);
  }

  lemma ReportStep(b: Span, w: string)
    requires b == Span("Report ", true) && w == "Report"
    ensures Step(Initial.(titleBuffer := ["Annual "]), 0, b) == Initial.(titleBuffer := ["Annual ", "Report "])
  {
    assert w[0] == 'R' && TocMarker[0] == 'T';
    BoldSpacedWordStep(Initial.(titleBuffer := ["Annual "]), 0, b, w);
  }

  /** A bold "3." followed by a bold "Overview" on page 1 gives the single
      entry "3. Overview " rather than two. */
  lemma SplitNumberMerges(doc: Document)
    requires doc == [[], [Span("3.", true), Span("Overview", true)]]
    ensures ExtractHeadings(doc) == Result("", [Heading(H1, "3. Overview ", 1)])
  {
    var a, b := doc[1][0], doc[1][1];
    ThreeDotFacts(a.text);
    OverviewFacts(b.text);
    BoldNumberThenLabel(a, b);
    assert doc[1] == [a, b];
    SecondPageOnly(doc);
    MergedText(a.text, b.text);
  }

  /** A page holding a bold section number and then a bold label, from the
      initial state, yields the one merged H1 entry. */
  lemma BoldNumberThenLabel(a: Span, b: Span)
    requires a.bold && b.bold
    requires NumberDot(Strip(a.text)) && !StartsWith(Strip(a.text), "0.")
    requires !Boilerplate(Strip(b.text)) && Strip(b.text) != TocMarker && !NumberDot(Strip(b.text))
    ensures RunPage(Initial, 1, [a, b]).headings
            == [Heading(H1, Strip(a.text) + " " + Strip(b.text) + " ", 1)]
  {
    PendingStash(Initial, 1, a);
    var s1 := Step(Initial, 1, a);
    assert Strip(a.text) != "";
    PendingMerge(s1, 1, b);
    TwoSpanPage(Initial, 1, [a, b]);
  }

  lemma MergedText(x: string, y: string)
    requires x == "3." && y == "Overview"
    ensures x + " " + y + " " == "3. Overview "
  {
  }

  /** A plain "2.1 Scope" off any TOC page is one H2 entry "2.1 Scope ". */
  lemma PlainSubsectionIsH2(doc: Document)
    requires doc == [[], [Span("2.1 Scope", false)]]
    ensures ExtractHeadings(doc) == Result("", [Heading(H2, "2.1 Scope ", 1)])
  {
    ScopeFacts(doc[1][0].text);
    PlainTwoLevelPage(doc[1][0]);
    assert doc[1] == [doc[1][0]];
    SecondPageOnly(doc);
    assert doc[1][0].text + " " == "2.1 Scope ";
  }

  /** A page holding one plain two-level number, from the initial state,
      yields one H2 entry. */
  lemma PlainTwoLevelPage(span: Span)
    requires !span.bold && TwoLevelNumber(Strip(span.text)) && !Boilerplate(Strip(span.text))
    ensures RunPage(Initial, 1, [span]).headings == [Heading(H2, Strip(span.text) + " ", 1)]
  {
    PlainTwoLevelIsH2(Initial, 1, span);
    SingleSpanPage(Initial, 1, [span]);
  }

  /** Under a bold "Table of Contents" on the same page, "2.1 Scope" is
      dropped; only the marker is recorded. */
  lemma TocEntrySkipped()
    ensures ExtractHeadings([[], [Span(TocMarker, true), Span("2.1 Scope", false)]])
            == Result("", [Heading(H1, TocMarker + " ", 1)])
  {
    var spans := [Span(TocMarker, true), Span("2.1 Scope", false)];
    var doc: Document := [[], spans];
    ScopeFacts(spans[1].text);
    StripsTo(TocMarker, TocMarker, "");
    TocMarkerEntersTocMode(Initial, 1, spans[0]);
    var s1 := Step(Initial, 1, spans[0]);
    TocPageSuppresses(s1, 1, spans[1]);
    TwoSpanPage(Initial, 1, spans);
    SecondPageOnly(doc);
  }

  /** "Version", "0.2", "..." and "42" are dropped by the filters whatever
      the state, the page and the font. */
  lemma BoilerplateDropped(st: State, page: nat, bold: bool)
    ensures Step(st, page, Span("Version", bold)) == st
    ensures Step(st, page, Span("0.2", bold)) == st
    ensures Step(st, page, Span("...", bold)) == st
    ensures Step(st, page, Span("42", bold)) == st
  {
    IgnoredWord(st, page, Span("Version", bold));
    IgnoredNumber(st, page, Span("0.2", bold));
    DotsOnly(st, page, Span("...", bold));
    AllDigits(st, page, Span("42", bold));
  }

  lemma IgnoredWord(st: State, page: nat, span: Span)
    requires span.text == "Version"
    ensures Step(st, page, span) == st
  {
    StripsTo(span.text, span.text, "");
    assert span.text in IgnoreWords;
  }

  lemma IgnoredNumber(st: State, page: nat, span: Span)
    requires span.text == "0.2"
    ensures Step(st, page, span) == st
  {
    StripsTo(span.text, span.text, "");
    assert span.text in IgnoreNumbers;
  }

  lemma DotsOnly(st: State, page: nat, span: Span)
    requires span.text == "..."
    ensures Step(st, page, span) == st
  {
    var t := span.text;
    StripsTo(t, t, "");
    assert forall i :: 0 <= i < |t| ==> t[i] == '.';
  }

  lemma AllDigits(st: State, page: nat, span: Span)
    requires span.text == "42"
    ensures Step(st, page, span) == st
  {
    var t := span.text;
    StripsTo(t, t, "");
    assert Digits(t);
  }
}
