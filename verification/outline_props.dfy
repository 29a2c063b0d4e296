/**
 What the heading classifier guarantees about the outline and the title
 it returns, proved about the fold in `Outline`.
 */
module OutlineProps {
  import opened PyStr
  import opened Patterns
  import opened Outline

  /** The dedup key of an entry: its text without the trailing space. */
  function Key(h: Heading): string {
    if |h.text| > 0 then h.text[..|h.text| - 1] else ""
  }

  function KeySet(hs: seq<Heading>): set<string> {
    set h | h in hs :: Key(h)
  }

  /** An entry as the rules can produce it: a non-empty stripped key plus
      one space, never H3, and H2 only for a two-level number. */
  ghost predicate WellFormedEntry(h: Heading) {
    var k := Key(h);
    && h.text == k + " " && k != "" && IsTrimmed(k)
    && h.level != H3
    && (h.level == H2 ==> TwoLevelNumber(k))
  }

  ghost predicate DistinctTexts(hs: seq<Heading>) {
    forall i, j :: 0 <= i < j < |hs| ==> hs[i].text != hs[j].text
  }

  ghost predicate PagesSorted(hs: seq<Heading>) {
    forall i, j :: 0 <= i < j < |hs| ==> hs[i].page <= hs[j].page
  }

  ghost predicate PagesBelow(hs: seq<Heading>, n: nat) {
    forall i :: 0 <= i < |hs| ==> hs[i].page < n
  }

  /** A stashed section number is a stripped `N.` */
  ghost predicate PendingOk(st: State) {
    st.pending.Some? ==> NumberDot(st.pending.value) && IsTrimmed(st.pending.value)
  }

  /** What holds of the classifier's state whenever every entry so far
      comes from a page below `bound`. */
  ghost predicate Inv(st: State, bound: nat) {
    && (forall h :: h in st.headings ==> WellFormedEntry(h))
    && DistinctTexts(st.headings)
    && PagesSorted(st.headings)
    && PagesBelow(st.headings, bound)
    && st.seen == KeySet(st.headings)
    && PendingOk(st)
  }

  // ----- the invariant -----

  lemma KeyOfEntry(level: Level, key: string, page: nat)
    ensures Key(Heading(level, key + " ", page)) == key
  {
    assert (key + " ")[..|key|] == key;
  }

  /** Recording a well-formed key on the current page keeps the invariant. */
  lemma RecordKeepsInv(st: State, level: Level, key: string, page: nat)
    requires Inv(st, page + 1)
    requires key != "" && IsTrimmed(key) && level != H3 && (level == H2 ==> TwoLevelNumber(key))
    ensures Inv(Record(st, level, key, page), page + 1)
  {
    if key !in st.seen {
      var h := Heading(level, key + " ", page);
      var hs := st.headings + [h];
      KeyOfEntry(level, key, page);
      forall i | 0 <= i < |st.headings|
        ensures hs[i].text != h.text
      {
        var g := st.headings[i];
        assert g in st.headings;
        assert Key(g) in st.seen;
        assert g.text == Key(g) + " ";
      }
      assert KeySet(hs) == KeySet(st.headings) + {key};
    }
  }

  /** The merged text of lines 76-78 is a stripped, non-empty key. */
  lemma MergedKeyTrimmed(number: string, clean: string)
    requires NumberDot(number) && IsTrimmed(clean) && clean != ""
    ensures var key := number + " " + clean; key != "" && IsTrimmed(key) && !TwoLevelNumber(key)
  {
    var key := number + " " + clean;
    var n := DigitEnd(number, 0);
    assert IsDigit(number[0]);
    assert key[0] == number[0];
    assert key[|key| - 1] == clean[|clean| - 1];
    assert forall k :: 0 <= k < |number| ==> key[k] == number[k];
    DigitEndIs(key, 0, n);
    assert !IsDigit(key[n + 1]);
    DigitEndIs(key, n + 1, n + 1);
  }

  lemma RulesKeepInv(st: State, page: nat, clean: string, bold: bool)
    requires Inv(st, page + 1) && clean != "" && IsTrimmed(clean)
    ensures Inv(Rules(st, page, clean, bold), page + 1)
  {
    ThreeLevelIsTwoLevelHere(clean);
    if clean == TocMarker && bold {
      RecordKeepsInv(st, H1, clean, page);
    } else if OnTocPage(st, page) && (TwoLevelNumber(clean) || ThreeLevelNumber(clean)) {
    } else if bold && NumberDot(clean) {
    } else if Truthy(st.pending) && bold {
      MergedKeyTrimmed(st.pending.value, clean);
      RecordKeepsInv(st, H1, st.pending.value + " " + clean, page);
    } else if bold && (NumberThenText(clean) || clean in NamedSections) {
      RecordKeepsInv(st, H1, clean, page);
    } else if TwoLevelNumber(clean) {
      RecordKeepsInv(st, H2, clean, page);
    }
  }

  lemma StepKeepsInv(st: State, page: nat, span: Span)
    requires Inv(st, page + 1)
    ensures Inv(Step(st, page, span), page + 1)
  {
    var clean := Strip(span.text);
    if !Boilerplate(clean) {
      RulesKeepInv(BufferTitle(st, page, span), page, clean, span.bold);
    }
  }

  lemma {:induction false} RunPageKeepsInv(st: State, page: nat, spans: seq<Span>)
    requires Inv(st, page + 1)
    ensures Inv(RunPage(st, page, spans), page + 1)
    decreases |spans|
  {
    if spans != [] {
      RunPageKeepsInv(st, page, spans[..|spans| - 1]);
      StepKeepsInv(RunPage(st, page, spans[..|spans| - 1]), page, spans[|spans| - 1]);
    }
  }

  lemma {:induction false} RunPagesKeepsInv(doc: Document, n: nat)
    requires n <= |doc|
    ensures Inv(RunPages(doc, n), n)
  {
    if n == 0 {
      InitialInv();
    } else {
      RunPagesKeepsInv(doc, n - 1);
      NextPageKeepsInv(doc, n - 1);
    }
  }

  lemma InitialInv()
    ensures Inv(Initial, 0)
  {
  }

  lemma NextPageKeepsInv(doc: Document, n: nat)
    requires n < |doc| && Inv(RunPages(doc, n), n)
    ensures Inv(RunPages(doc, n + 1), n + 1)
  {
    RunPagesNext(doc, n);
    PageKeepsInv(RunPages(doc, n), n, doc[n]);
  }

  /** One whole page, title capture included. */
  lemma PageKeepsInv(st: State, page: nat, spans: seq<Span>)
    requires Inv(st, page)
    ensures Inv(EndPage(RunPage(st, page, spans), page), page + 1)
  {
    InvWeaken(st, page);
    RunPageKeepsInv(st, page, spans);
    EndPageKeepsInv(RunPage(st, page, spans), page, page + 1);
  }

  lemma InvWeaken(st: State, bound: nat)
    requires Inv(st, bound)
    ensures Inv(st, bound + 1)
  {
  }

  lemma EndPageKeepsInv(st: State, page: nat, bound: nat)
    requires Inv(st, bound)
    ensures Inv(EndPage(st, page), bound)
  {
    var r := EndPage(st, page);
    assert r.headings == st.headings && r.seen == st.seen && r.pending == st.pending;
  }

  /** No two outline entries have the same text (lines 61, 77, 85, 91, 97). */
  lemma OutlineTextsDistinct(doc: Document)
    ensures DistinctTexts(ExtractHeadings(doc).outline)
  {
    RunPagesKeepsInv(doc, |doc|);
  }

  /** Entries come in page order, and every page is a page of the document. */
  lemma OutlinePagesOrdered(doc: Document)
    ensures PagesSorted(ExtractHeadings(doc).outline)
    ensures PagesBelow(ExtractHeadings(doc).outline, |doc|)
  {
    RunPagesKeepsInv(doc, |doc|);
  }

  /** Every entry's text is a non-empty stripped key plus one space, and an
      H2 entry's key starts with a two-level number. */
  lemma OutlineEntriesWellFormed(doc: Document)
    ensures forall h :: h in ExtractHeadings(doc).outline ==> WellFormedEntry(h)
  {
    RunPagesKeepsInv(doc, |doc|);
  }

  /** No entry is ever H3: a text matching the H3 regex (line 18) also
      matches the H2 regex (line 17), whose branch (line 90) comes first. */
  lemma OutlineHasNoH3(doc: Document)
    ensures forall h :: h in ExtractHeadings(doc).outline ==> h.level != H3
  {
    RunPagesKeepsInv(doc, |doc|);
  }

  /** At the end, `seen_headings` is exactly the set of emitted keys. */
  lemma SeenIsOutlineKeys(doc: Document)
    ensures RunPages(doc, |doc|).seen == KeySet(ExtractHeadings(doc).outline)
  {
    RunPagesKeepsInv(doc, |doc|);
  }

  /** "Table of Contents" appears in the outline at most once, and as H1. */
  lemma TocEntryUniqueH1(doc: Document, i: nat)
    requires i < |ExtractHeadings(doc).outline|
    requires ExtractHeadings(doc).outline[i].text == TocMarker + " "
    ensures ExtractHeadings(doc).outline[i].level == H1
    ensures forall j :: 0 <= j < |ExtractHeadings(doc).outline| && j != i ==>
              ExtractHeadings(doc).outline[j].text != TocMarker + " "
  {
    OutlineTextsDistinct(doc);
    OutlineEntriesWellFormed(doc);
    var hs := ExtractHeadings(doc).outline;
    var h := hs[i];
    assert h in hs;
    KeyOfEntry(h.level, TocMarker, h.page);
    assert Key(h) == TocMarker;
    assert TocMarker[0] == 'T';
  }

  // ----- the title -----

  /** The raw texts of the bold spans of a page that survive the filters. */
  function BoldTexts(spans: seq<Span>): seq<string> {
    if spans == [] then []
    else
      var sp := spans[|spans| - 1];
      BoldTexts(spans[..|spans| - 1])
        + (if sp.bold && !Boilerplate(Strip(sp.text)) then [sp.text] else [])
  }

  /** The title lines 56-57, 102-104 and 107 promise: empty when no bold span
      survives the filters on the first page, else those spans' raw texts
      joined, plus one space. */
  function ExpectedTitle(doc: Document): string {
    if |doc| == 0 || BoldTexts(doc[0]) == [] then "" else Concat(BoldTexts(doc[0])) + " "
  }

  lemma {:induction false} FirstPageBuffer(st: State, spans: seq<Span>)
    ensures RunPage(st, 0, spans).titleBuffer == st.titleBuffer + BoldTexts(spans)
    ensures RunPage(st, 0, spans).title == st.title
    ensures RunPage(st, 0, spans).titleFound == st.titleFound
    decreases |spans|
  {
    if spans != [] {
      var init, last := spans[..|spans| - 1], spans[|spans| - 1];
      var mid := RunPage(st, 0, init);
      FirstPageBuffer(st, init);
      assert RunPage(st, 0, spans) == Step(mid, 0, last);
      StepTitleBuffer(mid, last);
      assert BoldTexts(spans) == BoldTexts(init) + (if last.bold && !Boilerplate(Strip(last.text)) then [last.text] else []);
      assert st.titleBuffer + BoldTexts(init) + (if last.bold && !Boilerplate(Strip(last.text)) then [last.text] else [])
          == st.titleBuffer + BoldTexts(spans);
    }
  }

  /** Lines 56-57 for one span of the first page. */
  lemma StepTitleBuffer(st: State, span: Span)
    ensures Step(st, 0, span).titleBuffer
            == st.titleBuffer + (if span.bold && !Boilerplate(Strip(span.text)) then [span.text] else [])
  {
    var clean := Strip(span.text);
    if Boilerplate(clean) {
      assert st.titleBuffer + [] == st.titleBuffer;
    } else {
      StepPassesFilters(st, 0, span);
      if !span.bold {
        assert st.titleBuffer + [] == st.titleBuffer;
      }
    }
  }

  lemma {:induction false} RunPageKeepsTitle(st: State, page: nat, spans: seq<Span>)
    ensures RunPage(st, page, spans).title == st.title
    decreases |spans|
  {
    if spans != [] {
      RunPageKeepsTitle(st, page, spans[..|spans| - 1]);
    }
  }

  lemma {:induction false} TitleAfterPages(doc: Document, n: nat)
    requires 0 < n <= |doc|
    ensures RunPages(doc, n).title
            == if BoldTexts(doc[0]) == [] then None else Some(Concat(BoldTexts(doc[0])) + " ")
  {
    if n == 1 {
      var st := RunPage(Initial, 0, doc[0]);
      FirstPageBuffer(Initial, doc[0]);
      assert st.titleBuffer == BoldTexts(doc[0]) by {
        assert Initial.titleBuffer + BoldTexts(doc[0]) == BoldTexts(doc[0]);
      }
      assert !st.titleFound;
      assert RunPages(doc, 1) == EndPage(st, 0);
    } else {
      var prev := RunPages(doc, n - 1);
      TitleAfterPages(doc, n - 1);
      RunPageKeepsTitle(prev, n - 1, doc[n - 1]);
      assert RunPages(doc, n) == EndPage(RunPage(prev, n - 1, doc[n - 1]), n - 1);
    }
  }

  /** The result's title is `ExpectedTitle`: it depends on the first page
      only, and is empty exactly when no bold span there survives the
      filters. */
  lemma TitleCapture(doc: Document)
    ensures ExtractHeadings(doc).title == ExpectedTitle(doc)
    ensures ExtractHeadings(doc).title == "" <==> |doc| == 0 || BoldTexts(doc[0]) == []
  {
    if |doc| > 0 {
      TitleAfterPages(doc, |doc|);
    }
  }

  /** Spans on pages after the first never affect the title. */
  lemma TitleIgnoresLaterPages(doc: Document, doc': Document)
    requires |doc| > 0 && |doc'| > 0 && doc[0] == doc'[0]
    ensures ExtractHeadings(doc).title == ExtractHeadings(doc').title
  {
    TitleCapture(doc);
    TitleCapture(doc');
  }

  // ----- single spans -----

  /** A span that survives the filters goes through the rules. */
  lemma StepPassesFilters(st: State, page: nat, span: Span)
    requires !Boilerplate(Strip(span.text))
    ensures Step(st, page, span) == Rules(BufferTitle(st, page, span), page, Strip(span.text), span.bold)
  {
  }

  /** A text that neither starts with a digit nor is the TOC marker or a
      named section adds no entry and leaves the state as it was, unless it
      is bold and completes a pending number (lines 59-100). */
  lemma UnnumberedTextIgnored(st: State, page: nat, clean: string, bold: bool)
    requires clean != "" && !IsDigit(clean[0])
    requires clean != TocMarker && clean !in NamedSections
    requires !(bold && Truthy(st.pending))
    ensures Rules(st, page, clean, bold) == st
  {
    assert DigitEnd(clean, 0) == 0;
  }

  /** Lines 56-100 for a bold span whose stripped text passes the filters,
      does not start with a digit, is neither the TOC marker nor a named
      section, and finds nothing pending: it only feeds the title buffer,
      and no rule fires. */
  lemma BoldWordStep(st: State, page: nat, span: Span)
    requires span.bold && !Boilerplate(Strip(span.text)) && !IsDigit(Strip(span.text)[0])
    requires Strip(span.text) != TocMarker && Strip(span.text) !in NamedSections
    requires !Truthy(st.pending)
    ensures Step(st, page, span) == BufferTitle(st, page, span)
  {
    StepPassesFilters(st, page, span);
    UnnumberedTextIgnored(BufferTitle(st, page, span), page, Strip(span.text), true);
  }

  /** A stripped bare `N.` is none of the boilerplate the filters drop,
      unless it is `0.` */
  lemma NumberDotNotBoilerplate(clean: string)
    requires NumberDot(clean) && IsTrimmed(clean) && !StartsWith(clean, "0.")
    ensures !Boilerplate(clean) && clean != TocMarker
  {
    var n := DigitEnd(clean, 0);
    assert |clean| == n + 1;
    assert forall i :: 0 <= i < |clean| ==> IsDigit(clean[i]) || clean[i] == '.';
    if Contains(clean, CopyrightSign) {
      ContainsCharOf(clean, CopyrightSign, 0);
    }
    if Contains(clean, "Copyright") {
      ContainsCharOf(clean, "Copyright", 0);
    }
    assert !Digits(clean) by { assert !IsDigit(clean[n]); }
    assert clean[|clean| - 1] == '.';
  }

  /** Lines 71-73: a bold `N.` (other than `0.`) replaces the pending
      number and changes nothing else but the title buffer. */
  lemma PendingStash(st: State, page: nat, span: Span)
    requires span.bold && NumberDot(Strip(span.text)) && !StartsWith(Strip(span.text), "0.")
    ensures var r := Step(st, page, span);
      && r.pending == Some(Strip(span.text))
      && r.headings == st.headings && r.seen == st.seen
      && r.tocPage == st.tocPage && r.inTocPage == st.inTocPage
  {
    var clean := Strip(span.text);
    NumberDotNotBoilerplate(clean);
    NumberDotIsNotTwoLevel(clean);
  }

  /** Lines 75-81: with a number pending, the next bold span that reaches
      this rule emits "N. text " as H1 unless that key was seen, and clears
      the pending number either way. */
  lemma PendingMerge(st: State, page: nat, span: Span)
    requires Truthy(st.pending) && span.bold
    requires !Boilerplate(Strip(span.text)) && Strip(span.text) != TocMarker && !NumberDot(Strip(span.text))
    requires !(OnTocPage(st, page) && TwoLevelNumber(Strip(span.text)))
    ensures var r := Step(st, page, span);
            var key := st.pending.value + " " + Strip(span.text);
      && r.pending == None
      && r.headings == st.headings + (if key in st.seen then [] else [Heading(H1, key + " ", page)])
  {
    var clean := Strip(span.text);
    var b := BufferTitle(st, page, span);
    StepPassesFilters(st, page, span);
    RulesMerge(b, page, clean);
    RecordOutcome(b, H1, st.pending.value + " " + clean, page);
  }

  lemma RulesMerge(st: State, page: nat, clean: string)
    requires Truthy(st.pending) && clean != TocMarker && !NumberDot(clean)
    requires !(OnTocPage(st, page) && TwoLevelNumber(clean))
    ensures Rules(st, page, clean, true) == Record(st, H1, st.pending.value + " " + clean, page).(pending := None)
  {
    ThreeLevelIsTwoLevelHere(clean);
  }

  /** Lines 59-65: a bold "Table of Contents" turns on suppression for the
      current page and is recorded as H1 unless already seen. */
  lemma TocMarkerEntersTocMode(st: State, page: nat, span: Span)
    requires span.bold && Strip(span.text) == TocMarker
    ensures var r := Step(st, page, span);
      && OnTocPage(r, page) && TocMarker in r.seen && r.pending == st.pending
      && r.headings == st.headings + (if TocMarker in st.seen then [] else [Heading(H1, TocMarker + " ", page)])
  {
    var b := BufferTitle(st, page, span);
    TocMarkerNotBoilerplate();
    StepPassesFilters(st, page, span);
    RulesOnTocMarker(b, page);
    RecordOutcome(b, H1, TocMarker, page);
  }

  /** Lines 61-63 and their repetitions: the key is recorded exactly when
      it was not seen, and is seen afterwards. */
  lemma RecordOutcome(st: State, level: Level, key: string, page: nat)
    ensures var r := Record(st, level, key, page);
      && key in r.seen && r.seen == st.seen + {key} && r.pending == st.pending
      && r.headings == st.headings + (if key in st.seen then [] else [Heading(level, key + " ", page)])
  {
  }

  lemma RulesOnTocMarker(st: State, page: nat)
    ensures Rules(st, page, TocMarker, true) == Record(st, H1, TocMarker, page).(tocPage := Some(page), inTocPage := true)
  {
  }

  lemma TocMarkerNotBoilerplate()
    ensures !Boilerplate(TocMarker)
  {
    TocMarkerNoCopyrightWord();
    TocMarkerNoCopyrightSign();
    TocMarkerNotIgnored(TocMarker);
  }

  lemma TocMarkerNotIgnored(s: string)
    requires s == TocMarker
    ensures !(s == "" || s in IgnoreWords || s in IgnoreNumbers || StartsWith(s, "0.") || Digits(s)
              || (forall i :: 0 <= i < |s| ==> s[i] == '.' || s[i] == Bullet))
  {
    assert s[0] == 'T';
  }

  lemma TocMarkerNoCopyrightWord()
    ensures !Contains(TocMarker, "Copyright")
  {
    if Contains(TocMarker, "Copyright") {
      ContainsCharOf(TocMarker, "Copyright", 2);
    }
  }

  lemma TocMarkerNoCopyrightSign()
    ensures !Contains(TocMarker, CopyrightSign)
  {
    if Contains(TocMarker, CopyrightSign) {
      ContainsCharOf(TocMarker, CopyrightSign, 0);
    }
  }

  /** Lines 67-69: on the TOC page, a span starting with `\d+\.\d+` is
      dropped and leaves the outline, the dedup set, the pending number
      and the TOC mode as they were. */
  lemma TocPageSuppresses(st: State, page: nat, span: Span)
    requires OnTocPage(st, page) && TwoLevelNumber(Strip(span.text))
    ensures var r := Step(st, page, span);
      && r.headings == st.headings && r.seen == st.seen && r.pending == st.pending
      && OnTocPage(r, page)
  {
    var clean := Strip(span.text);
    if !Boilerplate(clean) {
      StepPassesFilters(st, page, span);
      RulesSuppress(BufferTitle(st, page, span), page, clean, span.bold);
    }
  }

  lemma RulesSuppress(st: State, page: nat, clean: string, bold: bool)
    requires OnTocPage(st, page) && TwoLevelNumber(clean)
    ensures Rules(st, page, clean, bold) == st
  {
    assert IsDigit(clean[0]);
    assert TocMarker[0] == 'T';
  }

  lemma RulesOnTocPage(st: State, page: nat, clean: string, bold: bool)
    requires OnTocPage(st, page) && PendingOk(st) && clean != "" && IsTrimmed(clean)
    ensures var r := Rules(st, page, clean, bold);
      && OnTocPage(r, page) && PendingOk(r)
      && (|r.headings| > |st.headings| ==> !TwoLevelNumber(Key(r.headings[|st.headings|])))
  {
    var r := Rules(st, page, clean, bold);
    ThreeLevelIsTwoLevelHere(clean);
    if clean == TocMarker && bold {
      KeyOfEntry(H1, clean, page);
      assert TocMarker[0] == 'T';
    } else if TwoLevelNumber(clean) {
    } else if bold && NumberDot(clean) {
    } else if Truthy(st.pending) && bold {
      MergedKeyTrimmed(st.pending.value, clean);
      KeyOfEntry(H1, st.pending.value + " " + clean, page);
    } else if |r.headings| > |st.headings| {
      KeyOfEntry(r.headings[|st.headings|].level, clean, page);
    }
  }

  /** One span on the TOC page keeps TOC mode, and anything it records is
      not a two-level number. */
  lemma StepOnTocPage(st: State, page: nat, span: Span)
    requires OnTocPage(st, page) && PendingOk(st)
    ensures var r := Step(st, page, span);
      && OnTocPage(r, page) && PendingOk(r)
      && (|r.headings| > |st.headings| ==> !TwoLevelNumber(Key(r.headings[|st.headings|])))
  {
    var clean := Strip(span.text);
    if !Boilerplate(clean) {
      RulesOnTocPage(BufferTitle(st, page, span), page, clean, span.bold);
    }
  }

  /** Once TOC mode is on for `page`, the rest of that page leaves it on,
      and no entry it adds has a key starting with `\d+\.\d+`. */
  lemma {:induction false} TocPageEmitsNoNumbered(st: State, page: nat, spans: seq<Span>)
    requires OnTocPage(st, page) && PendingOk(st)
    ensures var r := RunPage(st, page, spans);
      && OnTocPage(r, page) && PendingOk(r) && st.headings <= r.headings
      && forall i :: |st.headings| <= i < |r.headings| ==> !TwoLevelNumber(Key(r.headings[i]))
    decreases |spans|
  {
    if spans != [] {
      var mid := RunPage(st, page, spans[..|spans| - 1]);
      var r := Step(mid, page, spans[|spans| - 1]);
      assert RunPage(st, page, spans) == r;
      TocPageEmitsNoNumbered(st, page, spans[..|spans| - 1]);
      StepOnTocPage(mid, page, spans[|spans| - 1]);
      NoNumberedSuffix(st.headings, mid.headings, r.headings);
    }
  }

  lemma NoNumberedSuffix(hs: seq<Heading>, mid: seq<Heading>, r: seq<Heading>)
    requires hs <= mid <= r && |r| <= |mid| + 1
    requires forall i :: |hs| <= i < |mid| ==> !TwoLevelNumber(Key(mid[i]))
    requires |r| > |mid| ==> !TwoLevelNumber(Key(r[|mid|]))
    ensures hs <= r && forall i :: |hs| <= i < |r| ==> !TwoLevelNumber(Key(r[i]))
  {
    forall i | |hs| <= i < |r|
      ensures !TwoLevelNumber(Key(r[i]))
    {
      if i < |mid| {
        assert r[..|mid|] == mid;
        assert r[i] == r[..|mid|][i];
      }
    }
  }

  /** Lines 83-88: a bold `N.text` span (for instance "2.1 Scope") that is
      not suppressed and finds nothing pending is emitted as H1, so it
      can never become H2. */
  lemma BoldNumberedIsH1(st: State, page: nat, span: Span)
    requires span.bold && !Truthy(st.pending)
    requires NumberThenText(Strip(span.text)) && !Boilerplate(Strip(span.text))
    requires !(OnTocPage(st, page) && TwoLevelNumber(Strip(span.text)))
    ensures var clean := Strip(span.text);
      Step(st, page, span).headings
        == st.headings + (if clean in st.seen then [] else [Heading(H1, clean + " ", page)])
  {
    var clean := Strip(span.text);
    var b := BufferTitle(st, page, span);
    StepPassesFilters(st, page, span);
    RulesBoldNumbered(b, page, clean);
    RecordOutcome(b, H1, clean, page);
  }

  lemma RulesBoldNumbered(st: State, page: nat, clean: string)
    requires !Truthy(st.pending) && NumberThenText(clean)
    requires !(OnTocPage(st, page) && TwoLevelNumber(clean))
    ensures Rules(st, page, clean, true) == Record(st, H1, clean, page)
  {
    ThreeLevelIsTwoLevelHere(clean);
    assert IsDigit(clean[0]);
    assert TocMarker[0] == 'T';
    NumberThenTextNotNumberDot(clean);
  }

  /** Neither "Copyright" nor the copyright sign occurs in `s`. */
  lemma NoCopyright(s: string)
    requires 'C' !in s && CopyrightChar !in s
    ensures !Contains(s, "Copyright") && !Contains(s, CopyrightSign)
  {
    if Contains(s, "Copyright") {
      ContainsCharOf(s, "Copyright", 0);
    }
    if Contains(s, CopyrightSign) {
      ContainsCharOf(s, CopyrightSign, 0);
    }
  }

  /** Sufficient conditions, easy to check on a literal, for a stripped
      text to pass the filters. */
  lemma NotBoilerplateWhen(s: string)
    requires s != "" && 'C' !in s && CopyrightChar !in s && s !in IgnoreWords
    requires !IsDigit(s[0]) && s[0] != '.' && s[0] != Bullet
    ensures !Boilerplate(s)
  {
    NoCopyright(s);
    assert !StartsWith(s, "0.") by {
      if |s| >= 2 { assert s[..2][0] == s[0]; }
    }
  }

  /** The three named sections of line 84 pass the filters, and none is
      the TOC marker or starts with a digit. */
  lemma NamedSectionFacts(s: string)
    requires s in NamedSections
    ensures !Boilerplate(s) && s != TocMarker && !IsDigit(s[0])
  {
    assert s == "Revision History" || s == "Acknowledgements" || s == "References";
    assert s[0] in "RA" && 'C' !in s && CopyrightChar !in s;
    NotBoilerplateWhen(s);
    assert TocMarker[0] == 'T';
  }

  /** Lines 83-88 for a named section: a bold "Revision History",
      "Acknowledgements" or "References" with nothing pending is emitted as
      H1 unless its key was seen. */
  lemma NamedSectionIsH1(st: State, page: nat, span: Span)
    requires span.bold && !Truthy(st.pending) && Strip(span.text) in NamedSections
    ensures var clean := Strip(span.text);
      Step(st, page, span).headings
        == st.headings + (if clean in st.seen then [] else [Heading(H1, clean + " ", page)])
  {
    var clean := Strip(span.text);
    var b := BufferTitle(st, page, span);
    NamedSectionFacts(clean);
    StepPassesFilters(st, page, span);
    RulesNamedSection(b, page, clean);
    RecordOutcome(b, H1, clean, page);
  }

  lemma RulesNamedSection(st: State, page: nat, clean: string)
    requires !Truthy(st.pending) && clean in NamedSections
    requires clean != TocMarker && clean != "" && !IsDigit(clean[0])
    ensures Rules(st, page, clean, true) == Record(st, H1, clean, page)
  {
    assert DigitEnd(clean, 0) == 0;
  }

  /** Lines 90-94: a non-bold `\d+\.\d+` span off the TOC page is emitted
      as H2 unless its key was seen. */
  lemma PlainTwoLevelIsH2(st: State, page: nat, span: Span)
    requires !span.bold && TwoLevelNumber(Strip(span.text)) && !Boilerplate(Strip(span.text))
    requires !OnTocPage(st, page)
    ensures var clean := Strip(span.text);
      Step(st, page, span).headings
        == st.headings + (if clean in st.seen then [] else [Heading(H2, clean + " ", page)])
  {
  }
}
