/**
 `extract_headings` with the shape of its source: an outer loop over page
 numbers, an inner loop over the page's spans, and the title capture after
 each page (Adobe/extract_outline.py lines 28-108). It computes exactly the
 result of the fold in `Outline`, so every property proved about
 `ExtractHeadings` holds of it.
 */
module OutlineLoop {
  import opened Outline

  method ExtractHeadingsLoop(doc: Document) returns (res: Result)
    ensures res == ExtractHeadings(doc)
  {
    var st := Initial;
    var pageNum := 0;
    while pageNum < |doc|
      invariant pageNum <= |doc|
      invariant st == RunPages(doc, pageNum)
    {
      var pst := PageLoop(st, pageNum, doc[pageNum]);
      RunPagesNext(doc, pageNum);
      st := EndPage(pst, pageNum);
      pageNum := pageNum + 1;
    }
    var title := if st.title.Some? && st.title.value != "" then st.title.value else "";
    res := Result(title, st.headings);
  }

  /** The span loop of one page (lines 31-100). */
  method PageLoop(st: State, page: nat, spans: seq<Span>) returns (pst: State)
    ensures pst == RunPage(st, page, spans)
  {
    var i := 0;
    pst := st;
    while i < |spans|
      invariant i <= |spans|
      invariant pst == RunPage(st, page, spans[..i])
    {
      RunPageNext(st, page, spans, i);
      pst := Step(pst, page, spans[i]);
      i := i + 1;
    }
    assert spans[..|spans|] == spans;
  }
}
