# Outline extraction: the heading classifier of `extract_headings`

`extract_headings` (Adobe/extract_outline.py) reads a PDF and returns a
title and an ordered outline of H1/H2/H3 headings. It walks every text span
of every page. Each span's text is stripped and run through a chain of
filters, which drop copyright lines, table labels, version numbers, dot
leaders and bare page numbers. Then the first matching rule fires:

- a bold "Table of Contents" records itself and turns on suppression of
  numbered entries for that page;
- a bold `N.` is stashed, so that it can be merged with the next bold span;
- a bold `N.text` or a named section is recorded as H1;
- `N.N` is recorded as H2;
- `N.N.N` is recorded as H3.

A text is recorded only once. The title is the raw text of the first page's
bold spans that survive the filters, joined, plus one space.

The Dafny project models this classifier as a pure fold over a document.
A document is a sequence of pages, and a page is the sequence of its spans
in reading order. A span keeps its raw text and whether its font name
contains "Bold".

- `pystr.dfy` (`PyStr`) holds the Python string operations the classifier
  uses: `str.strip()` with Python's full `isspace` set, `startswith`, the
  substring test `in`, and `"".join`.
- `patterns.dfy` (`Patterns`) holds the regular expressions. The four
  heading regexes (lines 15-18) each have a computable form and a
  regex-shaped reference form, and a lemma proves the two equivalent. The
  `\d+` fullmatch of line 51 is `Digits`, which is already in the
  regex's own shape.
- `outline.dfy` (`Outline`) holds the state the loop carries, the filters
  (`Boilerplate`), the rules (`Rules`), one span (`Step`), one page
  (`RunPage`), the title capture (`EndPage`) and the whole function
  (`ExtractHeadings`).
- `outline_props.dfy` (`OutlineProps`) proves properties of the outline:
  - an invariant that every span keeps, which gives the well-formedness of
    every outline;
  - the exact title;
  - one lemma per rule, saying what that rule emits.
- `extract_loop.dfy` (`OutlineLoop`) holds the nested loops in the shape of
  the source. They are proved to compute the fold.
- `scenarios.dfy` (`Scenarios`) holds concrete documents and the outline
  they produce.

## Model

| member | source | states |
|---|---|---|
| PyStr.Strip | Adobe/extract_outline.py:39 | `strip()` returns a text no longer than its input, with no whitespace at either end |
| PyStr.StripIsMiddle | Adobe/extract_outline.py:39 | `strip()` removes only whitespace: its result is a contiguous middle of the input, and everything before and after it is whitespace |
| PyStr.StripBetweenSpace | Adobe/extract_outline.py:39 | any trimmed text surrounded by whitespace strips to exactly that text |
| PyStr.StripIdempotent | Adobe/extract_outline.py:39 | stripping twice is the same as stripping once |
| PyStr.ContainsCharOf | Adobe/extract_outline.py:43 | a substring test `sub in s` succeeds only if `sub` fits in `s` and each of its characters occurs in `s` |
| PyStr.StartsWith | Adobe/extract_outline.py:47 | no contract of its own: it is `str.startswith`, the prefix test, defined directly |
| PyStr.Contains | Adobe/extract_outline.py:43 | no contract of its own; `ContainsIff` and `ContainsCharOf` characterise it |
| PyStr.ContainsIff | Adobe/extract_outline.py:43 | `sub in s` holds exactly when `sub` occurs in `s` at some index |
| PyStr.Concat | Adobe/extract_outline.py:103 | no contract of its own: `"".join`; `ConcatAppend` states how it splits |
| PyStr.ConcatAppend | Adobe/extract_outline.py:103 | joining two lists of parts one after the other is the same as joining each and concatenating the results |
| Patterns.DigitEnd | Adobe/extract_outline.py:15-18 | a greedy `\d+` from position i stops at the first non-digit: everything scanned is a digit, and the stopping character is not |
| Patterns.Digits | Adobe/extract_outline.py:51 | no contract of its own: `re.fullmatch(r'\d+', s)`, a non-empty text of digits, defined in the regex's own shape |
| Patterns.NumberDot | Adobe/extract_outline.py:15 | no contract of its own; `NumberDotAgrees` proves it equal to the regex |
| Patterns.NumberThenText | Adobe/extract_outline.py:16 | no contract of its own; `NumberThenTextAgrees` proves it equal to the regex |
| Patterns.TwoLevelNumber | Adobe/extract_outline.py:17 | no contract of its own; `TwoLevelAgrees` proves it equal to the regex |
| Patterns.ThreeLevelNumber | Adobe/extract_outline.py:18 | no contract of its own; `ThreeLevelAgrees` proves it equal to the regex |
| Patterns.NumberDotAgrees | Adobe/extract_outline.py:15 | the computed test for `^\d+\.$` holds exactly when some split of the text is digits then "." or ".\n" |
| Patterns.NumberThenTextAgrees | Adobe/extract_outline.py:16 | the computed test for `^\d+\.\s?.+` holds exactly when some split is digits, a dot with an optional whitespace character, then a non-newline character |
| Patterns.TwoLevelAgrees | Adobe/extract_outline.py:17 | the computed test for `^\d+\.\d+\s?` holds exactly when some split is digits then a dot with digits |
| Patterns.ThreeLevelAgrees | Adobe/extract_outline.py:18 | the computed test for `^\d+\.\d+\.\d+\s?` holds exactly when some split is digits then two dot-digit groups |
| Patterns.ThreeLevelIsTwoLevel | Adobe/extract_outline.py:17-18 | every text matching the H3 regex also matches the H2 regex |
| Patterns.TwoLevelIsNumberThenText | Adobe/extract_outline.py:16-17 | every text matching the H2 regex also matches the `N.text` H1 regex |
| Patterns.NumberThenTextNotNumberDot | Adobe/extract_outline.py:15-16 | no text matches both `^\d+\.$` and `^\d+\.\s?.+` |
| Patterns.NumberDotIsNotTwoLevel | Adobe/extract_outline.py:15-17 | no text matches both `^\d+\.$` and `^\d+\.\d+\s?` |
| Outline.Record | Adobe/extract_outline.py:61-63 | recording a key appends at most the one entry "key " and changes only the outline and the dedup set |
| Outline.Rules | Adobe/extract_outline.py:59-100 | the rules add at most one entry, on the current page; it is H2 exactly when the span is not bold, and never H3; the title is untouched, and a span that is not bold never touches the pending number |
| Outline.Step | Adobe/extract_outline.py:38-100 | a filtered span changes nothing; otherwise at most one entry is added, on the current page, H2 exactly when the span is not bold, never H3; the title buffer grows only on page 0 and only by a bold span's raw text |
| Outline.BufferTitle | Adobe/extract_outline.py:56-57 | only a bold span of page 0 adds to the title buffer, and only its raw text; nothing else changes |
| Outline.EndPage | Adobe/extract_outline.py:102-104 | the title is set only after page 0, once, and only when the buffer is non-empty; nothing else changes |
| Outline.Boilerplate | Adobe/extract_outline.py:40-52 | no contract of its own: the six filters; `Step` leaves the state unchanged for a filtered span, `NumberDotNotBoilerplate`, `NamedSectionFacts` and `BoilerplateDropped` state which texts pass and which do not |
| Outline.RunPage | Adobe/extract_outline.py:32-100 | no contract of its own: the span loop of one page; `PageLoop` shows the loop computes it and `RunPageKeepsInv` states what it preserves |
| Outline.RunPages | Adobe/extract_outline.py:28-104 | no contract of its own: the page loop with the title capture; `RunPagesKeepsInv` and `TitleAfterPages` state what it yields |
| Outline.ExtractHeadings | Adobe/extract_outline.py:106-108 | no contract of its own: the result; `ExtractHeadingsLoop` shows the loop computes it, and the `Outline*` and `Title*` lemmas state its properties |
| OutlineProps.RecordKeepsInv | Adobe/extract_outline.py:61-63 | recording a well-formed key keeps the outline duplicate-free and page-sorted, and keeps the dedup set equal to the set of emitted keys |
| OutlineProps.MergedKeyTrimmed | Adobe/extract_outline.py:76 | "N. text" built from a stashed number and a stripped text is a non-empty, trimmed key that is not an H2 number |
| OutlineProps.RulesKeepInv | Adobe/extract_outline.py:59-100 | every rule keeps the outline invariant |
| OutlineProps.StepKeepsInv | Adobe/extract_outline.py:38-100 | every span keeps the outline invariant |
| OutlineProps.RunPageKeepsInv | Adobe/extract_outline.py:36-100 | every page's spans keep the outline invariant |
| OutlineProps.RunPagesKeepsInv | Adobe/extract_outline.py:28-104 | after n pages the invariant holds, with every entry on a page below n |
| OutlineProps.OutlineTextsDistinct | Adobe/extract_outline.py:61-99 | no two outline entries have the same text |
| OutlineProps.OutlinePagesOrdered | Adobe/extract_outline.py:28-100 | entries appear in non-decreasing page order, and every page is below the page count |
| OutlineProps.OutlineEntriesWellFormed | Adobe/extract_outline.py:39-100 | every entry's text is a non-empty stripped key plus one space; no entry is H3, and an H2 entry's key starts with `N.N` |
| OutlineProps.OutlineHasNoH3 | Adobe/extract_outline.py:90-100 | no entry is ever H3, because every `N.N.N` text is taken by the H2 branch first |
| OutlineProps.SeenIsOutlineKeys | Adobe/extract_outline.py:22 | at the end, the dedup set is exactly the set of emitted keys |
| OutlineProps.TocEntryUniqueH1 | Adobe/extract_outline.py:59-63 | "Table of Contents " appears in the outline at most once, and as H1 |
| OutlineProps.FirstPageBuffer | Adobe/extract_outline.py:54-57 | on page 0 the title buffer gains exactly the raw texts of the bold spans that pass the filters, in order |
| OutlineProps.StepTitleBuffer | Adobe/extract_outline.py:56-57 | one span of page 0 adds its raw text to the buffer exactly when it is bold and passes the filters |
| OutlineProps.RunPageKeepsTitle | Adobe/extract_outline.py:38-100 | processing spans never changes the title |
| OutlineProps.TitleAfterPages | Adobe/extract_outline.py:102-104 | after any positive number of pages, the title is the joined first-page bold texts plus a space, or none if there are none |
| OutlineProps.TitleCapture | Adobe/extract_outline.py:106-108 | the returned title equals the reference title; it is "" exactly when the document is empty or no bold span of the first page passes the filters |
| OutlineProps.TitleIgnoresLaterPages | Adobe/extract_outline.py:102-104 | two documents with the same first page have the same title |
| OutlineProps.UnnumberedTextIgnored | Adobe/extract_outline.py:59-100 | for a text not starting with a digit, not the TOC marker and not a named section, the rules leave the state unchanged, unless it is bold and completes a pending number |
| OutlineProps.BoldWordStep | Adobe/extract_outline.py:56-100 | a bold span whose stripped text passes the filters, does not start with a digit, is neither the TOC marker nor a named section, and finds nothing pending only adds its raw text to the title buffer (on page 0); no rule fires |
| OutlineProps.NumberDotNotBoilerplate | Adobe/extract_outline.py:40-52 | a stripped `N.` other than `0.` passes every filter and is not the TOC marker |
| OutlineProps.PendingStash | Adobe/extract_outline.py:71-73 | a bold `N.` becomes the pending number and changes neither the outline, the dedup set nor TOC mode |
| OutlineProps.PendingMerge | Adobe/extract_outline.py:75-81 | with a number pending, a bold span reaching that rule emits "N. text " as H1 unless seen, and clears the pending number |
| OutlineProps.TocMarkerEntersTocMode | Adobe/extract_outline.py:59-65 | a bold "Table of Contents" turns TOC mode on for this page, is recorded as H1 unless seen, and keeps the pending number |
| OutlineProps.TocPageSuppresses | Adobe/extract_outline.py:67-69 | on the TOC page, a span starting with `N.N` leaves the outline, the dedup set, the pending number and TOC mode unchanged |
| OutlineProps.TocPageEmitsNoNumbered | Adobe/extract_outline.py:67-69 | once TOC mode is on for a page, the rest of that page keeps it on, and no entry added there has a key starting with `N.N` |
| OutlineProps.BoldNumberedIsH1 | Adobe/extract_outline.py:83-88 | a bold `N.text` with nothing pending that is not suppressed is emitted as H1 (never H2) unless seen |
| OutlineProps.NamedSectionIsH1 | Adobe/extract_outline.py:83-88 | a bold "Revision History", "Acknowledgements" or "References" with nothing pending is emitted as H1 unless its key was seen |
| OutlineProps.PlainTwoLevelIsH2 | Adobe/extract_outline.py:90-94 | a non-bold `N.N` span off the TOC page is emitted as H2 unless seen |
| OutlineLoop.ExtractHeadingsLoop | Adobe/extract_outline.py:28-108 | the nested page and span loops compute exactly the fold `ExtractHeadings` |
| OutlineLoop.PageLoop | Adobe/extract_outline.py:32-100 | the span loop of one page computes exactly `RunPage` |
| Scenarios.AnnualReportTitle | Adobe/extract_outline.py:56-57 | bold "Annual " and "Report " on page 0 give the title "Annual Report  " and an empty outline |
| Scenarios.SplitNumberMerges | Adobe/extract_outline.py:71-81 | a bold "3." then a bold "Overview" give the one H1 entry "3. Overview " |
| Scenarios.PlainSubsectionIsH2 | Adobe/extract_outline.py:90-94 | a plain "2.1 Scope" on page 1 is the one H2 entry "2.1 Scope " |
| Scenarios.TocEntrySkipped | Adobe/extract_outline.py:59-69 | after a bold "Table of Contents", "2.1 Scope" on the same page is dropped |
| Scenarios.BoilerplateDropped | Adobe/extract_outline.py:45-52 | "Version", "0.2", "..." and "42" change nothing, whatever the state, page and font |

## Left out

- Opening the PDF (`fitz.open`, `get_text("dict")`) is left out. The
  document is a parameter: its pages in order, each page's spans in reading
  order. Blocks without "lines" (image blocks) contribute no spans, so
  flattening blocks and lines loses nothing the classifier looks at.
- The font name is reduced to one bit, whether it contains "Bold".
- Writing the JSON file, `os.makedirs`, the final `print` and the
  `__main__` driver (lines 111-127) are left out. They are I/O, and the
  function's result is modelled as `Result(title, outline)`.
- Text is a sequence of Unicode scalar values. A Python `str` can also
  hold lone surrogates, which a Dafny `char` cannot represent.
- `\d` is modelled as the ASCII digits. Python's `re` also matches other
  Unicode decimal digits.
- Patterns.DigitEnd: its contract describes only ASCII digit runs, because
  of the `\d` simplification above.
- PyStr.Strip: its own contract states only the length bound and that the
  result is trimmed. `StripIsMiddle` and `StripBetweenSpace` state the
  full property.
- Outline.Rules: its contract states the shape of the change only. The
  per-rule lemmas in `OutlineProps` state what each branch emits.
- Outline.Step: likewise, its contract states the shape of the change only.
  The per-rule lemmas (`PendingStash`, `PendingMerge`,
  `TocMarkerEntersTocMode`, `TocPageSuppresses`, `BoldNumberedIsH1`,
  `NamedSectionIsH1`, `PlainTwoLevelIsH2`, `UnnumberedTextIgnored`) state
  what a span does once it passes the filters.
- Outline.Record: its contract does not say when the entry is appended.
  The per-rule lemmas state it for each rule: the entry is appended exactly
  when its key was not seen. `RecordKeepsInv` states what recording
  preserves.
- Outline.BufferTitle: its contract allows the buffer to stay unchanged for
  a bold span of page 0. `StepTitleBuffer` states exactly when it grows.
- Outline.EndPage: its contract does not give the title's value.
  `TitleAfterPages` and `TitleCapture` do.
- The outline entries are records with a `level` of `H1`/`H2`/`H3`, not
  string-keyed dictionaries.
- Notes on behaviour that is modelled as written:
  - `in_toc_page` is never reset once set;
  - `toc_page_num` moves to each page holding a bold "Table of Contents";
  - `$` in `^\d+\.$` also matches before a final newline, although a
    stripped text never ends in one;
  - the H3 rule is unreachable, because every H3 number is also an H2
    number and the H2 rule comes first.
