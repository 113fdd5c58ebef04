/** Text assembly from document parts (app/parser.py). The foreign readers
    (PyMuPDF for PDF, python-docx for DOCX) are abstracted as what they yield
    for the stored upload: the page texts, the paragraph texts, or the message
    of the exception they raise. */
module Parser {
  import opened Values

  /** What the two foreign readers yield for one stored file: the texts of its
      pages as PDF, and of its paragraphs as DOCX, or the message of the
      exception that opening the file raised. */
  datatype Readings = Readings(pdfPages: Result<seq<string>>, docxParagraphs: Result<seq<string>>)

  const UnsupportedFileType := "Unsupported file type"

  // ---------------------------------------------------------------- PDF

  /** The text of a PDF: its page texts concatenated in order, with no
      separator, grown at the end one page at a time. */
  function ConcatPages(pages: seq<string>): string {
    if pages == [] then "" else ConcatPages(pages[..|pages| - 1]) + pages[|pages| - 1]
  }

  /** The sum of the lengths of the given texts. */
  function TotalLength(texts: seq<string>): nat {
    if texts == [] then 0 else TotalLength(texts[..|texts| - 1]) + |texts[|texts| - 1]|
  }

  /** The text of the pages of `a + b` is the text of `a` followed by that of `b`. */
  lemma {:induction false} ConcatPagesAppend(a: seq<string>, b: seq<string>)
    ensures ConcatPages(a + b) == ConcatPages(a) + ConcatPages(b)
    decreases |b|
  {
    if b == [] {
      assert a + b == a;
    } else {
      var b' := b[..|b| - 1];
      assert (a + b)[..|a + b| - 1] == a + b';
      ConcatPagesAppend(a, b');
    }
  }

  /** A document without pages has the empty text; a single page
      contributes exactly its own text. */
  lemma ConcatPagesSmall(page: string)
    ensures ConcatPages([]) == ""
    ensures ConcatPages([page]) == page
  {
    assert [page][..0] == [];
  }

  /** The PDF text is as long as all the page texts together. */
  lemma {:induction false} ConcatPagesLength(pages: seq<string>)
    ensures |ConcatPages(pages)| == TotalLength(pages)
  {
    if pages != [] {
      ConcatPagesLength(pages[..|pages| - 1]);
    }
  }

  /** `extract_text_from_pdf`: starts from the empty text and appends the text
      of each page in document order. */
  method ExtractTextFromPdf(pages: seq<string>) returns (text: string)
    ensures text == ConcatPages(pages)
  {
    text := "";
    var k := 0;
    while k < |pages|
      invariant 0 <= k <= |pages|
      invariant text == ConcatPages(pages[..k])
    {
      assert pages[..k + 1][..k] == pages[..k];
      text := text + pages[k];
      k := k + 1;
    }
    assert pages[..|pages|] == pages;
  }

  // ---------------------------------------------------------------- DOCX

  /** `"\n".join(paragraphs)`: the paragraph texts in order, one newline
      between neighbours. */
  function JoinParagraphs(paragraphs: seq<string>): string {
    if |paragraphs| == 0 then ""
    else if |paragraphs| == 1 then paragraphs[0]
    else JoinParagraphs(paragraphs[..|paragraphs| - 1]) + "\n" + paragraphs[|paragraphs| - 1]
  }

  /** Python's `s.split("\n")`: the pieces between newlines, in order; always
      at least one piece. Used here as the inverse of the DOCX join. */
  function SplitLines(s: string): (pieces: seq<string>)
    ensures |pieces| >= 1
  {
    if s == "" then [""]
    else
      var init := SplitLines(s[..|s| - 1]);
      if s[|s| - 1] == '\n' then init + [""]
      else init[..|init| - 1] + [init[|init| - 1] + [s[|s| - 1]]]
  }

  /** With n >= 1 paragraphs the DOCX text has n - 1 newlines besides the
      paragraph texts themselves. */
  lemma {:induction false} JoinParagraphsLength(paragraphs: seq<string>)
    requires |paragraphs| >= 1
    ensures |JoinParagraphs(paragraphs)| == TotalLength(paragraphs) + |paragraphs| - 1
  {
    if |paragraphs| > 1 {
      JoinParagraphsLength(paragraphs[..|paragraphs| - 1]);
    } else {
      assert paragraphs[..0] == [];
    }
  }

  /** No paragraphs give the empty text; one paragraph gives itself. */
  lemma JoinParagraphsSmall(p: string)
    ensures JoinParagraphs([]) == ""
    ensures JoinParagraphs([p]) == p
  {
  }

  /** A text without newlines is a single piece. */
  lemma {:induction false} SplitLinesNoNewline(s: string)
    requires '\n' !in s
    ensures SplitLines(s) == [s]
  {
    if s != "" {
      var s' := s[..|s| - 1];
      assert forall c :: c in s' ==> c in s;
      SplitLinesNoNewline(s');
      assert s' + [s[|s| - 1]] == s;
    }
  }

  /** Splitting `x + "\n" + p`, where `p` has no newline, splits `x` and adds `p`. */
  lemma {:induction false} SplitLinesAppend(x: string, p: string)
    requires '\n' !in p
    ensures SplitLines(x + "\n" + p) == SplitLines(x) + [p]
    decreases |p|
  {
    var s := x + "\n" + p;
    if p == "" {
      assert s[..|s| - 1] == x;
    } else {
      var p' := p[..|p| - 1];
      assert forall c :: c in p' ==> c in p;
      assert s[..|s| - 1] == x + "\n" + p';
      SplitLinesAppend(x, p');
      assert p' + [p[|p| - 1]] == p;
    }
  }

  /** The DOCX join loses nothing: when no paragraph contains a newline,
      splitting the text at newlines gives back the paragraphs, in order. */
  lemma {:induction false} SplitJoinRoundTrip(paragraphs: seq<string>)
    requires |paragraphs| >= 1
    requires forall i :: 0 <= i < |paragraphs| ==> '\n' !in paragraphs[i]
    ensures SplitLines(JoinParagraphs(paragraphs)) == paragraphs
  {
    var n := |paragraphs|;
    if n == 1 {
      SplitLinesNoNewline(paragraphs[0]);
    } else {
      var init := paragraphs[..n - 1];
      SplitJoinRoundTrip(init);
      SplitLinesAppend(JoinParagraphs(init), paragraphs[n - 1]);
      assert init + [paragraphs[n - 1]] == paragraphs;
    }
  }

  // ---------------------------------------------------------------- dispatch

  /** `extract_text`: the declared type picks the reader, compared exactly
      (so "PDF" is not "pdf"); any other type raises
      `ValueError("Unsupported file type")`, and a reader's exception
      propagates with its message. */
  function ExtractText(readings: Readings, fileType: string): (r: Result<string>)
    ensures fileType != "pdf" && fileType != "docx" ==> r == Failure(UnsupportedFileType)
    ensures fileType == "pdf" ==> (r.Success? <==> readings.pdfPages.Success?)
    ensures fileType == "docx" ==> (r.Success? <==> readings.docxParagraphs.Success?)
  {
    if fileType == "pdf" then
      match readings.pdfPages
      case Success(pages) => Success(ConcatPages(pages))
      case Failure(e) => Failure(e)
    else if fileType == "docx" then
      match readings.docxParagraphs
      case Success(paragraphs) => Success(JoinParagraphs(paragraphs))
      case Failure(e) => Failure(e)
    else
      Failure(UnsupportedFileType)
  }

  /** A PDF dispatch yields the in-order page text, a DOCX dispatch the joined
      paragraphs, and a reader's exception message unchanged. */
  lemma ExtractTextDispatch(readings: Readings, fileType: string)
    ensures fileType == "pdf" && readings.pdfPages.Success? ==>
      ExtractText(readings, fileType) == Success(ConcatPages(readings.pdfPages.value))
    ensures fileType == "docx" && readings.docxParagraphs.Success? ==>
      ExtractText(readings, fileType) == Success(JoinParagraphs(readings.docxParagraphs.value))
    ensures fileType == "pdf" && readings.pdfPages.Failure? ==>
      ExtractText(readings, fileType) == Failure(readings.pdfPages.error)
    ensures fileType == "docx" && readings.docxParagraphs.Failure? ==>
      ExtractText(readings, fileType) == Failure(readings.docxParagraphs.error)
  {
  }

  /** The comparison is case-sensitive: an upper-case "PDF" is unsupported,
      whatever the file holds. */
  lemma UpperCaseTypeUnsupported(readings: Readings)
    ensures ExtractText(readings, "PDF") == Failure(UnsupportedFileType)
    ensures ExtractText(readings, "DOCX") == Failure(UnsupportedFileType)
  {
  }
}
