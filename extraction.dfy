/** The CV text extractor (`extract_text_from_pdf`). The PDF library is outside
    the model: a document is given as what the library yields for it. */
module Extraction {
  import opened Text

  /** What the PDF library yields for one page: its text (possibly empty), or an
      exception raised while reading it. */
  datatype PageRead = Extracted(text: string) | ReadFailed

  /** An uploaded document: one the reader cannot open, or its pages in document
      order. */
  datatype Pdf = Unreadable | Readable(pages: seq<PageRead>)

  predicate AllRead(pages: seq<PageRead>)
  {
    forall k :: 0 <= k < |pages| ==> pages[k].Extracted?
  }

  /** What one page adds to the accumulated text: its text and a newline, or
      nothing when its text is empty. */
  function Piece(text: string): string
  {
    if text != "" then text + "\n" else ""
  }

  /** The accumulated text once every page has been read, before the final strip. */
  function Gathered(pages: seq<PageRead>): string
    requires AllRead(pages)
  {
    if pages == [] then ""
    else Gathered(pages[..|pages| - 1]) + Piece(pages[|pages| - 1].text)
  }

  /** The texts of the pages that have some, in document order. */
  function NonEmptyTexts(pages: seq<PageRead>): (texts: seq<string>)
    requires AllRead(pages)
    ensures |texts| <= |pages|
    ensures forall k :: 0 <= k < |texts| ==> texts[k] != ""
  {
    if pages == [] then []
    else
      var last := pages[|pages| - 1].text;
      NonEmptyTexts(pages[..|pages| - 1]) + (if last != "" then [last] else [])
  }

  /** What `extract_text_from_pdf` returns: "" when the reader fails on the document
      or on any page, otherwise the accumulated text stripped. */
  function ExtractedText(doc: Pdf): string
  {
    match doc
    case Unreadable => ""
    case Readable(pages) => if AllRead(pages) then Strip(Gathered(pages)) else ""
  }

  /** The extraction loop: reads the pages in order, appends each non-empty page's
      text and a newline, and gives up with "" as soon as a page cannot be read. */
  method ExtractText(doc: Pdf) returns (text: string)
    ensures text == ExtractedText(doc)
  {
    match doc
    case Unreadable =>
      return "";
    case Readable(pages) =>
      text := "";
      var i := 0;
      while i < |pages|
        invariant 0 <= i <= |pages|
        invariant AllRead(pages[..i])
        invariant text == Gathered(pages[..i])
      {
        match pages[i]
        case ReadFailed =>
          return "";
        case Extracted(pageText) =>
          GatheredStep(pages, i);
          if pageText != "" {
            text := text + pageText + "\n";
          }
        i := i + 1;
      }
      assert pages[..i] == pages;
      text := Strip(text);
  }

  /** One step of the page loop: a page that reads extends the pages read so far,
      and adds exactly its piece to the accumulated text. */
  lemma GatheredStep(pages: seq<PageRead>, i: nat)
    requires i < |pages| && AllRead(pages[..i]) && pages[i].Extracted?
    ensures AllRead(pages[..i + 1])
    ensures Gathered(pages[..i + 1]) == Gathered(pages[..i]) + Piece(pages[i].text)
  {
    assert pages[..i + 1][..i] == pages[..i];
  }

  /** `Join` with one more item at the end. */
  lemma {:induction false} JoinSnoc(items: seq<string>, x: string, sep: string)
    requires items != []
    ensures Join(items + [x], sep) == Join(items, sep) + sep + x
  {
    if |items| == 1 {
      assert items + [x] == [items[0], x];
    } else {
      assert (items + [x])[1..] == items[1..] + [x];
      JoinSnoc(items[1..], x, sep);
    }
  }

  /** The accumulated text is the non-empty page texts, each followed by a newline. */
  lemma {:induction false} GatheredIsTerminatedJoin(pages: seq<PageRead>)
    requires AllRead(pages)
    ensures var texts := NonEmptyTexts(pages);
            Gathered(pages) == if texts == [] then "" else Join(texts, "\n") + "\n"
  {
    if pages != [] {
      var init := pages[..|pages| - 1];
      assert AllRead(init);
      GatheredIsTerminatedJoin(init);
      var last := pages[|pages| - 1].text;
      var texts := NonEmptyTexts(init);
      assert Gathered(pages) == Gathered(init) + Piece(last);
      if last == "" {
        assert NonEmptyTexts(pages) == texts;
      } else if texts == [] {
        assert NonEmptyTexts(pages) == [last];
      } else {
        assert NonEmptyTexts(pages) == texts + [last];
        JoinSnoc(texts, last, "\n");
      }
    }
  }

  /** The extracted text is the non-empty page texts joined by single newlines and
      stripped, when every page can be read. */
  lemma ExtractionJoinsPages(pages: seq<PageRead>)
    requires AllRead(pages)
    ensures ExtractedText(Readable(pages)) == Strip(Join(NonEmptyTexts(pages), "\n"))
  {
    GatheredIsTerminatedJoin(pages);
    var texts := NonEmptyTexts(pages);
    if texts != [] {
      assert Join(texts, "\n") + "\n" == [] + Join(texts, "\n") + "\n";
      StripIgnoresSurroundingSpace([], Join(texts, "\n"), "\n");
    }
  }

  /** Every text in `texts` is whitespace only. */
  predicate AllBlank(texts: seq<string>)
  {
    forall k :: 0 <= k < |texts| ==> AllSpace(texts[k])
  }

  /** Every page's text is whitespace only (an empty text included). */
  predicate BlankPages(pages: seq<PageRead>)
    requires AllRead(pages)
  {
    forall k :: 0 <= k < |pages| ==> AllSpace(pages[k].text)
  }

  /** Joining with newlines gives nothing but whitespace exactly when every item
      is whitespace. */
  lemma {:induction false} JoinNewlinesAllSpace(items: seq<string>)
    ensures AllSpace(Join(items, "\n")) <==> AllBlank(items)
  {
    if |items| > 1 {
      var rest := Join(items[1..], "\n");
      var j := items[0] + "\n" + rest;
      assert j == Join(items, "\n");
      JoinNewlinesAllSpace(items[1..]);
      AllBlankCons(items[0], items[1..]);
      assert [items[0]] + items[1..] == items;
      if AllSpace(j) {
        forall i | 0 <= i < |items[0]| ensures IsSpace(items[0][i]) {
          assert j[i] == items[0][i];
        }
        forall i | 0 <= i < |rest| ensures IsSpace(rest[i]) {
          assert j[|items[0]| + 1 + i] == rest[i];
        }
      }
      if AllSpace(items[0]) && AllSpace(rest) {
        forall i | 0 <= i < |j| ensures IsSpace(j[i]) {
          if i < |items[0]| {
            assert j[i] == items[0][i];
          } else if i > |items[0]| {
            assert j[i] == rest[i - |items[0]| - 1];
          }
        }
      }
    }
  }

  /** A list of texts is blank exactly when its head and its tail are. */
  lemma AllBlankCons(x: string, xs: seq<string>)
    ensures AllBlank([x] + xs) <==> AllSpace(x) && AllBlank(xs)
  {
    var ys := [x] + xs;
    if AllBlank(ys) {
      assert ys[0] == x;
      forall k | 0 <= k < |xs| ensures AllSpace(xs[k]) {
        assert xs[k] == ys[k + 1];
      }
    }
    if AllSpace(x) && AllBlank(xs) {
      forall k | 0 <= k < |ys| ensures AllSpace(ys[k]) {
        if k > 0 {
          assert ys[k] == xs[k - 1];
        }
      }
    }
  }

  /** A list of texts is blank exactly when its front and its last item are. */
  lemma AllBlankSnoc(xs: seq<string>, x: string)
    ensures AllBlank(xs + [x]) <==> AllBlank(xs) && AllSpace(x)
  {
    var ys := xs + [x];
    if AllBlank(ys) {
      forall k | 0 <= k < |xs| ensures AllSpace(xs[k]) {
        assert xs[k] == ys[k];
      }
      assert ys[|xs|] == x;
    }
    if AllBlank(xs) && AllSpace(x) {
      forall k | 0 <= k < |ys| ensures AllSpace(ys[k]) {
        if k < |xs| {
          assert ys[k] == xs[k];
        }
      }
    }
  }

  /** The pages are blank exactly when the earlier pages and the last one are. */
  lemma BlankPagesSnoc(pages: seq<PageRead>)
    requires pages != [] && AllRead(pages)
    ensures AllRead(pages[..|pages| - 1])
    ensures BlankPages(pages) <==>
            BlankPages(pages[..|pages| - 1]) && AllSpace(pages[|pages| - 1].text)
  {
    var init := pages[..|pages| - 1];
    assert forall k :: 0 <= k < |init| ==> init[k] == pages[k];
  }

  /** The non-empty page texts are all whitespace exactly when every page's text is. */
  lemma {:induction false} NonEmptyTextsAllSpace(pages: seq<PageRead>)
    requires AllRead(pages)
    ensures AllBlank(NonEmptyTexts(pages)) <==> BlankPages(pages)
  {
    if pages != [] {
      var init := pages[..|pages| - 1];
      var last := pages[|pages| - 1].text;
      BlankPagesSnoc(pages);
      NonEmptyTextsAllSpace(init);
      var initTexts := NonEmptyTexts(init);
      if last != "" {
        assert NonEmptyTexts(pages) == initTexts + [last];
        AllBlankSnoc(initTexts, last);
      } else {
        assert NonEmptyTexts(pages) == initTexts;
      }
    }
  }

  /** Extraction yields "" exactly when the document or one of its pages cannot be
      read, or every page's text is whitespace (zero pages included). */
  lemma ExtractedTextEmptyIff(doc: Pdf)
    ensures ExtractedText(doc) == "" <==>
            doc.Unreadable? || !AllRead(doc.pages) ||
            BlankPages(doc.pages)
  {
    if doc.Readable? && AllRead(doc.pages) {
      var texts := NonEmptyTexts(doc.pages);
      ExtractionJoinsPages(doc.pages);
      StripEmptyIffAllSpace(Join(texts, "\n"));
      JoinNewlinesAllSpace(texts);
      NonEmptyTextsAllSpace(doc.pages);
    }
  }
}
