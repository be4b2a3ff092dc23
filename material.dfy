/**
 * Turning an uploaded PDF or PNG into one user message of text and image
 * parts for the material agent. Rendering, text extraction, OCR and
 * base64 encoding are inputs: a page arrives as its extracted text and the
 * base64 text of its rendering.
 */
module Material {
  import opened Wrappers
  import opened Text

  /** One part of a multi-part message. */
  datatype Part = InputText(text: string) | InputImage(imageUrl: string)

  /** `{"role": ..., "content": [parts]}`. */
  datatype MaterialMessage = MaterialMessage(role: string, content: seq<Part>)

  /** What the PDF library gives for one page. */
  datatype Page = Page(text: string, imageBase64: string)

  function PdfHeader(filename: string, pageCount: nat): Part {
    InputText("I'm providing a slide deck. " + filename + " (" + NatToString(pageCount) + " pages)\n\n")
  }

  function SlideText(slide: nat, text: string): Part {
    InputText("**Slide " + NatToString(slide) + " Text:**\n" + Trim(text) + "\n")
  }

  function SlideImage(page: Page): Part {
    InputImage("data:image/jpeg;base64," + page.imageBase64)
  }

  function SlideVisual(slide: nat): Part {
    InputText("↑ Slide " + NatToString(slide) + " Visual\n---\n")
  }

  /** The parts for the page at `pageNum` (0-based): its text when not blank, its image, its marker. */
  function PageParts(pageNum: nat, page: Page): seq<Part> {
    (if Trim(page.text) != "" then [SlideText(pageNum + 1, page.text)] else [])
      + [SlideImage(page), SlideVisual(pageNum + 1)]
  }

  /** The parts of all pages, page after page. */
  function PagesParts(pages: seq<Page>): seq<Part> {
    if pages == [] then [] else PagesParts(pages[..|pages| - 1]) + PageParts(|pages| - 1, pages[|pages| - 1])
  }

  lemma PagesPartsStep(pages: seq<Page>, k: nat)
    requires k < |pages|
    ensures PagesParts(pages[..k + 1]) == PagesParts(pages[..k]) + PageParts(k, pages[k])
  {
    var p := pages[..k + 1];
    assert p[..|p| - 1] == pages[..k];
    assert p[|p| - 1] == pages[k];
  }

  function PdfParts(filename: string, pages: seq<Page>): seq<Part> {
    [PdfHeader(filename, |pages|)] + PagesParts(pages)
  }

  /** `pdf_hybrid_to_material`: header, then each page's parts, wrapped as one user message. */
  method PdfHybridToMaterial(filename: string, pages: seq<Page>) returns (material: seq<MaterialMessage>)
    ensures material == [MaterialMessage("user", PdfParts(filename, pages))]
  {
    var contentParts := [PdfHeader(filename, |pages|)];
    for pageNum := 0 to |pages|
      invariant contentParts == [PdfHeader(filename, |pages|)] + PagesParts(pages[..pageNum])
    {
      var page := pages[pageNum];
      ghost var before := contentParts;
      var textContent := page.text;
      if Trim(textContent) != "" {
        contentParts := contentParts + [SlideText(pageNum + 1, textContent)];
      }
      ghost var lead := contentParts[|before|..];
      assert before + lead == contentParts;
      contentParts := contentParts + [SlideImage(page)];
      contentParts := contentParts + [SlideVisual(pageNum + 1)];
      AppendThree(before, lead, SlideImage(page), SlideVisual(pageNum + 1));
      assert lead + [SlideImage(page), SlideVisual(pageNum + 1)] == PageParts(pageNum, page);
      PagesPartsStep(pages, pageNum);
      AppendAssoc([PdfHeader(filename, |pages|)], PagesParts(pages[..pageNum]), PageParts(pageNum, page));
      assert contentParts == [PdfHeader(filename, |pages|)] + PagesParts(pages[..pageNum]) + PageParts(pageNum, page);
      assert contentParts == [PdfHeader(filename, |pages|)] + PagesParts(pages[..pageNum + 1]);
    }
    assert pages[..|pages|] == pages;
    material := [MaterialMessage("user", contentParts)];
  }

  lemma AppendThree(before: seq<Part>, lead: seq<Part>, image: Part, marker: Part)
    ensures before + lead + [image] + [marker] == before + (lead + [image, marker])
  {
  }

  lemma AppendAssoc(a: seq<Part>, b: seq<Part>, c: seq<Part>)
    ensures a + (b + c) == (a + b) + c
  {
  }

  /** The number of pages with non-blank text. */
  function TextPages(pages: seq<Page>): nat {
    if pages == [] then 0
    else TextPages(pages[..|pages| - 1]) + (if Trim(pages[|pages| - 1].text) != "" then 1 else 0)
  }

  /** The image URLs among the parts, in order. */
  function Images(parts: seq<Part>): seq<string> {
    if parts == [] then []
    else Images(parts[..|parts| - 1]) + (if parts[|parts| - 1].InputImage? then [parts[|parts| - 1].imageUrl] else [])
  }

  lemma {:induction false} ImagesAppend(a: seq<Part>, b: seq<Part>)
    ensures Images(a + b) == Images(a) + Images(b)
    decreases |b|
  {
    if b == [] {
      assert a + b == a;
    } else {
      var b' := b[..|b| - 1];
      assert (a + b)[..|a + b| - 1] == a + b';
      ImagesAppend(a, b');
    }
  }

  /** Every page gives two parts, plus one for its text when that is not blank. */
  lemma {:induction false} PdfPartsCount(filename: string, pages: seq<Page>)
    ensures |PdfParts(filename, pages)| == 1 + 2 * |pages| + TextPages(pages)
  {
    PagesPartsCount(pages);
  }

  lemma {:induction false} PagesPartsCount(pages: seq<Page>)
    ensures |PagesParts(pages)| == 2 * |pages| + TextPages(pages)
  {
    if pages != [] {
      PagesPartsCount(pages[..|pages| - 1]);
    }
  }

  /** The URLs of the slide images of the given pages, in page order. */
  function SlideUrls(pages: seq<Page>): seq<string> {
    seq(|pages|, i requires 0 <= i < |pages| => "data:image/jpeg;base64," + pages[i].imageBase64)
  }

  /** The message carries exactly one image per page, in page order. */
  lemma {:induction false} PdfImages(filename: string, pages: seq<Page>)
    ensures Images(PdfParts(filename, pages)) == SlideUrls(pages)
  {
    PagesImages(pages);
    ImagesAppend([PdfHeader(filename, |pages|)], PagesParts(pages));
    assert Images([PdfHeader(filename, |pages|)]) == [] by {
      assert [PdfHeader(filename, |pages|)][..0] == [];
    }
  }

  /** A page contributes exactly its slide image. */
  lemma PageImages(pageNum: nat, page: Page)
    ensures Images(PageParts(pageNum, page)) == ["data:image/jpeg;base64," + page.imageBase64]
  {
    var tail := [SlideImage(page), SlideVisual(pageNum + 1)];
    var lead: seq<Part> := if Trim(page.text) != "" then [SlideText(pageNum + 1, page.text)] else [];
    assert PageParts(pageNum, page) == lead + tail;
    NoImages(lead);
    ImagesAppend(lead, tail);
    OneImage(tail);
  }

  lemma {:induction false} PagesImages(pages: seq<Page>)
    ensures Images(PagesParts(pages)) == SlideUrls(pages)
  {
    if pages != [] {
      var n := |pages|;
      var init := pages[..n - 1];
      PagesImages(init);
      ImagesAppend(PagesParts(init), PageParts(n - 1, pages[n - 1]));
      PageImages(n - 1, pages[n - 1]);
      SlideUrlsSnoc(pages);
    }
  }

  lemma SlideUrlsSnoc(pages: seq<Page>)
    requires pages != []
    ensures SlideUrls(pages) == SlideUrls(pages[..|pages| - 1]) + ["data:image/jpeg;base64," + pages[|pages| - 1].imageBase64]
  {
  }

  /** The text of the slide at `slide` (1-based) is the trimmed page text, when that is not blank. */
  lemma PageTextPart(pageNum: nat, page: Page)
    ensures Trim(page.text) != "" <==> PageParts(pageNum, page)[0].InputText? && |PageParts(pageNum, page)| == 3
    ensures Trim(page.text) != "" ==>
      PageParts(pageNum, page)[0].text == "**Slide " + NatToString(pageNum + 1) + " Text:**\n" + Trim(page.text) + "\n"
  {
  }

  /** A failed OCR reads as no text at all. */
  function OcrText(ocr: Option<string>): string {
    if ocr.Some? then ocr.value else ""
  }

  /**
   * `png_to_material`: the header, the OCR text when it is not blank, the
   * image and the marker, wrapped as one user message.
   */
  function PngToMaterial(filename: string, ocr: Option<string>, imageBase64: string): (r: seq<MaterialMessage>)
    ensures |r| == 1 && r[0].role == "user"
    ensures |r[0].content| == (if Trim(OcrText(ocr)) != "" then 4 else 3)
    ensures r[0].content[0] == InputText("I'm providing an image. " + filename + "\n\n")
    ensures Trim(OcrText(ocr)) != "" ==>
      r[0].content[1] == InputText("**Image Text (OCR):**\n" + Trim(OcrText(ocr)) + "\n")
    ensures Images(r[0].content) == ["data:image/png;base64," + imageBase64]
    ensures r[0].content[|r[0].content| - 1] == InputText("↑ Image Visual\n---\n")
  {
    var ocrText := OcrText(ocr);
    var header := [InputText("I'm providing an image. " + filename + "\n\n")];
    var textPart := if Trim(ocrText) != "" then [InputText("**Image Text (OCR):**\n" + Trim(ocrText) + "\n")] else [];
    var tail := [InputImage("data:image/png;base64," + imageBase64), InputText("↑ Image Visual\n---\n")];
    var parts := (header + textPart) + tail;
    PngImages(header + textPart, tail);
    [MaterialMessage("user", parts)]
  }

  /** Only the picture part contributes an image URL. */
  lemma PngImages(lead: seq<Part>, tail: seq<Part>)
    requires forall i | 0 <= i < |lead| :: lead[i].InputText?
    requires |tail| == 2 && tail[0].InputImage? && tail[1].InputText?
    ensures Images(lead + tail) == [tail[0].imageUrl]
  {
    NoImages(lead);
    ImagesAppend(lead, tail);
    OneImage(tail);
  }

  /** The images of a two-part tail whose first part is the picture. */
  lemma OneImage(tail: seq<Part>)
    requires |tail| == 2 && tail[0].InputImage? && tail[1].InputText?
    ensures Images(tail) == [tail[0].imageUrl]
  {
    var first := tail[..1];
    assert first[..0] == [];
    assert Images(first) == [tail[0].imageUrl];
    assert tail[..|tail| - 1] == first;
  }

  lemma {:induction false} NoImages(parts: seq<Part>)
    requires forall i | 0 <= i < |parts| :: parts[i].InputText?
    ensures Images(parts) == []
  {
    if parts != [] {
      NoImages(parts[..|parts| - 1]);
    }
  }
}
