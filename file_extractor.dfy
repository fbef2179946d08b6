/**
 * Text extraction from chat attachments (`src/lib/fileExtractor.ts`):
 * which strategy a file gets, the four strategies, and the dispatch.
 *
 * The libraries the strategies call (the OCR engine, the Word-document
 * reader, the PDF reader and the UTF-8 decoder) are not modelled; an
 * `Engines` value stands for whatever they return on a given input.
 */
module FileExtractor {
  import opened Results
  import opened Text

  newtype byte = x: int | 0 <= x < 256

  /** A browser `File`: its name, declared MIME type, size and bytes. */
  datatype Upload = Upload(name: string, fileType: string, size: nat, bytes: seq<byte>)

  /**
   * The foreign calls: `recognize` (OCR in Spanish on a base64 payload,
   * raw recognised text), `extractRawText` (the raw text of a Word
   * document), `pageItems` (for each page of a PDF, from the first to the
   * last, the `str` of each of its text items) and `decodeUtf8` (UTF-8
   * decoding that replaces malformed sequences and never fails).
   */
  datatype Engines = Engines(
    recognize: string -> Result<string>,
    extractRawText: seq<byte> -> Result<string>,
    pageItems: seq<byte> -> Result<seq<seq<string>>>,
    decodeUtf8: seq<byte> -> string)

  const OcrFailed := "No se pudo extraer texto de la imagen"
  const DocxFailed := "No se pudo extraer texto del documento Word"
  const PdfFailed := "No se pudo extraer texto del PDF"
  const MissingPayload := "Se requiere base64Data para imágenes"

  /** The extraction strategies, one per supported format family. */
  datatype Strategy = Ocr | Docx | Pdf | PlainText | NoStrategy

  // ---------------------------------------------------------------- classification

  /** `canExtractText`: some strategy applies to a file of this type and name. */
  predicate CanExtractText(fileType: string, fileName: string) {
    var t := ToLower(fileType);
    var n := ToLower(fileName);
    StartsWith(t, "image/")
    || Includes(t, "wordprocessingml")
    || EndsWith(n, ".docx")
    || t == "application/pdf"
    || EndsWith(n, ".pdf")
    || StartsWith(t, "text/")
    || EndsWith(n, ".txt")
  }

  /**
   * The branch `extractTextFromFile` takes: the first test that holds, in
   * the order image, Word, PDF, text, on the lower-cased type and name.
   */
  function Route(fileType: string, fileName: string): (s: Strategy)
    ensures s != NoStrategy <==> CanExtractText(fileType, fileName)
    ensures StartsWith(ToLower(fileType), "image/") ==> s == Ocr
    ensures s == Pdf ==> !Includes(ToLower(fileType), "wordprocessingml") && !EndsWith(ToLower(fileName), ".docx")
    ensures s == PlainText ==> ToLower(fileType) != "application/pdf" && !EndsWith(ToLower(fileName), ".pdf")
    ensures s == PlainText ==> !Includes(ToLower(fileType), "wordprocessingml") && !EndsWith(ToLower(fileName), ".docx")
    ensures s == Ocr ==> StartsWith(ToLower(fileType), "image/")
    ensures s == Docx ==> Includes(ToLower(fileType), "wordprocessingml") || EndsWith(ToLower(fileName), ".docx")
    ensures s == Pdf ==> ToLower(fileType) == "application/pdf" || EndsWith(ToLower(fileName), ".pdf")
    ensures s == PlainText ==> StartsWith(ToLower(fileType), "text/") || EndsWith(ToLower(fileName), ".txt")
  {
    var t := ToLower(fileType);
    var n := ToLower(fileName);
    if StartsWith(t, "image/") then Ocr
    else if Includes(t, "wordprocessingml") || EndsWith(n, ".docx") then Docx
    else if t == "application/pdf" || EndsWith(n, ".pdf") then Pdf
    else if StartsWith(t, "text/") || EndsWith(n, ".txt") then PlainText
    else NoStrategy
  }

  /** Type and name are compared case-insensitively: lower-casing them first changes nothing. */
  lemma RouteIgnoresCase(fileType: string, fileName: string)
    ensures Route(ToLower(fileType), ToLower(fileName)) == Route(fileType, fileName)
    ensures CanExtractText(ToLower(fileType), ToLower(fileName)) == CanExtractText(fileType, fileName)
  {
    ToLowerIdempotent(fileType);
    ToLowerIdempotent(fileName);
  }

  /** An image type wins over any extension: an `image/png` named `a.pdf` goes to OCR. */
  lemma ImageTypeWinsOverPdfName()
    ensures Route("image/png", "a.pdf") == Ocr
  {
    assert ToLower("image/png")[..6] == "image/";
  }

  // ---------------------------------------------------------------- strategies

  /** `extractTextFromImage`: the trimmed OCR text, or the OCR error. */
  function ExtractTextFromImage(engines: Engines, base64Data: string): (r: Result<string>)
    ensures r.Ok? <==> engines.recognize(base64Data).Ok?
    ensures r.Ok? ==> r.value == Trim(engines.recognize(base64Data).value) && IsTrimmed(r.value)
    ensures r.Err? ==> r.message == OcrFailed
  {
    match engines.recognize(base64Data)
    case Ok(text) => Ok(Trim(text))
    case Err(_) => Err(OcrFailed)
  }

  /** `extractTextFromDocx`: the trimmed raw text of the document, or the Word error. */
  function ExtractTextFromDocx(engines: Engines, bytes: seq<byte>): (r: Result<string>)
    ensures r.Ok? <==> engines.extractRawText(bytes).Ok?
    ensures r.Ok? ==> r.value == Trim(engines.extractRawText(bytes).value) && IsTrimmed(r.value)
    ensures r.Err? ==> r.message == DocxFailed
  {
    match engines.extractRawText(bytes)
    case Ok(text) => Ok(Trim(text))
    case Err(_) => Err(DocxFailed)
  }

  /** `extractTextFromTxt`: the decoded text, trimmed; decoding never fails. */
  function ExtractTextFromTxt(engines: Engines, bytes: seq<byte>): (r: string)
    ensures r == Trim(engines.decodeUtf8(bytes))
    ensures IsTrimmed(r) && Trim(r) == r
  {
    var text := Trim(engines.decodeUtf8(bytes));
    TrimOfTrimmed(text);
    text
  }

  /**
   * The text the PDF loop accumulates over `pages`: for each page in order,
   * its items joined by a space, then a newline.
   */
  function PagesText(pages: seq<seq<string>>): string {
    ConcatMap(PageLine, pages)
  }

  /** One page's line: its items joined by a space, then a newline. */
  function PageLine(page: seq<string>): string {
    Join(page, " ") + "\n"
  }

  /** Pages are concatenated in order: the text of `a + b` is the text of `a`, then that of `b`. */
  lemma PagesTextAppend(a: seq<seq<string>>, b: seq<seq<string>>)
    ensures PagesText(a + b) == PagesText(a) + PagesText(b)
  {
    ConcatMapAppend(PageLine, a, b);
  }

  /** One page contributes its items joined by spaces and a newline. */
  lemma PagesTextSingle(page: seq<string>)
    ensures PagesText([page]) == Join(page, " ") + "\n"
  {
    assert [page][..0] == [];
    assert ConcatMap(PageLine, [page]) == ConcatMap(PageLine, [page][..0]) + PageLine([page][0]);
  }

  /** What `extractTextFromPdf` resolves to: the trimmed page text, or the PDF error. */
  function PdfOutcome(engines: Engines, bytes: seq<byte>): (r: Result<string>)
    ensures r.Ok? <==> engines.pageItems(bytes).Ok?
    ensures r.Ok? ==> IsTrimmed(r.value)
    ensures r.Err? ==> r.message == PdfFailed
  {
    match engines.pageItems(bytes)
    case Ok(pages) => Ok(Trim(PagesText(pages)))
    case Err(_) => Err(PdfFailed)
  }

  /** `extractTextFromPdf`: walks the pages 1..numPages, appending each page's text and a newline. */
  method ExtractTextFromPdf(engines: Engines, bytes: seq<byte>) returns (r: Result<string>)
    ensures r == PdfOutcome(engines, bytes)
    ensures r.Ok? ==> r.value == Trim(PagesText(engines.pageItems(bytes).value))
  {
    var document := engines.pageItems(bytes);
    if document.Err? {
      return Err(PdfFailed);
    }
    var pages := document.value;
    var fullText := "";
    for i := 1 to |pages| + 1
      invariant fullText == PagesText(pages[..i - 1])
    {
      var pageText := Join(pages[i - 1], " ");
      ConcatMapStep(PageLine, pages, i - 1, "");
      assert "" + fullText == fullText;
      fullText := fullText + (pageText + "\n");
    }
    assert pages[..|pages|] == pages;
    return Ok(Trim(fullText));
  }

  // ---------------------------------------------------------------- dispatch

  /** `!base64Data`: the payload is absent or the empty string. */
  predicate NoPayload(base64Data: Option<string>) {
    base64Data.None? || base64Data.value == ""
  }

  /**
   * `extractTextFromFile`: runs the strategy `Route` picks; a file no
   * strategy applies to yields the empty text; strategy errors are passed on.
   */
  function ExtractTextFromFile(engines: Engines, file: Upload, base64Data: Option<string>): (r: Result<string>)
    ensures !CanExtractText(file.fileType, file.name) ==> r == Ok("")
    ensures r.Ok? ==> IsTrimmed(r.value)
    ensures Route(file.fileType, file.name) == Ocr && NoPayload(base64Data) ==> r == Err(MissingPayload)
    ensures Route(file.fileType, file.name) == Ocr && !NoPayload(base64Data) ==>
              r == ExtractTextFromImage(engines, base64Data.value)
    ensures Route(file.fileType, file.name) == Docx ==> r == ExtractTextFromDocx(engines, file.bytes)
    ensures Route(file.fileType, file.name) == Pdf ==> r == PdfOutcome(engines, file.bytes)
    ensures Route(file.fileType, file.name) == PlainText ==> r == Ok(ExtractTextFromTxt(engines, file.bytes))
    ensures r.Err? ==> r.message in {MissingPayload, OcrFailed, DocxFailed, PdfFailed}
  {
    match Route(file.fileType, file.name)
    case Ocr =>
      if NoPayload(base64Data) then Err(MissingPayload)
      else ExtractTextFromImage(engines, base64Data.value)
    case Docx => ExtractTextFromDocx(engines, file.bytes)
    case Pdf => PdfOutcome(engines, file.bytes)
    case PlainText => Ok(ExtractTextFromTxt(engines, file.bytes))
    case NoStrategy => Ok("")
  }
}
