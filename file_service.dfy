/**
 * Turning an uploaded file or a link into text.  The file's branch is chosen
 * by its lower-cased extension; the PDF, Word, OCR and text decoders and the
 * web fetcher are foreign and are passed in as functions.  A decoder that
 * raises is `Failure(message)`.
 */
module FileService {
  import opened Wrappers
  import opened Text

  type Bytes = seq<bv8>

  // ---------------------------------------------------------------------------
  // Dispatch

  datatype FileKind = Pdf | Word | Image | PlainText

  const ImageExtensions := [".png", ".jpg", ".jpeg", ".webp"]

  predicate IsImageName(name: string) {
    exists i :: 0 <= i < |ImageExtensions| && EndsWith(name, ImageExtensions[i])
  }

  /** The branch of `read_file_content` a file name selects; the tests run in this order on `filename.lower()`. */
  function KindOf(filename: string): (k: FileKind)
    ensures k == Pdf <==> EndsWith(Lower(filename), ".pdf")
    ensures k == Word <==> !EndsWith(Lower(filename), ".pdf") && EndsWith(Lower(filename), ".docx")
    ensures k == Image <==>
      && !EndsWith(Lower(filename), ".pdf") && !EndsWith(Lower(filename), ".docx")
      && IsImageName(Lower(filename))
    ensures k == PlainText <==>
      && !EndsWith(Lower(filename), ".pdf") && !EndsWith(Lower(filename), ".docx")
      && !IsImageName(Lower(filename))
  {
    var name := Lower(filename);
    if EndsWith(name, ".pdf") then Pdf
    else if EndsWith(name, ".docx") then Word
    else if IsImageName(name) then Image
    else PlainText
  }

  /** An old Word ".doc" file (any letter case) is not the Word branch: it is read as plain text. */
  lemma DocIsPlainText(filename: string)
    requires EndsWith(Lower(filename), ".doc")
    ensures KindOf(filename) == PlainText
  {
    var name := Lower(filename);
    // every other extension ends in a different letter than "c"
    assert name[|name| - 1] == 'c';
    forall i | 0 <= i < |ImageExtensions|
      ensures !EndsWith(name, ImageExtensions[i])
    {
      var ext := ImageExtensions[i];
      assert ext[|ext| - 1] != 'c';
    }
  }

  /** The letter case of the name does not matter: "REPORT.PDF" goes where "report.pdf" goes. */
  lemma KindIgnoresCase(a: string, b: string)
    requires Lower(a) == Lower(b)
    ensures KindOf(a) == KindOf(b)
  {
  }

  // ---------------------------------------------------------------------------
  // Text of the page and paragraph branches

  /** Each text followed by "\n", in order: what `content += text + "\n"` over a list accumulates. */
  function Lines(texts: seq<string>): string
  {
    if texts == [] then "" else Lines(texts[..|texts| - 1]) + texts[|texts| - 1] + "\n"
  }

  lemma LinesSnoc(texts: seq<string>, text: string)
    ensures Lines(texts + [text]) == Lines(texts) + text + "\n"
  {
    assert (texts + [text])[..|texts|] == texts;
  }

  /** The lines are the texts joined by "\n", with one more "\n" at the end. */
  lemma {:induction false} LinesJoin(texts: seq<string>)
    ensures Lines(texts) == if texts == [] then "" else Join(texts, "\n") + "\n"
  {
    if |texts| > 1 {
      var init := texts[..|texts| - 1];
      LinesJoin(init);
      JoinSnoc(init, texts[|texts| - 1], "\n");
      assert init + [texts[|texts| - 1]] == texts;
    }
  }

  /** The extracted texts of the pages that have any: pages with no text (`None` or "") are skipped. */
  function PageTexts(pages: seq<Option<string>>): (r: seq<string>)
    ensures |r| <= |pages|
    ensures forall i :: 0 <= i < |r| ==> r[i] != ""
    ensures (forall i :: 0 <= i < |pages| ==> pages[i].Some? && pages[i].value != "") ==>
      |r| == |pages| && forall i :: 0 <= i < |r| ==> r[i] == pages[i].value
  {
    if pages == [] then []
    else
      var last := pages[|pages| - 1];
      PageTexts(pages[..|pages| - 1]) + (if last.Some? && last.value != "" then [last.value] else [])
  }

  /** The positions of the pages that have text, in page order. */
  ghost function TextPositions(pages: seq<Option<string>>): (pos: seq<int>)
    ensures forall k :: 0 <= k < |pos| ==> 0 <= pos[k] < |pages|
  {
    if pages == [] then []
    else
      var n := |pages| - 1;
      TextPositions(pages[..n]) + (if pages[n].Some? && pages[n].value != "" then [n] else [])
  }

  /** One page more: the position and text lists grow together, or neither grows. */
  lemma MatchSnoc(pages: seq<Option<string>>, pos0: seq<int>, r0: seq<string>)
    requires pages != [] && |pos0| == |r0|
    requires forall k :: 0 <= k < |pos0| ==> 0 <= pos0[k] < |pages| && pages[pos0[k]] == Some(r0[k])
    ensures var n := |pages| - 1; var kept := pages[n].Some? && pages[n].value != "";
      var pos := pos0 + (if kept then [n] else []); var r := r0 + (if kept then [pages[n].value] else []);
      |pos| == |r| && forall k :: 0 <= k < |pos| ==> 0 <= pos[k] < |pages| && pages[pos[k]] == Some(r[k])
  {
  }

  /** The k-th kept text is the text of the page at the k-th position. */
  lemma {:induction false} PositionsMatch(pages: seq<Option<string>>)
    ensures |TextPositions(pages)| == |PageTexts(pages)|
    ensures forall k :: 0 <= k < |TextPositions(pages)| ==>
      pages[TextPositions(pages)[k]] == Some(PageTexts(pages)[k])
  {
    if pages != [] {
      var n := |pages| - 1;
      var init := pages[..n];
      PositionsMatch(init);
      var pos0, r0 := TextPositions(init), PageTexts(init);
      assert forall k :: 0 <= k < |pos0| ==> pages[pos0[k]] == init[pos0[k]];
      MatchSnoc(pages, pos0, r0);
    }
  }

  /** The positions increase strictly. */
  lemma {:induction false} PositionsIncrease(pages: seq<Option<string>>)
    ensures forall k, l :: 0 <= k < l < |TextPositions(pages)| ==> TextPositions(pages)[k] < TextPositions(pages)[l]
  {
    if pages != [] {
      var n := |pages| - 1;
      PositionsIncrease(pages[..n]);
      var pos0 := TextPositions(pages[..n]);
      var pos := pos0 + (if pages[n].Some? && pages[n].value != "" then [n] else []);
      assert TextPositions(pages) == pos;
      forall k, l | 0 <= k < l < |pos|
        ensures pos[k] < pos[l]
      {
        assert pos[k] == pos0[k];
      }
    }
  }

  /** Every page with text has its position listed. */
  lemma {:induction false} PositionsComplete(pages: seq<Option<string>>)
    ensures forall i :: 0 <= i < |pages| && pages[i].Some? && pages[i].value != "" ==> i in TextPositions(pages)
  {
    if pages != [] {
      var n := |pages| - 1;
      var init := pages[..n];
      PositionsComplete(init);
      var pos0 := TextPositions(init);
      var kept := pages[n].Some? && pages[n].value != "";
      var pos := pos0 + (if kept then [n] else []);
      assert TextPositions(pages) == pos;
      forall i | 0 <= i < |pages| && pages[i].Some? && pages[i].value != ""
        ensures i in pos
      {
        if i < n {
          assert init[i] == pages[i];
          assert i in pos0;
        } else {
          assert pos[|pos0|] == n;
        }
      }
    }
  }

  /**
   * The kept texts are the pages' own texts in page order: the k-th kept text
   * is the text of the k-th page that has one, and every page with text is kept.
   */
  lemma PageTextsInOrder(pages: seq<Option<string>>)
    ensures var pos := TextPositions(pages); var r := PageTexts(pages);
      && |pos| == |r|
      && (forall k :: 0 <= k < |pos| ==> 0 <= pos[k] < |pages| && pages[pos[k]] == Some(r[k]))
      && (forall k, l :: 0 <= k < l < |pos| ==> pos[k] < pos[l])
      && (forall i :: 0 <= i < |pages| && pages[i].Some? && pages[i].value != "" ==> i in pos)
  {
    PositionsMatch(pages);
    PositionsIncrease(pages);
    PositionsComplete(pages);
  }

  /** The kept texts are exactly the non-empty texts some page has. */
  lemma PageTextsMembers(pages: seq<Option<string>>)
    ensures forall t :: t in PageTexts(pages) <==> t != "" && exists i :: 0 <= i < |pages| && pages[i] == Some(t)
  {
    var pos, r := TextPositions(pages), PageTexts(pages);
    PageTextsInOrder(pages);
    forall t | t in r
      ensures exists i :: 0 <= i < |pages| && pages[i] == Some(t)
    {
      var k :| 0 <= k < |r| && r[k] == t;
      assert pages[pos[k]] == Some(t);
    }
    forall t | t != "" && exists i :: 0 <= i < |pages| && pages[i] == Some(t)
      ensures t in r
    {
      var i :| 0 <= i < |pages| && pages[i] == Some(t);
      var k :| 0 <= k < |pos| && pos[k] == i;
      assert pages[pos[k]] == Some(r[k]);
    }
  }

  /** The PDF branch's loop over the pages. */
  method PdfText(pages: seq<Option<string>>) returns (content: string)
    ensures content == Lines(PageTexts(pages))
  {
    content := "";
    var i := 0;
    while i < |pages|
      invariant 0 <= i <= |pages|
      invariant content == Lines(PageTexts(pages[..i]))
    {
      assert pages[..i + 1][..i] == pages[..i];
      var text := pages[i];
      assert PageTexts(pages[..i + 1]) ==
        PageTexts(pages[..i]) + (if text.Some? && text.value != "" then [text.value] else []);
      if text.Some? && text.value != "" {
        LinesSnoc(PageTexts(pages[..i]), text.value);
        content := content + text.value + "\n";
      } else {
        assert PageTexts(pages[..i + 1]) == PageTexts(pages[..i]) + [];
        assert PageTexts(pages[..i]) + [] == PageTexts(pages[..i]);
      }
      i := i + 1;
    }
    assert pages[..|pages|] == pages;
  }

  /** The Word branch's loop over the paragraphs: every paragraph, empty or not. */
  method WordText(paragraphs: seq<string>) returns (content: string)
    ensures content == Lines(paragraphs)
  {
    content := "";
    var i := 0;
    while i < |paragraphs|
      invariant 0 <= i <= |paragraphs|
      invariant content == Lines(paragraphs[..i])
    {
      assert paragraphs[..i + 1][..i] == paragraphs[..i];
      LinesSnoc(paragraphs[..i], paragraphs[i]);
      content := content + paragraphs[i] + "\n";
      i := i + 1;
    }
    assert paragraphs[..|paragraphs|] == paragraphs;
  }

  // ---------------------------------------------------------------------------
  // The image branch

  const NothingRecognised := "【未能识别出文字，图片可能太模糊或没有文字】"
  const OcrFailed := "【图片内容识别系统出错】"
  const OcrMissing := "【系统未安装 RapidOCR 库，无法解析图片，请检查 pip 安装】"

  /** The image branch: the recognised texts one per line, or one of three fixed messages. */
  function ImageText(ocrAvailable: bool, recognised: Result<seq<string>, string>): (r: string)
    ensures !ocrAvailable ==> r == OcrMissing
    ensures ocrAvailable && recognised.Failure? ==> r == OcrFailed
    ensures ocrAvailable && recognised == Success([]) ==> r == NothingRecognised
    ensures ocrAvailable && recognised.Success? && recognised.value != [] ==> r == Join(recognised.value, "\n")
  {
    if !ocrAvailable then OcrMissing
    else match recognised
      case Failure(_) => OcrFailed
      case Success(texts) => if texts == [] then NothingRecognised else Join(texts, "\n")
  }

  // ---------------------------------------------------------------------------
  // read_file_content

  /** The foreign readers `read_file_content` relies on. */
  datatype Readers = Readers(
    pdfPages: Bytes -> Result<seq<Option<string>>, string>,   // pdfplumber: each page's extract_text()
    paragraphs: Bytes -> Result<seq<string>, string>,         // python-docx: each paragraph's text
    ocrAvailable: bool,                                       // whether RapidOCR imported
    ocr: Bytes -> Result<seq<string>, string>,                // RapidOCR: the recognised texts
    utf8: Bytes -> Option<string>,                            // bytes.decode("utf-8"), None when it raises
    gbk: Bytes -> string)                                     // bytes.decode("gbk", errors="ignore")

  /** The text `read_file_content` returns for a file, or None when its reader raised. */
  function FileContent(filename: string, data: Bytes, readers: Readers): Option<string> {
    match KindOf(filename)
    case Pdf =>
      (match readers.pdfPages(data)
       case Failure(_) => None
       case Success(pages) => Some(Lines(PageTexts(pages))))
    case Word =>
      (match readers.paragraphs(data)
       case Failure(_) => None
       case Success(ps) => Some(Lines(ps)))
    case Image => Some(ImageText(readers.ocrAvailable, readers.ocr(data)))
    case PlainText => Some(readers.utf8(data).GetOr(readers.gbk(data)))
  }

  /** `read_file_content(file)`: the text of the file, or None when its reader raised. */
  method ReadFileContent(filename: string, data: Bytes, readers: Readers) returns (content: Option<string>)
    ensures content == FileContent(filename, data, readers)
    ensures KindOf(filename) == Pdf ==>
      content == (match readers.pdfPages(data)
                  case Failure(_) => None
                  case Success(pages) => Some(Lines(PageTexts(pages))))
    ensures KindOf(filename) == Word ==>
      content == (match readers.paragraphs(data)
                  case Failure(_) => None
                  case Success(ps) => Some(Lines(ps)))
    ensures KindOf(filename) == Image ==> content == Some(ImageText(readers.ocrAvailable, readers.ocr(data)))
    ensures KindOf(filename) == PlainText ==> content == Some(readers.utf8(data).GetOr(readers.gbk(data)))
    ensures content == None <==>
      || (KindOf(filename) == Pdf && readers.pdfPages(data).Failure?)
      || (KindOf(filename) == Word && readers.paragraphs(data).Failure?)
  {
    match KindOf(filename) {
      case Pdf =>
        match readers.pdfPages(data) {
          case Failure(_) =>
            content := None;
          case Success(pages) =>
            var text := PdfText(pages);
            content := Some(text);
        }
      case Word =>
        match readers.paragraphs(data) {
          case Failure(_) =>
            content := None;
          case Success(ps) =>
            var text := WordText(ps);
            content := Some(text);
        }
      case Image =>
        content := Some(ImageText(readers.ocrAvailable, readers.ocr(data)));
      case PlainText =>
        content := Some(readers.utf8(data).GetOr(readers.gbk(data)));
    }
  }

  // ---------------------------------------------------------------------------
  // read_url_content

  function XiaohongshuAdvice(url: string): string {
    "检测到小红书链接：" + url + "\n由于小红书反爬严格，建议您直接【截图】并使用图片上传功能，或直接复制文字内容粘贴。"
  }

  function FetchFailed(url: string): string {
    "无法抓取该网页，建议复制内容上传。链接: " + url
  }

  /**
   * `read_url_content(url)` against a fetcher that returns the page's visible
   * text (scripts, styles, navigation and footers removed) or raises.
   */
  function ReadUrlContent(url: string, fetch: string -> Result<string, string>): (r: string)
    ensures Contains(url, "xiaohongshu") ==> r == XiaohongshuAdvice(url) && Contains(r, url)
    ensures !Contains(url, "xiaohongshu") && fetch(url).Failure? ==> r == FetchFailed(url) && Contains(r, url)
    ensures !Contains(url, "xiaohongshu") && fetch(url).Success? ==> r == Strip(Python, fetch(url).value)
  {
    if Contains(url, "xiaohongshu") then
      ContainsPart("检测到小红书链接：", url,
                   "\n由于小红书反爬严格，建议您直接【截图】并使用图片上传功能，或直接复制文字内容粘贴。");
      XiaohongshuAdvice(url)
    else match fetch(url)
      case Failure(_) =>
        ContainsPart("无法抓取该网页，建议复制内容上传。链接: ", url, "");
        assert FetchFailed(url) == "无法抓取该网页，建议复制内容上传。链接: " + url + "";
        FetchFailed(url)
      case Success(text) => Strip(Python, text)
  }

  /** A xiaohongshu link is answered without the fetcher: any two fetchers give the same text. */
  lemma XiaohongshuNotFetched(url: string, f: string -> Result<string, string>, g: string -> Result<string, string>)
    requires Contains(url, "xiaohongshu")
    ensures ReadUrlContent(url, f) == ReadUrlContent(url, g)
  {
  }
}
