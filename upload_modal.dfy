/**
 * The upload dialog: a file upload (chosen or dropped) and a text or link
 * submission, each of which sets `isLoading` around its request and reports
 * the outcome with an `alert`.
 *
 * As on the home page, a handler is split at its `await`: `Start…` issues the
 * request (recorded in `requests`), `Finish…` handles its outcome.  `events`
 * records the `alert` calls and the `onUploadSuccess` and `onClose` callbacks,
 * in order.
 */
module UploadModal {
  import opened Wrappers
  import opened Text
  import opened Json
  import Api

  datatype Request =
    | FileUpload(file: string)                 // POST /api/upload, multipart field "file"
    | TextUpload(text: string, kind: string)   // POST /api/upload/text, JSON {text, type}

  datatype Event = Alert(message: string) | UploadSucceeded | Closed

  /** How the awaited `fetch` and `res.json()` end: one of them rejects, or the body is decoded. */
  datatype Outcome = Rejected | Body(data: Json)

  // ---------------------------------------------------------------------------
  // Pure rules

  /** `textInput.trim().startsWith("http")`. */
  predicate IsLink(text: string) {
    StartsWith(Strip(JavaScript, text), "http")
  }

  /** The `type` field sent with a text. */
  function KindFor(text: string): (r: string)
    ensures r == "link" <==> IsLink(text)
    ensures r == "text" <==> !IsLink(text)
  {
    if IsLink(text) then "link" else "text"
  }

  /**
   * The back end crawls a submitted text exactly when the dialog classed it
   * as a link: a text whose untrimmed form starts with "http" is a link here too.
   */
  lemma CrawledIffLink(text: string)
    ensures Api.ShouldCrawl(text, KindFor(text)) <==> IsLink(text)
  {
    if StartsWith(text, "http") {
      StripKeepsPrefix(JavaScript, text, "http");
    }
  }

  /** `data.status === "success"`. */
  predicate Succeeded(data: Json) {
    data.Obj? && "status" in data.fields && data.fields["status"] == Str("success")
  }

  /** `String(v)` in JavaScript, for a decoded JSON value. */
  function JsString(v: Json): string
    decreases v
  {
    match v
    case Null => "null"
    case Bool(b) => if b then "true" else "false"
    case Num(n) => Decimal(n)
    case Str(s) => s
    // an array's elements are joined by commas, null elements as ""
    case Arr(items) =>
      Join(seq(|items|, i requires 0 <= i < |items| => if items[i].Null? then "" else JsString(items[i])), ",")
    case Obj(_) => "[object Object]"
  }

  /** `"" + data.message`: the message's text, or "undefined" when there is none. */
  function MessageText(data: Json): (r: string)
    ensures data.Obj? && "message" in data.fields && data.fields["message"].Str? ==> r == data.fields["message"].s
    ensures !(data.Obj? && "message" in data.fields) ==> r == "undefined"
  {
    if data.Obj? && "message" in data.fields then JsString(data.fields["message"]) else "undefined"
  }

  /** The back end's success body is recognised. */
  lemma BackendSuccessRecognised(ids: seq<int>)
    ensures Succeeded(Api.UploadBody(ids))
  {
  }

  /** The back end's refusal of an empty file is not, and its message is the one shown. */
  lemma BackendRefusalShown()
    ensures !Succeeded(Api.RefusalBody) && FileFailed + MessageText(Api.RefusalBody) == "上传失败: 解析失败或内容为空"
  {
  }

  /** The text submit button is disabled while loading or for whitespace-only text. */
  predicate SubmitDisabled(isLoading: bool, textInput: string) {
    isLoading || Strip(JavaScript, textInput) == ""
  }

  const FileUploaded := "文件上传成功！AI正在解析..."
  const FileFailed := "上传失败: "
  const FileError := "上传出错，请检查后端连接"
  const LinkSaved := "链接抓取成功！"
  const TextSaved := "文本保存成功！"
  const TextFailed := "处理失败: "
  const TextError := "提交出错，请检查后端连接"

  /**
   * The events after a request, given its outcome: on success the alert, the
   * success callback and the close callback, in that order; otherwise one alert.
   * A `null` body is an error too, since reading `data.status` throws.
   */
  function Reaction(outcome: Outcome, success: string, failure: string, error: string): (r: seq<Event>)
    ensures outcome.Body? && Succeeded(outcome.data) ==> r == [Alert(success), UploadSucceeded, Closed]
    ensures outcome.Body? && !outcome.data.Null? && !Succeeded(outcome.data) ==>
      r == [Alert(failure + MessageText(outcome.data))]
    ensures outcome.Rejected? || outcome == Body(Null) ==> r == [Alert(error)]
    ensures UploadSucceeded in r <==> outcome.Body? && Succeeded(outcome.data)
  {
    match outcome
    case Rejected => [Alert(error)]
    case Body(Null) => [Alert(error)]
    case Body(data) =>
      if Succeeded(data) then [Alert(success), UploadSucceeded, Closed]
      else [Alert(failure + MessageText(data))]
  }

  // ---------------------------------------------------------------------------
  // The dialog's state

  class Dialog {
    var textInput: string
    var isDragging: bool
    var isLoading: bool
    var requests: seq<Request>
    var events: seq<Event>

    constructor ()
      ensures textInput == "" && !isDragging && !isLoading && requests == [] && events == []
    {
      textInput := "";
      isDragging := false;
      isLoading := false;
      requests := [];
      events := [];
    }

    /** Typing in the text area. */
    method Edit(text: string)
      modifies this
      ensures textInput == text
      ensures isDragging == old(isDragging) && isLoading == old(isLoading)
      ensures requests == old(requests) && events == old(events)
    {
      textInput := text;
    }

    /** `handleFileUpload` up to its `await`: no file, no change. */
    method StartFileUpload(file: Option<string>)
      modifies this
      ensures file.None? ==> isLoading == old(isLoading) && requests == old(requests)
      ensures file.Some? ==> isLoading && requests == old(requests) + [FileUpload(file.value)]
      ensures textInput == old(textInput) && isDragging == old(isDragging) && events == old(events)
    {
      if file.None? {
        return;
      }
      isLoading := true;
      requests := requests + [FileUpload(file.value)];
    }

    /** The rest of `handleFileUpload`; the text is left alone and loading ends on every path. */
    method FinishFileUpload(outcome: Outcome)
      modifies this
      ensures !isLoading
      ensures events == old(events) + Reaction(outcome, FileUploaded, FileFailed, FileError)
      ensures textInput == old(textInput) && isDragging == old(isDragging) && requests == old(requests)
    {
      match outcome {
        case Rejected =>
          events := events + [Alert(FileError)];
        case Body(data) =>
          if data.Null? {
            events := events + [Alert(FileError)];
          } else if Succeeded(data) {
            events := events + [Alert(FileUploaded)];
            events := events + [UploadSucceeded];
            events := events + [Closed];
          } else {
            events := events + [Alert(FileFailed + MessageText(data))];
          }
      }
      isLoading := false;
    }

    /**
     * `handleTextSubmit` up to its `await`: whitespace-only text changes
     * nothing; otherwise the untrimmed text is sent, typed as a link or text.
     */
    method StartTextSubmit() returns (started: bool, isLink: bool)
      modifies this
      ensures started <==> Strip(JavaScript, old(textInput)) != ""
      ensures !started ==> isLoading == old(isLoading) && requests == old(requests)
      ensures started ==>
        && isLoading && isLink == IsLink(textInput)
        && requests == old(requests) + [TextUpload(textInput, KindFor(textInput))]
      ensures textInput == old(textInput) && isDragging == old(isDragging) && events == old(events)
    {
      if Strip(JavaScript, textInput) == "" {
        return false, false;
      }
      isLoading := true;
      isLink := StartsWith(Strip(JavaScript, textInput), "http");
      requests := requests + [TextUpload(textInput, if isLink then "link" else "text")];
      started := true;
    }

    /**
     * A click on the text submit button: a disabled button does nothing;
     * an enabled one runs `handleTextSubmit` up to its `await`.
     */
    method ClickTextSubmit() returns (started: bool, isLink: bool)
      modifies this
      ensures started <==> !SubmitDisabled(old(isLoading), old(textInput))
      ensures !started ==> isLoading == old(isLoading) && requests == old(requests)
      ensures started ==>
        && isLoading && isLink == IsLink(textInput)
        && requests == old(requests) + [TextUpload(textInput, KindFor(textInput))]
      ensures textInput == old(textInput) && isDragging == old(isDragging) && events == old(events)
    {
      if SubmitDisabled(isLoading, textInput) {
        return false, false;
      }
      started, isLink := StartTextSubmit();
    }

    /**
     * The rest of `handleTextSubmit`: only a success clears the text (before
     * the callbacks run); loading ends on every path.
     */
    method FinishTextSubmit(isLink: bool, outcome: Outcome)
      modifies this
      ensures !isLoading
      ensures events == old(events) + Reaction(outcome, if isLink then LinkSaved else TextSaved, TextFailed, TextError)
      ensures outcome.Body? && Succeeded(outcome.data) ==> textInput == ""
      ensures !(outcome.Body? && Succeeded(outcome.data)) ==> textInput == old(textInput)
      ensures isDragging == old(isDragging) && requests == old(requests)
    {
      match outcome {
        case Rejected =>
          events := events + [Alert(TextError)];
        case Body(data) =>
          if data.Null? {
            events := events + [Alert(TextError)];
          } else if Succeeded(data) {
            events := events + [Alert(if isLink then LinkSaved else TextSaved)];
            textInput := "";
            events := events + [UploadSucceeded];
            events := events + [Closed];
          } else {
            events := events + [Alert(TextFailed + MessageText(data))];
          }
      }
      isLoading := false;
    }

    method DragOver()
      modifies this
      ensures isDragging
      ensures textInput == old(textInput) && isLoading == old(isLoading)
      ensures requests == old(requests) && events == old(events)
    {
      isDragging := true;
    }

    method DragLeave()
      modifies this
      ensures !isDragging
      ensures textInput == old(textInput) && isLoading == old(isLoading)
      ensures requests == old(requests) && events == old(events)
    {
      isDragging := false;
    }

    /** `handleDrop`: the dragging flag clears, and only the first dropped file is uploaded. */
    method Drop(files: seq<string>)
      modifies this
      ensures !isDragging
      ensures files == [] ==> isLoading == old(isLoading) && requests == old(requests)
      ensures files != [] ==> isLoading && requests == old(requests) + [FileUpload(files[0])]
      ensures textInput == old(textInput) && events == old(events)
    {
      isDragging := false;
      if files != [] {
        StartFileUpload(Some(files[0]));
      }
    }
  }
}
