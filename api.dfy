/**
 * The HTTP endpoints of the backend: the two upload endpoints (which save the
 * AI's records), the reply endpoints of the detail page, and the list, detail,
 * delete and update endpoints over the document table.
 *
 * An endpoint's answer is a `Reply`: a JSON body, or an HTTP error status with
 * its detail.  An exception that escapes an endpoint is status 500.  The AI
 * client, the file readers and the web fetcher are function arguments.
 */
module Api {
  import opened Wrappers
  import opened Text
  import opened Json
  import opened DbManager
  import FileService
  import LlmService

  datatype Reply = Ok(body: Json) | HttpError(status: int, detail: string)

  const MinContentLength := 5

  // ---------------------------------------------------------------------------
  // Saving the AI's records

  /** Python's `len(v)`: defined on strings, lists and dicts, a TypeError otherwise. */
  function Size(v: Json): (r: Option<nat>)
    ensures v.Str? ==> r == Some(|v.s|)
    ensures v.Arr? ==> r == Some(|v.items|)
    ensures v.Obj? ==> r == Some(|v.fields|)
    ensures r.None? <==> v.Null? || v.Bool? || v.Num?
  {
    match v
    case Str(s) => Some(|s|)
    case Arr(xs) => Some(|xs|)
    case Obj(m) => Some(|m|)
    case _ => None
  }

  /** What the upload loop does with one record. */
  datatype Step =
    | Skip                                                // content shorter than 5
    | Store(content: string, meta: map<string, Json>)    // save_document(item["content"], item)
    | Raise                                               // the loop body raises

  /**
   * One iteration of the loop: `len(item.get("content", "")) < 5` skips the
   * record; a long enough string is saved; anything else raises (`get` on a
   * non-dict, `len` of a number, or slicing a list or dict content inside
   * `save_document`).
   */
  function StepOf(item: Json): (st: Step)
    ensures !item.Obj? ==> st == Raise
    ensures st == Skip <==>
      item.Obj? && Size(Get(item.fields, "content", Str(""))).Some?
      && Size(Get(item.fields, "content", Str(""))).value < MinContentLength
    ensures st.Store? <==>
      item.Obj? && Get(item.fields, "content", Str("")).Str?
      && |Get(item.fields, "content", Str("")).s| >= MinContentLength
    ensures st.Store? ==> st.content == item.fields["content"].s && st.meta == item.fields
  {
    if !item.Obj? then Raise
    else
      var content := Get(item.fields, "content", Str(""));
      match Size(content)
      case None => Raise
      case Some(n) =>
        if n < MinContentLength then Skip
        else if content.Str? then Store(content.s, item.fields)
        else Raise
  }

  /** A record whose processing raises, either in the loop or in `save_document`. */
  predicate Fails(item: Json, now: string, dump: Json -> string) {
    var st := StepOf(item);
    st.Raise? || (st.Store? && NewRow(st.content, st.meta, now, dump).Failure?)
  }

  /** The position of the first record that raises, or the number of records. */
  function FirstFailure(items: seq<Json>, now: string, dump: Json -> string): (p: nat)
    ensures p <= |items|
    ensures forall k :: 0 <= k < p ==> !Fails(items[k], now, dump)
    ensures p < |items| ==> Fails(items[p], now, dump)
  {
    if items == [] then 0
    else if Fails(items[0], now, dump) then 0
    else 1 + FirstFailure(items[1..], now, dump)
  }

  /** The contents of the records that are saved, in order: the long-enough strings. */
  function LongContents(items: seq<Json>): (r: seq<string>)
    ensures |r| <= |items|
    ensures forall k :: 0 <= k < |r| ==> |r[k]| >= MinContentLength
  {
    if items == [] then []
    else
      var st := StepOf(items[0]);
      (if st.Store? then [st.content] else []) + LongContents(items[1..])
  }

  /** The state of the table and the loop while saving. */
  datatype Saving = Saving(rows: map<int, Row>, nextId: int, ids: seq<int>, raised: bool)

  /** The loop over `ai_results`, one record at a time from the front; an exception ends it. */
  function SaveAll(s: Saving, items: seq<Json>, now: string, dump: Json -> string): Saving
    decreases |items|
  {
    if items == [] || s.raised then s
    else match StepOf(items[0])
      case Skip => SaveAll(s, items[1..], now, dump)
      case Raise => s.(raised := true)
      case Store(content, meta) =>
        match NewRow(content, meta, now, dump)
        case Failure(_) => s.(raised := true)
        case Success(row) =>
          SaveAll(Saving(s.rows[s.nextId := row], s.nextId + 1, s.ids + [s.nextId], false), items[1..], now, dump)
  }

  /** The ids `from`, `from + 1`, ..., `n` of them. */
  function Consecutive(from: int, n: nat): (r: seq<int>)
    ensures |r| == n
    ensures forall k :: 0 <= k < n ==> r[k] == from + k
  {
    seq(n, k requires 0 <= k < n => from + k)
  }

  /**
   * `r` is `s` after the contents `saved` were saved in order: under the next
   * consecutive ids, listed in `ids`, with every earlier row unchanged.
   */
  ghost predicate SavedFrom(s: Saving, r: Saving, saved: seq<string>) {
    && r.ids == s.ids + Consecutive(s.nextId, |saved|)
    && r.nextId == s.nextId + |saved|
    && (forall k :: 0 <= k < |saved| ==> s.nextId + k in r.rows && r.rows[s.nextId + k].content == saved[k])
    && (forall id :: id in r.rows <==> id in s.rows || s.nextId <= id < r.nextId)
    && (forall id :: id in s.rows && id < s.nextId ==> r.rows[id] == s.rows[id])
  }

  /** Saving one row and then `saved` is saving the row's content followed by `saved`. */
  lemma SavedFromCons(s: Saving, row: Row, r: Saving, saved: seq<string>)
    requires SavedFrom(Saving(s.rows[s.nextId := row], s.nextId + 1, s.ids + [s.nextId], false), r, saved)
    ensures SavedFrom(s, r, [row.content] + saved)
  {
    var s' := Saving(s.rows[s.nextId := row], s.nextId + 1, s.ids + [s.nextId], false);
    assert s.nextId in s'.rows && s.nextId < s'.nextId;
    assert [s.nextId] + Consecutive(s.nextId + 1, |saved|) == Consecutive(s.nextId, |saved| + 1);
    forall k | 0 <= k < |[row.content] + saved|
      ensures s.nextId + k in r.rows && r.rows[s.nextId + k].content == ([row.content] + saved)[k]
    {
      if k > 0 {
        assert s.nextId + k == s'.nextId + (k - 1);
      }
    }
  }

  /**
   * Saving stops exactly at the first record that raises; until then every
   * record with a long-enough string content is saved, in order, under the
   * next consecutive ids, and no earlier row changes.
   */
  lemma {:induction false} SaveAllSpec(s: Saving, items: seq<Json>, now: string, dump: Json -> string)
    requires !s.raised
    ensures var r := SaveAll(s, items, now, dump);
      var p := FirstFailure(items, now, dump);
      && (r.raised <==> p < |items|)
      && SavedFrom(s, r, LongContents(items[..p]))
    decreases |items|
  {
    var r := SaveAll(s, items, now, dump);
    var p := FirstFailure(items, now, dump);
    if items == [] {
      assert items[..p] == [];
    } else if Fails(items[0], now, dump) {
      assert p == 0 && items[..p] == [];
      assert r == s.(raised := true);
    } else {
      var tail := items[1..];
      var q := FirstFailure(tail, now, dump);
      assert p == q + 1;
      assert items[..p][1..] == tail[..q];
      assert items[..p][0] == items[0];
      var st := StepOf(items[0]);
      if st.Skip? {
        SaveAllSpec(s, tail, now, dump);
        assert LongContents(items[..p]) == LongContents(tail[..q]);
      } else {
        var row := NewRow(st.content, st.meta, now, dump).value;
        var s' := Saving(s.rows[s.nextId := row], s.nextId + 1, s.ids + [s.nextId], false);
        assert r == SaveAll(s', tail, now, dump);
        SaveAllSpec(s', tail, now, dump);
        assert LongContents(items[..p]) == [st.content] + LongContents(tail[..q]);
        SavedFromCons(s, row, r, LongContents(tail[..q]));
      }
    }
  }

  /** Saving a record that is stored: its row goes under the next id, then the rest are saved. */
  lemma SaveAllStored(s: Saving, items: seq<Json>, now: string, dump: Json -> string)
    requires !s.raised && items != [] && StepOf(items[0]).Store?
    requires NewRow(StepOf(items[0]).content, StepOf(items[0]).meta, now, dump).Success?
    ensures SaveAll(s, items, now, dump)
         == SaveAll(Saving(s.rows[s.nextId := NewRow(StepOf(items[0]).content, StepOf(items[0]).meta, now, dump).value],
                           s.nextId + 1, s.ids + [s.nextId], false), items[1..], now, dump)
  {
  }

  /** `saved_ids`, and whether the loop raised, after saving the records into the table. */
  method SaveResults(table: Table, items: seq<Json>, now: string) returns (ids: seq<int>, raised: bool)
    requires table.Valid()
    modifies table
    ensures table.Valid()
    ensures var r := SaveAll(Saving(old(table.rows), old(table.nextId), [], false), items, now, table.dump);
      table.rows == r.rows && table.nextId == r.nextId && ids == r.ids && raised == r.raised
  {
    ghost var start := Saving(table.rows, table.nextId, [], false);
    ids := [];
    raised := false;
    var i := 0;
    while i < |items| && !raised
      invariant 0 <= i <= |items|
      invariant table.Valid()
      invariant SaveAll(start, items, now, table.dump)
             == SaveAll(Saving(table.rows, table.nextId, ids, raised), items[i..], now, table.dump)
    {
      assert items[i..][1..] == items[i + 1..];
      match StepOf(items[i]) {
        case Skip =>
        case Raise =>
          raised := true;
        case Store(content, meta) =>
          ghost var before := Saving(table.rows, table.nextId, ids, raised);
          var saved := table.SaveDocument(content, meta, now);
          match saved {
            case Failure(_) =>
              raised := true;
            case Success(id) =>
              SaveAllStored(before, items[i..], now, table.dump);
              ids := ids + [id];
          }
      }
      i := i + 1;
    }
    assert raised || items[i..] == [];
  }

  /** The body both upload endpoints return. */
  function UploadBody(ids: seq<int>): (r: Json)
    ensures r.Obj? && r.fields.Keys == {"status", "ids", "count"}
    ensures r.fields["status"] == Str("success")
    ensures r.fields["ids"].Arr? && |r.fields["ids"].items| == |ids|
    ensures forall k :: 0 <= k < |ids| ==> r.fields["ids"].items[k] == Num(ids[k])
    ensures r.fields["count"] == Num(|ids|)
  {
    Obj(map["status" := Str("success"),
            "ids" := Arr(seq(|ids|, k requires 0 <= k < |ids| => Num(ids[k]))),
            "count" := Num(|ids|)])
  }

  /** Run the AI on the text and save its records. */
  method ProcessAndSave(table: Table, text: string, ask: string -> Result<string, string>, now: string)
    returns (reply: Reply)
    requires table.Valid()
    modifies table
    ensures table.Valid()
    ensures var r := SaveAll(Saving(old(table.rows), old(table.nextId), [], false),
                             LlmService.ProcessUpload(text, ask(text), table.parse), now, table.dump);
      && table.rows == r.rows && table.nextId == r.nextId
      && reply == if r.raised then HttpError(500, "Internal Server Error") else Ok(UploadBody(r.ids))
  {
    var results := LlmService.ProcessUpload(text, ask(text), table.parse);
    var ids, raised := SaveResults(table, results, now);
    if raised {
      reply := HttpError(500, "Internal Server Error");
    } else {
      reply := Ok(UploadBody(ids));
    }
  }

  const ParseFailed := "解析失败或内容为空"
  /** The body refusing a file that gave no text. */
  const RefusalBody := Obj(map["status" := Str("error"), "message" := Str(ParseFailed)])

  /** `POST /api/upload`: read the file; refuse an unreadable or empty one; otherwise save the AI's records. */
  method UploadFileEndpoint(table: Table, filename: string, data: FileService.Bytes, readers: FileService.Readers,
                            ask: string -> Result<string, string>, now: string) returns (reply: Reply)
    requires table.Valid()
    modifies table
    ensures table.Valid()
    ensures var c := FileService.FileContent(filename, data, readers);
      c.None? || c.value == "" ==>
        reply == Ok(RefusalBody) && table.rows == old(table.rows) && table.nextId == old(table.nextId)
    ensures var c := FileService.FileContent(filename, data, readers);
      c.Some? && c.value != "" ==>
        var r := SaveAll(Saving(old(table.rows), old(table.nextId), [], false),
                         LlmService.ProcessUpload(c.value, ask(c.value), table.parse), now, table.dump);
        && table.rows == r.rows && table.nextId == r.nextId
        && reply == if r.raised then HttpError(500, "Internal Server Error") else Ok(UploadBody(r.ids))
  {
    var content := FileService.ReadFileContent(filename, data, readers);
    if content.None? || content.value == "" {
      reply := Ok(RefusalBody);
    } else {
      reply := ProcessAndSave(table, content.value, ask, now);
    }
  }

  // ---------------------------------------------------------------------------
  // Text and link upload

  /** The link rule: crawl when the type says so, or for a short text that starts with "http". */
  predicate ShouldCrawl(text: string, kind: string) {
    kind == "link" || (StartsWith(text, "http") && |text| < 500)
  }

  /** The text handed to the AI: the crawled text when the rule fires and the crawl gives any text. */
  function UploadText(text: string, kind: string, fetch: string -> Result<string, string>): (r: string)
    ensures !ShouldCrawl(text, kind) ==> r == text
    ensures ShouldCrawl(text, kind) && FileService.ReadUrlContent(text, fetch) != "" ==>
              r == FileService.ReadUrlContent(text, fetch)
    ensures ShouldCrawl(text, kind) && FileService.ReadUrlContent(text, fetch) == "" ==> r == text
  {
    if ShouldCrawl(text, kind) then
      var crawled := FileService.ReadUrlContent(text, fetch);
      if crawled != "" then crawled else text
    else text
  }

  /** A long text of type "text" is never crawled, whatever it starts with. */
  lemma LongTextNotCrawled(text: string, fetch: string -> Result<string, string>)
    requires |text| >= 500
    ensures UploadText(text, "text", fetch) == text
  {
  }

  /** `POST /api/upload/text`. */
  method UploadTextEndpoint(table: Table, text: string, kind: string, fetch: string -> Result<string, string>,
                            ask: string -> Result<string, string>, now: string) returns (reply: Reply)
    requires table.Valid()
    modifies table
    ensures table.Valid()
    ensures var content := UploadText(text, kind, fetch);
      var r := SaveAll(Saving(old(table.rows), old(table.nextId), [], false),
                       LlmService.ProcessUpload(content, ask(content), table.parse), now, table.dump);
      && table.rows == r.rows && table.nextId == r.nextId
      && reply == if r.raised then HttpError(500, "Internal Server Error") else Ok(UploadBody(r.ids))
  {
    var content := text;
    if ShouldCrawl(text, kind) {
      var crawled := FileService.ReadUrlContent(content, fetch);
      if crawled != "" {
        content := crawled;
      }
    }
    reply := ProcessAndSave(table, content, ask, now);
  }

  // ---------------------------------------------------------------------------
  // The reply endpoints of the detail page

  /** `POST /api/material/analyze`. */
  function AnalyseEndpoint(content: string, analyse: string -> Result<string, string>): (r: Reply)
    ensures r.Ok? && r.body.Obj? && r.body.fields.Keys == {"analysis"}
    ensures analyse(content).Success? ==> r.body.fields["analysis"] == Str(analyse(content).value)
    ensures analyse(content).Failure? ==>
      r.body.fields["analysis"] == Str(LlmService.Unavailable(LlmService.Analyse) + analyse(content).error)
  {
    Ok(Obj(map["analysis" := Str(LlmService.ServiceReply(LlmService.Analyse, analyse(content)))]))
  }

  /** `POST /api/material/imitate`. */
  function ImitateEndpoint(content: string, imitate: string -> Result<string, string>): (r: Reply)
    ensures r.Ok? && r.body.Obj? && r.body.fields.Keys == {"tasks"}
    ensures imitate(content).Success? ==> r.body.fields["tasks"] == Str(imitate(content).value)
    ensures imitate(content).Failure? ==>
      r.body.fields["tasks"] == Str(LlmService.Unavailable(LlmService.Imitate) + imitate(content).error)
  {
    Ok(Obj(map["tasks" := Str(LlmService.ServiceReply(LlmService.Imitate, imitate(content)))]))
  }

  /** The body of `POST /api/chat`; `message` and `instruction` default to None. */
  datatype ChatRequest = ChatRequest(docId: int, message: Option<string>, instruction: Option<string>, mode: string)

  /** `request.instruction or request.message`. */
  function UserMessage(req: ChatRequest): (r: Option<string>)
    ensures req.instruction.Some? && req.instruction.value != "" ==> r == req.instruction
    ensures !(req.instruction.Some? && req.instruction.value != "") ==> r == req.message
  {
    if req.instruction.Some? && req.instruction.value != "" then req.instruction else req.message
  }

  const ContextLength := 5000
  const NotFoundApology := "抱歉，找不到当前正在阅读的素材，无法回答。"
  const EmptyMessage := "内容不能为空"

  /** The prompt `chat_endpoint` sends, with the first 5000 characters of the document. */
  function ChatPrompt(content: string, mode: string, userMessage: string): (r: string)
    ensures Contains(r, Take(content, ContextLength)) && Contains(r, userMessage)
  {
    var head := "\n    【背景信息】\n    用户正在阅读一篇作文素材，内容如下：\n    ===\n    ";
    var middle := "  # 这里可以适当截断作为 Context，防止超过 LLM 窗口\n    ===\n    \n    【用户当前模式】\n    "
      + mode + " (general=自由对话, analyze=解析, rewrite=仿写)\n\n    【用户指令】\n    ";
    var tail := "\n    \n    请根据素材内容执行用户的指令。\n    ";
    ContainsBoth(head, Take(content, ContextLength), middle, userMessage, tail);
    head + Take(content, ContextLength) + middle + userMessage + tail
  }

  /** Text past the 5000th character never reaches the AI. */
  lemma PromptIgnoresTail(a: string, b: string, mode: string, userMessage: string)
    requires Take(a, ContextLength) == Take(b, ContextLength)
    ensures ChatPrompt(a, mode, userMessage) == ChatPrompt(b, mode, userMessage)
  {
  }

  /**
   * `POST /api/chat`: 422 without a message, the apology for a missing
   * document, otherwise the AI's reply to the prompt; `sent` is the message
   * list given to the client, if any.
   */
  method ChatEndpoint(table: Table, req: ChatRequest, complete: seq<LlmService.ChatMessage> -> Result<string, string>)
    returns (reply: Reply, sent: Option<seq<LlmService.ChatMessage>>)
    ensures UserMessage(req).None? || UserMessage(req) == Some("") ==>
      reply == HttpError(422, EmptyMessage) && sent.None?
    ensures UserMessage(req).Some? && UserMessage(req) != Some("") && table.GetDocumentById(req.docId).None? ==>
      reply == Ok(Obj(map["response" := Str(NotFoundApology)])) && sent.None?
    ensures UserMessage(req).Some? && UserMessage(req) != Some("") && table.GetDocumentById(req.docId).Some? ==>
      var prompt := ChatPrompt(table.GetDocumentById(req.docId).value.content, req.mode, UserMessage(req).value);
      && sent == Some([LlmService.ChatMessage(LlmService.UserRole, prompt)])
      && reply == Ok(Obj(map["response" := Str(LlmService.ServiceReply(LlmService.Chat, complete(sent.value)))]))
  {
    var userMsg := UserMessage(req);
    if userMsg.None? || userMsg.value == "" {
      return HttpError(422, EmptyMessage), None;
    }
    var doc := table.GetDocumentById(req.docId);
    if doc.None? {
      return Ok(Obj(map["response" := Str(NotFoundApology)])), None;
    }
    var prompt := ChatPrompt(doc.value.content, req.mode, userMsg.value);
    var answer, messages := LlmService.ServiceChat(prompt, None, complete);
    assert messages == [LlmService.ChatMessage(LlmService.UserRole, prompt)];
    reply := Ok(Obj(map["response" := Str(answer)]));
    sent := Some(messages);
  }

  // ---------------------------------------------------------------------------
  // List and detail

  const NoTitle := "无标题"

  /** A card or page title: the first `n` characters of the summary and "...", or "无标题". */
  function Title(summary: string, n: nat): (r: string)
    ensures summary == "" ==> r == NoTitle
    ensures summary != "" ==> |r| == |Take(summary, n)| + 3 && |r| <= n + 3
    ensures summary != "" ==> StartsWith(summary, r[..|r| - 3]) && EndsWith(r, "...")
  {
    if summary != "" then Take(summary, n) + "..." else NoTitle
  }

  /** `d["themes"] if d["themes"] else []`. */
  function ThemesOrEmpty(themes: Json): (r: Json)
    ensures Truthy(themes) ==> r == themes
    ensures !Truthy(themes) ==> r == Arr([])
  {
    if Truthy(themes) then themes else Arr([])
  }

  /** A document as both endpoints present it, with a title of `n` characters. */
  function Presented(d: Document, n: nat): (r: Json)
    ensures r.Obj? && r.fields.Keys == {"id", "title", "type", "themes", "content", "tags", "date"}
    ensures r.fields["id"] == Num(d.id) && r.fields["title"] == Str(Title(d.summary, n))
    ensures r.fields["type"] == Str(d.category) && r.fields["themes"] == ThemesOrEmpty(d.themes)
    ensures r.fields["content"] == Str(d.content) && r.fields["tags"] == d.tags
    ensures r.fields["date"] == Str(BeforeFirst(d.createdAt, ' '))
  {
    Obj(map["id" := Num(d.id), "title" := Str(Title(d.summary, n)), "type" := Str(d.category),
            "themes" := ThemesOrEmpty(d.themes), "content" := Str(d.content), "tags" := d.tags,
            "date" := Str(BeforeFirst(d.createdAt, ' '))])
  }

  const ListTitleLength := 15
  const DetailTitleLength := 20

  /** The formatting loop of `get_documents_endpoint`. */
  method FormatDocuments(docs: seq<Document>) returns (items: seq<Json>)
    ensures |items| == |docs|
    ensures forall k :: 0 <= k < |docs| ==> items[k] == Presented(docs[k], ListTitleLength)
  {
    items := [];
    for i := 0 to |docs|
      invariant |items| == i
      invariant forall k :: 0 <= k < i ==> items[k] == Presented(docs[k], ListTitleLength)
    {
      items := items + [Presented(docs[i], ListTitleLength)];
    }
  }

  /** `GET /api/documents`: the matching documents, newest first, as cards. */
  method GetDocumentsEndpoint(table: Table, query: Option<string>, kind: Option<string>, theme: Option<string>)
    returns (items: seq<Json>)
    requires table.Valid()
    ensures var docs := Listing(table.rows, table.parse,
                                Conditions(query.GetOr(""), kind.GetOr(""), theme.GetOr("")), 1, table.nextId);
      && |items| == |docs|
      && forall k :: 0 <= k < |docs| ==> items[k] == Presented(docs[k], ListTitleLength)
  {
    var docs := table.GetDocuments(query.GetOr(""), kind.GetOr(""), theme.GetOr(""));
    items := FormatDocuments(docs);
  }

  /** `GET /api/documents/{doc_id}`: 404 for an absent id, otherwise the document with a 20-character title. */
  function DetailReply(found: Option<Document>): (r: Reply)
    ensures found.None? <==> r == HttpError(404, "文章不存在")
    ensures found.Some? ==> r == Ok(Presented(found.value, DetailTitleLength))
  {
    match found
    case None => HttpError(404, "文章不存在")
    case Some(d) => Ok(Presented(d, DetailTitleLength))
  }

  /** The detail endpoint over the table. */
  function GetSingleDocumentEndpoint(table: Table, id: int): (r: Reply)
    reads table
    ensures r.HttpError? <==> id !in table.rows
    ensures id in table.rows ==>
      r == Ok(Presented(Decode(id, table.rows[id], table.parse), DetailTitleLength))
  {
    DetailReply(table.GetDocumentById(id))
  }

  const StatusSuccess := Obj(map["status" := Str("success")])

  /** `DELETE /api/documents/{doc_id}`: always answers success. */
  method DeleteDocEndpoint(table: Table, id: int) returns (reply: Reply)
    requires table.Valid()
    modifies table
    ensures table.Valid()
    ensures table.rows == Removed(old(table.rows), id) && table.nextId == old(table.nextId)
    ensures reply == Ok(StatusSuccess)
  {
    table.DeleteDocument(id);
    reply := Ok(StatusSuccess);
  }

  /** `PUT /api/documents/{doc_id}`: only the content is forwarded; always answers success. */
  method UpdateDocEndpoint(table: Table, id: int, content: string) returns (reply: Reply)
    requires table.Valid()
    modifies table
    ensures table.Valid()
    ensures table.rows == Updated(old(table.rows), id, content) && table.nextId == old(table.nextId)
    ensures reply == Ok(StatusSuccess)
  {
    table.UpdateDocument(id, content);
    reply := Ok(StatusSuccess);
  }
}
