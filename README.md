# Essay-material library: a verified model

The system is a personal library of essay material: quotes, argument
paragraphs, examples of people. A user uploads a file, some text or a link.
An AI service splits the upload into material records. The records are kept
in a SQLite table, and a web page lists, filters and deletes them.

This project models in Dafny the rules behind those steps, one module per
source file:

- `DbManager` (`db_manager.dfy`) models the `documents` table as a class.
  The class holds a map from id to row and the next id. The module also has
  the summary and category derived on write, the decoding of the `tags` and
  `themes` columns, and the SQL text and parameters that `get_documents`
  builds. The listing the query returns is newest id first.
- `LlmService` (`llm_service.dfy`) cleans the AI's reply. It removes code
  fences and cuts the text to its outer brackets. It then normalises the
  decoded value into records, and produces the fixed fallback records. It
  also builds the message list of a chat call.
- `FileService` (`file_service.dfy`) chooses a file's branch by its
  lower-cased extension. It models the page and paragraph loops, the OCR
  messages and the link reader with its xiaohongshu guard.
- `Api` (`api.dfy`) models the HTTP endpoints. The upload endpoints save the
  AI's records in a loop that can raise part-way. The chat endpoint has its
  guards. The list and detail endpoints format documents.
- `HomePage` (`page.dfy`) models the home page: the filter parameters, the
  theme toggle, the chips and fallbacks of a card, and the upload and delete
  handlers.
- `UploadModal` (`upload_modal.dfy`) models the upload dialog. It has a
  loading flag, a text buffer, link detection and the test for a successful
  response.
- `Text`, `Json` and `Wrappers` are shared helpers. `Text` holds Python and
  JavaScript string operations. `Json` holds decoded JSON values and Python
  truthiness. `Wrappers` holds `Option` and `Result`.

Foreign code is passed in as function arguments:

- `json.dumps` and `json.loads` (the table's `dump` and `parse`);
- the chat-completion client;
- pdfplumber, python-docx, RapidOCR and the UTF-8/GBK decoders (the file
  service's `Readers`);
- the web fetcher.

The clock is a `now` argument. Each front-end handler that awaits a request
is split at the `await` into two methods. `Start…` records the request it
issues. `Finish…` takes the request's outcome. A handler that re-fetches the list
calls the `fetchMaterials` of the render it began in, so `Start…` returns that
render's filters and `Finish…` takes them back.

Some behaviours of the program that the model keeps:

- `save_document` (`backend/database/db_manager.py:32`) gives a document
  without a `type` the category "未分类".
- In `handleDelete` (`frontend/app/page.tsx:86-92`), a rejected DELETE
  request ends the handler before the list is fetched again. Only a request
  that gets a response re-fetches the list. No path of the handler alerts.
- In `handleUpload` (`frontend/app/page.tsx:82-83`), a non-ok response
  raises no alert. Only a rejected request alerts.
- Python's `str.strip()` and JavaScript's `trim()` strip different sets of
  characters, so `Text.Strip` takes the language as an argument.

## Model

| member | source | states |
|---|---|---|
| DbManager.DerivedSummary | backend/database/db_manager.py:33-35 | the derived summary is the first 50 characters with each newline made a space, then "..."; so it is at most 53 characters and has no newline |
| DbManager.CategoryOf | backend/database/db_manager.py:32 | a missing `type` gives "未分类"; a string `type` is stored as given |
| DbManager.SummaryOf | backend/database/db_manager.py:33-35 | a missing or falsy `summary` gives the derived summary; a non-empty string summary is kept |
| DbManager.StoredText | backend/database/db_manager.py:40-43 | a string is stored as itself; a list or dict cannot be bound as a parameter |
| DbManager.NewRow | backend/database/db_manager.py:27-43 | the inserted row holds the content, the category, the summary, the JSON text of `tags` and `themes` (default `[]`) and the creation time; the insert is refused exactly when the category or summary cannot be stored |
| DbManager.Decode | backend/database/db_manager.py:73-79 | a column that does not decode becomes `[]`; every other field is copied from the row |
| DbManager.SavedRowReadsBack | backend/database/db_manager.py:37-38 | with a codec that reads back what it writes, a saved document reads back with the content, tags, themes and category it was saved with |
| DbManager.Updated | backend/database/db_manager.py:61-62 | an update changes only the content and summary of that one row; the summary is re-derived; the other fields and all other rows are unchanged; an absent id changes nothing |
| DbManager.UpdateIdempotent | backend/database/db_manager.py:61-62 | updating twice with the same content equals updating once |
| DbManager.Removed | backend/database/db_manager.py:53 | a delete removes exactly that id and leaves every other row unchanged |
| DbManager.Conditions | backend/database/db_manager.py:92-106 | a query filter is present iff the query is non-empty; a category filter iff the type is non-empty and not "全部素材"; a theme filter iff the theme is non-empty |
| DbManager.ClausePlaceholders | backend/database/db_manager.py:93-106 | each appended clause has as many `?` as the parameters appended with it |
| DbManager.ClausesPlaceholders | backend/database/db_manager.py:92-106 | the appended clauses together have one `?` per parameter |
| DbManager.QueryPlaceholders | backend/database/db_manager.py:88-108 | the whole statement has exactly one parameter per `?` |
| DbManager.ParamsOfConditions | backend/database/db_manager.py:92-106 | the parameters are exactly: `%query%` four times when there is a query, then the type when it is neither "" nor "全部素材", then `%theme%` when there is a theme |
| DbManager.BuildQuery | backend/database/db_manager.py:88-108 | appending clause by clause builds the statement and parameter list of the filters, with one parameter per `?` |
| DbManager.ListingSpec | backend/database/db_manager.py:108-120 | the listing holds exactly the rows that meet every filter; each entry is decoded from its own row; ids are strictly descending |
| DbManager.Table.constructor | backend/database/db_manager.py:9-25 | a new table is empty and issues id 1 first |
| DbManager.Table.SaveDocument | backend/database/db_manager.py:27-48 | a save inserts the new row under the next id and returns that id; the id was never issued before; a refused insert changes nothing |
| DbManager.Table.DeleteDocument | backend/database/db_manager.py:50-55 | the rows become the rows without that id |
| DbManager.Table.UpdateDocument | backend/database/db_manager.py:57-64 | the rows become the updated rows |
| DbManager.Table.GetDocumentById | backend/database/db_manager.py:66-80 | an absent id gives None; a present id gives its decoded row |
| DbManager.Table.GetDocuments | backend/database/db_manager.py:83-123 | the loop returns the listing of the rows that meet the filters, newest first; the loop and `BuildQuery` are both built from `Conditions(query, docType, theme)` |
| Text.StripsDiffer | backend/services/file_service.py:98 | before a non-whitespace character, Python's `strip()` removes any of U+001C–U+001F and U+0085 where JavaScript's `trim()` keeps it, and the reverse for U+FEFF |
| Text.NoFenceAfterRemoval | backend/services/llm_service.py:150 | removing every "```" from left to right leaves no "```" |
| LlmService.RemoveFences | backend/services/llm_service.py:148-150 | the result has no code fence; text without a fence is unchanged; fenced text is stripped again once the fences are removed |
| LlmService.RemoveFencesPayload | backend/services/llm_service.py:149-150 | for text, a "```json" fence, a payload, a closing fence and text, with no back-tick outside the fences (and no "json" right after the closing fence), the result is exactly the three texts joined and stripped |
| LlmService.SliceBrackets | backend/services/llm_service.py:153-156 | with both brackets present, the text becomes the slice from the first "[" to the last "]" inclusive (empty when they are out of order); otherwise it is unchanged |
| LlmService.CleanReply | backend/services/llm_service.py:148-156 | the text given to the parser has no code fence; a reply without a fence or "[" is only stripped |
| LlmService.CleanFencedReply | backend/services/llm_service.py:148-156 | a reply that is exactly a "```json" block gives the parser the block's payload, stripped and cut to its outer brackets |
| LlmService.Record | backend/services/llm_service.py:162-165 | a fallback record has type "未分类", the given themes and tags, and the content |
| LlmService.ServiceErrorContent | backend/services/llm_service.py:179 | the error record's text is the prefix with the error, then exactly the first 50 characters of the input (all of a shorter input), then "..." |
| LlmService.Normalise | backend/services/llm_service.py:167-171 | a list is returned as is; a dict's "materials" list is unwrapped; any other dict is wrapped; anything else gives [] |
| LlmService.ProcessUpload | backend/services/llm_service.py:132-180 | a failed call gives one record tagged "AI服务异常"; a reply that does not parse gives one record tagged "格式错误" holding the input; otherwise the normalised value |
| LlmService.ProcessUploadEmpty | backend/services/llm_service.py:167-171 | no records come back iff the reply parses to an empty list, to a dict whose "materials" is empty, or to a value that is neither a list nor a dict |
| LlmService.ServiceReply | backend/services/llm_service.py:182-217 | a reply service returns the reply, or its fixed apology followed by the error text |
| LlmService.ChatMessages | backend/services/llm_service.py:206-208 | the list ends with the user message; a non-empty system prompt is put first; the length is 1 or 2 |
| LlmService.ServiceChat | backend/services/llm_service.py:204-217 | the chat service sends its message list and returns the reply or the chat apology |
| FileService.KindOf | backend/services/file_service.py:22-66 | the branch is chosen on the lower-cased name, checking in order for ".pdf", ".docx", the four image extensions, then plain text |
| FileService.DocIsPlainText | backend/services/file_service.py:40-66 | a ".doc" file in any letter case is read as plain text |
| FileService.KindIgnoresCase | backend/services/file_service.py:22 | names that lower-case alike take the same branch |
| FileService.PageTexts | backend/services/file_service.py:34-37 | no kept string is empty and there are at most as many as pages; when every page has text, the i-th kept string is the i-th page's text |
| FileService.PageTextsMembers | backend/services/file_service.py:34-37 | a string is kept iff it is non-empty and is the text of some page |
| FileService.PageTextsInOrder | backend/services/file_service.py:34-37 | the kept texts are the texts of the pages that have one, in page order, each page with text kept once |
| FileService.LinesJoin | backend/services/file_service.py:34-43 | the text built from pages or paragraphs is them joined by "\n", plus a final "\n" |
| FileService.PdfText | backend/services/file_service.py:34-37 | the PDF loop appends each page's text and "\n", skipping pages without text |
| FileService.WordText | backend/services/file_service.py:42-43 | the Word loop appends every paragraph and "\n" |
| FileService.ImageText | backend/services/file_service.py:47-63 | recognised texts are joined by "\n"; nothing recognised, a failing engine and an absent engine each give their own fixed message |
| FileService.ReadFileContent | backend/services/file_service.py:20-77 | the branch chosen by the name gives its text; plain text is UTF-8, or GBK when UTF-8 fails; the result is None exactly when the PDF or Word reader raises |
| FileService.ReadUrlContent | backend/services/file_service.py:79-100 | a xiaohongshu link gives the advice containing the URL; a failed fetch gives a message containing the URL; otherwise the stripped page text |
| FileService.XiaohongshuNotFetched | backend/services/file_service.py:81-82 | the fetcher plays no part for a xiaohongshu link |
| Api.StepOf | backend/main.py:77-83 | a record with content shorter than 5 is skipped; a string content of 5 or more is saved with the record as metadata; anything else raises |
| Api.SaveAllSpec | backend/main.py:76-85 | saving stops at the first record that raises; until then every long-enough content is saved in order under consecutive new ids; earlier rows are unchanged |
| Api.SaveResults | backend/main.py:76-83 | the loop leaves the table and `saved_ids` as saving the records one by one does |
| Api.UploadBody | backend/main.py:85 | the success body lists the ids and has `count` equal to their number |
| Api.ProcessAndSave | backend/main.py:74-85 | the AI's records for the text are saved; the reply is the success body, or status 500 when the loop raised |
| Api.UploadFileEndpoint | backend/main.py:62-85 | a file whose reader raises or gives no text is refused with "解析失败或内容为空" and the table is unchanged; otherwise the AI's records for its text are saved, with the success body or status 500 |
| Api.UploadText | backend/main.py:93-96 | the link rule crawls for type "link", or for text under 500 characters that starts with "http"; the crawled text replaces the content only when it is non-empty |
| Api.LongTextNotCrawled | backend/main.py:93 | a text of 500 characters or more sent as "text" is never crawled |
| Api.UploadTextEndpoint | backend/main.py:88-107 | the AI's records for the text (crawled or not) are saved as in the file endpoint |
| Api.AnalyseEndpoint | backend/main.py:112-115 | the body holds only "analysis": the reply on success; on failure "解析服务暂时不可用: " followed by the error text |
| Api.ImitateEndpoint | backend/main.py:117-120 | the body holds only "tasks": the reply on success; on failure "仿写服务暂时不可用: " followed by the error text |
| Api.UserMessage | backend/main.py:124 | a non-empty instruction is used in preference to the message |
| Api.ChatPrompt | backend/main.py:137-151 | the prompt contains the first 5000 characters of the document and the user's message |
| Api.PromptIgnoresTail | backend/main.py:141 | text past the 5000th character never reaches the AI |
| Api.ChatEndpoint | backend/main.py:122-154 | no message gives 422; a missing document gives the fixed apology and no prompt; otherwise the prompt alone is sent and the reply returned |
| Api.Title | backend/main.py:169 | a title is the first n characters of the summary and "...", or "无标题" for an empty summary |
| Api.ThemesOrEmpty | backend/main.py:175 | falsy themes become [] |
| Api.Presented | backend/main.py:166-182 | a presented document has exactly the id, title, type (the category), themes, content, tags and date (created_at before the first space) |
| Api.FormatDocuments | backend/main.py:164-183 | the loop presents every document in order with a 15-character title |
| Api.GetDocumentsEndpoint | backend/main.py:159-183 | the list endpoint presents the listing of the matching rows, newest first |
| Api.DetailReply | backend/main.py:186-203 | an absent document gives 404; a present one is presented with a 20-character title |
| Api.GetSingleDocumentEndpoint | backend/main.py:185-203 | the detail endpoint fails iff the id is not in the table |
| Api.DeleteDocEndpoint | backend/main.py:205-208 | the row is deleted and the answer is always success |
| Api.UpdateDocEndpoint | backend/main.py:211-214 | only the content is forwarded to the update; the answer is always success |
| HomePage.QueryParams | frontend/app/page.tsx:48-51 | "query" is sent iff the search text is non-empty; "type" iff the type is non-empty and not "全部素材"; "theme" iff a theme is active; the order is query, type, theme |
| HomePage.BuildParams | frontend/app/page.tsx:48-51 | the appends build exactly those parameters |
| HomePage.ParamsReachBackend | frontend/app/page.tsx:48-51 | the back end reads these parameters as the same filters the page's state describes |
| HomePage.Home.ClickUpload | frontend/app/page.tsx:290-293 | the upload button, disabled for whitespace-only text or during an upload, issues no request then; otherwise it starts `handleUpload` with the text and returns the render's filters |
| HomePage.Toggled | frontend/app/page.tsx:142 | clicking the active theme clears it; clicking another selects it |
| HomePage.ToggleTwice | frontend/app/page.tsx:142 | two clicks on a theme restore the state iff no theme or that theme was active |
| HomePage.CardChips | frontend/app/page.tsx:229-238 | a card shows its first two themes, then its first two tags only if it has fewer than two themes; never more than 3 chips |
| HomePage.TwoThemesHideTags | frontend/app/page.tsx:234 | a card with two or more themes shows no tag |
| HomePage.DisplayType | frontend/app/page.tsx:217 | an empty type displays as "未分类" |
| HomePage.DisplayContent | frontend/app/page.tsx:224 | empty content displays as the placeholder text |
| HomePage.UploadRequest | frontend/app/page.tsx:70-80 | a file goes as multipart to /api/upload; anything else goes as JSON `{text, type: "text"}` to /api/upload/text |
| HomePage.ListAfter | frontend/app/page.tsx:55-58 | only an ok response changes the list: to the array, or to [] when it is not one |
| HomePage.Home.constructor | frontend/app/page.tsx:27-35 | the page starts loading with the type "全部素材" and no other filter |
| HomePage.Home.StartFetch | frontend/app/page.tsx:45-54 | loading is set and the list request carries the current filters |
| HomePage.Home.FinishFetch | frontend/app/page.tsx:55-63 | the list follows `ListAfter`; loading is false on every path |
| HomePage.Home.ToggleTheme | frontend/app/page.tsx:142 | only the active theme changes |
| HomePage.Home.StartUpload | frontend/app/page.tsx:66-81 | uploading is set and the payload's request is issued; the render's filters are returned |
| HomePage.Home.FinishUpload | frontend/app/page.tsx:82-83 | an ok response closes the modal, clears the input and re-fetches with the filters of the render in which `handleUpload` began; otherwise both are kept; a network error alerts; uploading is always reset |
| HomePage.Home.StartDelete | frontend/app/page.tsx:86-91 | a declined confirm issues no request; a confirmed one issues DELETE for that id; the render's filters are returned |
| HomePage.Home.FinishDelete | frontend/app/page.tsx:91-92 | a delete that gets any response re-fetches the list with the filters of the render in which `handleDelete` began; a rejected one issues nothing more |
| UploadModal.KindFor | frontend/components/UploadModal.tsx:58-67 | the request type is "link" iff the trimmed text starts with "http", else "text" |
| UploadModal.CrawledIffLink | frontend/components/UploadModal.tsx:58 | the back end crawls a submitted text iff the dialog classed it as a link |
| UploadModal.MessageText | frontend/components/UploadModal.tsx:42 | the failure alert shows the response's message, or "undefined" without one |
| UploadModal.BackendSuccessRecognised | frontend/components/UploadModal.tsx:37 | the back end's success body passes the success test |
| UploadModal.BackendRefusalShown | frontend/components/UploadModal.tsx:42 | the back end's refusal fails the test and its message is shown |
| UploadModal.Reaction | frontend/components/UploadModal.tsx:36-46 | only `status === "success"` gives the success alert, then the success callback, then close; otherwise one failure or error alert |
| UploadModal.Dialog.constructor | frontend/components/UploadModal.tsx:14-17 | the dialog starts empty, not dragging and not loading |
| UploadModal.Dialog.Edit | frontend/components/UploadModal.tsx:165 | typing sets only the text |
| UploadModal.Dialog.StartFileUpload | frontend/components/UploadModal.tsx:23-34 | no file is a no-op; a file sets loading and is uploaded |
| UploadModal.Dialog.FinishFileUpload | frontend/components/UploadModal.tsx:36-49 | the outcome's events are recorded; the text is kept; loading is false on every path |
| UploadModal.Dialog.StartTextSubmit | frontend/components/UploadModal.tsx:53-68 | whitespace-only text changes nothing; otherwise loading is set and the untrimmed text is sent with its type |
| UploadModal.Dialog.ClickTextSubmit | frontend/components/UploadModal.tsx:170-174 | the submit button, disabled while loading or for whitespace-only text, issues no request then; otherwise it starts `handleTextSubmit` |
| UploadModal.Dialog.FinishTextSubmit | frontend/components/UploadModal.tsx:70-84 | only a success clears the text, before the callbacks; loading is false on every path |
| UploadModal.Dialog.DragOver | frontend/components/UploadModal.tsx:88-91 | dragging is set, nothing else changes |
| UploadModal.Dialog.DragLeave | frontend/components/UploadModal.tsx:93-96 | dragging is cleared, nothing else changes |
| UploadModal.Dialog.Drop | frontend/components/UploadModal.tsx:98-103 | a drop clears dragging and uploads only the first file, if there is one |

## Left out

- SQLite I/O (connect, execute, commit, close), table creation and the clock. The table is an in-memory map, and `now` is an argument.
- DbManager.StoredText: a `type` given as `None` (or as a list or dict) would reach the `category` cell as NULL or fail to bind; the model refuses the insert, because a row's fields are strings. A falsy `summary` never reaches the cell, because it is replaced by the derived one.
- DbManager.Holds: SQLite's LIKE is read as case-sensitive substring containment. LIKE's ASCII case-insensitivity and the wildcard meaning of `%` and `_` in the user's query are engine semantics that are not modelled.
- The OpenAI client, its configuration and the prompt texts of the upload, analysis and imitation calls. The client is a function argument that receives the text and returns the reply or an error message.
- `json.loads` and `json.dumps` are function arguments. Numbers are integers only.
- pdfplumber, python-docx, RapidOCR, requests and BeautifulSoup are function arguments, and so is the UTF-8/GBK byte decoding.
- FileService.ReadFileContent: `file.read()` and `filename.lower()` are taken as succeeding.
- HTTP plumbing: FastAPI routing, request validation, CORS, the environment, the base URL, and the encoding of query strings and form data.
- An exception that escapes an endpoint is status 500. Its text is not modelled.
- Rendering, CSS and layout, including Sidebar, MaterialCard, the layout and the Tailwind configuration.
- The effect that re-fetches the list when a filter changes. The model's `StartFetch` is that fetch. Overlapping list fetches can complete out of order; this concurrency is not modelled.
- The document-detail page (`frontend/app/document/[id]/page.tsx`), with its per-mode chat history and edit buffer, is not part of this model.
- `Text.Lower` maps ASCII letters only. Python's full Unicode case mapping in `filename.lower()` is not modelled; it can matter only for names that contain non-ASCII letters.
- HomePage cards: the page's `Material` interface declares `themes` and `tags` as required `string[]`. The model treats them as optional, which is more permissive than the interface. A wrongly typed JSON value is not modelled.
- Api.SaveAll: one `now` is used for a whole batch. The source reads the clock in each `save_document` call (`backend/database/db_manager.py:30`), so rows of one upload can carry different `created_at` seconds.
