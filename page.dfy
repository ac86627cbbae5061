/**
 * The home page of the front end: the filter state and the list it fetches,
 * the theme toggle, what a card shows, and the upload and delete handlers.
 *
 * A handler that awaits a request is split in two: `Start…` runs up to the
 * `await` and records the request it issues in `requests`; `Finish…` runs the
 * rest, given the request's outcome.  `alerts` records the `alert` calls.
 */
module HomePage {
  import opened Wrappers
  import opened Text
  import opened Json
  import DbManager

  const AllMaterials := DbManager.AllMaterials

  // ---------------------------------------------------------------------------
  // Query parameters of the list request

  /** The position of a parameter name in the order `fetchMaterials` appends them. */
  function Rank(key: string): int {
    if key == "query" then 0 else if key == "type" then 1 else if key == "theme" then 2 else 3
  }

  /** The parameters `fetchMaterials` appends, in this order: query, type, theme. */
  function QueryParams(searchQuery: string, activeType: string, activeTheme: string): (ps: seq<(string, string)>)
    ensures |ps| <= 3
    ensures ("query", searchQuery) in ps <==> searchQuery != ""
    ensures ("type", activeType) in ps <==> activeType != "" && activeType != AllMaterials
    ensures ("theme", activeTheme) in ps <==> activeTheme != ""
    ensures forall i :: 0 <= i < |ps| ==> ps[i] in [("query", searchQuery), ("type", activeType), ("theme", activeTheme)]
    ensures forall i, j :: 0 <= i < j < |ps| ==> Rank(ps[i].0) < Rank(ps[j].0)
  {
    (if searchQuery != "" then [("query", searchQuery)] else [])
    + (if activeType != "" && activeType != AllMaterials then [("type", activeType)] else [])
    + (if activeTheme != "" then [("theme", activeTheme)] else [])
  }

  /** `new URLSearchParams()` and its `append` calls. */
  method BuildParams(searchQuery: string, activeType: string, activeTheme: string) returns (ps: seq<(string, string)>)
    ensures ps == QueryParams(searchQuery, activeType, activeTheme)
  {
    ps := [];
    if searchQuery != "" {
      ps := ps + [("query", searchQuery)];
    }
    if activeType != "" && activeType != AllMaterials {
      ps := ps + [("type", activeType)];
    }
    if activeTheme != "" {
      ps := ps + [("theme", activeTheme)];
    }
  }

  /** The value the back end reads for a query parameter; an absent one is None. */
  function Lookup(ps: seq<(string, string)>, key: string): (r: Option<string>)
    ensures r.None? <==> forall i :: 0 <= i < |ps| ==> ps[i].0 != key
    ensures r.Some? ==> (key, r.value) in ps
  {
    if ps == [] then None
    else if ps[0].0 == key then Some(ps[0].1)
    else Lookup(ps[1..], key)
  }

  /**
   * The back end, reading these parameters (an absent one as empty), applies
   * exactly the filters the page's state describes; "全部素材" is sent as no
   * type at all, which the back end also reads as no category filter.
   */
  lemma ParamsReachBackend(searchQuery: string, activeType: string, activeTheme: string)
    ensures var ps := QueryParams(searchQuery, activeType, activeTheme);
      DbManager.Conditions(Lookup(ps, "query").GetOr(""), Lookup(ps, "type").GetOr(""), Lookup(ps, "theme").GetOr(""))
      == DbManager.Conditions(searchQuery, activeType, activeTheme)
  {
    var ps := QueryParams(searchQuery, activeType, activeTheme);
    assert Lookup(ps, "query").GetOr("") == searchQuery;
    if activeType != "" && activeType != AllMaterials {
      assert Lookup(ps, "type") == Some(activeType);
    } else {
      assert Lookup(ps, "type").None?;
    }
    if activeTheme != "" {
      assert Lookup(ps, "theme") == Some(activeTheme);
    } else {
      assert Lookup(ps, "theme").None?;
    }
  }

  // ---------------------------------------------------------------------------
  // Theme toggle

  /** Clicking a theme: the active one is cleared, any other becomes active. */
  function Toggled(activeTheme: string, theme: string): (r: string)
    ensures activeTheme == theme ==> r == ""
    ensures activeTheme != theme ==> r == theme
  {
    if activeTheme == theme then "" else theme
  }

  /** Clicking the same theme twice restores the state exactly when no theme or that theme was active. */
  lemma ToggleTwice(activeTheme: string, theme: string)
    ensures Toggled(Toggled(activeTheme, theme), theme) == activeTheme <==> activeTheme == "" || activeTheme == theme
  {
  }

  // ---------------------------------------------------------------------------
  // What a card shows

  datatype Chip = ThemeChip(theme: string) | TagChip(tag: string)

  function ThemeChips(themes: seq<string>): (r: seq<Chip>)
    ensures |r| == |themes|
    ensures forall i :: 0 <= i < |r| ==> r[i] == ThemeChip(themes[i])
  {
    seq(|themes|, i requires 0 <= i < |themes| => ThemeChip(themes[i]))
  }

  function TagChips(tags: seq<string>): (r: seq<Chip>)
    ensures |r| == |tags|
    ensures forall i :: 0 <= i < |r| ==> r[i] == TagChip(tags[i])
  {
    seq(|tags|, i requires 0 <= i < |tags| => TagChip(tags[i]))
  }

  /** JavaScript's `xs.slice(0, n)` on an array. */
  function FirstN<T>(xs: seq<T>, n: nat): (r: seq<T>)
    ensures |r| == if n < |xs| then n else |xs|
    ensures r == xs[..|r|]
  {
    if n < |xs| then xs[..n] else xs
  }

  /** Whether the tag chips appear: the card has no themes, or fewer than 2. */
  predicate ShowsTags(themes: Option<seq<string>>) {
    themes.None? || |themes.value| < 2
  }

  /**
   * The chips under a card: its first two themes, then its first two tags
   * when it has fewer than two themes.
   */
  function CardChips(themes: Option<seq<string>>, tags: Option<seq<string>>): (r: seq<Chip>)
    ensures |r| <= 3
    ensures var shown := if themes.Some? then FirstN(themes.value, 2) else [];
      && |shown| <= |r|
      && r[..|shown|] == ThemeChips(shown)
      && (ShowsTags(themes) && tags.Some? ==> r[|shown|..] == TagChips(FirstN(tags.value, 2)))
      && (!ShowsTags(themes) || tags.None? ==> |r| == |shown|)
  {
    var themeChips := if themes.Some? then ThemeChips(FirstN(themes.value, 2)) else [];
    var tagChips := if ShowsTags(themes) && tags.Some? then TagChips(FirstN(tags.value, 2)) else [];
    themeChips + tagChips
  }

  /** A card never shows a tag next to two themes. */
  lemma TwoThemesHideTags(themes: seq<string>, tags: Option<seq<string>>)
    requires |themes| >= 2
    ensures forall c :: c in CardChips(Some(themes), tags) ==> c.ThemeChip?
  {
  }

  const Uncategorised := DbManager.Uncategorised
  const NoPreview := "（暂无内容预览，请点击查看详情）"

  /** `item.type || "未分类"`. */
  function DisplayType(kind: Option<string>): (r: string)
    ensures r != ""
    ensures kind.Some? && kind.value != "" ==> r == kind.value
    ensures kind.None? || kind == Some("") ==> r == Uncategorised
  {
    if kind.Some? && kind.value != "" then kind.value else Uncategorised
  }

  /** `item.content || "（暂无内容预览，请点击查看详情）"`. */
  function DisplayContent(content: Option<string>): (r: string)
    ensures r != ""
    ensures content.Some? && content.value != "" ==> r == content.value
    ensures content.None? || content == Some("") ==> r == NoPreview
  {
    if content.Some? && content.value != "" then content.value else NoPreview
  }

  // ---------------------------------------------------------------------------
  // Requests

  /** What `handleUpload` is given: the chosen file, the text, or `files[0]` of an empty list. */
  datatype Payload = FilePayload(name: string) | TextPayload(text: string) | Missing

  datatype Request =
    | ListDocuments(params: seq<(string, string)>)   // GET /api/documents?…
    | UploadFile(file: string)                        // POST /api/upload, multipart field "file"
    | UploadText(body: Json)                          // POST /api/upload/text, JSON body
    | DeleteDocument(id: int)                         // DELETE /api/documents/{id}

  /** An uploaded payload's request: a file as multipart, anything else as `{text, type: "text"}`. */
  function UploadRequest(payload: Payload): (r: Request)
    ensures r.UploadFile? <==> payload.FilePayload?
    ensures payload.FilePayload? ==> r == UploadFile(payload.name)
    ensures payload.TextPayload? ==> r == UploadText(Obj(map["text" := Str(payload.text), "type" := Str("text")]))
    ensures payload.Missing? ==> r == UploadText(Obj(map["type" := Str("text")]))
  {
    match payload
    case FilePayload(name) => UploadFile(name)
    case TextPayload(text) => UploadText(Obj(map["text" := Str(text), "type" := Str("text")]))
    // JSON.stringify drops a field whose value is undefined
    case Missing => UploadText(Obj(map["type" := Str("text")]))
  }

  /**
   * The filters a render of the page holds.  A handler calls the
   * `fetchMaterials` of the render in which it began, so a re-fetch after an
   * `await` uses the filters captured then, not the current ones.
   */
  datatype Filters = Filters(query: string, docType: string, theme: string)

  /** How an awaited `fetch` ends: it rejects, or a response arrives whose body may not be JSON. */
  datatype Outcome = NetworkError | Response(ok: bool, body: Option<Json>)

  /** The upload button is disabled for whitespace-only text and during an upload. */
  predicate UploadDisabled(inputText: string, uploading: bool) {
    Strip(JavaScript, inputText) == "" || uploading
  }

  /** The list after a list request: kept unless an ok response arrived, then the array or []. */
  function ListAfter(materials: seq<Json>, outcome: Outcome): (r: seq<Json>)
    ensures !(outcome.Response? && outcome.ok && outcome.body.Some?) ==> r == materials
    ensures outcome.Response? && outcome.ok && outcome.body.Some? ==>
      r == (if outcome.body.value.Arr? then outcome.body.value.items else [])
  {
    match outcome
    case Response(true, Some(Arr(items))) => items
    case Response(true, Some(_)) => []
    case _ => materials
  }

  // ---------------------------------------------------------------------------
  // The page's state

  class Home {
    var materials: seq<Json>
    var loading: bool
    var uploading: bool
    var showUploadModal: bool
    var searchQuery: string
    var activeType: string
    var activeTheme: string
    var inputText: string
    var requests: seq<Request>
    var alerts: seq<string>

    constructor ()
      ensures materials == [] && loading && !uploading && !showUploadModal
      ensures searchQuery == "" && activeType == AllMaterials && activeTheme == "" && inputText == ""
      ensures requests == [] && alerts == []
    {
      materials := [];
      loading := true;
      uploading := false;
      showUploadModal := false;
      searchQuery := "";
      activeType := AllMaterials;
      activeTheme := "";
      inputText := "";
      requests := [];
      alerts := [];
    }

    /** The filters of the current render. */
    function Rendered(): (f: Filters)
      reads this
      ensures f.query == searchQuery && f.docType == activeType && f.theme == activeTheme
    {
      Filters(searchQuery, activeType, activeTheme)
    }

    /** A render's `fetchMaterials` up to its `await`: loading, and the list request with that render's filters. */
    method FetchWith(f: Filters)
      modifies this
      ensures loading
      ensures requests == old(requests) + [ListDocuments(QueryParams(f.query, f.docType, f.theme))]
      ensures materials == old(materials) && uploading == old(uploading) && showUploadModal == old(showUploadModal)
      ensures searchQuery == old(searchQuery) && activeType == old(activeType) && activeTheme == old(activeTheme)
      ensures inputText == old(inputText) && alerts == old(alerts)
    {
      loading := true;
      var params := BuildParams(f.query, f.docType, f.theme);
      requests := requests + [ListDocuments(params)];
    }

    /** `fetchMaterials` of the current render up to its `await`: the list request with the current filters. */
    method StartFetch()
      modifies this
      ensures loading
      ensures requests == old(requests) + [ListDocuments(QueryParams(searchQuery, activeType, activeTheme))]
      ensures materials == old(materials) && uploading == old(uploading) && showUploadModal == old(showUploadModal)
      ensures searchQuery == old(searchQuery) && activeType == old(activeType) && activeTheme == old(activeTheme)
      ensures inputText == old(inputText) && alerts == old(alerts)
    {
      FetchWith(Rendered());
    }

    /** The rest of `fetchMaterials`: the list is replaced only by an ok response; loading ends on every path. */
    method FinishFetch(outcome: Outcome)
      modifies this
      ensures !loading
      ensures materials == ListAfter(old(materials), outcome)
      ensures uploading == old(uploading) && showUploadModal == old(showUploadModal)
      ensures searchQuery == old(searchQuery) && activeType == old(activeType) && activeTheme == old(activeTheme)
      ensures inputText == old(inputText) && requests == old(requests) && alerts == old(alerts)
    {
      if outcome.Response? && outcome.ok {
        match outcome.body {
          case None =>        // res.json() rejects: caught, the list is kept
          case Some(data) =>
            materials := if data.Arr? then data.items else [];
        }
      }
      loading := false;
    }

    /** A click on a theme chip in the sidebar. */
    method ToggleTheme(theme: string)
      modifies this
      ensures activeTheme == Toggled(old(activeTheme), theme)
      ensures materials == old(materials) && loading == old(loading) && uploading == old(uploading)
      ensures showUploadModal == old(showUploadModal) && searchQuery == old(searchQuery)
      ensures activeType == old(activeType) && inputText == old(inputText)
      ensures requests == old(requests) && alerts == old(alerts)
    {
      activeTheme := if activeTheme == theme then "" else theme;
    }

    /** `handleUpload` up to its `await`; `captured` are the filters of the render it began in. */
    method StartUpload(payload: Payload) returns (captured: Filters)
      modifies this
      ensures captured == Filters(old(searchQuery), old(activeType), old(activeTheme))
      ensures uploading
      ensures requests == old(requests) + [UploadRequest(payload)]
      ensures materials == old(materials) && loading == old(loading) && showUploadModal == old(showUploadModal)
      ensures searchQuery == old(searchQuery) && activeType == old(activeType) && activeTheme == old(activeTheme)
      ensures inputText == old(inputText) && alerts == old(alerts)
    {
      captured := Rendered();
      uploading := true;
      match payload {
        case FilePayload(name) =>
          requests := requests + [UploadFile(name)];
        case TextPayload(text) =>
          requests := requests + [UploadText(Obj(map["text" := Str(text), "type" := Str("text")]))];
        case Missing =>
          requests := requests + [UploadText(Obj(map["type" := Str("text")]))];
      }
    }

    /**
     * A click on the text upload button: a disabled button does nothing; an
     * enabled one runs `handleUpload(inputText)` up to its `await`.
     */
    method ClickUpload() returns (started: bool, captured: Filters)
      modifies this
      ensures started <==> !UploadDisabled(old(inputText), old(uploading))
      ensures captured == Filters(old(searchQuery), old(activeType), old(activeTheme))
      ensures !started ==> uploading == old(uploading) && requests == old(requests)
      ensures started ==> uploading && requests == old(requests) + [UploadRequest(TextPayload(inputText))]
      ensures materials == old(materials) && loading == old(loading) && showUploadModal == old(showUploadModal)
      ensures searchQuery == old(searchQuery) && activeType == old(activeType) && activeTheme == old(activeTheme)
      ensures inputText == old(inputText) && alerts == old(alerts)
    {
      if UploadDisabled(inputText, uploading) {
        return false, Rendered();
      }
      captured := StartUpload(TextPayload(inputText));
      started := true;
    }

    /**
     * The rest of `handleUpload`: an ok response closes the modal, clears the
     * input and starts a new list request with the filters `captured` when
     * the handler began; a rejected request alerts; a non-ok response changes
     * nothing else; `uploading` ends on every path.
     */
    method FinishUpload(outcome: Outcome, captured: Filters)
      modifies this
      ensures !uploading
      ensures outcome.Response? && outcome.ok ==>
        && !showUploadModal && inputText == "" && loading
        && requests == old(requests) + [ListDocuments(QueryParams(captured.query, captured.docType, captured.theme))]
        && alerts == old(alerts)
      ensures outcome.NetworkError? ==>
        && showUploadModal == old(showUploadModal) && inputText == old(inputText) && loading == old(loading)
        && requests == old(requests) && alerts == old(alerts) + ["上传失败"]
      ensures outcome.Response? && !outcome.ok ==>
        && showUploadModal == old(showUploadModal) && inputText == old(inputText) && loading == old(loading)
        && requests == old(requests) && alerts == old(alerts)
      ensures materials == old(materials)
      ensures searchQuery == old(searchQuery) && activeType == old(activeType) && activeTheme == old(activeTheme)
    {
      match outcome {
        case NetworkError =>
          alerts := alerts + ["上传失败"];
        case Response(ok, _) =>
          if ok {
            showUploadModal := false;
            inputText := "";
            FetchWith(captured);
          }
      }
      uploading := false;
    }

    /** `handleDelete` up to its `await`: nothing unless the user confirmed; `captured` as in `StartUpload`. */
    method StartDelete(confirmed: bool, id: int) returns (captured: Filters)
      modifies this
      ensures captured == Filters(old(searchQuery), old(activeType), old(activeTheme))
      ensures requests == old(requests) + (if confirmed then [DeleteDocument(id)] else [])
      ensures materials == old(materials) && loading == old(loading) && uploading == old(uploading)
      ensures showUploadModal == old(showUploadModal) && searchQuery == old(searchQuery)
      ensures activeType == old(activeType) && activeTheme == old(activeTheme)
      ensures inputText == old(inputText) && alerts == old(alerts)
    {
      captured := Rendered();
      if confirmed {
        requests := requests + [DeleteDocument(id)];
      }
    }

    /**
     * The rest of `handleDelete`: whatever the response, the list is requested
     * again with the `captured` filters; a rejected request ends the handler.
     */
    method FinishDelete(outcome: Outcome, captured: Filters)
      modifies this
      ensures outcome.Response? ==>
        loading && requests == old(requests) + [ListDocuments(QueryParams(captured.query, captured.docType, captured.theme))]
      ensures outcome.NetworkError? ==> loading == old(loading) && requests == old(requests)
      ensures materials == old(materials) && uploading == old(uploading)
      ensures showUploadModal == old(showUploadModal) && searchQuery == old(searchQuery)
      ensures activeType == old(activeType) && activeTheme == old(activeTheme)
      ensures inputText == old(inputText) && alerts == old(alerts)
    {
      if outcome.Response? {
        FetchWith(captured);
      }
    }
  }
}
