/**
 * The `documents` table of the material library: an in-memory model of the
 * SQLite table with an AUTOINCREMENT id, the derivations applied on write,
 * the query builder of `get_documents` and the filter it implies.
 *
 * `json.dumps` and `json.loads` are the table's `dump` and `parse`; the clock
 * is the `now` argument of `SaveDocument`.
 */
module DbManager {
  import opened Wrappers
  import opened Text
  import opened Json

  const Uncategorised := "未分类"
  const AllMaterials := "全部素材"
  const SummaryLength := 50
  const Ellipsis := "..."

  /** One stored row; `tags` and `themes` hold the JSON text written by `dump`. */
  datatype Row = Row(
    content: string,
    summary: string,
    tags: string,
    themes: string,
    category: string,
    createdAt: string)

  /** A row as both getters return it: `tags` and `themes` decoded. */
  datatype Document = Document(
    id: int,
    content: string,
    summary: string,
    tags: Json,
    themes: Json,
    category: string,
    createdAt: string)

  /** Why an insert is refused: a `type` or `summary` value SQLite cannot store as text. */
  datatype SaveError = UnstorableType | UnstorableSummary

  // ---------------------------------------------------------------------------
  // Derivations on write

  /** The summary written when none is given: 50 characters, newlines as spaces, then "...". */
  function DerivedSummary(content: string): (r: string)
    ensures |r| == |Take(content, SummaryLength)| + 3 && |r| <= 53
    ensures '\n' !in r
    ensures EndsWith(r, Ellipsis)
    ensures forall i :: 0 <= i < |r| - 3 ==> r[i] == if content[i] == '\n' then ' ' else content[i]
  {
    ReplaceChar(Take(content, SummaryLength), '\n', ' ') + Ellipsis
  }

  /** The text SQLite keeps in a TEXT column for a bound scalar; lists, dicts and None are not modelled. */
  function StoredText(v: Json): (r: Option<string>)
    ensures v.Str? ==> r == Some(v.s)
    ensures (v.Null? || v.Arr? || v.Obj?) ==> r == None
  {
    match v
    case Str(s) => Some(s)
    case Num(n) => Some(Decimal(n))
    case Bool(b) => Some(if b then "1" else "0")
    case _ => None
  }

  /** `meta_data.get("type", "未分类")`. */
  function CategoryOf(meta: map<string, Json>): (r: Result<string, SaveError>)
    ensures "type" !in meta ==> r == Success(Uncategorised)
    ensures "type" in meta && meta["type"].Str? ==> r == Success(meta["type"].s)
  {
    if "type" !in meta then Success(Uncategorised)
    else match StoredText(meta["type"])
      case Some(s) => Success(s)
      case None => Failure(UnstorableType)
  }

  /** `meta_data.get("summary")`, replaced by the derived summary when missing or falsy. */
  function SummaryOf(meta: map<string, Json>, content: string): (r: Result<string, SaveError>)
    ensures !Truthy(Get(meta, "summary", Null)) ==> r == Success(DerivedSummary(content))
    ensures "summary" in meta && meta["summary"].Str? && meta["summary"].s != "" ==>
              r == Success(meta["summary"].s)
  {
    var given := Get(meta, "summary", Null);
    if !Truthy(given) then Success(DerivedSummary(content))
    else match StoredText(given)
      case Some(s) => Success(s)
      case None => Failure(UnstorableSummary)
  }

  /** The row `save_document(content, meta)` inserts. */
  function NewRow(content: string, meta: map<string, Json>, now: string, dump: Json -> string): (r: Result<Row, SaveError>)
    ensures r.Success? <==> CategoryOf(meta).Success? && SummaryOf(meta, content).Success?
    ensures r.Success? ==>
      && r.value.content == content
      && r.value.category == CategoryOf(meta).value
      && r.value.summary == SummaryOf(meta, content).value
      && r.value.tags == dump(Get(meta, "tags", Arr([])))
      && r.value.themes == dump(Get(meta, "themes", Arr([])))
      && r.value.createdAt == now
  {
    match CategoryOf(meta)
    case Failure(e) => Failure(e)
    case Success(category) =>
      match SummaryOf(meta, content)
      case Failure(e) => Failure(e)
      case Success(summary) =>
        Success(Row(content, summary, dump(Get(meta, "tags", Arr([]))), dump(Get(meta, "themes", Arr([]))), category, now))
  }

  // ---------------------------------------------------------------------------
  // Reading rows back

  /** A row as the getters return it: a column that fails to decode becomes `[]`. */
  function Decode(id: int, row: Row, parse: string -> Option<Json>): (d: Document)
    ensures d.id == id && d.content == row.content && d.summary == row.summary
    ensures d.category == row.category && d.createdAt == row.createdAt
    ensures parse(row.tags).None? ==> d.tags == Arr([])
    ensures parse(row.tags).Some? ==> d.tags == parse(row.tags).value
    ensures parse(row.themes).None? ==> d.themes == Arr([])
    ensures parse(row.themes).Some? ==> d.themes == parse(row.themes).value
  {
    Document(id, row.content, row.summary, parse(row.tags).GetOr(Arr([])),
             parse(row.themes).GetOr(Arr([])), row.category, row.createdAt)
  }

  /** With a codec that reads back what it writes, a saved row decodes to the tags and themes it was given. */
  lemma SavedRowReadsBack(id: int, content: string, meta: map<string, Json>, now: string,
                          dump: Json -> string, parse: string -> Option<Json>)
    requires forall v :: parse(dump(v)) == Some(v)
    requires NewRow(content, meta, now, dump).Success?
    ensures var d := Decode(id, NewRow(content, meta, now, dump).value, parse);
      && d.content == content
      && d.tags == Get(meta, "tags", Arr([]))
      && d.themes == Get(meta, "themes", Arr([]))
      && d.category == (if "type" in meta then StoredText(meta["type"]).value else Uncategorised)
  {
    var row := NewRow(content, meta, now, dump).value;
    assert parse(dump(Get(meta, "tags", Arr([])))) == Some(Get(meta, "tags", Arr([])));
    assert parse(dump(Get(meta, "themes", Arr([])))) == Some(Get(meta, "themes", Arr([])));
  }

  // ---------------------------------------------------------------------------
  // State changes as functions of the row map

  /** `UPDATE documents SET content = ?, summary = ? WHERE id = ?`. */
  function Updated(rows: map<int, Row>, id: int, content: string): (r: map<int, Row>)
    ensures r.Keys == rows.Keys
    ensures forall k :: k in rows && k != id ==> r[k] == rows[k]
    ensures id in rows ==>
      && r[id].content == content
      && r[id].summary == DerivedSummary(content)
      && r[id].tags == rows[id].tags
      && r[id].themes == rows[id].themes
      && r[id].category == rows[id].category
      && r[id].createdAt == rows[id].createdAt
  {
    if id in rows then rows[id := rows[id].(content := content, summary := DerivedSummary(content))]
    else rows
  }

  /** `DELETE FROM documents WHERE id = ?`. */
  function Removed(rows: map<int, Row>, id: int): (r: map<int, Row>)
    ensures r.Keys == rows.Keys - {id}
    ensures forall k :: k in r ==> r[k] == rows[k]
  {
    rows - {id}
  }

  /** Updating twice with the same content is the same as updating once. */
  lemma UpdateIdempotent(rows: map<int, Row>, id: int, content: string)
    ensures Updated(Updated(rows, id, content), id, content) == Updated(rows, id, content)
  {
  }

  // ---------------------------------------------------------------------------
  // The query of get_documents

  /** One optional filter of `get_documents`. */
  datatype Condition =
    | MatchesText(term: string)    // query: content, summary, tags or themes mention it
    | CategoryIs(category: string) // type: the category equals it
    | ThemesMention(theme: string) // theme: the stored themes text mentions it

  /** The filters `get_documents(query, type, theme)` applies, in the order it appends them. */
  function Conditions(query: string, docType: string, theme: string): (cs: seq<Condition>)
    ensures |cs| <= 3
    ensures MatchesText(query) in cs <==> query != ""
    ensures CategoryIs(docType) in cs <==> docType != "" && docType != AllMaterials
    ensures ThemesMention(theme) in cs <==> theme != ""
    ensures forall c :: c in cs ==> c == MatchesText(query) || c == CategoryIs(docType) || c == ThemesMention(theme)
  {
    Opt(query != "", MatchesText(query))
    + Opt(docType != "" && docType != AllMaterials, CategoryIs(docType))
    + Opt(theme != "", ThemesMention(theme))
  }

  /** The one condition when its parameter is set, otherwise none. */
  function Opt(present: bool, c: Condition): (r: seq<Condition>)
    ensures r == if present then [c] else []
  {
    if present then [c] else []
  }

  /** What a condition means for one row; LIKE '%x%' is read as "contains x". */
  predicate Holds(c: Condition, row: Row) {
    match c
    case MatchesText(q) =>
      Contains(row.content, q) || Contains(row.summary, q) || Contains(row.tags, q) || Contains(row.themes, q)
    case CategoryIs(t) => row.category == t
    case ThemesMention(t) => Contains(row.themes, t)
  }

  predicate HoldsAll(cs: seq<Condition>, row: Row) {
    forall c :: c in cs ==> Holds(c, row)
  }

  const SelectAll := "SELECT * FROM documents WHERE 1=1"
  const OrderByIdDesc := " ORDER BY id DESC"

  /** SQL text with a `?` placeholder between consecutive pieces. */
  function WithPlaceholders(pieces: seq<string>): string
    requires pieces != []
  {
    if |pieces| == 1 then pieces[0] else pieces[0] + "?" + WithPlaceholders(pieces[1..])
  }

  /** Pieces free of `?` give exactly one placeholder per gap. */
  lemma {:induction false} PlaceholderCount(pieces: seq<string>)
    requires pieces != [] && forall p :: p in pieces ==> '?' !in p
    ensures Count(WithPlaceholders(pieces), '?') == |pieces| - 1
  {
    CountAbsent(pieces[0], '?');
    if |pieces| > 1 {
      PlaceholderCount(pieces[1..]);
      CountAppend(pieces[0], "?", '?');
      CountAppend(pieces[0] + "?", WithPlaceholders(pieces[1..]), '?');
    }
  }

  const SearchPieces := [" AND (content LIKE ", " OR summary LIKE ", " OR tags LIKE ", " OR themes LIKE ", ")"]
  const CategoryPieces := [" AND category = ", ""]
  const ThemePieces := [" AND themes LIKE ", ""]

  const SearchClause := WithPlaceholders(SearchPieces)
  const CategoryClause := WithPlaceholders(CategoryPieces)
  const ThemeClause := WithPlaceholders(ThemePieces)

  /** The SQL text a condition appends. */
  function Clause(c: Condition): string {
    match c
    case MatchesText(_) => SearchClause
    case CategoryIs(_) => CategoryClause
    case ThemesMention(_) => ThemeClause
  }

  /** The parameters a condition appends: `%term%` four times, the type, or `%theme%`. */
  function ClauseParams(c: Condition): seq<string> {
    match c
    case MatchesText(q) => var term := "%" + q + "%"; [term, term, term, term]
    case CategoryIs(t) => [t]
    case ThemesMention(t) => ["%" + t + "%"]
  }

  /** Each clause has exactly as many placeholders as the parameters it appends. */
  lemma ClausePlaceholders(c: Condition)
    ensures Count(Clause(c), '?') == |ClauseParams(c)|
  {
    match c
    case MatchesText(_) => PlaceholderCount(SearchPieces);
    case CategoryIs(_) => PlaceholderCount(CategoryPieces);
    case ThemesMention(_) => PlaceholderCount(ThemePieces);
  }

  /** `f` applied to each element, the results concatenated in order. */
  function ConcatMap<T, U>(f: T -> seq<U>, xs: seq<T>): seq<U> {
    if xs == [] then [] else f(xs[0]) + ConcatMap(f, xs[1..])
  }

  lemma {:induction false} ConcatMapAppend<T, U>(f: T -> seq<U>, xs: seq<T>, ys: seq<T>)
    ensures ConcatMap(f, xs + ys) == ConcatMap(f, xs) + ConcatMap(f, ys)
  {
    if xs == [] {
      assert xs + ys == ys;
    } else {
      assert (xs + ys)[0] == xs[0];
      assert (xs + ys)[1..] == xs[1..] + ys;
      ConcatMapAppend(f, xs[1..], ys);
    }
  }

  lemma ConcatMapOne<T, U>(f: T -> seq<U>, x: T)
    ensures ConcatMap(f, [x]) == f(x)
  {
    assert ConcatMap(f, [x]) == f(x) + ConcatMap(f, [x][1..]);
    assert [x][1..] == [];
  }

  lemma ConcatMapSnoc<T, U>(f: T -> seq<U>, xs: seq<T>, x: T)
    ensures ConcatMap(f, xs + [x]) == ConcatMap(f, xs) + f(x)
  {
    ConcatMapAppend(f, xs, [x]);
    assert [x][1..] == [];
  }

  /** The SQL text the conditions append, in order. */
  function Clauses(cs: seq<Condition>): string {
    ConcatMap(Clause, cs)
  }

  /** The parameters the conditions append, in order. */
  function Params(cs: seq<Condition>): seq<string> {
    ConcatMap(ClauseParams, cs)
  }

  /** Every placeholder of the assembled clauses is matched by exactly one parameter. */
  lemma {:induction false} ClausesPlaceholders(cs: seq<Condition>)
    ensures Count(Clauses(cs), '?') == |Params(cs)|
  {
    if cs != [] {
      ClausePlaceholders(cs[0]);
      ClausesPlaceholders(cs[1..]);
      CountAppend(Clause(cs[0]), Clauses(cs[1..]), '?');
    }
  }

  /** The SQL text `get_documents` executes for these conditions. */
  function QueryText(cs: seq<Condition>): string {
    SelectAll + Clauses(cs) + OrderByIdDesc
  }

  /** The whole statement has exactly one parameter per placeholder. */
  lemma QueryPlaceholders(cs: seq<Condition>)
    ensures Count(QueryText(cs), '?') == |Params(cs)|
  {
    ClausesPlaceholders(cs);
    CountBetween(SelectAll, Clauses(cs), OrderByIdDesc, '?');
  }

  /** How many parameters each filter contributes, and what they are. */
  lemma ParamsOfConditions(query: string, docType: string, theme: string)
    ensures Params(Conditions(query, docType, theme))
         == (if query != "" then ["%" + query + "%", "%" + query + "%", "%" + query + "%", "%" + query + "%"] else [])
          + (if docType != "" && docType != AllMaterials then [docType] else [])
          + (if theme != "" then ["%" + theme + "%"] else [])
  {
    var a := Opt(query != "", MatchesText(query));
    var b := Opt(docType != "" && docType != AllMaterials, CategoryIs(docType));
    var c := Opt(theme != "", ThemesMention(theme));
    ConcatMapAppend(ClauseParams, a, b);
    ConcatMapAppend(ClauseParams, a + b, c);
    OptText(query != "", MatchesText(query));
    OptText(docType != "" && docType != AllMaterials, CategoryIs(docType));
    OptText(theme != "", ThemesMention(theme));
  }

  /** An optional condition contributes its clause and parameters, or nothing. */
  lemma OptText(present: bool, c: Condition)
    ensures Clauses(Opt(present, c)) == if present then Clause(c) else ""
    ensures Params(Opt(present, c)) == if present then ClauseParams(c) else []
  {
    if present {
      ConcatMapOne(Clause, c);
      ConcatMapOne(ClauseParams, c);
    }
  }

  /**
   * The SQL text and parameter list of `get_documents`, built by appending as
   * the source does.
   */
  method BuildQuery(query: string, docType: string, theme: string) returns (sql: string, params: seq<string>)
    ensures sql == QueryText(Conditions(query, docType, theme))
    ensures params == Params(Conditions(query, docType, theme))
    ensures Count(sql, '?') == |params|
  {
    // each filter appends its clause (`Clause`) and its parameters (`ClauseParams`)
    ghost var a := Opt(query != "", MatchesText(query));
    ghost var b := Opt(docType != "" && docType != AllMaterials, CategoryIs(docType));
    ghost var c := Opt(theme != "", ThemesMention(theme));
    OptText(query != "", MatchesText(query));
    sql := SelectAll;
    params := [];
    if query != "" {
      sql, params := sql + Clause(MatchesText(query)), params + ClauseParams(MatchesText(query));
    }
    assert sql == SelectAll + Clauses(a) && params == Params(a);
    if docType != "" && docType != AllMaterials {
      Extend(SelectAll, a, CategoryIs(docType));
      sql, params := sql + Clause(CategoryIs(docType)), params + ClauseParams(CategoryIs(docType));
    } else {
      assert a + b == a;
    }
    assert sql == SelectAll + Clauses(a + b) && params == Params(a + b);
    if theme != "" {
      Extend(SelectAll, a + b, ThemesMention(theme));
      sql, params := sql + Clause(ThemesMention(theme)), params + ClauseParams(ThemesMention(theme));
    } else {
      assert a + b + c == a + b;
    }
    ghost var done := a + b + c;
    QueryPlaceholders(done);
    sql := sql + OrderByIdDesc;
  }

  /** Appending one condition's clause to the text for `cs` gives the text for `cs + [c]`. */
  lemma Extend(prefix: string, cs: seq<Condition>, c: Condition)
    ensures prefix + Clauses(cs) + Clause(c) == prefix + Clauses(cs + [c])
    ensures Params(cs) + ClauseParams(c) == Params(cs + [c])
  {
    ConcatMapSnoc(Clause, cs, c);
    ConcatMapSnoc(ClauseParams, cs, c);
    AppendAssoc(prefix, Clauses(cs), Clause(c));
  }

  lemma AppendAssoc<T>(a: seq<T>, b: seq<T>, c: seq<T>)
    ensures a + b + c == a + (b + c)
  {
  }

  // ---------------------------------------------------------------------------
  // The listing: matching rows, newest id first

  /** The decoded matching rows with ids in [lo, hi), highest id first. */
  function Listing(rows: map<int, Row>, parse: string -> Option<Json>, cs: seq<Condition>, lo: int, hi: int): seq<Document>
    decreases hi - lo
  {
    if hi <= lo then []
    else
      Listing(rows, parse, cs, lo + 1, hi)
      + (if lo in rows && HoldsAll(cs, rows[lo]) then [Decode(lo, rows[lo], parse)] else [])
  }

  function Ids(docs: seq<Document>): (r: seq<int>)
    ensures |r| == |docs|
    ensures forall k :: 0 <= k < |docs| ==> r[k] == docs[k].id
  {
    seq(|docs|, k requires 0 <= k < |docs| => docs[k].id)
  }

  /** A listing entry: the decoded row of an id in [lo, hi). */
  predicate EntryOf(d: Document, rows: map<int, Row>, parse: string -> Option<Json>, lo: int, hi: int) {
    lo <= d.id < hi && d.id in rows && d == Decode(d.id, rows[d.id], parse)
  }

  /** Each entry of the listing is a decoded row with an id in range, and the ids descend. */
  lemma {:induction false} ListingEntries(rows: map<int, Row>, parse: string -> Option<Json>, cs: seq<Condition>, lo: int, hi: int)
    ensures forall k :: 0 <= k < |Listing(rows, parse, cs, lo, hi)| ==>
      EntryOf(Listing(rows, parse, cs, lo, hi)[k], rows, parse, lo, hi)
    ensures forall j, k :: 0 <= j < k < |Listing(rows, parse, cs, lo, hi)| ==>
      Listing(rows, parse, cs, lo, hi)[j].id > Listing(rows, parse, cs, lo, hi)[k].id
    decreases hi - lo
  {
    if hi > lo {
      ListingEntries(rows, parse, cs, lo + 1, hi);
      var rest := Listing(rows, parse, cs, lo + 1, hi);
      var r := Listing(rows, parse, cs, lo, hi);
      var here := if lo in rows && HoldsAll(cs, rows[lo]) then [Decode(lo, rows[lo], parse)] else [];
      assert r == rest + here;
      // the entry for `lo`, if any, comes last and has the smallest id
      forall k | 0 <= k < |r|
        ensures EntryOf(r[k], rows, parse, lo, hi)
      {
        if k < |rest| {
          assert r[k] == rest[k];
        } else {
          assert r[k] == here[0];
        }
      }
      forall j, k | 0 <= j < k < |r|
        ensures r[j].id > r[k].id
      {
        assert r[j] == rest[j];
        if k < |rest| {
          assert r[k] == rest[k];
        } else {
          assert r[k] == here[0];
        }
      }
    }
  }

  /** The ids of the listing are exactly the matching rows' ids in range. */
  lemma {:induction false} ListingIds(rows: map<int, Row>, parse: string -> Option<Json>, cs: seq<Condition>, lo: int, hi: int)
    ensures forall id :: id in Ids(Listing(rows, parse, cs, lo, hi)) <==> lo <= id < hi && id in rows && HoldsAll(cs, rows[id])
    decreases hi - lo
  {
    if hi > lo {
      ListingIds(rows, parse, cs, lo + 1, hi);
      var rest := Listing(rows, parse, cs, lo + 1, hi);
      var here := if lo in rows && HoldsAll(cs, rows[lo]) then [Decode(lo, rows[lo], parse)] else [];
      assert Ids(rest + here) == Ids(rest) + Ids(here);
      assert Ids(here) == if lo in rows && HoldsAll(cs, rows[lo]) then [lo] else [];
    }
  }

  /**
   * The listing holds exactly the matching rows in range, each decoded from
   * its own row, in strictly descending id order.
   */
  lemma ListingSpec(rows: map<int, Row>, parse: string -> Option<Json>, cs: seq<Condition>, lo: int, hi: int)
    ensures var r := Listing(rows, parse, cs, lo, hi);
      && (forall id :: id in Ids(r) <==> lo <= id < hi && id in rows && HoldsAll(cs, rows[id]))
      && (forall k :: 0 <= k < |r| ==> r[k].id in rows && r[k] == Decode(r[k].id, rows[r[k].id], parse))
      && (forall j, k :: 0 <= j < k < |r| ==> r[j].id > r[k].id)
      && (forall k :: 0 <= k < |r| ==> lo <= r[k].id < hi)
  {
    ListingEntries(rows, parse, cs, lo, hi);
    ListingIds(rows, parse, cs, lo, hi);
  }

  // ---------------------------------------------------------------------------
  // The table

  class Table {
    var rows: map<int, Row>
    /** The id the next INSERT receives: one more than the largest id ever issued. */
    var nextId: int
    const dump: Json -> string
    const parse: string -> Option<Json>

    ghost predicate Valid()
      reads this
    {
      nextId >= 1 && forall id :: id in rows ==> 1 <= id < nextId
    }

    /** `init_db`: an empty table whose first id is 1. */
    constructor (dump: Json -> string, parse: string -> Option<Json>)
      ensures Valid()
      ensures rows == map[] && nextId == 1
      ensures this.dump == dump && this.parse == parse
    {
      rows := map[];
      nextId := 1;
      this.dump := dump;
      this.parse := parse;
    }

    /** `save_document`: insert a new row and return its id. */
    method SaveDocument(content: string, meta: map<string, Json>, now: string) returns (r: Result<int, SaveError>)
      requires Valid()
      modifies this
      ensures Valid()
      ensures r.Success? <==> NewRow(content, meta, now, dump).Success?
      ensures r.Success? ==>
        && r.value == old(nextId)
        && r.value !in old(rows)
        && rows == old(rows)[r.value := NewRow(content, meta, now, dump).value]
        && nextId == old(nextId) + 1
      ensures r.Failure? ==> r.error == NewRow(content, meta, now, dump).error && rows == old(rows) && nextId == old(nextId)
    {
      match NewRow(content, meta, now, dump)
      case Failure(e) =>
        r := Failure(e);
      case Success(row) =>
        rows := rows[nextId := row];
        r := Success(nextId);
        nextId := nextId + 1;
    }

    /** `delete_document`: remove the row with this id, if any. */
    method DeleteDocument(id: int)
      requires Valid()
      modifies this
      ensures Valid()
      ensures rows == Removed(old(rows), id) && nextId == old(nextId)
    {
      rows := rows - {id};
    }

    /** `update_document`: replace the content and re-derive the summary. */
    method UpdateDocument(id: int, content: string)
      requires Valid()
      modifies this
      ensures Valid()
      ensures rows == Updated(old(rows), id, content) && nextId == old(nextId)
    {
      if id in rows {
        rows := rows[id := rows[id].(content := content, summary := DerivedSummary(content))];
      }
    }

    /** `get_document_by_id`. */
    function GetDocumentById(id: int): (r: Option<Document>)
      reads this
      ensures r.None? <==> id !in rows
      ensures r.Some? ==> r.value == Decode(id, rows[id], parse)
    {
      if id in rows then Some(Decode(id, rows[id], parse)) else None
    }

    /**
     * `get_documents`: the matching rows, decoded, newest first.  The loop and
     * `BuildQuery` are both built from `Conditions(query, docType, theme)`:
     * `BuildQuery` gives the statement's text and parameters, and the loop
     * executes it, visiting the ids from the highest down and keeping the rows
     * that meet every condition.
     */
    method GetDocuments(query: string, docType: string, theme: string) returns (docs: seq<Document>)
      requires Valid()
      ensures docs == Listing(rows, parse, Conditions(query, docType, theme), 1, nextId)
    {
      var cs := Conditions(query, docType, theme);
      docs := [];
      var i := nextId;
      while i > 1
        invariant 1 <= i <= nextId
        invariant docs == Listing(rows, parse, cs, i, nextId)
      {
        i := i - 1;
        if i in rows && HoldsAll(cs, rows[i]) {
          docs := docs + [Decode(i, rows[i], parse)];
        }
      }
    }
  }
}
