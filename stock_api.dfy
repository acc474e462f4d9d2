/** The backend's route handlers: `/ping`, `/materials` and `/view-stock`.
    The database connection is a parameter `db` from SQL text to the rows it
    resolves with or a rejection. */
module StockApi {
  import opened Remote

  const PingReply := "Backend API RUNNING"
  const InvalidQueryMessage := "INVALID QUERY"
  const MaterialsQuery := "SELECT * FROM material"

  /** The fixed SELECT ... JOIN that opens every `/view-stock` query,
      template-literal whitespace included. */
  const SelectClause := "\n        SELECT \n            m.material_code,\n            m.material_name,\n            s.quantity\n        FROM storage s\n        JOIN material m ON m.material_code = s.material_code\n    "
  const WherePrefix := " WHERE s.material_code = "
  const OrderByPrefix := " ORDER BY s.quantity "

  type Row = map<string, string>

  /** What awaiting `executeQuery` on a query gives. */
  datatype DbResult = Resolved(rows: seq<Row>) | Rejected

  /** A handler's return value; `Undefined` is a handler that returns
      nothing. */
  datatype Response = Undefined | Text(text: string) | Rows(rows: seq<Row>) | ErrorBody(error: bool, message: string)

  /** `/ping`. */
  function Ping(): (r: Response)
    ensures r == Text(PingReply)
  {
    Text("Backend API RUNNING")
  }

  /** `String.prototype.toUpperCase` on one character, for the letters that
      can spell "DESC": ASCII a-z, and U+017F (long s), which upper-cases to
      'S'. */
  function UpperChar(c: char): (u: char)
    ensures 'a' <= c <= 'z' ==> 'A' <= u <= 'Z' && u as int == c as int - 32
    ensures c == '\U{017F}' ==> u == 'S'
    ensures !('a' <= c <= 'z') && c != '\U{017F}' ==> u == c
    ensures 'A' <= c <= 'Z' ==> u == c
  {
    if 'a' <= c <= 'z' then (c as int - 32) as char
    else if c == '\U{017F}' then 'S'
    else c
  }

  function Upper(s: string): (u: string)
    ensures |u| == |s|
    ensures forall i :: 0 <= i < |s| ==> u[i] == UpperChar(s[i])
  {
    if s == [] then [] else [UpperChar(s[0])] + Upper(s[1..])
  }

  /** The spellings of `order` that upper-case to "DESC". */
  predicate SpellsDesc(o: string)
  {
    |o| == 4 && o[0] in "dD" && o[1] in "eE" && o[2] in "sS\U{017F}" && o[3] in "cC"
  }

  /** Upper-casing gives "DESC" exactly for those spellings. */
  lemma UpperIsDesc(o: string)
    ensures Upper(o) == "DESC" <==> SpellsDesc(o)
  {
    var u := Upper(o);
    if SpellsDesc(o) {
      assert u[0] == 'D' && u[1] == 'E' && u[2] == 'S' && u[3] == 'C';
      assert u == "DESC";
    }
    if u == "DESC" {
      assert UpperChar(o[0]) == 'D' && UpperChar(o[1]) == 'E';
      assert UpperChar(o[2]) == 'S' && UpperChar(o[3]) == 'C';
    }
  }

  /** `order?.toUpperCase() === 'DESC' ? 'DESC' : 'ASC'`: descending only for
      a spelling of "desc" in any case; an absent `order` sorts ascending. */
  function SortOrder(order: Option<string>): (dir: string)
    ensures dir == "DESC" || dir == "ASC"
    ensures dir == "DESC" <==> order.Some? && SpellsDesc(order.value)
  {
    match order
    case None => "ASC"
    case Some(o) =>
      UpperIsDesc(o);
      if Upper(o) == "DESC" then "DESC" else "ASC"
  }

  /** `if (id)`: an absent or empty id adds no filter. */
  function HasFilter(id: Option<string>): (truthy: bool)
    ensures truthy <==> id.Some? && |id.value| > 0
    ensures id == Some("") ==> !truthy
  {
    id.Some? && id.value != ""
  }

  /** The id as it ends up in the query: verbatim, or nothing. */
  function FilterText(id: Option<string>): string
  {
    if HasFilter(id) then id.value else ""
  }

  /** The optional filter clause, with the id pasted in unescaped. */
  function Filter(id: Option<string>): (clause: string)
    ensures clause == [] <==> !HasFilter(id)
    ensures HasFilter(id) ==> |clause| > |WherePrefix| && clause[..|WherePrefix|] == WherePrefix && clause[|WherePrefix|..] == id.value
  {
    if HasFilter(id) then WherePrefix + id.value else ""
  }

  /** The SQL text `/view-stock` sends: the fixed join, the optional filter
      and the final ORDER BY. */
  function ViewStockQuery(id: Option<string>, order: Option<string>): (q: string)
    ensures |q| == |SelectClause| + |Filter(id)| + |OrderByPrefix| + |SortOrder(order)|
  {
    SelectClause + Filter(id) + OrderByPrefix + SortOrder(order)
  }

  lemma ConcatParts(a: string, b: string, c: string)
    ensures (a + b + c)[..|a|] == a
    ensures (a + b + c)[|a|..|a + b + c| - |c|] == b
    ensures (a + b + c)[|a + b + c| - |c|..] == c
  {
  }

  /** Every query opens with the fixed join and ends with the ORDER BY on
      the normalised direction. */
  lemma QueryShape(id: Option<string>, order: Option<string>)
    ensures var q := ViewStockQuery(id, order);
      |q| >= |SelectClause| + |OrderByPrefix + SortOrder(order)| &&
      q[..|SelectClause|] == SelectClause &&
      q[|q| - |OrderByPrefix + SortOrder(order)|..] == OrderByPrefix + SortOrder(order)
  {
    var tail := OrderByPrefix + SortOrder(order);
    assert ViewStockQuery(id, order) == SelectClause + Filter(id) + tail;
    ConcatParts(SelectClause, Filter(id), tail);
  }

  /** The query built step by step with `+=`, as the handler does. */
  method BuildViewStockQuery(id: Option<string>, order: Option<string>) returns (sql: string)
    ensures sql == ViewStockQuery(id, order)
  {
    var sortOrder := SortOrder(order);
    sql := SelectClause;
    if HasFilter(id) {
      sql := sql + WherePrefix + id.value;
    }
    assert sql == SelectClause + Filter(id);
    sql := sql + OrderByPrefix + sortOrder;
  }

  /** The direction a query's last four characters name. */
  function DirectionOf(q: string): string
  {
    if |q| >= 4 && q[|q| - 4..] == "DESC" then "DESC" else "ASC"
  }

  /** Reads the text between the join and the ORDER BY back as the id of
      its filter (empty without one). */
  function DecodeFilter(middle: string): Option<string>
  {
    if middle == [] then Some("")
    else if |middle| > |WherePrefix| && middle[..|WherePrefix|] == WherePrefix then Some(middle[|WherePrefix|..])
    else None
  }

  /** Reads a `/view-stock` query back: the id text of its filter (empty
      without one) and its sort direction. */
  function DecodeViewStock(q: string): Option<(string, string)>
  {
    var dir := DirectionOf(q);
    var tail := OrderByPrefix + dir;
    if |q| < |SelectClause| + |tail| || q[..|SelectClause|] != SelectClause || q[|q| - |tail|..] != tail then None
    else
      match DecodeFilter(q[|SelectClause|..|q| - |tail|])
      case None => None
      case Some(idText) => Some((idText, dir))
  }

  /** The query keeps both inputs recoverable: the id appears verbatim
      exactly when it is truthy, and the direction is the normalised
      order. */
  lemma DecodeInvertsQuery(id: Option<string>, order: Option<string>)
    ensures DecodeViewStock(ViewStockQuery(id, order)) == Some((FilterText(id), SortOrder(order)))
  {
    var dir := SortOrder(order);
    assert ViewStockQuery(id, order) == SelectClause + Filter(id) + (OrderByPrefix + dir);
    FilterDecodes(id);
    DecodeParts(Filter(id), dir);
  }

  /** The filter clause reads back as the id's filter text. */
  lemma FilterDecodes(id: Option<string>)
    ensures DecodeFilter(Filter(id)) == Some(FilterText(id))
  {
  }

  /** A query assembled from the join, any middle and an ORDER BY decodes
      to the middle's reading and the direction. */
  lemma DecodeParts(middle: string, dir: string)
    requires dir == "DESC" || dir == "ASC"
    requires DecodeFilter(middle).Some?
    ensures DecodeViewStock(SelectClause + middle + (OrderByPrefix + dir)) == Some((DecodeFilter(middle).value, dir))
  {
    var tail := OrderByPrefix + dir;
    var q := SelectClause + middle + tail;
    ConcatParts(SelectClause, middle, tail);
    LastFour(q, tail, dir);
    assert DirectionOf(q) == dir;
  }

  /** The last four characters of a query tell the two directions apart. */
  lemma LastFour(q: string, tail: string, dir: string)
    requires dir == "DESC" || dir == "ASC"
    requires tail == OrderByPrefix + dir
    requires |q| >= |tail| && q[|q| - |tail|..] == tail
    ensures |q| >= 4 && (q[|q| - 4..] == "DESC" <==> dir == "DESC")
  {
    assert q[|q| - 4..] == tail[|tail| - 4..];
    if dir == "DESC" {
      assert tail[|tail| - 4..] == "DESC";
    } else {
      assert tail[|tail| - 4..] == " ASC";
      assert " ASC"[0] != "DESC"[0];
    }
  }

  /** Two requests produce the same SQL only when they carry the same
      filter text and the same direction. */
  lemma QueryDeterminesInputs(id1: Option<string>, order1: Option<string>, id2: Option<string>, order2: Option<string>)
    requires ViewStockQuery(id1, order1) == ViewStockQuery(id2, order2)
    ensures FilterText(id1) == FilterText(id2)
    ensures SortOrder(order1) == SortOrder(order2)
  {
    DecodeInvertsQuery(id1, order1);
    DecodeInvertsQuery(id2, order2);
  }

  /** `/view-stock`: the rows the query resolves with, or the one generic
      error body whenever the database rejects it. */
  function ViewStock(id: Option<string>, order: Option<string>, db: string -> DbResult): (r: Response)
    ensures db(ViewStockQuery(id, order)).Resolved? ==> r == Rows(db(ViewStockQuery(id, order)).rows)
    ensures db(ViewStockQuery(id, order)).Rejected? ==> r == ErrorBody(true, InvalidQueryMessage)
  {
    match db(ViewStockQuery(id, order))
    case Resolved(rows) => Rows(rows)
    case Rejected => ErrorBody(true, InvalidQueryMessage)
  }

  /** `/materials` as written: the query's promise is neither awaited nor
      returned, so the handler returns nothing whatever the database does,
      and a rejection never reaches its `catch`. */
  function MaterialsAsWritten(db: string -> DbResult): (r: Response)
    ensures r == Undefined
  {
    var pending := db(MaterialsQuery);
    Undefined
  }

  /** `/materials` with the result awaited and returned. */
  function Materials(db: string -> DbResult): (r: Response)
    ensures db(MaterialsQuery).Resolved? ==> r == Rows(db(MaterialsQuery).rows)
    ensures db(MaterialsQuery).Rejected? ==> r == ErrorBody(true, InvalidQueryMessage)
  {
    match db(MaterialsQuery)
    case Resolved(rows) => Rows(rows)
    case Rejected => ErrorBody(true, InvalidQueryMessage)
  }

  /** A database that answers the materials query with rows shows the
      difference: the handler as written drops them. */
  lemma MaterialsDropsRows(db: string -> DbResult)
    requires db(MaterialsQuery).Resolved?
    ensures MaterialsAsWritten(db) == Undefined
    ensures Materials(db) == Rows(db(MaterialsQuery).rows) != MaterialsAsWritten(db)
  {
  }
}
