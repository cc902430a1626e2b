/**
 * The search endpoint src/app/api/search/route.ts: `POST` parses the JSON
 * body, validates it against `searchSchema` (a zod object with defaults),
 * answers 400 for an invalid body, 500 when anything throws, and otherwise the
 * rows of the placeholder `queryDatabase`.
 */
module SearchRoute {
  import opened Wrappers
  import opened Json

  datatype SearchType = Exact | Semantic
  datatype SortDirection = Asc | Desc

  /** The validated body (`validationResult.data`). */
  datatype SearchParams = SearchParams(
    searchTerm: string, searchType: SearchType, sortColumn: string, sortDirection: SortDirection,
    limit: int, offset: int, similarityThreshold: real)

  /** Why `safeParse` failed: the body is not an object, or these fields (in schema order) are invalid. */
  datatype ValidationError = NotAnObject | InvalidFields(fields: seq<string>)

  /** `z.number().int()`: a number with no fractional part. */
  predicate IsInt(n: real) {
    n.Floor as real == n
  }

  /** `z.string().min(1)`, required. */
  function ParseTerm(f: Option<JsValue>): Option<string> {
    match f
    case Some(JStr(s)) => if |s| >= 1 then Some(s) else None
    case _ => None
  }

  /** `z.enum(['exact', 'semantic'])`, required. */
  function ParseSearchType(f: Option<JsValue>): Option<SearchType> {
    match f
    case Some(JStr(s)) => if s == "exact" then Some(Exact) else if s == "semantic" then Some(Semantic) else None
    case _ => None
  }

  /** `z.string().default('viewCount')`: the default applies only to a missing key. */
  function ParseSortColumn(f: Option<JsValue>): Option<string> {
    match f
    case None => Some("viewCount")
    case Some(JStr(s)) => Some(s)
    case _ => None
  }

  /** `z.enum(['ASC', 'DESC']).default('DESC')`. */
  function ParseDirection(f: Option<JsValue>): Option<SortDirection> {
    match f
    case None => Some(Desc)
    case Some(JStr(s)) => if s == "ASC" then Some(Asc) else if s == "DESC" then Some(Desc) else None
    case _ => None
  }

  /** `z.number().int().positive().default(12)`. */
  function ParseLimit(f: Option<JsValue>): Option<int> {
    match f
    case None => Some(12)
    case Some(JNum(n)) => if IsInt(n) && n > 0.0 then Some(n.Floor) else None
    case _ => None
  }

  /** `z.number().int().nonnegative().default(0)`. */
  function ParseOffset(f: Option<JsValue>): Option<int> {
    match f
    case None => Some(0)
    case Some(JNum(n)) => if IsInt(n) && n >= 0.0 then Some(n.Floor) else None
    case _ => None
  }

  /** `z.number().min(0).max(1).default(0.5)`. */
  function ParseThreshold(f: Option<JsValue>): Option<real> {
    match f
    case None => Some(0.5)
    case Some(JNum(n)) => if 0.0 <= n <= 1.0 then Some(n) else None
    case _ => None
  }

  /** The names of the fields that fail their rule, in schema order. */
  function InvalidFieldNames(body: JsValue): seq<string> {
    (if ParseTerm(Get(body, "searchTerm")).None? then ["searchTerm"] else [])
    + (if ParseSearchType(Get(body, "searchType")).None? then ["searchType"] else [])
    + (if ParseSortColumn(Get(body, "sortColumn")).None? then ["sortColumn"] else [])
    + (if ParseDirection(Get(body, "sortDirection")).None? then ["sortDirection"] else [])
    + (if ParseLimit(Get(body, "limit")).None? then ["limit"] else [])
    + (if ParseOffset(Get(body, "offset")).None? then ["offset"] else [])
    + (if ParseThreshold(Get(body, "similarityThreshold")).None? then ["similarityThreshold"] else [])
  }

  /**
   * `searchSchema.safeParse(body)`. Accepted input always has a non-empty term,
   * a positive whole limit, a non-negative whole offset and a threshold in [0, 1].
   */
  function Validate(body: JsValue): (r: Result<SearchParams, ValidationError>)
    ensures r.Success? ==>
      && |r.value.searchTerm| >= 1
      && r.value.limit > 0 && r.value.offset >= 0
      && 0.0 <= r.value.similarityThreshold <= 1.0
    ensures r.Failure? <==> !body.JObj? || InvalidFieldNames(body) != []
    ensures r.Failure? && body.JObj? ==> r.error == InvalidFields(InvalidFieldNames(body))
  {
    if !body.JObj? then Failure(NotAnObject)
    else if InvalidFieldNames(body) != [] then Failure(InvalidFields(InvalidFieldNames(body)))
    else
      Success(SearchParams(
        ParseTerm(Get(body, "searchTerm")).value,
        ParseSearchType(Get(body, "searchType")).value,
        ParseSortColumn(Get(body, "sortColumn")).value,
        ParseDirection(Get(body, "sortDirection")).value,
        ParseLimit(Get(body, "limit")).value,
        ParseOffset(Get(body, "offset")).value,
        ParseThreshold(Get(body, "similarityThreshold")).value))
  }

  /** An empty term, or a search type other than "exact"/"semantic", is rejected and named. */
  lemma {:induction false} ValidateRejects(body: JsValue)
    requires body.JObj?
    ensures Get(body, "searchTerm") == Some(JStr("")) ==>
      Validate(body).Failure? && "searchTerm" in Validate(body).error.fields
    ensures (forall t :: Get(body, "searchType") == Some(JStr(t)) ==> t != "exact" && t != "semantic") ==>
      Validate(body).Failure? && "searchType" in Validate(body).error.fields
  {
  }

  /** A body holding only a term and a type gets every other field from the defaults. */
  lemma {:induction false} ValidateDefaults(term: string, kind: string)
    requires |term| >= 1 && (kind == "exact" || kind == "semantic")
    ensures Validate(JObj(map["searchTerm" := JStr(term), "searchType" := JStr(kind)])) ==
      Success(SearchParams(term, if kind == "exact" then Exact else Semantic, "viewCount", Desc, 12, 0, 0.5))
  {
    var body := JObj(map["searchTerm" := JStr(term), "searchType" := JStr(kind)]);
    assert Get(body, "sortColumn") == None && Get(body, "sortDirection") == None;
    assert Get(body, "limit") == None && Get(body, "offset") == None && Get(body, "similarityThreshold") == None;
  }

  /** The JSON object a client sends for `p`, every field written out. */
  function Encode(p: SearchParams): JsValue {
    JObj(map[
      "searchTerm" := JStr(p.searchTerm),
      "searchType" := JStr(if p.searchType == Exact then "exact" else "semantic"),
      "sortColumn" := JStr(p.sortColumn),
      "sortDirection" := JStr(if p.sortDirection == Asc then "ASC" else "DESC"),
      "limit" := JNum(p.limit as real),
      "offset" := JNum(p.offset as real),
      "similarityThreshold" := JNum(p.similarityThreshold)])
  }

  /** The rules the schema enforces, on the validated record. */
  predicate Acceptable(p: SearchParams) {
    |p.searchTerm| >= 1 && p.limit > 0 && p.offset >= 0 && 0.0 <= p.similarityThreshold <= 1.0
  }

  /** Validation inverts encoding on exactly the records the schema accepts. */
  lemma {:induction false} ValidateEncode(p: SearchParams)
    ensures Acceptable(p) ==> Validate(Encode(p)) == Success(p)
    ensures Validate(Encode(p)).Success? <==> Acceptable(p)
  {
    var body := Encode(p);
    assert Get(body, "searchTerm") == Some(JStr(p.searchTerm));
    assert Get(body, "searchType") == Some(JStr(if p.searchType == Exact then "exact" else "semantic"));
    assert Get(body, "sortColumn") == Some(JStr(p.sortColumn));
    assert Get(body, "sortDirection") == Some(JStr(if p.sortDirection == Asc then "ASC" else "DESC"));
    assert Get(body, "limit") == Some(JNum(p.limit as real));
    assert Get(body, "offset") == Some(JNum(p.offset as real));
    assert Get(body, "similarityThreshold") == Some(JNum(p.similarityThreshold));
    assert (p.limit as real).Floor == p.limit;
    assert (p.offset as real).Floor == p.offset;
  }

  // ------------------------------------------------------------ the query

  /** One row of the placeholder answer. */
  datatype ResultRow = ResultRow(
    content: string, startTime: real, videoId: string, url: string, title: string,
    thumbnailUrl: string, date: string, viewCount: int, channelName: string, similarity: Option<real>)

  /** The first placeholder row, before its date and similarity are filled in. */
  const FirstMock := ResultRow("And I saw the life review. I saw everything from birth until that moment.", 1722.5, "example1",
    "https://www.youtube.com/watch?v=dQw4w9WgXcQ", "Sample Video: My Near-Death Experience",
    "https://i.ytimg.com/vi/dQw4w9WgXcQ/hqdefault.jpg", "", 123456, "NDE Stories", None)

  /** The second placeholder row, before its date and similarity are filled in. */
  const SecondMock := ResultRow("The life review was incredibly vivid, showing every moment of my life.", 845.1, "example2",
    "https://www.youtube.com/watch?v=oHg5SJYRHA0", "Another NDE Testimony",
    "https://i.ytimg.com/vi/oHg5SJYRHA0/hqdefault.jpg", "", 78901, "Spiritual Journeys", None)

  /**
   * The placeholder `queryDatabase`: two fixed rows dated now and thirty days
   * ago (`isoAt` is `new Date(ms).toISOString()`, `nowMs` is `Date.now()`),
   * and nothing past the first page.
   */
  function QueryDatabase(p: SearchParams, nowMs: int, isoAt: int -> string): (rows: seq<ResultRow>)
    ensures p.offset > 0 <==> rows == []
    ensures forall i :: 0 <= i < |rows| ==> (rows[i].similarity.Some? <==> p.searchType == Semantic)
  {
    var semantic := p.searchType == Semantic;
    var rows := [
      FirstMock.(date := isoAt(nowMs), similarity := if semantic then Some(0.88) else None),
      SecondMock.(date := isoAt(nowMs - 86400000 * 30), similarity := if semantic then Some(0.77) else None)];
    if p.offset > 0 then [] else rows
  }

  /** What `POST` answers. */
  datatype PostResponse =
    | Ok(results: seq<ResultRow>)
    | BadRequest(error: ValidationError)
    | ServerError(details: string)

  function Status(r: PostResponse): nat {
    match r
    case Ok(_) => 200
    case BadRequest(_) => 400
    case ServerError(_) => 500
  }

  /**
   * `POST`: `body` is what `req.json()` gives, or the message of the error it
   * throws on a body that is not JSON; that throw is caught and answered 500.
   */
  function Post(body: Result<JsValue, string>, nowMs: int, isoAt: int -> string): (r: PostResponse)
    ensures body.Failure? <==> Status(r) == 500
    ensures body.Failure? ==> r == ServerError(body.error)
    ensures Status(r) == 400 <==> body.Success? && Validate(body.value).Failure?
    ensures r.Ok? ==>
      && Validate(body.value).Success?
      && r.results == QueryDatabase(Validate(body.value).value, nowMs, isoAt)
  {
    match body
    case Failure(e) => ServerError(e)
    case Success(raw) =>
      match Validate(raw)
      case Failure(err) => BadRequest(err)
      case Success(p) => Ok(QueryDatabase(p, nowMs, isoAt))
  }

  /** A request for any page after the first gets an empty 200 answer. */
  lemma {:induction false} PostLaterPage(p: SearchParams, nowMs: int, isoAt: int -> string)
    requires Acceptable(p) && p.offset > 0
    ensures Post(Success(Encode(p)), nowMs, isoAt) == Ok([])
  {
    ValidateEncode(p);
  }
}
