/**
 * The re-index script scripts/index-data.ts: it reads the `nde_vids` and
 * `nde_punctuated_embeddings` tables from Supabase in pages of 1000 rows,
 * joins every transcript segment with its video, and upserts the joined
 * documents into the Typesense collection `videos`.
 *
 * Supabase is an oracle `fetch(from, to)` for `.range(from, to)` on one table;
 * it may fail on any request, and when it answers it answers from a fixed,
 * finite table (`ReadsFrom`). Typesense is a create outcome and an import
 * function from documents to per-document results. `new Date(s).getTime()`
 * is an oracle `parseMs`, with `None` for NaN.
 */
module IndexData {
  import opened Wrappers
  import opened Seqs
  import opened Text

  /** A row of `nde_vids`; `None` is SQL `null`. */
  datatype VideoRow = VideoRow(
    videoId: string, title: string, url: string, thumbnailUrl: string,
    date: Option<string>, viewCount: Option<int>, channelName: string, isNde: string)

  /** A row of `nde_punctuated_embeddings`: one transcript segment. */
  datatype EmbeddingRow = EmbeddingRow(content: string, startTime: real, videoId: string)

  /** The `date` field of a document: whole seconds since the epoch, or NaN for an unparsable date. */
  datatype DocDate = Epoch(seconds: int) | NotANumber

  /** A Typesense document of the `videos` collection. */
  datatype Document = Document(
    title: string, content: string, videoId: string, channelName: string, isNde: string,
    viewCount: int, date: DocDate, thumbnailUrl: string, url: string, startTime: real)

  // ------------------------------------------------------------- pagination

  /** What `.range(from, to)` selects from `table`: rows `from..to` inclusive, cut at the end. */
  function Window<R>(table: seq<R>, from: nat, to: nat): (w: seq<R>)
    ensures |w| <= to + 1 - from || (w == [] && to < from)
  {
    if from >= |table| || to < from then []
    else table[from..if to + 1 <= |table| then to + 1 else |table|]
  }

  /** The oracle answers every successful request from the fixed table `table`. */
  ghost predicate ReadsFrom<R>(fetch: (nat, nat) -> Result<seq<R>, string>, table: seq<R>) {
    forall from: nat, to: nat :: fetch(from, to).Success? ==> fetch(from, to).value == Window(table, from, to)
  }

  /** The error `fetchAll` throws when a page request fails. */
  function FetchError(tableName: string, message: string): string {
    "Error fetching " + tableName + ": " + message
  }

  /**
   * The request for page `page`: `.range(page * 1000, (page + 1) * 1000 - 1)`;
   * 1000 rows is the most Supabase returns at once.
   */
  function PageRead<R>(fetch: (nat, nat) -> Result<seq<R>, string>, page: nat): Result<seq<R>, string> {
    fetch(page * 1000, (page + 1) * 1000 - 1)
  }

  /** Puts `prefix` in front of the rows of a successful read; a failure stays as it is. */
  function Prepend<R>(prefix: seq<R>, r: Result<seq<R>, string>): Result<seq<R>, string> {
    match r
    case Success(rows) => Success(prefix + rows)
    case Failure(e) => Failure(e)
  }

  /**
   * What `fetchAll` returns when it starts at page `page`: page k asks for rows
   * k*1000 .. k*1000+999; an empty page or a page of fewer than 1000 rows ends
   * the read; the first failing request ends it with an error naming the table.
   */
  ghost function Collect<R>(fetch: (nat, nat) -> Result<seq<R>, string>, tableName: string, table: seq<R>, page: nat): Result<seq<R>, string>
    requires ReadsFrom(fetch, table)
    decreases |table| - page * 1000
  {
    match PageRead(fetch, page)
    case Failure(e) => Failure(FetchError(tableName, e))
    case Success(data) =>
      if |data| == 0 || |data| < 1000 then Success(data)
      else Prepend(data, Collect(fetch, tableName, table, page + 1))
  }

  lemma {:induction false} PrependPrepend<R>(a: seq<R>, b: seq<R>, r: Result<seq<R>, string>)
    ensures Prepend(a, Prepend(b, r)) == Prepend(a + b, r)
  {
    if r.Success? {
      assert a + (b + r.value) == (a + b) + r.value;
    }
  }

  /** A read that succeeds returns the whole rest of the table, every row once, in table order. */
  lemma {:induction false} CollectIsRest<R>(fetch: (nat, nat) -> Result<seq<R>, string>, tableName: string, table: seq<R>, page: nat)
    requires ReadsFrom(fetch, table)
    requires page * 1000 <= |table|
    ensures Collect(fetch, tableName, table, page).Success? ==> Collect(fetch, tableName, table, page).value == table[page * 1000..]
    decreases |table| - page * 1000
  {
    var res := PageRead(fetch, page);
    if res.Success? && |res.value| >= 1000 {
      var from := page * 1000;
      assert res.value == table[from..from + 1000];
      CollectIsRest(fetch, tableName, table, page + 1);
      assert table[from..] == table[from..from + 1000] + table[from + 1000..];
    }
  }

  /** A failed read carries the message "Error fetching <table>: ..." of one failing request. */
  lemma {:induction false} CollectFailure<R>(fetch: (nat, nat) -> Result<seq<R>, string>, tableName: string, table: seq<R>, page: nat)
    requires ReadsFrom(fetch, table)
    ensures Collect(fetch, tableName, table, page).Failure? ==>
      exists k: nat :: k >= page && PageRead(fetch, k).Failure?
        && Collect(fetch, tableName, table, page).error == FetchError(tableName, PageRead(fetch, k).error)
    decreases |table| - page * 1000
  {
    var res := PageRead(fetch, page);
    if res.Success? && |res.value| >= 1000 {
      CollectFailure(fetch, tableName, table, page + 1);
    }
  }

  /** When no request fails the read returns the whole table. */
  lemma {:induction false} CollectReliable<R>(fetch: (nat, nat) -> Result<seq<R>, string>, tableName: string, table: seq<R>)
    requires ReadsFrom(fetch, table)
    requires forall from: nat, to: nat :: fetch(from, to).Success?
    ensures Collect(fetch, tableName, table, 0) == Success(table)
  {
    CollectSucceeds(fetch, tableName, table, 0);
    CollectIsRest(fetch, tableName, table, 0);
  }

  lemma {:induction false} CollectSucceeds<R>(fetch: (nat, nat) -> Result<seq<R>, string>, tableName: string, table: seq<R>, page: nat)
    requires ReadsFrom(fetch, table)
    requires forall from: nat, to: nat :: fetch(from, to).Success?
    ensures Collect(fetch, tableName, table, page).Success?
    decreases |table| - page * 1000
  {
    var res := PageRead(fetch, page);
    assert res.Success?;
    if |res.value| >= 1000 {
      CollectSucceeds(fetch, tableName, table, page + 1);
    }
  }

  /**
   * `fetchAll`: requests page after page until a short or empty page, pushing
   * every page onto the result, and throws on the first failing request.
   * The result is `Collect` from page 0; on success that is the whole table.
   */
  method FetchAll<R>(fetch: (nat, nat) -> Result<seq<R>, string>, tableName: string, ghost table: seq<R>) returns (r: Result<seq<R>, string>)
    requires ReadsFrom(fetch, table)
    ensures r == Collect(fetch, tableName, table, 0)
    ensures r.Success? ==> r.value == table
  {
    var allData: seq<R> := [];
    var page: nat := 0;
    var from: nat := 0;
    assert Prepend([], Collect(fetch, tableName, table, 0)) == Collect(fetch, tableName, table, 0) by {
      var c := Collect(fetch, tableName, table, 0);
      if c.Success? {
        assert [] + c.value == c.value;
      }
    }
    while true
      invariant from == page * 1000 <= |table|
      invariant allData == table[..from]
      invariant Collect(fetch, tableName, table, 0) == Prepend(allData, Collect(fetch, tableName, table, page))
      decreases |table| - from
    {
      var res := PageRead(fetch, page);
      if res.Failure? {
        r := Failure(FetchError(tableName, res.error));
        assert Collect(fetch, tableName, table, page) == r;
        CollectIsRest(fetch, tableName, table, 0);
        return;
      }
      var data := res.value;
      if |data| == 0 {
        assert Collect(fetch, tableName, table, page) == Success([]);
        assert allData + [] == allData;
        break;
      }
      PrependPrepend(allData, data, Collect(fetch, tableName, table, page + 1));
      allData := allData + data;
      if |data| < 1000 {
        assert Collect(fetch, tableName, table, page) == Success(data);
        break;
      }
      assert (page + 1) * 1000 == from + 1000;
      assert data == table[from..from + 1000];
      assert table[..from + 1000] == table[..from] + data;
      page, from := page + 1, from + 1000;
    }
    r := Success(allData);
    CollectIsRest(fetch, tableName, table, 0);
  }

  // ------------------------------------------------------------------- join

  /** `new Map(videos.map(v => [v.videoId, v]))`: later rows overwrite earlier ones with the same id. */
  function VideoMap(videos: seq<VideoRow>): map<string, VideoRow> {
    if videos == [] then map[]
    else VideoMap(videos[..|videos| - 1])[videos[|videos| - 1].videoId := videos[|videos| - 1]]
  }

  /** Row `i` is the last row carrying `id`. */
  predicate LastWith(videos: seq<VideoRow>, id: string, i: nat) {
    i < |videos| && videos[i].videoId == id && forall j :: i < j < |videos| ==> videos[j].videoId != id
  }

  /**
   * The keys of the map are exactly the ids that occur, and each id maps to
   * the LAST row that carries it.
   */
  lemma {:induction false} VideoMapLastWins(videos: seq<VideoRow>)
    ensures forall i :: 0 <= i < |videos| ==> videos[i].videoId in VideoMap(videos)
    ensures forall id :: id in VideoMap(videos) ==> exists i: nat :: LastWith(videos, id, i) && VideoMap(videos)[id] == videos[i]
  {
    if videos != [] {
      var init := videos[..|videos| - 1];
      VideoMapLastWins(init);
      var n := |videos| - 1;
      var m := VideoMap(videos);
      assert m == VideoMap(init)[videos[n].videoId := videos[n]];
      forall i | 0 <= i < |videos| ensures videos[i].videoId in m {
        if i < n {
          assert videos[i] == init[i];
        }
      }
      forall id | id in m ensures exists i: nat :: LastWith(videos, id, i) && m[id] == videos[i] {
        if id == videos[n].videoId {
          assert LastWith(videos, id, n);
        } else {
          var i: nat :| LastWith(init, id, i) && VideoMap(init)[id] == init[i];
          LastWithExtend(videos, id, i);
        }
      }
    }
  }

  /** The last row with `id` before the final row stays the last one when that row carries another id. */
  lemma {:induction false} LastWithExtend(videos: seq<VideoRow>, id: string, i: nat)
    requires videos != [] && videos[|videos| - 1].videoId != id
    requires LastWith(videos[..|videos| - 1], id, i)
    ensures LastWith(videos, id, i) && videos[i] == videos[..|videos| - 1][i]
  {
    var init := videos[..|videos| - 1];
    forall j | i < j < |videos| ensures videos[j].videoId != id {
      if j < |init| {
        assert videos[j] == init[j];
      }
    }
  }

  /** `v.viewCount || 0`: a missing or zero count becomes 0. */
  function ViewCountOrZero(count: Option<int>): int {
    if count.Some? && count.value != 0 then count.value else 0
  }

  /**
   * `v.date ? Math.floor(new Date(v.date).getTime() / 1000) : 0`. Dafny's `/`
   * by a positive divisor rounds down, as `Math.floor` does, also before 1970.
   */
  function DateSeconds(date: Option<string>, parseMs: string -> Option<int>): (d: DocDate)
    ensures date.None? || date == Some("") ==> d == Epoch(0)
    ensures date.Some? && date.value != "" ==>
      match parseMs(date.value)
      case None => d == NotANumber
      case Some(ms) => d.Epoch? && d.seconds * 1000 <= ms < d.seconds * 1000 + 1000
  {
    if date.None? || date.value == "" then Epoch(0)
    else match parseMs(date.value)
      case None => NotANumber
      case Some(ms) => Epoch(ms / 1000)
  }

  /** The document for segment `e` of video `v`. */
  function ToDocument(v: VideoRow, e: EmbeddingRow, parseMs: string -> Option<int>): Document {
    Document(v.title, e.content, e.videoId, v.channelName, v.isNde,
      ViewCountOrZero(v.viewCount), DateSeconds(v.date, parseMs), v.thumbnailUrl, v.url, e.startTime)
  }

  /** `.map(e => ...)` over segments that all resolve. */
  function Documents(kept: seq<EmbeddingRow>, videoMap: map<string, VideoRow>, parseMs: string -> Option<int>): (docs: seq<Document>)
    requires forall i :: 0 <= i < |kept| ==> kept[i].videoId in videoMap
    ensures |docs| == |kept|
    ensures forall i :: 0 <= i < |kept| ==> docs[i] == ToDocument(videoMap[kept[i].videoId], kept[i], parseMs)
  {
    if kept == [] then [] else [ToDocument(videoMap[kept[0].videoId], kept[0], parseMs)] + Documents(kept[1..], videoMap, parseMs)
  }

  /** The join: `embeddings.filter(e => videoMap.has(e.video_id)).map(...)`. */
  function Transform(embeddings: seq<EmbeddingRow>, videoMap: map<string, VideoRow>, parseMs: string -> Option<int>): (docs: seq<Document>)
    ensures |docs| <= |embeddings|
  {
    var kept := Filter(embeddings, (e: EmbeddingRow) => e.videoId in videoMap);
    Documents(kept, videoMap, parseMs)
  }

  /**
   * Every document comes from one segment that has a video: content, start
   * time and id from the segment, everything else from that video, with the
   * count and date normalised.
   */
  lemma {:induction false} TransformSound(embeddings: seq<EmbeddingRow>, videoMap: map<string, VideoRow>, parseMs: string -> Option<int>)
    ensures forall i :: 0 <= i < |Transform(embeddings, videoMap, parseMs)| ==>
      var d := Transform(embeddings, videoMap, parseMs)[i];
      && d.videoId in videoMap
      && (exists j :: 0 <= j < |embeddings| && embeddings[j].content == d.content
            && embeddings[j].startTime == d.startTime && embeddings[j].videoId == d.videoId)
      && var v := videoMap[d.videoId];
      && d.title == v.title && d.channelName == v.channelName && d.isNde == v.isNde
      && d.thumbnailUrl == v.thumbnailUrl && d.url == v.url
      && d.viewCount == ViewCountOrZero(v.viewCount) && d.date == DateSeconds(v.date, parseMs)
  {
    var kept := Filter(embeddings, (e: EmbeddingRow) => e.videoId in videoMap);
    forall i | 0 <= i < |kept|
      ensures exists j :: 0 <= j < |embeddings| && embeddings[j] == kept[i]
    {
      assert kept[i] in embeddings;
    }
  }

  /** The join keeps input order: it works segment by segment over a concatenation. */
  lemma {:induction false} TransformAppend(a: seq<EmbeddingRow>, b: seq<EmbeddingRow>, videoMap: map<string, VideoRow>, parseMs: string -> Option<int>)
    ensures Transform(a + b, videoMap, parseMs) == Transform(a, videoMap, parseMs) + Transform(b, videoMap, parseMs)
  {
    FilterAppend(a, b, (e: EmbeddingRow) => e.videoId in videoMap);
    var ka := Filter(a, (e: EmbeddingRow) => e.videoId in videoMap);
    var kb := Filter(b, (e: EmbeddingRow) => e.videoId in videoMap);
    DocumentsAppend(ka, kb, videoMap, parseMs);
  }

  lemma {:induction false} DocumentsAppend(a: seq<EmbeddingRow>, b: seq<EmbeddingRow>, videoMap: map<string, VideoRow>, parseMs: string -> Option<int>)
    requires forall i :: 0 <= i < |a| ==> a[i].videoId in videoMap
    requires forall i :: 0 <= i < |b| ==> b[i].videoId in videoMap
    ensures Documents(a + b, videoMap, parseMs) == Documents(a, videoMap, parseMs) + Documents(b, videoMap, parseMs)
  {
    var l := Documents(a + b, videoMap, parseMs);
    var r := Documents(a, videoMap, parseMs) + Documents(b, videoMap, parseMs);
    forall i | 0 <= i < |l| ensures l[i] == r[i] {
      if i >= |a| {
        assert (a + b)[i] == b[i - |a|];
      }
    }
  }

  /** A segment produces exactly one document when its video is known, and none otherwise. */
  lemma {:induction false} TransformOne(e: EmbeddingRow, videoMap: map<string, VideoRow>, parseMs: string -> Option<int>)
    ensures Transform([e], videoMap, parseMs) ==
      if e.videoId in videoMap then [ToDocument(videoMap[e.videoId], e, parseMs)] else []
  {
    assert [e][1..] == [];
  }

  /** No segment is dropped exactly when every segment's video is known. */
  lemma {:induction false} TransformKeepsAll(embeddings: seq<EmbeddingRow>, videoMap: map<string, VideoRow>, parseMs: string -> Option<int>)
    ensures |Transform(embeddings, videoMap, parseMs)| == |embeddings| <==>
      forall i :: 0 <= i < |embeddings| ==> embeddings[i].videoId in videoMap
  {
    FilterKeepsAll(embeddings, (e: EmbeddingRow) => e.videoId in videoMap);
  }

  // ------------------------------------------------------------ import check

  /** One entry of Typesense's per-document import response. */
  datatype ImportResult = ImportResult(success: bool, error: string)

  predicate Failed(r: ImportResult) {
    !r.success
  }

  predicate Succeeded(r: ImportResult) {
    r.success
  }

  /** What the script reports after the import. */
  datatype ImportReport =
    | AllIndexed
    | SomeFailed(failedCount: nat, firstFailure: ImportResult)
    | ImportThrew(error: string)

  /**
   * `results.filter(r => r.success === false)` and the report on it: a thrown
   * import is logged, a non-empty failure list is counted and its first entry shown.
   */
  function CheckImport(outcome: Result<seq<ImportResult>, string>): (rep: ImportReport)
    ensures rep.ImportThrew? <==> outcome.Failure?
    ensures rep.AllIndexed? <==> outcome.Success? && forall i :: 0 <= i < |outcome.value| ==> outcome.value[i].success
    ensures rep.SomeFailed? ==>
      && rep.failedCount > 0 && !rep.firstFailure.success && rep.firstFailure in outcome.value
      && rep.failedCount + |Filter(outcome.value, Succeeded)| == |outcome.value|
  {
    match outcome
    case Failure(e) => ImportThrew(e)
    case Success(results) =>
      var failed := Filter(results, Failed);
      FilterComplement(results, Failed, Succeeded);
      if |failed| > 0 then SomeFailed(|failed|, failed[0])
      else AllIndexed
  }

  /** The first reported failure is the earliest failing entry. */
  lemma {:induction false} FirstFailureIsEarliest(results: seq<ImportResult>)
    ensures CheckImport(Success(results)).SomeFailed? ==>
      exists i :: 0 <= i < |results| && results[i] == CheckImport(Success(results)).firstFailure
        && forall j :: 0 <= j < i ==> results[j].success
  {
    FilterFirst(results, Failed);
  }

  // --------------------------------------------------------------- the run

  /** The four settings the script reads; `None` is an unset variable. */
  datatype Env = Env(supabaseUrl: Option<string>, serviceKey: Option<string>, typesenseHost: Option<string>, typesenseKey: Option<string>)

  /** `!process.env.X` is false: the variable is set and not empty. */
  predicate IsSet(v: Option<string>) {
    v.Some? && v.value != ""
  }

  predicate EnvComplete(env: Env) {
    IsSet(env.supabaseUrl) && IsSet(env.serviceKey) && IsSet(env.typesenseHost) && IsSet(env.typesenseKey)
  }

  /** The calls the script makes to the two services, in order. */
  datatype Step =
    | DeleteCollection
    | CreateCollection
    | FetchTable(table: string)
    | ImportDocuments(action: string, batchSize: nat, count: nat)

  /** How `main()` ends: an error it throws, or the report of a completed import. */
  datatype RunOutcome = Thrown(message: string) | Completed(report: ImportReport)

  const VideosTable := "nde_vids"
  const EmbeddingsTable := "nde_punctuated_embeddings"
  const MissingEnv := "Missing env variables. Ensure NEXT_PUBLIC_SUPABASE_URL, SUPABASE_SERVICE_KEY, TYPESENSE_HOST, and TYPESENSE_API_KEY are set."

  /**
   * `main()`: checks the environment, drops and recreates the collection (a
   * failed delete is ignored, a failed create is thrown), reads both tables
   * with `fetchAll`, joins them and upserts in batches of 2000.
   */
  method RunIndexing(
    env: Env, create: Result<(), string>,
    fetchVideos: (nat, nat) -> Result<seq<VideoRow>, string>, ghost videoTable: seq<VideoRow>,
    fetchEmbeddings: (nat, nat) -> Result<seq<EmbeddingRow>, string>, ghost embeddingTable: seq<EmbeddingRow>,
    parseMs: string -> Option<int>,
    importDocs: seq<Document> -> Result<seq<ImportResult>, string>)
    returns (outcome: RunOutcome, trace: seq<Step>)
    requires ReadsFrom(fetchVideos, videoTable) && ReadsFrom(fetchEmbeddings, embeddingTable)
    ensures !EnvComplete(env) ==> outcome == Thrown(MissingEnv) && trace == []
    ensures EnvComplete(env) ==> |trace| >= 2 && trace[0] == DeleteCollection && trace[1] == CreateCollection
    ensures EnvComplete(env) && create.Failure? ==> outcome == Thrown(create.error) && |trace| == 2
    ensures EnvComplete(env) && create.Success? ==>
      var videos := Collect(fetchVideos, VideosTable, videoTable, 0);
      var segments := Collect(fetchEmbeddings, EmbeddingsTable, embeddingTable, 0);
      && (videos.Failure? ==> outcome == Thrown(videos.error) && trace == [DeleteCollection, CreateCollection, FetchTable(VideosTable)])
      && (videos.Success? && segments.Failure? ==>
            && outcome == Thrown(segments.error)
            && trace == [DeleteCollection, CreateCollection, FetchTable(VideosTable), FetchTable(EmbeddingsTable)])
      && (videos.Success? && segments.Success? ==>
            var docs := Transform(embeddingTable, VideoMap(videoTable), parseMs);
            && outcome == Completed(CheckImport(importDocs(docs)))
            && trace == [DeleteCollection, CreateCollection, FetchTable(VideosTable), FetchTable(EmbeddingsTable),
                         ImportDocuments("upsert", 2000, |docs|)])
  {
    trace := [];
    if !EnvComplete(env) {
      return Thrown(MissingEnv), trace;
    }
    trace := [DeleteCollection, CreateCollection];
    if create.Failure? {
      return Thrown(create.error), trace;
    }
    trace := trace + [FetchTable(VideosTable)];
    var videos := FetchAll(fetchVideos, VideosTable, videoTable);
    if videos.Failure? {
      return Thrown(videos.error), trace;
    }
    var videoMap := VideoMap(videos.value);
    trace := trace + [FetchTable(EmbeddingsTable)];
    var embeddings := FetchAll(fetchEmbeddings, EmbeddingsTable, embeddingTable);
    if embeddings.Failure? {
      return Thrown(embeddings.error), trace;
    }
    var documents := Transform(embeddings.value, videoMap, parseMs);
    trace := trace + [ImportDocuments("upsert", 2000, |documents|)];
    outcome := Completed(CheckImport(importDocs(documents)));
  }
}
