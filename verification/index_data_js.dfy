/**
 * The older compiled variant scripts/index-data.js of the re-index script.
 * It reads each table with ONE unpaginated select, joins by mapping every
 * segment to a document or `null` and dropping the nulls, returns early when
 * there are no segments, and imports with action `create` in batches of 100.
 * Its `main()` is a straight line of awaited calls, so it is modelled as a
 * function of the services' answers.
 */
module IndexDataJs {
  import opened Wrappers
  import opened Seqs
  import opened IndexData

  /** `videoMap.get(e.video_id)` mapped to a document, or `null` when the video is unknown. */
  function DocOrNull(videoMap: map<string, VideoRow>, e: EmbeddingRow, parseMs: string -> Option<int>): Option<Document> {
    if e.videoId in videoMap then Some(ToDocument(videoMap[e.videoId], e, parseMs)) else None
  }

  /** `embeddings.map(...)` to documents-or-null. */
  function DocsOrNull(embeddings: seq<EmbeddingRow>, videoMap: map<string, VideoRow>, parseMs: string -> Option<int>): (r: seq<Option<Document>>)
    ensures |r| == |embeddings|
  {
    if embeddings == [] then []
    else [DocOrNull(videoMap, embeddings[0], parseMs)] + DocsOrNull(embeddings[1..], videoMap, parseMs)
  }

  /** `.map(...).filter(doc => doc !== null)`. */
  function JoinJs(embeddings: seq<EmbeddingRow>, videoMap: map<string, VideoRow>, parseMs: string -> Option<int>): seq<Document> {
    Somes(DocsOrNull(embeddings, videoMap, parseMs))
  }

  /**
   * Mapping to document-or-null and dropping the nulls gives exactly the
   * filter-then-map join of index-data.ts: the same documents in the same order.
   */
  lemma {:induction false} JoinJsMatchesTransform(embeddings: seq<EmbeddingRow>, videoMap: map<string, VideoRow>, parseMs: string -> Option<int>)
    ensures JoinJs(embeddings, videoMap, parseMs) == Transform(embeddings, videoMap, parseMs)
  {
    if embeddings != [] {
      var e, rest := embeddings[0], embeddings[1..];
      JoinJsMatchesTransform(rest, videoMap, parseMs);
      assert embeddings == [e] + rest;
      JoinJsCons(e, rest, videoMap, parseMs);
      TransformAppend([e], rest, videoMap, parseMs);
      TransformOne(e, videoMap, parseMs);
    }
  }

  /** One segment in front: its document, if its video is known, then the rest's. */
  lemma {:induction false} JoinJsCons(e: EmbeddingRow, rest: seq<EmbeddingRow>, videoMap: map<string, VideoRow>, parseMs: string -> Option<int>)
    ensures JoinJs([e] + rest, videoMap, parseMs) ==
      (if e.videoId in videoMap then [ToDocument(videoMap[e.videoId], e, parseMs)] else []) + JoinJs(rest, videoMap, parseMs)
  {
    assert ([e] + rest)[1..] == rest;
    assert DocsOrNull([e] + rest, videoMap, parseMs)[1..] == DocsOrNull(rest, videoMap, parseMs);
  }

  /** How the JS script's `main()` ends. */
  datatype JsOutcome =
    | JsThrown(message: string)
    | NothingToIndex
    | Indexed
    | IndexingFailed(error: string)

  const MissingEnvJs := "Missing required environment variables. Check your .env file in the project root."

  /** The error thrown when the select on `table` fails. */
  function SelectError(table: string, message: string): string {
    "Supabase fetch error (" + table + "): " + message
  }

  /**
   * `main()` of index-data.js, given what each service answers: the create
   * outcome, the single select on each table, and the import outcome for the
   * documents it is given. A failed delete is caught and changes nothing; a
   * failed create is not caught, so its error is what `main()` throws.
   */
  function RunJs(
    env: Env, create: Result<(), string>,
    videos: Result<seq<VideoRow>, string>, embeddings: Result<seq<EmbeddingRow>, string>,
    parseMs: string -> Option<int>, importDocs: seq<Document> -> Result<(), string>): (res: (JsOutcome, seq<Step>))
    ensures !EnvComplete(env) <==> res.0 == JsThrown(MissingEnvJs) && res.1 == []
    ensures EnvComplete(env) ==> |res.1| >= 2 && res.1[..2] == [DeleteCollection, CreateCollection]
    ensures res.0.JsThrown? ==> forall i :: 0 <= i < |res.1| ==> !res.1[i].ImportDocuments?
    ensures res.0 == NothingToIndex ==> forall i :: 0 <= i < |res.1| ==> !res.1[i].ImportDocuments?
    ensures EnvComplete(env) && create.Failure? ==> res == (JsThrown(create.error), [DeleteCollection, CreateCollection])
    ensures EnvComplete(env) && create.Success? && videos.Failure? ==> res.0 == JsThrown(SelectError(VideosTable, videos.error))
    ensures EnvComplete(env) && create.Success? && videos.Success? && embeddings.Failure? ==>
      res.0 == JsThrown(SelectError(EmbeddingsTable, embeddings.error))
    ensures res.0 == NothingToIndex <==>
      EnvComplete(env) && create.Success? && videos.Success? && embeddings.Success? && embeddings.value == []
    ensures res.0.Indexed? || res.0.IndexingFailed? ==>
      && embeddings.Success? && embeddings.value != [] && videos.Success?
      && var docs := Transform(embeddings.value, VideoMap(videos.value), parseMs);
      && res.1[|res.1| - 1] == ImportDocuments("create", 100, |docs|)
      && (res.0.Indexed? <==> importDocs(docs).Success?)
  {
    if !EnvComplete(env) then (JsThrown(MissingEnvJs), [])
    else
      var trace := [DeleteCollection, CreateCollection];
      if create.Failure? then (JsThrown(create.error), trace)
      else if videos.Failure? then (JsThrown(SelectError(VideosTable, videos.error)), trace + [FetchTable(VideosTable)])
      else
        var videoMap := VideoMap(videos.value);
        var trace := trace + [FetchTable(VideosTable), FetchTable(EmbeddingsTable)];
        if embeddings.Failure? then (JsThrown(SelectError(EmbeddingsTable, embeddings.error)), trace)
        else if embeddings.value == [] then (NothingToIndex, trace)
        else
          var docs := JoinJs(embeddings.value, videoMap, parseMs);
          JoinJsMatchesTransform(embeddings.value, videoMap, parseMs);
          var trace := trace + [ImportDocuments("create", 100, |docs|)];
          match importDocs(docs)
          case Success(_) => (Indexed, trace)
          case Failure(e) => (IndexingFailed(e), trace)
  }
}
