/**
 * The asset-search servlet (AssetSearchServlet): `doGet` turns four optional
 * request parameters into the predicate map of a QueryBuilder query, and
 * `buildJsonResponse` shapes the hits of the executed query into a JSON object.
 *
 * Query execution is a collaborator: its hits, total and start index are inputs.
 * JSON values are modelled as a datatype; their serialisation is not modelled.
 */
module AssetSearch {
  import opened Wrappers
  import opened JavaLang

  // ===========================================================================
  // Request parameters and the predicate map

  /** The four request parameters; `None` when the request does not carry one. */
  datatype SearchRequest = SearchRequest(
    query: Option<string>,
    mimeType: Option<string>,
    pageNumber: Option<string>,
    resultsPerPage: Option<string>)

  /** The exception `Integer.parseInt` throws, with the text it refused; doGet does not catch it. */
  datatype NumberFormatException = NumberFormatException(input: string)

  const DefaultPageNumber: int := 1
  const DefaultResultsPerPage: int := 10

  /** The keys the predicate map holds for every request. */
  const FixedKeys: set<string> :=
    {"path", "type", "orderby", "orderby.sort", "p.offset", "p.limit", "p.guessTotal"}

  /** A numeric parameter: the fallback when blank, otherwise `Integer.parseInt` of its text. */
  function ParamOrDefault(param: Option<string>, fallback: int): (r: Result<int, NumberFormatException>)
    requires IsInt32(fallback)
    ensures IsBlank(param) ==> r == Success(fallback)
    ensures !IsBlank(param) && r.Success? ==> Some(r.value) == ParseInt(param.value)
    ensures !IsBlank(param) && r.Failure? ==> ParseInt(param.value) == None && r.error.input == param.value
    ensures r.Success? ==> IsInt32(r.value)
  {
    if !IsBlank(param) then
      match ParseInt(param.value)
      case Some(n) => Success(n)
      case None => Failure(NumberFormatException(param.value))
    else Success(fallback)
  }

  /** `(pageNumber - 1) * resultsPerPage` in Java `int` arithmetic: each operation wraps. */
  function Offset(pageNumber: int, resultsPerPage: int): (r: int)
    ensures IsInt32(r)
    ensures (r - (pageNumber - 1) * resultsPerPage) % TwoTo32 == 0
  {
    Wrap32Mul(pageNumber - 1, resultsPerPage);
    Wrap32(Wrap32(pageNumber - 1) * resultsPerPage)
  }

  /** Without overflow the offset is the number of results on the pages before the requested one. */
  lemma OffsetWithoutOverflow(pageNumber: int, resultsPerPage: int)
    requires IsInt32((pageNumber - 1) * resultsPerPage)
    ensures Offset(pageNumber, resultsPerPage) == (pageNumber - 1) * resultsPerPage
  {
    Wrap32Mul(pageNumber - 1, resultsPerPage);
    Wrap32Identity((pageNumber - 1) * resultsPerPage);
  }

  /** With overflow it wraps: page 214748366 of 10 results starts at a negative offset. */
  lemma OffsetOverflowExample()
    ensures Offset(214748366, 10) == -2147483646
  {
  }

  /**
   * The predicate map doGet hands to QueryBuilder for a page number and page size
   * already parsed: exactly the fixed keys, `fulltext` when there is a search term and
   * both property keys when there is a mime type, with their values.
   */
  ghost predicate IsQueryMap(m: map<string, string>, query: Option<string>, mimeType: Option<string>, page: int, size: int) {
    && m.Keys == FixedKeys
                 + (if IsBlank(query) then {} else {"fulltext"})
                 + (if IsBlank(mimeType) then {} else {"property.name", "property.value"})
    && m["path"] == "/content/dam"
    && m["type"] == "dam:Asset"
    && m["orderby"] == "@jcr:content/jcr:lastModified"
    && m["orderby.sort"] == "desc"
    && m["p.guessTotal"] == "true"
    && m["p.offset"] == IntToString(Offset(page, size))
    && m["p.limit"] == IntToString(size)
    && (!IsBlank(query) ==> m["fulltext"] == query.value)
    && (!IsBlank(mimeType) ==>
          m["property.name"] == "jcr:content/metadata/dc:format" && m["property.value"] == mimeType.value)
  }

  /** doGet's `queryMap.put` calls, once both page parameters are known. */
  method FillQueryMap(query: Option<string>, mimeType: Option<string>, pageNumber: int, resultsPerPage: int)
    returns (queryMap: map<string, string>)
    ensures IsQueryMap(queryMap, query, mimeType, pageNumber, resultsPerPage)
  {
    queryMap := map[];
    queryMap := queryMap["path" := "/content/dam"];
    queryMap := queryMap["type" := "dam:Asset"];
    queryMap := queryMap["orderby" := "@jcr:content/jcr:lastModified"];
    queryMap := queryMap["orderby.sort" := "desc"];
    if !IsBlank(query) {
      queryMap := queryMap["fulltext" := query.value];
    }
    if !IsBlank(mimeType) {
      queryMap := queryMap["property.name" := "jcr:content/metadata/dc:format"];
      queryMap := queryMap["property.value" := mimeType.value];
    }
    var offset := Offset(pageNumber, resultsPerPage);
    queryMap := queryMap["p.offset" := IntToString(offset)];
    queryMap := queryMap["p.limit" := IntToString(resultsPerPage)];
    queryMap := queryMap["p.guessTotal" := "true"];
  }

  /**
   * doGet up to the query: parse the page parameters (a NumberFormatException for
   * page number is raised before the one for results per page), then fill the map.
   */
  method BuildQueryMap(request: SearchRequest) returns (r: Result<map<string, string>, NumberFormatException>)
    ensures var page := ParamOrDefault(request.pageNumber, DefaultPageNumber);
      var size := ParamOrDefault(request.resultsPerPage, DefaultResultsPerPage);
      && (r.Failure? <==> page.Failure? || size.Failure?)
      && (page.Failure? ==> r == Failure(page.error))
      && (page.Success? && size.Failure? ==> r == Failure(size.error))
    ensures r.Success? ==>
      IsQueryMap(r.value, request.query, request.mimeType,
                 ParamOrDefault(request.pageNumber, DefaultPageNumber).value,
                 ParamOrDefault(request.resultsPerPage, DefaultResultsPerPage).value)
  {
    var pageNumber := ParamOrDefault(request.pageNumber, DefaultPageNumber);
    if pageNumber.Failure? {
      return Failure(pageNumber.error);
    }
    var resultsPerPage := ParamOrDefault(request.resultsPerPage, DefaultResultsPerPage);
    if resultsPerPage.Failure? {
      return Failure(resultsPerPage.error);
    }
    var queryMap := FillQueryMap(request.query, request.mimeType, pageNumber.value, resultsPerPage.value);
    r := Success(queryMap);
  }

  // ===========================================================================
  // JSON shaping of the hits

  datatype Rendition = Rendition(name: string, path: string)

  /** What a hit yields when every step succeeds: the metadata map, the original's size, the asset path and renditions. */
  datatype AssetHit = AssetHit(metadata: map<string, string>, originalSize: int, assetPath: string, renditions: seq<Rendition>)

  /**
   * One search hit. `Readable`: every lookup succeeds. `CheckedFailure`: a
   * JSONException or RepositoryException is raised while the hit is handled.
   * `UncheckedFailure`: a runtime exception (a null asset, metadata child or
   * original rendition) is raised, which nothing in the servlet catches.
   */
  datatype Hit = Readable(asset: AssetHit) | CheckedFailure | UncheckedFailure

  datatype SearchResult = SearchResult(hits: seq<Hit>, totalMatches: int, startIndex: int)

  /** The request failed with an exception that doGet does not catch. */
  datatype RuntimeFailure = RuntimeFailure

  /** `ValueMap.get(key, String.class)`: the value, or null when absent. */
  function MetadataValue(metadata: map<string, string>, key: string): (r: Option<string>)
    ensures r.None? <==> key !in metadata
    ensures r.Some? ==> r.value in metadata.Values && metadata[key] == r.value
  {
    if key in metadata then Some(metadata[key]) else None
  }

  /**
   * The JSON objects the response is made of, one field per JSON key. A `None`
   * field is a key that is absent: `JSONObject.put` with a null value stores nothing.
   */
  datatype RenditionJson = RenditionJson(renditionName: string, renditionPath: string)

  datatype AssetJson = AssetJson(
    title: Option<string>,
    description: Option<string>,
    caption: Option<string>,
    altText: Option<string>,
    size: int,
    duration: Option<string>,
    tiffLength: Option<string>,
    assetPath: string,
    renditions: seq<RenditionJson>)

  datatype JsonResponse = JsonResponse(totalResults: int, startIndex: int, assets: seq<AssetJson>)

  /** The object of one readable hit: six metadata properties, the original's size, the path and the renditions. */
  function AssetObject(a: AssetHit): (obj: AssetJson)
    ensures |obj.renditions| == |a.renditions|
    ensures forall i :: 0 <= i < |a.renditions| ==>
      obj.renditions[i] == RenditionJson(a.renditions[i].name, a.renditions[i].path)
  {
    var md := a.metadata;
    AssetJson(
      MetadataValue(md, "dc:title"), MetadataValue(md, "dc:description"), MetadataValue(md, "dc:caption"),
      MetadataValue(md, "dc:altText"), a.originalSize, MetadataValue(md, "dc:duration"),
      MetadataValue(md, "dc:tiffLength"), a.assetPath,
      seq(|a.renditions|, i requires 0 <= i < |a.renditions| => RenditionJson(a.renditions[i].name, a.renditions[i].path)))
  }

  /** Reference definition: the objects of the readable hits, in hit order; the others are dropped. */
  function AssetsOf(hits: seq<Hit>): seq<AssetJson> {
    if hits == [] then []
    else (if hits[0].Readable? then [AssetObject(hits[0].asset)] else []) + AssetsOf(hits[1..])
  }

  lemma {:induction false} AssetsOfAppend(xs: seq<Hit>, ys: seq<Hit>)
    ensures AssetsOf(xs + ys) == AssetsOf(xs) + AssetsOf(ys)
  {
    if xs != [] {
      var head: seq<AssetJson> := if xs[0].Readable? then [AssetObject(xs[0].asset)] else [];
      assert (xs + ys)[0] == xs[0];
      assert (xs + ys)[1..] == xs[1..] + ys;
      assert AssetsOf(xs + ys) == head + AssetsOf(xs[1..] + ys);
      AssetsOfAppend(xs[1..], ys);
    } else {
      assert xs + ys == ys;
    }
  }

  /** Number of readable hits. */
  function ReadableCount(hits: seq<Hit>): nat {
    if hits == [] then 0 else (if hits[0].Readable? then 1 else 0) + ReadableCount(hits[1..])
  }

  /** One entry per readable hit, never more entries than hits. */
  lemma {:induction false} AssetsOfLength(hits: seq<Hit>)
    ensures |AssetsOf(hits)| == ReadableCount(hits) <= |hits|
  {
    if hits != [] {
      AssetsOfLength(hits[1..]);
    }
  }

  /** A hit that fails with a checked exception leaves no trace: the result is as if it had not been returned. */
  lemma FailedHitIsDropped(xs: seq<Hit>, ys: seq<Hit>)
    ensures AssetsOf(xs + [CheckedFailure] + ys) == AssetsOf(xs + ys)
  {
    AssetsOfAppend(xs + [CheckedFailure], ys);
    AssetsOfAppend(xs, [CheckedFailure]);
    AssetsOfAppend(xs, ys);
    assert AssetsOf([CheckedFailure]) == [];
  }

  /** When every hit is readable, each one gives the asset at its own position. */
  lemma {:induction false} AllReadableHitsKept(hits: seq<Hit>)
    requires forall i :: 0 <= i < |hits| ==> hits[i].Readable?
    ensures |AssetsOf(hits)| == |hits|
    ensures forall i :: 0 <= i < |hits| ==> AssetsOf(hits)[i] == AssetObject(hits[i].asset)
  {
    if hits != [] {
      AllReadableHitsKept(hits[1..]);
    }
  }

  /** The body of the loop over hits for a readable hit: the asset object, renditions filled in one by one. */
  method ShapeAsset(asset: AssetHit) returns (assetJson: AssetJson)
    ensures assetJson == AssetObject(asset)
  {
    var md := asset.metadata;
    var renditionsArray: seq<RenditionJson> := [];
    var j := 0;
    while j < |asset.renditions|
      invariant 0 <= j <= |asset.renditions|
      invariant |renditionsArray| == j
      invariant forall k :: 0 <= k < j ==>
        renditionsArray[k] == RenditionJson(asset.renditions[k].name, asset.renditions[k].path)
    {
      var rendition := asset.renditions[j];
      renditionsArray := renditionsArray + [RenditionJson(rendition.name, rendition.path)];
      j := j + 1;
    }
    assetJson := AssetJson(
      MetadataValue(md, "dc:title"), MetadataValue(md, "dc:description"), MetadataValue(md, "dc:caption"),
      MetadataValue(md, "dc:altText"), asset.originalSize, MetadataValue(md, "dc:duration"),
      MetadataValue(md, "dc:tiffLength"), asset.assetPath, renditionsArray);
    assert renditionsArray == AssetObject(asset).renditions;
  }

  /**
   * buildJsonResponse: one pass over the hits; a hit that raises a checked exception
   * is skipped, a runtime exception ends the request.
   */
  method BuildJsonResponse(result: SearchResult) returns (r: Result<JsonResponse, RuntimeFailure>)
    ensures r.Failure? <==> exists i :: 0 <= i < |result.hits| && result.hits[i].UncheckedFailure?
    ensures r.Success? ==> r.value == JsonResponse(result.totalMatches, result.startIndex, AssetsOf(result.hits))
  {
    var hits := result.hits;
    var assetsArray: seq<AssetJson> := [];
    var i := 0;
    while i < |hits|
      invariant 0 <= i <= |hits|
      invariant forall k :: 0 <= k < i ==> !hits[k].UncheckedFailure?
      invariant assetsArray == AssetsOf(hits[..i])
    {
      assert hits[..i + 1] == hits[..i] + [hits[i]];
      AssetsOfAppend(hits[..i], [hits[i]]);
      assert [hits[i]][1..] == [];
      match hits[i] {
        case UncheckedFailure =>
          return Failure(RuntimeFailure);
        case CheckedFailure =>
          // JSONException or RepositoryException: caught, the hit is left out
        case Readable(asset) =>
          var assetJson := ShapeAsset(asset);
          assetsArray := assetsArray + [assetJson];
      }
      i := i + 1;
    }
    assert hits[..i] == hits;
    r := Success(JsonResponse(result.totalMatches, result.startIndex, assetsArray));
  }
}
