# Asset/page move listener and asset search servlet, modelled in Dafny

This project models two pieces of decision logic from an AEM connector sample.

- **The move listener** (`SampleAEMAssetOrPageMoveListener`). `onEvent` receives a batch of
  moved-node events. It takes one service resource resolver for the whole batch. For each
  event it resolves the path, adapts the resource to the connector's config reader, reads
  the configuration and queues a reference-update job when the configuration's flag is the
  string `"true"`. `activate` logs in with the service user and registers the listener with
  a fixed event filter. `deactivate` removes the listener and logs the session out.
- **The asset search servlet** (`AssetSearchServlet`). `doGet` turns the request parameters
  `query`, `mimeType`, `pageNumber` and `resultsPerPage` into a QueryBuilder predicate map.
  `buildJsonResponse` shapes the query's hits into a JSON response.

The repository, the resolver, the config reader, the job manager and the query engine are
collaborators. They appear in three forms:

- as data: the resources a resolver can see, what a session's workspace answers, the hits
  of a query;
- as recorded calls: jobs handed to the job manager, the resolver's close count, and the
  listener's calls into the observation manager and the session;
- as an input: the outcome of the service login.

Files:

- `wrappers.dfy`: `Option` (Java's `null`) and `Result` (a value or an exception).
- `java_lang.dfy`: Java `int` wrap-around, `Integer.parseInt`, `String.valueOf(int)` and
  `StringUtils.isBlank`, with a parse/print round trip.
- `move_listener.dfy`:
  - `Decide`, the loop body for one event;
  - `Run`, the loop over a batch, with lemmas for the abort/skip asymmetry and for which
    jobs are queued;
  - the `activate`/`deactivate` state machine, as the functions `Activation`/`Deactivation`;
  - the classes `JobManager`, `ResourceResolver` and `AssetOrPageMoveListener`. Their
    methods are proved against those functions.
- `asset_search.dfy`:
  - `BuildQueryMap` (doGet up to the query), which states the map's exact key set and values;
  - `BuildJsonResponse` and its reference definition `AssetsOf`, an order-preserving filter
    of the hits.

Details of the listener's code that the model keeps:

- The configuration flag is a string compared with `"true"`. A null flag
  throws a NullPointerException at `.equals`. In that case the resolver is left open: the
  batch stops with `Crashed` and `ClosesResolver` is false.
- `deactivate` does not clear `session` or `observationManager`. After it, the fields still
  hold their values.
- The filter path passed to `setAbsPath` is `/content`, while the registration log message
  names `/content/dam`.

## Model

| member | source | states |
|---|---|---|
| MoveListener.Decide | sample-snippet/listener/SampleAEMAssetOrPageMoveListener.java:73-104 | an event leads to a job iff its path resolves, the resource adapts to a config reader, `getSampleProps()` is non-null and the flag equals `"true"`; the job is for that event's path; an event whose `getPath()` throws is skipped (and only such an event); the batch aborts with `NoResource`, `NoConfigReader` or `NoSampleProps` exactly when the path does not resolve, the resource does not adapt, or `getSampleProps()` is null; a null flag, and only that, throws; any other flag string is ignored |
| MoveListener.Run | sample-snippet/listener/SampleAEMAssetOrPageMoveListener.java:71-105 | the events examined before the batch stops never outnumber the batch, and each of them adds at most one job |
| MoveListener.MoveJob | sample-snippet/listener/SampleAEMAssetOrPageMoveListener.java:97-100 | a job has the move topic and a payload whose only key is `movedAssetOrPagePath`, mapped to the moved path |
| MoveListener.RunStopsAtFirstHalt | sample-snippet/listener/SampleAEMAssetOrPageMoveListener.java:71-105 | the batch runs to the end iff no event hits a miss or a null flag; otherwise it stops at the first such event, every earlier event was examined, and the stop records that event's index and reason |
| MoveListener.RunJobsAreDispatched | sample-snippet/listener/SampleAEMAssetOrPageMoveListener.java:71-105 | the jobs of a batch are exactly those of the dispatching events among the events examined before the stop, in delivery order |
| MoveListener.DispatchedJobsWellFormed | sample-snippet/listener/SampleAEMAssetOrPageMoveListener.java:97-100 | at most one job per event; every job has the move topic, the single payload key, and the path of an event of the batch |
| MoveListener.StoppedRunIsFinal | sample-snippet/listener/SampleAEMAssetOrPageMoveListener.java:76-96 | once a miss or a crash has stopped the batch, events after it add no job and the jobs already added remain |
| MoveListener.RunHaltsAt | sample-snippet/listener/SampleAEMAssetOrPageMoveListener.java:76-96 | a miss or a null flag at event i, after the earlier events ran through, ends the batch with the earlier jobs and a stop at i with that reason |
| MoveListener.RunAppend | sample-snippet/listener/SampleAEMAssetOrPageMoveListener.java:71-105 | a batch that runs through a prefix continues on the rest as if the rest were a batch of its own |
| MoveListener.UnreadableEventIsSkipped | sample-snippet/listener/SampleAEMAssetOrPageMoveListener.java:102-104 | an event whose `getPath()` throws `RepositoryException` changes neither the jobs nor whether the batch completes: processing continues with the next event |
| MoveListener.MissDiscardsRest | sample-snippet/listener/SampleAEMAssetOrPageMoveListener.java:76-96 | a null resource, reader or properties at event i ends the batch at i with that reason, whatever follows; only the earlier jobs remain |
| MoveListener.AssetOrPageMoveListener.OnEvent | sample-snippet/listener/SampleAEMAssetOrPageMoveListener.java:63-108 | with no resolver, no job is added; otherwise the jobs added and the outcome are those of `Run` over the batch, and the resolver is closed exactly once unless a null flag threw (an empty batch: no job, one close) |
| MoveListener.JobManager.AddJob | sample-snippet/listener/SampleAEMAssetOrPageMoveListener.java:100 | a job is appended to the queue of dispatched jobs |
| MoveListener.ResourceResolver.Close | sample-snippet/listener/SampleAEMAssetOrPageMoveListener.java:106 | closing increments the resolver's close count by one |
| MoveListener.MoveFilter | sample-snippet/listener/SampleAEMAssetOrPageMoveListener.java:116-122 | the registered filter is path `/content`, event type `NODE_MOVED`, deep, no-local, no-external, node types `sling:OrderedFolder`, `sling:Folder`, `nt:folder`, `cq:Page` |
| MoveListener.Activation | sample-snippet/listener/SampleAEMAssetOrPageMoveListener.java:112-139 | a successful login stores the session; registration with `MoveFilter` happens iff login succeeded, the workspace is non-null and an observation manager was obtained, and then the manager is stored; failures leave the other fields as they were |
| MoveListener.AssetOrPageMoveListener.Activate | sample-snippet/listener/SampleAEMAssetOrPageMoveListener.java:112-139 | the fields and the repository calls change as `Activation` says; no exception leaves the method |
| MoveListener.Deactivation | sample-snippet/listener/SampleAEMAssetOrPageMoveListener.java:142-155 | the listener is removed iff a manager is set, and then from that manager as the first call; the session is logged out iff one is set, as the last call and exactly once, whether or not removal threw; no other call is made |
| MoveListener.AssetOrPageMoveListener.Deactivate | sample-snippet/listener/SampleAEMAssetOrPageMoveListener.java:142-155 | the repository calls are those of `Deactivation`; the fields are unchanged |
| MoveListener.LifecyclePairing | sample-snippet/listener/SampleAEMAssetOrPageMoveListener.java:111-155 | for a new listener, activate then deactivate logs out the session obtained exactly once (never if login failed) and removes the listener from every manager it was added to |
| MoveListener.ActivationKeepsManagerWithSession | sample-snippet/listener/SampleAEMAssetOrPageMoveListener.java:124-127 | a stored observation manager always comes with a stored session, and activate preserves this |
| JavaLang.Wrap32 | sample-snippet/servlet/AssetSearchServlet.java:68 | the `int` an exact result becomes is in range and congruent to it modulo 2^32 |
| JavaLang.Wrap32Mul | sample-snippet/servlet/AssetSearchServlet.java:68 | wrapping `pageNumber - 1` before the multiplication gives the same `int` as wrapping the exact product |
| JavaLang.ParseInt | sample-snippet/servlet/AssetSearchServlet.java:49-50 | a parsed value is an `int`, and only a string that starts with a digit, or with a sign followed by at least one more character, and whose characters after the first are digits parses |
| JavaLang.ParseIntAcceptsWellFormed | sample-snippet/servlet/AssetSearchServlet.java:49-50 | conversely, an optional `+` or `-` followed by one or more digits parses to the number it denotes whenever that fits in an `int`, leading zeros included |
| JavaLang.ParseIntRejectsOverflow | sample-snippet/servlet/AssetSearchServlet.java:49-50 | an optional sign followed by digits whose value does not fit in an `int` (such as `"2147483648"`) does not parse: `parseInt` throws |
| JavaLang.IsWhitespace | sample-snippet/servlet/AssetSearchServlet.java:49-50 | space, tab, line feed and carriage return are whitespace; the no-break spaces, digits and signs are not |
| JavaLang.IsBlank | sample-snippet/servlet/AssetSearchServlet.java:49-63 | a string is non-blank iff it is non-null and holds a non-whitespace character; the empty string is blank |
| JavaLang.IntToString | sample-snippet/servlet/AssetSearchServlet.java:68-69 | `String.valueOf` gives a non-empty string that starts with `-` iff the number is negative, and with a digit otherwise (never `+`) |
| JavaLang.IntToStringCanonical | sample-snippet/servlet/AssetSearchServlet.java:68-69 | `String.valueOf` writes the canonical decimal: after an optional `-`, one or more digits with no leading zero except for 0 itself |
| JavaLang.ParseIntRoundTrip | sample-snippet/servlet/AssetSearchServlet.java:68-69 | for every `int`, parsing its decimal string gives the number back, so `p.offset` and `p.limit` carry exactly the computed values |
| JavaLang.ParseIntRejectsWhitespace | sample-snippet/servlet/AssetSearchServlet.java:49-50 | a non-blank parameter with whitespace in it (such as `" 5"`) is not trimmed: `parseInt` throws |
| AssetSearch.ParamOrDefault | sample-snippet/servlet/AssetSearchServlet.java:49-50 | a blank parameter gives the default; a non-blank one gives its parsed value, or a NumberFormatException carrying the text when it does not parse |
| AssetSearch.Offset | sample-snippet/servlet/AssetSearchServlet.java:68 | the offset is an `int` congruent to `(pageNumber - 1) * resultsPerPage` modulo 2^32 |
| AssetSearch.OffsetWithoutOverflow | sample-snippet/servlet/AssetSearchServlet.java:68 | when the product fits in an `int`, the offset is `(pageNumber - 1) * resultsPerPage` |
| AssetSearch.OffsetOverflowExample | sample-snippet/servlet/AssetSearchServlet.java:68 | with overflow the offset wraps: page 214748366 of 10 results gives offset -2147483646 |
| AssetSearch.BuildQueryMap | sample-snippet/servlet/AssetSearchServlet.java:44-70 | fails iff a non-blank page parameter does not parse, with the page number's exception first; otherwise the map has exactly the 7 fixed keys, `fulltext` iff the query is non-blank, and both property keys iff the mime type is non-blank, with the fixed values, the search term, the mime type, and the decimal strings of the offset and of `resultsPerPage` |
| AssetSearch.MetadataValue | sample-snippet/servlet/AssetSearchServlet.java:99-105 | a metadata lookup is null iff the key is absent, and otherwise is the value stored under the key |
| AssetSearch.FillQueryMap | sample-snippet/servlet/AssetSearchServlet.java:52-70 | the `put` calls give exactly the fixed keys, `fulltext` iff the query is non-blank, both property keys iff the mime type is non-blank, with their values and the decimal strings of the offset and of `resultsPerPage` |
| AssetSearch.ShapeAsset | sample-snippet/servlet/AssetSearchServlet.java:93-115 | the object built for a readable hit, with its renditions filled in one by one, is the hit's `AssetObject` |
| AssetSearch.AssetObject | sample-snippet/servlet/AssetSearchServlet.java:93-115 | an asset has one `renditions` entry per rendition, in iteration order, each with that rendition's name and path |
| AssetSearch.AssetsOfAppend | sample-snippet/servlet/AssetSearchServlet.java:91-122 | hits are shaped one by one, independently and in order: the assets of two runs of hits are the concatenation of each run's assets |
| AssetSearch.AssetsOfLength | sample-snippet/servlet/AssetSearchServlet.java:91-122 | there is one asset per readable hit, so never more assets than hits |
| AssetSearch.FailedHitIsDropped | sample-snippet/servlet/AssetSearchServlet.java:118-121 | a hit whose handling throws `JSONException` or `RepositoryException` leaves no trace in `assets` |
| AssetSearch.AllReadableHitsKept | sample-snippet/servlet/AssetSearchServlet.java:91-122 | when no hit fails, asset i is the object of hit i |
| AssetSearch.BuildJsonResponse | sample-snippet/servlet/AssetSearchServlet.java:87-129 | fails iff some hit raises a runtime exception; otherwise the response holds `totalResults`, `startIndex` and `assets`, where `assets` is the readable hits' objects in hit order |

## Left out

- Logging (every `LOG.*` call): it has no effect on state.
- The OSGi lifecycle, service injection and concurrent event delivery: `activate`, `deactivate` and `onEvent` are sequential method calls.
- What Jackrabbit delivers for a given filter: the filter's contents are stated, but its meaning as a subscription is not modelled.
- The service user lookup and the session behind the resolver. A resolver (or null) is an input of `OnEvent`, and `closeResourceResolver` is counted.
- The text of `JOB_TOPIC_Sample_ASSET_PAGE_MOVE`. That constants class is not part of this model, so `JobTopicAssetPageMove` is a constant whose value is left open.
- Job execution after `addJob`. Jobs are only recorded.
- Whether a failing `addEventListener`/`removeEventListener` throws. It is caught and logged, so the calls, fields and logout are the same either way. The model records the attempted call and does not model the failure.
- Runtime exceptions in `onEvent` other than the null flag, for example a `null` path from `getPath()`.
- The part of `doGet` after the map is built (lines 72-83): creating and running the query, the session lookup, the content type, writing the response and the empty catch of `JSONException`. These are library behaviour and I/O. `BuildJsonResponse` takes the query's hits, total and start index as inputs.
- A `JSONException` from the three final `put`s of `buildJsonResponse`. Their keys are constants and their values are numbers and an array, so they do not throw.
- The JSON text format. Objects are records with one field per key, and a `None` field is a key that `put` with a `null` value leaves out.
- Why a hit fails. Hits are abstract: readable, failing with a checked exception, or failing with a runtime exception. An asset's `size` (a Java `long`) is an unbounded integer.
- JavaLang.ParseInt: only ASCII digits are accepted. Java's `Integer.parseInt` also accepts other Unicode decimal digits, which the model rejects.
