# cmrfetch, modelled in Dafny

cmrfetch is a command-line client for NASA's Common Metadata Repository (CMR). It
searches granules, collections and autocomplete facets, reports provider holdings, and
downloads granule files with checksum verification. This project models its core and
proves properties of that model:

- **The generic paginated search stream** (`CmrSearch`, internal/cmrsearch.go). One GET
  is repeated with the `cmr-search-after` cursor of the previous page. A non-200 reply,
  an unparsable `cmr-hits` header or a failed body read ends the stream with its error.
  A page with no items, or one without a cursor, ends it cleanly. The server is a
  sequence of replies, one per request.
- **The granule, collection and facet searches** (`CmrGranules`, `CmrCollections`,
  `CmrKeywords`).
  - Each query builder is a class whose setters overwrite one field. Its `build` is
    proved to produce exactly the expected values for every query key, or the error
    the source reports.
  - The UMM projections (`findGranules`, `decodeArchiveInfo`, `newGranulesFromUMM` and
    `newCollectionFromUMM`) are loops. Each is proved against a specification function.
- **Provider holdings** (`Holdings`, internal/holdingsapi.go): the grouping of holdings
  by provider, the cache rules and the refresh.
- **Downloads**:
  - checksum-name parsing and the hashing writer (`FetchSupport`, internal/fetch.go);
  - one HTTP download (`HttpFetch`, internal/fetch_http.go);
  - the download workers (`FetchPool`, internal/fetch_pool.go). Each file is fetched
    into a temporary file, checked, renamed onto its destination and chmod-ed;
  - file checksums (`Checksums`, internal/checksum.go).
- **Command-line pieces**:
  - the time-range flag (`TimeFlags`, internal/flags.go) and time-range encoding (`Umm`,
    internal/umm.go);
  - the `granules` command's argument checks and download driver (`GranulesCmd`,
    cmd/granules/cmd.go and cmd/granules/download.go);
  - the collection sort-field check (`CollectionsOrder`, cmd/collections/order.go);
  - the truncation used by `keywords` (`KeywordsCmd`, cmd/keywords/cmd.go).

Some library code is replaced by parameters:

- The time library is a record of function values (`Times.TimeCodec`).
- Message digests are a function from algorithm and bytes to digest bytes
  (`Checksums.DigestFn`).
- `ByteCountSI` is a function parameter.
- The operating system is a small file-system class (`FetchPool.FileSystem`) and a few
  parameters.

Go's unordered map iteration is modelled as a nondeterministic choice (`:|`) inside
loops. The goroutines and channels of the source become sequential loops over
sequences.

Shared helpers are in `common.dfy`: Option and Result, string splitting and joining,
trimming, integer text, hex, paths, and url.Values as a map from keys to value lists.

## Model

| member | source | states |
|---|---|---|
| CmrSearch.NewCmrError | internal/cmrsearch.go:136-152 | the error keeps the reply's status and request id; the server's error list, when it decodes, becomes the wrapped error, joined with "; " |
| CmrSearch.PageItems | internal/cmrsearch.go:112-115 | the items of a page: `items`, or `feed.entry` when `items` is empty |
| CmrSearch.ServeReply | internal/cmrsearch.go:92-125 | a reply that continues the stream has no error, a hits value, a non-empty cursor and at least one item; a reply that records an error emits no items |
| CmrSearch.ScrollFrom | internal/cmrsearch.go:76-126 | the stream from a page on starts with a request carrying the given cursor |
| CmrSearch.Scroll | internal/cmrsearch.go:66-134 | the reference stream `Get` is proved against: a refused request URL fails at once, otherwise the pages from the first request on |
| CmrSearch.ScrollResult.constructor | internal/cmrsearch.go:43-48 | a new result has no items, no error and zero hits |
| CmrSearch.ScrollResult.SetErr | internal/cmrsearch.go:50-54 | records the error and leaves items and hits alone |
| CmrSearch.ScrollResult.Send | internal/cmrsearch.go:117-119 | appends one item and changes nothing else |
| CmrSearch.ServePage | internal/cmrsearch.go:92-125 | one pass of the loop changes the result exactly as `ServeReply` says: it appends the items, records the error, sets the hits on the first page and returns the next cursor |
| CmrSearch.Get | internal/cmrsearch.go:66-134 | the items, error, hits and request cursors of `Get` are those of the stream `Scroll` describes |
| CmrSearch.ServeReplyCases | internal/cmrsearch.go:92-125 | a non-200 reply records the CMR error; an unparsable hits header records "failed to parse cmr-hits header as int: …"; a good page emits `items`, or `feed.entry` when `items` is empty |
| CmrSearch.CursorChain | internal/cmrsearch.go:83-125 | every request after the first carries the non-empty cursor of the reply before it |
| CmrSearch.FirstRequestHasNoCursor | internal/cmrsearch.go:76-85 | the first request carries no cursor |
| CmrSearch.EmittedIsConcatenation | internal/cmrsearch.go:112-119 | the stream emits the items of the pages it requested, concatenated in request order |
| CmrSearch.StreamEnd | internal/cmrsearch.go:77-126 | the stream ends with the error of the last reply it requested, or cleanly when that reply had no items or no cursor; a request the server does not answer is a protocol error; hits come from the first reply only |
| CmrSearch.HitsFromFirstPage | internal/cmrsearch.go:97-131 | there are hits exactly when the first reply is 200 OK with a parsable `cmr-hits` header, and they are that header's value; otherwise the stream ends with an error and no items |
| Umm.EncodeTimeRangeCuts | internal/umm.go:37-47 | an encoded range holds exactly one comma; cutting at it gives back the encoded start and end; without an end the text ends in the comma |
| Umm.EncodeTime | internal/umm.go:37-39 | the time in the layout "2006-01-02T15:04:05Z", rendered by the time library |
| Umm.EncodeTimeRange | internal/umm.go:41-47 | the encoded start, a comma, then the encoded end when there is one |
| Umm.UmmErrorMessageSplits | internal/umm.go:21-26 | the message of a decoded error document splits on ';' back into its errors |
| Umm.UmmErrorMessage | internal/umm.go:21-26 | the decoding failure when there is one, otherwise the errors joined with ";" |
| Umm.NewUmmError | internal/umm.go:28-35 | a decoder failure gives "failed to decode error"; otherwise the errors are kept and the message is them joined with ";" |
| CmrGranules.KeyNamesDistinct | internal/cmrsearch_granules.go:101-166 | distinct query keys are sent under distinct names |
| CmrGranules.Expected | internal/cmrsearch_granules.go:101-166 | the values each query key must hold, the reference `Build` is proved against |
| CmrGranules.GeometryError | internal/cmrsearch_granules.go:135-158 | the first geometry the build refuses, in the order polygon, circle, bounding box, point, and none exactly when each non-empty geometry has an accepted number of values |
| CmrGranules.KeyAt | internal/cmrsearch_granules.go:101-166 | position n of the build order holds the key whose order is n |
| CmrGranules.BuiltUpToValues | internal/cmrsearch_granules.go:101-166 | after n steps of the build, each key holds its expected values when it has been passed and nothing otherwise, and no key is empty |
| CmrGranules.NextKeyUnset | internal/cmrsearch_granules.go:101-166 | the key the build sets next is not yet in the query |
| CmrGranules.Advance | internal/cmrsearch_granules.go:101-166 | one more step adds the next key with its expected values, or nothing when they are empty |
| CmrGranules.BuiltQuery | internal/cmrsearch_granules.go:101-166 | the query after every step is the expected granule query |
| CmrGranules.SearchGranuleParams.constructor | internal/cmrsearch_granules.go:41-43 | a new builder holds nothing |
| CmrGranules.SearchGranuleParams.DayNightFlag | internal/cmrsearch_granules.go:45-48 | sets only the day/night flag |
| CmrGranules.SearchGranuleParams.ShortNames | internal/cmrsearch_granules.go:50-53 | sets only the short names; no argument stores nil |
| CmrGranules.SearchGranuleParams.Versions | internal/cmrsearch_granules.go:55-58 | sets only the versions |
| CmrGranules.SearchGranuleParams.Filenames | internal/cmrsearch_granules.go:60-63 | sets only the file names |
| CmrGranules.SearchGranuleParams.Collections | internal/cmrsearch_granules.go:65-68 | sets only the collection ids |
| CmrGranules.SearchGranuleParams.NativeIds | internal/cmrsearch_granules.go:70-73 | sets only the native ids |
| CmrGranules.SearchGranuleParams.BoundingBox | internal/cmrsearch_granules.go:75-78 | sets only the bounding box |
| CmrGranules.SearchGranuleParams.Point | internal/cmrsearch_granules.go:80-83 | sets only the point |
| CmrGranules.SearchGranuleParams.Circle | internal/cmrsearch_granules.go:85-88 | sets only the circle |
| CmrGranules.SearchGranuleParams.Polygon | internal/cmrsearch_granules.go:90-93 | sets only the polygon |
| CmrGranules.SearchGranuleParams.Timerange | internal/cmrsearch_granules.go:95-99 | stores the start and the optional end, and changes nothing else |
| CmrGranules.BuildFilters | internal/cmrsearch_granules.go:102-134 | the day/night, short-name, file-name, collection, native-id and temporal part of the build is the first eight steps of the build order |
| CmrGranules.BuildGeometry | internal/cmrsearch_granules.go:135-158 | the geometry part fails exactly with the first refused geometry's message, and otherwise adds the next four steps |
| CmrGranules.Build | internal/cmrsearch_granules.go:101-166 | the build fails exactly when a geometry is refused, with that geometry's message; otherwise the query holds exactly the expected values for every key |
| CmrGranules.LastUrlNamedNone | internal/cmrsearch_granules.go:185-201 | a file name has no URL exactly when no related URL of the type carries that basename |
| CmrGranules.LastUrlNamedIsLast | internal/cmrsearch_granules.go:185-201 | the URL kept for a name is that of the last related URL of the type carrying it |
| CmrGranules.LastUrlNamed | internal/cmrsearch_granules.go:185-201 | the URL of the last related URL of the type whose basename is the name |
| CmrGranules.FindDownloadUrls | internal/cmrsearch_granules.go:185-201 | the map holds, for every basename, the last "GET DATA" URL (or "GET DATA VIA DIRECT ACCESS" URL) with it, and no other name |
| CmrGranules.Sizes | internal/cmrsearch_granules.go:314-323 | one reported size per archive entry |
| CmrGranules.Checksums | internal/cmrsearch_granules.go:325-328 | one reported checksum and algorithm per archive entry |
| CmrGranules.ReportsAt | internal/cmrsearch_granules.go:314-328 | position i of the reported sizes and checksums is that of entry i |
| CmrGranules.FirstSizeIsFirst | internal/cmrsearch_granules.go:314-323 | the size kept for a name is the first non-empty one, and "" only when all are empty |
| CmrGranules.FirstChecksumIsFirst | internal/cmrsearch_granules.go:325-328 | the checksum kept is the first non-blank one, with its algorithm |
| CmrGranules.NamedSnoc | internal/cmrsearch_granules.go:295-334 | one more entry adds itself to the entries of its own name only |
| CmrGranules.InfoForIsFirst | internal/cmrsearch_granules.go:295-334 | the info of one name holds the first non-empty size and the first non-blank checksum of its entries |
| CmrGranules.ArchiveInfosAt | internal/cmrsearch_granules.go:295-334 | a name has an info exactly when it is non-empty and some entry carries it, and that info is the fold of its entries |
| CmrGranules.ArchiveInfosMeaning | internal/cmrsearch_granules.go:295-334 | the same, for every name at once |
| CmrGranules.ArchiveInfos | internal/cmrsearch_granules.go:295-334 | the infos gathered entry by entry, the reference `DecodeArchiveInfo` is proved against |
| CmrGranules.InfoFor | internal/cmrsearch_granules.go:300-330 | the info of one name: its entries folded in order from an empty info |
| CmrGranules.MergeEntry | internal/cmrsearch_granules.go:300-330 | one loop body folds one entry into the info of its name |
| CmrGranules.DecodeArchiveInfo | internal/cmrsearch_granules.go:295-334 | one info per non-empty name carried by an entry; per name, the first non-empty size and the first non-blank checksum |
| CmrGranules.FilesAreFileOf | internal/cmrsearch_granules.go:341-386 | the merged records are, name by name, the file record of the document, and every name with a URL has one |
| CmrGranules.FileOf | internal/cmrsearch_granules.go:341-386 | the record of one file name: its URL of each type and the archive info of that name |
| CmrGranules.CollectGetData | internal/cmrsearch_granules.go:342-351 | one record per "GET DATA" name, holding its URL |
| CmrGranules.MergeDirect | internal/cmrsearch_granules.go:352-365 | the records cover the names of both URL maps; each record holds its name's URL of each type, or "" |
| CmrGranules.AttachArchive | internal/cmrsearch_granules.go:367-378 | each record of a name with archive info takes its size, checksum and algorithm; the others are unchanged |
| CmrGranules.RecordsOf | internal/cmrsearch_granules.go:380-385 | every record of the map appears exactly once, and nothing else |
| CmrGranules.FindGranules | internal/cmrsearch_granules.go:341-386 | one record per distinct basename among the download URLs of either type, each the file record of its name |
| CmrGranules.Coordinates | internal/cmrsearch_granules.go:226-230 | two coordinates per boundary point |
| CmrGranules.CoordinatesOrder | internal/cmrsearch_granules.go:227-230 | each point gives its longitude and then its latitude |
| CmrGranules.PolygonTexts | internal/cmrsearch_granules.go:224-232 | one bounding-box text per polygon: its coordinates joined by "," |
| CmrGranules.ProviderDatesOf | internal/cmrsearch_granules.go:234-237 | each provider-date type maps to the last date given for it |
| CmrGranules.NewGranulesFromUmm | internal/cmrsearch_granules.go:203-242 | the records of one document: one per file name with a URL, each with the document's ids, collection, day/night flag, time range, boxes and provider dates |
| CmrGranules.SendAll | internal/cmrsearch_granules.go:264-266 | the records of one item are sent in order |
| CmrGranules.SendItems | internal/cmrsearch_granules.go:255-268 | the stream's items become their records, item after item |
| CmrGranules.SearchGranules | internal/cmrsearch_granules.go:244-271 | a refused build returns its error with an empty result; otherwise the hits are copied and the items are the records of the stream's items |
| CmrCollections.KeyNamesDistinct | internal/cmrsearch_collections.go:132-187 | distinct query keys are sent under distinct names |
| CmrCollections.Expected | internal/cmrsearch_collections.go:132-187 | the values each query key must hold, the reference `Build` is proved against |
| CmrCollections.KeywordAcceptedIsMatch | internal/cmrsearch_collections.go:134-142 | the keyword test passes exactly when `[\w\s_-]+` matches at the start |
| CmrCollections.KeywordTailIgnored | internal/cmrsearch_collections.go:134-142 | anything after an accepted start is not checked |
| CmrCollections.KeyAt | internal/cmrsearch_collections.go:132-187 | position n of the build order holds the key whose order is n |
| CmrCollections.BuiltUpToValues | internal/cmrsearch_collections.go:132-187 | after n steps each key holds its expected values when passed and nothing otherwise, and no key is empty |
| CmrCollections.Advance | internal/cmrsearch_collections.go:132-187 | one more step adds the next key with its expected values, or nothing when they are empty |
| CmrCollections.BuiltQuery | internal/cmrsearch_collections.go:132-187 | the query after every step is the expected collection query |
| CmrCollections.SortField | internal/cmrsearch_collections.go:123-130 | "shortname" is stored as "short_name", and any other field as given |
| CmrCollections.SearchCollectionParams.constructor | internal/cmrsearch_collections.go:66-68 | a new builder holds nothing |
| CmrCollections.SearchCollectionParams.Keyword | internal/cmrsearch_collections.go:70-73 | sets only the keyword |
| CmrCollections.SearchCollectionParams.Providers | internal/cmrsearch_collections.go:75-78 | sets only the providers |
| CmrCollections.SearchCollectionParams.Platforms | internal/cmrsearch_collections.go:80-83 | sets only the platforms |
| CmrCollections.SearchCollectionParams.Instruments | internal/cmrsearch_collections.go:85-88 | sets only the instruments |
| CmrCollections.SearchCollectionParams.Title | internal/cmrsearch_collections.go:90-93 | sets only the title pattern |
| CmrCollections.SearchCollectionParams.UpdatedSince | internal/cmrsearch_collections.go:95-98 | sets only the update time |
| CmrCollections.SearchCollectionParams.GranulesAdded | internal/cmrsearch_collections.go:100-103 | sets only the revised-granules range |
| CmrCollections.SearchCollectionParams.CloudHosted | internal/cmrsearch_collections.go:105-109 | sets the flag and marks it as given |
| CmrCollections.SearchCollectionParams.Standard | internal/cmrsearch_collections.go:111-115 | sets the flag and marks it as given |
| CmrCollections.SearchCollectionParams.HasGranules | internal/cmrsearch_collections.go:117-121 | sets the flag and marks it as given |
| CmrCollections.SearchCollectionParams.SortBy | internal/cmrsearch_collections.go:123-130 | stores the sort field, renaming "shortname" |
| CmrCollections.BuildLists | internal/cmrsearch_collections.go:134-162 | a refused keyword is "invalid keyword"; otherwise the keyword, provider, platform and instrument steps of the build order |
| CmrCollections.BuildTitle | internal/cmrsearch_collections.go:163-167 | the title steps of the build order |
| CmrCollections.BuildFlags | internal/cmrsearch_collections.go:168-186 | the update, revision, flag and sort steps of the build order |
| CmrCollections.Build | internal/cmrsearch_collections.go:132-187 | the build fails exactly on a refused keyword; otherwise the query holds exactly the expected values for every key |
| CmrCollections.PlatformPairs | internal/cmrsearch_collections.go:29-37 | one "platform/instrument" line per instrument of a platform |
| CmrCollections.InfoUrls | internal/cmrsearch_collections.go:38-44 | at most one line per related URL |
| CmrCollections.PairOrigin | internal/cmrsearch_collections.go:29-37 | every instrument line names some platform and one of its instruments |
| CmrCollections.PlatformPairAt | internal/cmrsearch_collections.go:29-37 | line j of a platform names its instrument j |
| CmrCollections.PairPresent | internal/cmrsearch_collections.go:29-37 | every instrument of every platform has its line |
| CmrCollections.InfoUrlOrigin | internal/cmrsearch_collections.go:38-44 | every URL line is the URL of a related URL of type "VIEW RELATED INFORMATION" |
| CmrCollections.InfoUrlPresent | internal/cmrsearch_collections.go:38-44 | every related URL of that type has its line |
| CmrCollections.CollectionLines | internal/cmrsearch_collections.go:16-46 | the record holds exactly the twelve fields, and the instrument and URL fields split on newlines back into their lines |
| CmrCollections.NewCollectionFromUmm | internal/cmrsearch_collections.go:16-46 | the record the loops build is the projection of the document |
| CmrCollections.CollectionOf | internal/cmrsearch_collections.go:16-46 | the record of one collection, the reference `NewCollectionFromUmm` is proved against |
| CmrCollections.SendCollections | internal/cmrsearch_collections.go:205-210 | each item of the stream becomes its record, in order |
| CmrCollections.SearchCollections | internal/cmrsearch_collections.go:189-213 | a refused keyword returns "invalid keyword" with an empty result; otherwise the query is the expected one, the hits are copied and the items are the records of the stream's items |
| CmrKeywords.SendFacets | internal/cmrsearch_keywords.go:33-43 | each raw item becomes its facet, in order |
| CmrKeywords.SearchFacets | internal/cmrsearch_keywords.go:16-46 | the query holds the text, the page size and each type; the hits are copied; the items are the facets of the stream's items; no error is passed on |
| CmrKeywords.RefusedSearchLooksEmpty | internal/cmrsearch_keywords.go:30-43 | a search the server refuses at once yields no items and no hits, and the refusal stays in the stream it drops |
| Holdings.AbsentProvider | internal/holdingsapi.go:49-64 | a provider that no entry names has no items and no granules |
| Holdings.ReadHoldings | internal/holdingsapi.go:39-71 | a decode error is returned; otherwise one provider per distinct id, each with its entries' items in order and their granule total |
| Holdings.GroupByProvider | internal/holdingsapi.go:49-64 | the map holds one provider per id named in the data, built from that id's entries |
| Holdings.TallySplit | internal/holdingsapi.go:49-64 | counting over a set of ids plus one more id adds that id's count |
| Holdings.TallyNone | internal/holdingsapi.go:49-64 | counting over no ids gives zero |
| Holdings.TallyEverything | internal/holdingsapi.go:49-64 | counting over every id gives the total over all entries |
| Holdings.ItemsCounted | internal/holdingsapi.go:56-62 | a provider has one item per entry naming it |
| Holdings.SumOfOnes | internal/holdingsapi.go:49-64 | counting one per entry counts the entries |
| Holdings.ProviderTotals | internal/holdingsapi.go:49-70 | over distinct providers, the items and granules add up to the counts over their ids |
| Holdings.IdIndex | internal/holdingsapi.go:66-70 | a listed id is the id of some provider |
| Holdings.HoldingsTotals | internal/holdingsapi.go:39-71 | the holdings read list every entry once, and the granule totals add up to the data's |
| Holdings.EntryListed | internal/holdingsapi.go:56-62 | every entry appears among the items of its provider |
| Holdings.MissingFileIsAnError | internal/holdingsapi.go:85-88 | as written, a cache directory without the cache file is an error, while a missing directory is not |
| Holdings.CachedHoldingsAsWritten | internal/holdingsapi.go:73-96 | as written: a missing directory is an empty cache, and a missing cache file is the open error |
| Holdings.CachedHoldings | internal/holdingsapi.go:73-96 | a missing directory or cache file is an empty cache; every other case is as the source reads it |
| Holdings.EmptyCacheNeverFresh | internal/holdingsapi.go:117-119 | an empty cache is never fresh, so it is refetched |
| Holdings.CacheFresh | internal/holdingsapi.go:117-119 | the cache is used when it holds providers and is younger than 30 days |
| Holdings.GetProviderHoldings | internal/holdingsapi.go:112-133 | corrected (see Findings: a missing cache file is an empty cache, so it leads to a fetch instead of "loading cached holdings: open …"): a cache error becomes "loading cached holdings: …"; a fresh non-empty cache is returned unchanged; otherwise the holdings are fetched and read, a fetch or read error is returned, and only holdings read successfully are written back |
| Checksums.MetadataAlg | internal/checksum.go:14-48 | exactly the four metadata names select an algorithm: SHA-256, SHA-384, SHA-512 and MD5 |
| Checksums.ChecksumAlgSupported | internal/checksum.go:14-27 | true exactly for "SHA-256", "SHA-384", "SHA-512" and "MD5", case-sensitively |
| Checksums.Checksum | internal/checksum.go:31-53 | a missing file is the open error; an unknown algorithm is "<alg> checksum not supported"; otherwise the result is the hex digest of the contents, two hex digits per byte |
| Checksums.ChecksumDeterminedByDigest | internal/checksum.go:49-52 | two checksums agree exactly when the digests agree |
| FetchSupport.SplitChecksum | internal/fetch.go:24-30 | a text without ':' is an error naming it; otherwise the lowercased text cut at its first ':' |
| FetchSupport.NewHashNames | internal/fetch.go:32-45 | exactly md5, sha256, sha-256, sha512 and sha-512, in any case, select a hash, never SHA-384; anything else is the warning quoting the name |
| FetchSupport.NewHashAcceptsMetadataNames | internal/fetch.go:32-45 | every metadata name except SHA-384 selects the same algorithm here |
| FetchSupport.NewHashDiffersFromMetadataNames | internal/fetch.go:32-45 | "SHA-384" is only a metadata name, and "md5" only a download name |
| FetchSupport.NewHash | internal/fetch.go:32-45 | the download-side algorithm names after lowercasing, or the warning quoting the name; its properties are those of `NewHashNames` |
| FetchSupport.StripSpaceAppend | internal/fetch.go:70-73 | whitespace removal distributes over concatenation |
| FetchSupport.LooksLikeHtmlIgnoresSpace | internal/fetch.go:70-73 | whitespace anywhere in the prefix does not change the HTML verdict |
| FetchSupport.LooksLikeHtmlGrows | internal/fetch.go:70-73 | a prefix that looks like HTML still does once extended |
| FetchSupport.StripSpace | internal/fetch.go:71-72 | removes exactly the `\s` bytes and keeps the others in order |
| FetchSupport.LooksLikeHtml | internal/fetch.go:70-73 | "<html" occurs once every whitespace byte is removed |
| FetchSupport.File.Write | internal/fetch.go:57 | the file takes as many bytes as fit and reports "no space left on device" when not all did (Go's message also names the path, "write <path>: no space left on device"; the path is omitted here) |
| FetchSupport.WriterHasher.constructor | internal/fetch.go:47-54 | a new writer has written nothing |
| FetchSupport.WriterHasher.Write | internal/fetch.go:56-66 | the file's count and error are returned unchanged; the bytes the file accepted are counted, and hashed when there is a hash; while the prefix is under 1000 bytes every accepted byte is appended to it, so one write can take it past 1000 bytes, and from then on it stays as it is |
| FetchSupport.WriterHasher.Checksum | internal/fetch.go:75-80 | "" without a hash, otherwise the hex digest of all bytes written |
| FetchSupport.PrefixCoversStart | internal/fetch.go:56-66 | the prefix is the start of what was written, and either all of it or at least 1000 bytes |
| FetchSupport.ProbableHtmlMeaning | internal/fetch.go:56-73 | whatever the sizes of the writes, "<html" (spaces ignored) within the first 1000 bytes written is always reported, a report means it occurs in what was written, and up to 1000 bytes the verdict is exactly the test on everything written |
| HttpFetch.FailedDownloadMessage | internal/fetch_http.go:39-45 | "<status> requestid=<id>", with "<unavailable>" for a missing id |
| HttpFetch.FailedDownloadMessageShowsId | internal/fetch_http.go:39-45 | two failures with the same status have the same message exactly when they carry the same request id, except that no id and the literal id "<unavailable>" read alike |
| HttpFetch.NewFailedDownloadErrorAsWritten | internal/fetch_http.go:25-37 | as written, a body that reads cleanly is dropped |
| HttpFetch.FailedDownloadDropsReadableBody | internal/fetch_http.go:26-30 | a 404 with a readable body "BODY" gives a failure with an empty body |
| HttpFetch.NewFailedDownloadError | internal/fetch_http.go:25-37 | the failure keeps the request id, status and URL, and the body when it reads cleanly |
| HttpFetch.UnreachableServerPanics | internal/fetch_http.go:112-113 | as written, a transport failure dereferences a missing response |
| HttpFetch.AdmitAsWritten | internal/fetch_http.go:106-117 | as written: a bad URL is refused, an unreachable server panics, a status other than 200 is a failed download |
| HttpFetch.Admit | internal/fetch_http.go:106-117 | corrected (see Findings): the same, except that an unreachable server is refused with its transport error |
| HttpFetch.AdmitOnlyOk | internal/fetch_http.go:107-117 | corrected, the check never panics; it lets a body through only after 200 OK, reports other statuses as failed downloads, and agrees with the code as written wherever that does not panic |
| HttpFetch.WriteFailureLosesCause | internal/fetch_http.go:125-128 | as written, a full disk is reported as "writing to file: %!w(<nil>)" instead of naming the write error |
| HttpFetch.NextChunk | internal/fetch_http.go:123-124 | a read past the body's end is EOF |
| HttpFetch.Ending | internal/fetch_http.go:132-137 | a body ends in EOF or in a read error |
| HttpFetch.Received | internal/fetch_http.go:119-140 | the body the server sent: every chunk up to the first one that came with EOF or a read error |
| HttpFetch.CopySpec | internal/fetch_http.go:119-140 | the copy loop: each chunk is written before its read error is looked at, a short write stops at once, EOF ends cleanly and another read error ends with it |
| HttpFetch.CopyDeliversBody | internal/fetch_http.go:120-139 | a body that fits is stored and counted whole, with an error only if it ended in a read error; one that does not fit stores what fitted and reports the write failure |
| HttpFetch.Fetch | internal/fetch_http.go:106-140 | corrected (see Findings: a transport failure is returned instead of panicking, a refused response keeps its body when that body reads cleanly, and a write failure names the write error): nothing is written unless the response is 200 OK; then size, error and written bytes are those of the copy loop |
| HttpFetch.CopyBody | internal/fetch_http.go:119-140 | corrected (see Findings: a write failure names the write error): the reported size, the error and the bytes written are those `CopySpec` gives for the body and the room left on disk |
| FetchPool.FetchErrorMessage | internal/fetch_pool.go:17-19 | the message is "fetching: " and the cause |
| FetchPool.TempNameNotDest | internal/fetch_pool.go:91-92 | the temporary file is never the destination, and lives in the destination's directory |
| FetchPool.FreshSuffixExists | internal/fetch_pool.go:92 | a fresh temporary name always exists |
| FetchPool.FileSystem.CreateTemp | internal/fetch_pool.go:91-95 | a new empty file under an unused name beginning "." and the file name, in the destination's directory or the system temporary directory, or an error when that directory is missing |
| FetchPool.FileSystem.Remove | internal/fetch_pool.go:96 | the temporary path is gone afterwards |
| FetchPool.FileSystem.Close | internal/fetch_pool.go:109 | the temporary path holds what was written to it |
| FetchPool.FileSystem.Rename | internal/fetch_pool.go:117-119 | moves the temporary file onto the destination, or returns the failure and changes nothing |
| FetchPool.FileSystem.Chmod | internal/fetch_pool.go:120-122 | sets the destination's mode, or returns the failure and changes nothing |
| FetchPool.Commit | internal/fetch_pool.go:109-123 | after the fetch: a checksum mismatch, rename failure or chmod failure is reported, and otherwise the destination holds the bytes with mode 0644 |
| FetchPool.FetchInto | internal/fetch_pool.go:98-123 | the fetch into the temporary file, then the commit, as the step function says |
| FetchPool.Download | internal/fetch_pool.go:82-129 | built on the corrected fetch (see Findings): one request's result and file system are those of `Outcome` |
| FetchPool.DownloadAllStep | internal/fetch_pool.go:81-130 | one more request extends the run by its outcome |
| FetchPool.Downloader | internal/fetch_pool.go:71-131 | built on the corrected fetch (see Findings): the worker's results and file system are those of the run over every request |
| FetchPool.FirstFactoryFailure | internal/fetch_pool.go:33-40 | the first failing factory call among the first n, and none only when all succeed |
| FetchPool.FetchConcurrent | internal/fetch_pool.go:29-49 | built on the corrected fetch (see Findings): the first factory failure is "failed to init fetcher: …", and the model then starts no download, so there are no results and no file changes (see Left out); otherwise the workers run over every request |
| FetchPool.FirstFactoryFailureStable | internal/fetch_pool.go:33-40 | a failure among the first calls stays the first failure when more calls are made |
| FetchPool.CommitStep | internal/fetch_pool.go:109-123 | after a complete fetch: the checksum comparison, then the rename, then the chmod, each failure as its message |
| FetchPool.FetchStep | internal/fetch_pool.go:98-123 | a refused fetch or a failed copy is the fetch error; otherwise the commit of the bytes received |
| FetchPool.Outcome | internal/fetch_pool.go:82-129 | one request: a missing temporary directory, then an algorithm newHash refuses, then the fetch and the commit |
| FetchPool.DownloadAll | internal/fetch_pool.go:81-130 | the outcomes of the requests in order, each from the file system the one before left |
| FetchPool.OutcomeSuccess | internal/fetch_pool.go:82-129 | built on the corrected fetch (see Findings): a request succeeds only after 200 OK with a body that fitted and ended in EOF, and then its destination holds that body with mode 0644 |
| FetchPool.CommitStepShape | internal/fetch_pool.go:109-123 | the commit names the request, and either leaves the files alone or puts the bytes at the destination |
| FetchPool.FetchStepShape | internal/fetch_pool.go:98-123 | the fetch step, likewise, with the bytes being the body the server sent |
| FetchPool.OutcomeNamesRequest | internal/fetch_pool.go:82-127 | every result names its request's URL and destination, and a failure carries the request |
| FetchPool.OutcomeTouchesOnlyVerifiedDest | internal/fetch_pool.go:96-122 | the only path a request changes is its destination, and only after the checksum matched |
| FetchPool.NoAlgorithmNeedsNoChecksum | internal/fetch_pool.go:99-116 | without an algorithm the checksum is "", so a request expecting one fails its comparison |
| FetchPool.BadAlgorithmBeforeFetch | internal/fetch_pool.go:99-104 | an algorithm newHash refuses fails the request before any fetch, whatever the server does |
| FetchPool.OneResultPerRequest | internal/fetch_pool.go:81-130 | built on the corrected fetch (see Findings), where an unreachable server yields a failed result instead of a panic: every request yields exactly one result, in order, naming it |
| FetchPool.OnlyDestinationsChange | internal/fetch_pool.go:81-130 | a path no request names keeps its contents, so temporary files do not survive |
| TimeFlags.FirstParseIsFirst | internal/flags.go:33-41 | a string parses when some layout accepts it, and then under the first layout that does |
| TimeFlags.FirstParse | internal/flags.go:33-41 | the instant the first accepting layout gives, trying RFC 3339 and then "2006-01-02" |
| TimeFlags.Parse | internal/flags.go:33-41 | the loop returns the first layout's parse that succeeds |
| TimeFlags.ParseTimeRangeCases | internal/flags.go:43-62 | no comma, a bad start and a bad non-empty end are the three errors; otherwise the start and the optional end are kept |
| TimeFlags.ParseTimeRange | internal/flags.go:43-62 | what `Set` makes of its argument: the new bounds or the error it reports |
| TimeFlags.ParseEncodedTimeRange | internal/flags.go:43-62 | a range encoded for a search request parses back to itself |
| TimeFlags.TimeRangeValue.constructor | internal/flags.go:16-19 | a new value has no bounds |
| TimeFlags.TimeRangeValue.Set | internal/flags.go:43-62 | an accepted value replaces both bounds; a refused one leaves them and returns the error |
| GranulesCmd.Kept | cmd/granules/download.go:19-39 | no more requests than granules; each request's destination is the directory and the granule name joined and cleaned as `filepath.Join` does |
| GranulesCmd.ZultsToRequests | cmd/granules/download.go:19-39 | the requests are those of the granules to send, in granule order, each destination being `filepath.Join(destdir, name)` with its cleaning, so `.` gives the bare name |
| GranulesCmd.ClobberKeepsAll | cmd/granules/download.go:31-34 | with clobber every granule has its request at its own position |
| GranulesCmd.KeptOrigin | cmd/granules/download.go:19-39 | each request is that of a granule to send, and requests keep granule order |
| GranulesCmd.KeptPresent | cmd/granules/download.go:19-39 | every granule to send has its request |
| GranulesCmd.NoClobberSkipsExisting | cmd/granules/download.go:31-34 | without clobber no request targets an existing path |
| GranulesCmd.RequestFor | cmd/granules/download.go:24-30 | the request of one granule: its URL, checksum and algorithm, and its name joined to the download directory |
| GranulesCmd.DestIsGranuleName | cmd/granules/download.go:24-26 | for a name that is not "", "." or ".." and has no '/', the destination's file name is the granule's name, whatever the directory or URL |
| GranulesCmd.DotDirTempsInTempDir | internal/fetch_pool.go:91-92 | with `--download .` the destination is the bare granule name, so `filepath.Split` gives no directory and the temporary file goes to the system temporary directory |
| GranulesCmd.AbsoluteDirKeepsTempsBeside | internal/fetch_pool.go:91-92 | with an absolute download directory the destination keeps a directory part, and the temporary file is created there |
| Common.JoinPath | cmd/granules/download.go:26 | `filepath.Join` of a directory and a name: "" when both are empty, otherwise the joined path cleaned; its meaning is given by the three lemmas below |
| Common.Clean | cmd/granules/download.go:26 | `filepath.Clean` never gives "": a path that cleans to nothing is "." |
| Common.JoinPlainName | cmd/granules/download.go:26 | for a name that is not "", "." or ".." and has no '/', the file part of any directory joined with it is that name |
| Common.JoinDotIsBare | cmd/granules/download.go:26 | "." joined with such a name is the bare name, and `filepath.Split` gives it an empty directory part |
| Common.JoinedShape | cmd/granules/download.go:26 | such a name joined to a non-empty directory is a directory part ending in '/' (or nothing) followed by the name, and the directory part is not empty when the directory is absolute |
| GranulesCmd.DoDownload | cmd/granules/download.go:41-96 | built on the corrected fetch (see Findings): the search error, prompt, directory checks and pool start-up error in the source's order; once the workers run, the result is no error and the downloads are those of the requests |
| GranulesCmd.StartDownloads | cmd/granules/download.go:73-81 | built on the corrected fetch (see Findings): the requests are those of the granules to send, each destination `filepath.Join` of the directory and the name, cleaned; a pool start-up failure gives "init fetcher: failed to init fetcher: " and its cause, otherwise no error and the downloads of the requests in order |
| GranulesCmd.ArrayContains | cmd/granules/cmd.go:31-38 | true exactly when the value occurs in the slice |
| GranulesCmd.FirstInvalidField | cmd/granules/cmd.go:100-106 | none exactly when every field is valid; otherwise an invalid requested field whose every predecessor in the list is valid, that is the first invalid one |
| GranulesCmd.CheckFields | cmd/granules/cmd.go:100-106 | no error exactly when every field is valid; otherwise "<name> is not a valid field name" for the first invalid field, as `FirstInvalidField` gives it |
| GranulesCmd.WriterFor | cmd/granules/cmd.go:179-190 | a writer exactly for short, long, json and csv |
| GranulesCmd.NewParams | cmd/granules/cmd.go:207-264 | a day/night value other than the four is refused; otherwise every flag given reaches its setter and the builder holds the flags' parameters |
| GranulesCmd.ParamsOf | cmd/granules/cmd.go:207-264 | the search parameters each flag gives, the reference `NewParams` is proved against |
| GranulesCmd.ArgsError | cmd/granules/cmd.go:77-115 | no error exactly when a selector is given, every field is valid, a file name comes with a collection, the day/night value is one of the four, and the output is a known writer when not downloading |
| GranulesCmd.CheckArgs | cmd/granules/cmd.go:77-128 | the checks run in the source's order and give the first error; otherwise the search gets the flags' parameters |
| CollectionsOrder.AcceptsSortField | cmd/collections/order.go:16-24 | accepted exactly when the value without hyphens is a listed name |
| CollectionsOrder.ValidSortFieldAsWritten | cmd/collections/order.go:5-24 | the same, over the list as written |
| CollectionsOrder.ValidSortField | cmd/collections/order.go:5-24 | the same, over the corrected list |
| CollectionsOrder.RemoveAbsent | cmd/collections/order.go:17 | removing hyphens from a text without any changes nothing |
| CollectionsOrder.RemoveConcat | cmd/collections/order.go:17 | removing hyphens distributes over concatenation |
| CollectionsOrder.HyphenIgnored | cmd/collections/order.go:17 | a hyphen anywhere in the value is ignored, so "ti-tle" reads as "title" |
| CollectionsOrder.ListedAccepted | cmd/collections/order.go:17-23 | every listed name is accepted as given and with a leading "-" |
| CollectionsOrder.UnhyphenatedRefused | cmd/collections/order.go:17-23 | a value without hyphens is accepted only when listed as it stands |
| CollectionsOrder.RevisionDateRefusedAsWritten | cmd/collections/order.go:13 | as written, "revision_date" is refused |
| CollectionsOrder.RevisionDateAcceptedWhenCorrected | cmd/collections/order.go:13 | the misspelt name is accepted as written, and "revision_date" by the corrected list |
| CollectionsOrder.OnlyRevisionDateChanged | cmd/collections/order.go:5-14 | the corrected list differs from the written one only in its last name |
| KeywordsCmd.Elipsis | cmd/keywords/cmd.go:24-29 | a text shorter than the limit is kept; any other becomes exactly the limit long: its first limit-3 bytes then "..." |
| KeywordsCmd.ExactLengthIsCut | cmd/keywords/cmd.go:25 | a text of exactly the limit is still cut, and unchanged only if it already ends in "..." |
| KeywordsCmd.ElipsisIdempotent | cmd/keywords/cmd.go:24-29 | cutting twice is cutting once |

## Left out

- HTTP transport is not modelled: `http.Client`, the cookie jar, the netrc redirect hook (internal/fetch_http.go:47-98) and netrc discovery (internal/fetch.go:82-103). A search server is a sequence of replies, and a download is the exchange the request met.
- Goroutines, channels, the wait group and the mutex are not modelled. Streams are sequences. The workers run sequentially, in request order; Go delivers results in an unspecified order.
- `context` cancellation, logging and timing are not modelled, nor `DownloadResult.Duration` and the speed printed per download.
- JSON and gjson decoding are not modelled. Search items arrive decoded into the records the projections read, with "" or 0 for missing fields.
- Floating point is not modelled: `joinFloats` (geometry values arrive rendered as text), `Facet.Score`, and the sizes that `ByteCountSI` renders (a function parameter).
- `url.Values.Encode` and the request URL text are not modelled. A query is a map from keys to value lists.
- Real digests are not modelled. MD5 and SHA-2 are a digest function parameter; hex encoding is modelled.
- `NewTimeRangeValue` and `TimeRangeValue.String` are not modelled: they read the clock.
- `writeCachedProviderHoldings` is not modelled beyond its argument: `GetProviderHoldings` returns what it writes, and the source ignores the write's errors.
- CmrSearch.Get: the source never returns an error from `Get`, so the error branches of its callers (internal/cmrsearch_keywords.go:25-28 and the like) are not modelled.
- CmrSearch.Get: the race between the goroutine recording an error and the caller's copy of the result is not modelled; the model's result is shared.
- CmrGranules.SearchGranules: a refused build gives a fresh empty result. Go returns a zero `ScrollResult`, whose nil channel is not modelled.
- CmrCollections.SearchCollections: the same as for `SearchGranules`.
- CmrKeywords.SearchFacets: the `Get` error branch (internal/cmrsearch_keywords.go:25-28) cannot be reached, because `Get` never returns an error.
- Holdings.GetProviderHoldings: `time.Since` saturates at the int64 range. Here instants are unbounded integers, which gives the same freshness verdict.
- GranulesCmd.DoDownload: requests are checked against what exists when the downloads start. In the source, requests are made while earlier downloads run, so two granules with one name race.
- GranulesCmd.DoDownload: the answer to the confirmation prompt is not modelled. The prompt only waits for ENTER.
- GranulesCmd.CheckArgs: the search and the writers of `do` (cmd/granules/cmd.go:192-204) are not modelled, nor the warning for short output over 1000 hits. The output writers are not part of this model.
- KeywordsCmd.Elipsis: the panic for a limit under 3 on a long text is a precondition. Byte slicing may split a UTF-8 character; the model works on bytes, as the source does.
- The `keywords` command's table rendering (cmd/keywords/cmd.go:31-78) is not modelled beyond `Elipsis`.
- Common.Clean: paths are '/'-separated, as on Unix; Windows volume names and '\\' separators are not modelled.
- FetchPool.FetchConcurrent: when the factory fails after some workers were started, the model starts no download and leaves the files unchanged. In the source those workers already run and the request producer already feeds them (cmd/granules/download.go:77-78), so they may create temporary files and rename downloads before `log.Fatalf` ends the program, and its `os.Exit` skips the deferred `os.Remove`. That race is not modelled.
- GranulesCmd.StartDownloads: the same, for a pool start-up failure after some workers were started.
- GranulesCmd.DoDownload: the same.
- FetchPool.Outcome: whether a rename crosses file systems is not modelled. With `--download .` the temporary file is in the system temporary directory (`GranulesCmd.DotDirTempsInTempDir`), and a rename from there that fails is given per destination by `DiskEnv.renameFails`.
- Umm.EncodeTime: an instant carries no location here. Go formats the time's wall clock followed by a literal "Z", so a flag value with an offset, such as `2020-01-01T00:00:00+02:00`, is sent as `2020-01-01T00:00:00Z`, two hours off, in `updated_since` and `has_granules_revised_at` (internal/cmrsearch_collections.go:169-172). Instants are nanoseconds since the epoch and the formatting is a parameter, so that shift is not expressed. Granule `temporal` is formatted with `time.RFC3339`, which keeps the offset in Go; a bare instant here cannot show that offset either.
- Umm.EncodeTimeRange: the same, for both bounds.
- TimeFlags.ParseTimeRange: `time.Parse` keeps the offset it read, while the parse parameter here returns a bare instant, so the offset that `EncodeTime` later drops is not represented. The same holds for `TimeFlags.FirstParse` and `TimeFlags.Parse`.
- FetchSupport.SplitChecksum: lowercasing is ASCII-only (`Common.ToLower`), while `strings.ToLower` also folds other letters, so in "SHA-256:ÄB" the "Ä" is kept here and lowercased by Go. `NewHash` compares only ASCII names, whose verdict this does not change.
- Checksums.Checksum: among `os.Open` errors only a missing file is modelled, and `io.Copy` read errors (internal/checksum.go:49-51) are not: a file that exists always reads whole.
- Holdings.HoldingsTotals: granule counts are `int64` in Go and are summed without bound here, so an overflow of the totals is not modelled.
- FetchPool.FileSystem.CreateTemp: the only failure modelled is a missing directory, reported with the cause "no such file or directory". Permission, quota and other `os.CreateTemp` errors, which internal/fetch_pool.go:92-94 wraps as they come, are not modelled.
- FetchSupport.NewHash: the `%q` quoting of the name in the warning (internal/fetch.go:42) is rendered as plain double quotes, so a name that Go would escape (a quote, a backslash, a control character) gives a different message here.

## Findings

| source | as written | input that shows it | evidently intended | confidence | as-written member | corrected member |
|---|---|---|---|---|---|---|
| internal/fetch_http.go:26-30 | the response body is kept only when reading it failed (`if err != nil`) | a 404 whose body "BODY" reads cleanly gives a failure with an empty body | keep the body when it reads cleanly | high (not executed) | HttpFetch.FailedDownloadDropsReadableBody | HttpFetch.NewFailedDownloadError |
| internal/fetch_http.go:112-113 | the error of `client.Do` is not checked before `resp.StatusCode` is read | an unreachable server ("connection refused") leaves `resp` nil and the download panics | return the transport error | high (not executed) | HttpFetch.UnreachableServerPanics | HttpFetch.AdmitOnlyOk |
| internal/fetch_http.go:126-127 | a write failure wraps `err`, which is nil at that point, instead of `wErr` | a full disk gives "writing to file: %!w(<nil>)" | "writing to file: " and the write error | high (not executed) | HttpFetch.WriteFailureLosesCause | HttpFetch.Fetch |
| cmd/collections/order.go:13 | the sort field list spells "revsion_date" | `--sortby revision_date` is refused, and "revsion_date" is accepted and sent to the search | list "revision_date" | medium (not executed) | CollectionsOrder.RevisionDateRefusedAsWritten | CollectionsOrder.ValidSortField |
| internal/holdingsapi.go:85-88 | a cache directory without the cache file makes `os.Open` fail, and that error is returned | an existing cache directory with no provider_holdings.json gives an error, so `GetProviderHoldings` fails instead of fetching | treat a missing cache file as an empty cache, as internal/holdingsapi_test.go:97-107 expects | high (not executed) | Holdings.MissingFileIsAnError | Holdings.CachedHoldings |
