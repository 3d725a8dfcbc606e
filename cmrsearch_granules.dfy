/** internal/cmrsearch_granules.go: the granule query builder, the projection of one UMM
    granule document onto one record per downloadable file, and the typed granule search
    over the generic stream. */
module CmrGranules {
  import opened Common
  import opened Times
  import opened Umm
  import CmrSearch

  // ---------------------------------------------------------------------------------------
  // SearchGranuleParams and its query

  const PolygonError := "number of polygon points must be divisible by 2"
  const CircleError := "wrong number of values for circle"
  const BoundingBoxError := "wrong number of values for bounding box"
  const PointError := "wrong number of values for point"

  /** The keys of a granule query. */
  datatype GranuleKey =
    | DayNightFlagParam | ShortNamePatternParam | ShortNameIgnoreCaseParam | ShortNameParam
    | ReadableGranuleNameParam | CollectionConceptIdParam | NativeIdParam | TemporalParam
    | PolygonParam | CircleParam | BoundingBoxParam | PointParam | VersionParam | SortKeyParam
    | PageSizeParam

  /** The text each key is sent as. */
  function KeyName(k: GranuleKey): string
  {
    match k
    case DayNightFlagParam => "day_night_flag"
    case ShortNamePatternParam => "options[short_name][pattern]"
    case ShortNameIgnoreCaseParam => "options[short_name][ignore_case]"
    case ShortNameParam => "short_name"
    case ReadableGranuleNameParam => "readable_granule_name"
    case CollectionConceptIdParam => "collection_concept_id"
    case NativeIdParam => "native_id"
    case TemporalParam => "temporal"
    case PolygonParam => "polygon"
    case CircleParam => "circle"
    case BoundingBoxParam => "bounding_box"
    case PointParam => "point"
    case VersionParam => "version"
    case SortKeyParam => "sort_key"
    case PageSizeParam => "page_size"
  }

  /** Distinct keys are sent as distinct texts, so the query loses nothing on the wire. */
  lemma KeyNamesDistinct(a: GranuleKey, b: GranuleKey)
    requires a != b
    ensures KeyName(a) != KeyName(b)
  {
  }

  /** The parameters a builder holds. Geometry values are already rendered as text; a
      short-name list of None is Go's nil slice, which the builder tells apart from an
      empty one. */
  datatype GranuleParams = GranuleParams(
    daynight: string,
    shortnames: Option<seq<string>>,
    filenames: seq<string>,
    collectionIds: seq<string>,
    nativeIds: seq<string>,
    boundingBox: seq<string>,
    point: seq<string>,
    circle: seq<string>,
    polygon: seq<string>,
    versions: seq<string>,
    timerangeStart: Option<Instant>,
    timerangeEnd: Option<Instant>)

  /** The first geometry whose number of values the search refuses, in the order the
      builder checks them: polygon, circle, bounding box, point. */
  function GeometryError(p: GranuleParams): (e: Option<string>)
    ensures e.None? <==>
      |p.polygon| % 2 == 0 && |p.circle| in {0, 3} && |p.boundingBox| in {0, 4} && |p.point| in {0, 4}
  {
    if |p.polygon| % 2 != 0 then Some(PolygonError)
    else if |p.circle| != 0 && |p.circle| != 3 then Some(CircleError)
    else if |p.boundingBox| != 0 && |p.boundingBox| != 4 then Some(BoundingBoxError)
    else if |p.point| != 0 && |p.point| != 4 then Some(PointError)
    else None
  }

  /** A geometry is sent as its values joined by ",", and not at all when it has none. */
  function GeometryValue(vals: seq<string>): seq<string>
  {
    if vals == [] then [] else [Join(vals, ",")]
  }

  /** The values a successful build gives each key: list parameters one value per element
      in input order, the short-name options "true" exactly when short names were given
      (even none), the temporal range in RFC 3339 with nothing after the comma for an open
      end, each non-empty geometry once, and always the sort key "-start_date". The page
      size is not the builder's. */
  function Expected(p: GranuleParams, codec: TimeCodec, k: GranuleKey): seq<string>
  {
    match k
    case DayNightFlagParam => if p.daynight != "" then [p.daynight] else []
    case ShortNamePatternParam => if p.shortnames.Some? then ["true"] else []
    case ShortNameIgnoreCaseParam => if p.shortnames.Some? then ["true"] else []
    case ShortNameParam => if p.shortnames.Some? then p.shortnames.value else []
    case ReadableGranuleNameParam => p.filenames
    case CollectionConceptIdParam => p.collectionIds
    case NativeIdParam => p.nativeIds
    case TemporalParam =>
      if p.timerangeStart.None? then []
      else [codec.formatRfc3339(p.timerangeStart.value) + ","
            + (if p.timerangeEnd.Some? then codec.formatRfc3339(p.timerangeEnd.value) else "")]
    case PolygonParam => GeometryValue(p.polygon)
    case CircleParam => GeometryValue(p.circle)
    case BoundingBoxParam => GeometryValue(p.boundingBox)
    case PointParam => GeometryValue(p.point)
    case VersionParam => p.versions
    case SortKeyParam => ["-start_date"]
    case PageSizeParam => []
  }

  /** A query holding exactly the expected values, and no key without values. */
  predicate IsGranuleQuery(q: Values<GranuleKey>, p: GranuleParams, codec: TimeCodec)
  {
    NoEmptyKey(q) && forall k :: ValuesOf(q, k) == Expected(p, codec, k)
  }

  /** The position of a key in the order `build` sets them. */
  function Order(k: GranuleKey): nat
  {
    match k
    case DayNightFlagParam => 0
    case ShortNamePatternParam => 1
    case ShortNameIgnoreCaseParam => 2
    case ShortNameParam => 3
    case ReadableGranuleNameParam => 4
    case CollectionConceptIdParam => 5
    case NativeIdParam => 6
    case TemporalParam => 7
    case PolygonParam => 8
    case CircleParam => 9
    case BoundingBoxParam => 10
    case PointParam => 11
    case VersionParam => 12
    case SortKeyParam => 13
    case PageSizeParam => 14
  }

  /** The key `build` sets at position `n`. */
  function KeyAt(n: nat): (k: GranuleKey)
    requires n < 14
    ensures Order(k) == n
  {
    if n == 0 then DayNightFlagParam
    else if n == 1 then ShortNamePatternParam
    else if n == 2 then ShortNameIgnoreCaseParam
    else if n == 3 then ShortNameParam
    else if n == 4 then ReadableGranuleNameParam
    else if n == 5 then CollectionConceptIdParam
    else if n == 6 then NativeIdParam
    else if n == 7 then TemporalParam
    else if n == 8 then PolygonParam
    else if n == 9 then CircleParam
    else if n == 10 then BoundingBoxParam
    else if n == 11 then PointParam
    else if n == 12 then VersionParam
    else SortKeyParam
  }

  /** The query once `build` has set the keys before position `n`. */
  function BuiltUpTo(p: GranuleParams, codec: TimeCodec, n: nat): Values<GranuleKey>
    requires n <= 14
  {
    if n == 0 then map[]
    else Put(BuiltUpTo(p, codec, n - 1), KeyAt(n - 1), Expected(p, codec, KeyAt(n - 1)))
  }

  /** Each key holds its expected values once `build` has passed its position, and
      nothing before; a key is present only with values. */
  lemma {:induction false} BuiltUpToValues(p: GranuleParams, codec: TimeCodec, n: nat, k: GranuleKey)
    requires n <= 14
    ensures ValuesOf(BuiltUpTo(p, codec, n), k) == if Order(k) < n then Expected(p, codec, k) else []
    ensures NoEmptyKey(BuiltUpTo(p, codec, n))
  {
    if n > 0 {
      var q := BuiltUpTo(p, codec, n - 1);
      BuiltUpToValues(p, codec, n - 1, k);
      BuiltUpToValues(p, codec, n - 1, KeyAt(n - 1));
      forall j | j in BuiltUpTo(p, codec, n) ensures BuiltUpTo(p, codec, n)[j] != [] {
        BuiltUpToValues(p, codec, n - 1, j);
      }
    }
  }

  /** The key `build` sets next has no values yet. */
  lemma NextKeyUnset(p: GranuleParams, codec: TimeCodec, n: nat)
    requires n < 14
    ensures KeyAt(n) !in BuiltUpTo(p, codec, n)
  {
    BuiltUpToValues(p, codec, n, KeyAt(n));
  }

  /** The step from position `n` to `n + 1`: the next key is set to its expected values,
      or left out when it has none. */
  lemma Advance(p: GranuleParams, codec: TimeCodec, n: nat)
    requires n < 14
    ensures var v := Expected(p, codec, KeyAt(n));
      BuiltUpTo(p, codec, n + 1) == if v == [] then BuiltUpTo(p, codec, n) else BuiltUpTo(p, codec, n)[KeyAt(n) := v]
  {
    NextKeyUnset(p, codec, n);
    assert [] + Expected(p, codec, KeyAt(n)) == Expected(p, codec, KeyAt(n));
  }

  /** A query built through all fourteen positions is the expected one. */
  lemma BuiltQuery(p: GranuleParams, codec: TimeCodec)
    ensures IsGranuleQuery(BuiltUpTo(p, codec, 14), p, codec)
  {
    BuiltUpToValues(p, codec, 14, PageSizeParam);
    forall k ensures ValuesOf(BuiltUpTo(p, codec, 14), k) == Expected(p, codec, k) {
      BuiltUpToValues(p, codec, 14, k);
    }
  }

  /** `SearchGranuleParams`: a builder whose setters overwrite one field each. */
  class SearchGranuleParams {
    var daynight: string
    var shortnames: Option<seq<string>>
    var filenames: seq<string>
    var collectionIds: seq<string>
    var nativeIds: seq<string>
    var boundingBox: seq<string>
    var point: seq<string>
    var circle: seq<string>
    var polygon: seq<string>
    var versions: seq<string>
    var timerangeStart: Option<Instant>
    var timerangeEnd: Option<Instant>

    function Params(): GranuleParams
      reads this
    {
      GranuleParams(daynight, shortnames, filenames, collectionIds, nativeIds, boundingBox,
                    point, circle, polygon, versions, timerangeStart, timerangeEnd)
    }

    /** `NewSearchGranuleParams`: nothing set. */
    constructor ()
      ensures Params() == GranuleParams("", None, [], [], [], [], [], [], [], [], None, None)
    {
      daynight := "";
      shortnames := None;
      filenames, collectionIds, nativeIds := [], [], [];
      boundingBox, point, circle, polygon := [], [], [], [];
      versions := [];
      timerangeStart, timerangeEnd := None, None;
    }

    method DayNightFlag(name: string)
      modifies this
      ensures Params() == old(Params()).(daynight := name)
    {
      daynight := name;
    }

    /** `ShortNames(names...)`: None stands for a call without arguments, which stores nil. */
    method ShortNames(names: Option<seq<string>>)
      modifies this
      ensures Params() == old(Params()).(shortnames := names)
    {
      shortnames := names;
    }

    method Versions(vs: seq<string>)
      modifies this
      ensures Params() == old(Params()).(versions := vs)
    {
      versions := vs;
    }

    method Filenames(names: seq<string>)
      modifies this
      ensures Params() == old(Params()).(filenames := names)
    {
      filenames := names;
    }

    method Collections(ids: seq<string>)
      modifies this
      ensures Params() == old(Params()).(collectionIds := ids)
    {
      collectionIds := ids;
    }

    method NativeIds(ids: seq<string>)
      modifies this
      ensures Params() == old(Params()).(nativeIds := ids)
    {
      nativeIds := ids;
    }

    method BoundingBox(vals: seq<string>)
      modifies this
      ensures Params() == old(Params()).(boundingBox := vals)
    {
      boundingBox := vals;
    }

    method Point(vals: seq<string>)
      modifies this
      ensures Params() == old(Params()).(point := vals)
    {
      point := vals;
    }

    method Circle(vals: seq<string>)
      modifies this
      ensures Params() == old(Params()).(circle := vals)
    {
      circle := vals;
    }

    method Polygon(vals: seq<string>)
      modifies this
      ensures Params() == old(Params()).(polygon := vals)
    {
      polygon := vals;
    }

    /** `Timerange(start, end)`: a start is always stored, an end only when given. */
    method Timerange(start: Instant, end: Option<Instant>)
      modifies this
      ensures Params() == old(Params()).(timerangeStart := Some(start), timerangeEnd := end)
    {
      timerangeStart := Some(start);
      timerangeEnd := end;
    }
  }

  /** The filters of `build`, up to and including the temporal range: the query through
      position 8. */
  method BuildFilters(p: GranuleParams, codec: TimeCodec) returns (query: Values<GranuleKey>)
    ensures query == BuiltUpTo(p, codec, 8)
  {
    query := map[];
    if p.daynight != "" {
      query := query[DayNightFlagParam := [p.daynight]];
    }
    Advance(p, codec, 0);
    assert query == BuiltUpTo(p, codec, 1);
    if p.shortnames.Some? {
      query := query[ShortNamePatternParam := ["true"]];
      Advance(p, codec, 1);
      assert query == BuiltUpTo(p, codec, 2);
      query := query[ShortNameIgnoreCaseParam := ["true"]];
      Advance(p, codec, 2);
      assert query == BuiltUpTo(p, codec, 3);
      query := AddAll(query, ShortNameParam, p.shortnames.value);
      Advance(p, codec, 3);
    } else {
      Advance(p, codec, 1);
      Advance(p, codec, 2);
      Advance(p, codec, 3);
    }
    assert query == BuiltUpTo(p, codec, 4);
    query := AddAll(query, ReadableGranuleNameParam, p.filenames);
    Advance(p, codec, 4);
    assert query == BuiltUpTo(p, codec, 5);
    query := AddAll(query, CollectionConceptIdParam, p.collectionIds);
    Advance(p, codec, 5);
    assert query == BuiltUpTo(p, codec, 6);
    query := AddAll(query, NativeIdParam, p.nativeIds);
    Advance(p, codec, 6);
    assert query == BuiltUpTo(p, codec, 7);
    if p.timerangeStart.Some? {
      var s := codec.formatRfc3339(p.timerangeStart.value) + ",";
      if p.timerangeEnd.Some? {
        s := s + codec.formatRfc3339(p.timerangeEnd.value);
      } else {
        assert s + "" == s;
      }
      query := query[TemporalParam := [s]];
    }
    Advance(p, codec, 7);
    assert query == BuiltUpTo(p, codec, 8);
  }

  /** The geometry part of `build`: each non-empty geometry with the right number of
      values is added, and the first with a wrong number stops the build with its error. */
  method BuildGeometry(query: Values<GranuleKey>, p: GranuleParams, codec: TimeCodec) returns (r: Result<Values<GranuleKey>, string>)
    requires query == BuiltUpTo(p, codec, 8)
    ensures r.Err? <==> GeometryError(p).Some?
    ensures r.Err? ==> r.error == GeometryError(p).value
    ensures r.Ok? ==> r.value == BuiltUpTo(p, codec, 12)
  {
    var q := query;
    if |p.polygon| > 0 {
      if |p.polygon| % 2 != 0 {
        return Err(PolygonError);
      }
      q := q[PolygonParam := [Join(p.polygon, ",")]];
    }
    Advance(p, codec, 8);
    assert q == BuiltUpTo(p, codec, 9);
    if |p.circle| != 0 {
      if |p.circle| != 3 {
        return Err(CircleError);
      }
      q := q[CircleParam := [Join(p.circle, ",")]];
    }
    Advance(p, codec, 9);
    assert q == BuiltUpTo(p, codec, 10);
    if |p.boundingBox| != 0 {
      if |p.boundingBox| != 4 {
        return Err(BoundingBoxError);
      }
      q := q[BoundingBoxParam := [Join(p.boundingBox, ",")]];
    }
    Advance(p, codec, 10);
    assert q == BuiltUpTo(p, codec, 11);
    if |p.point| != 0 {
      if |p.point| != 4 {
        return Err(PointError);
      }
      q := q[PointParam := [Join(p.point, ",")]];
    }
    Advance(p, codec, 11);
    assert q == BuiltUpTo(p, codec, 12);
    return Ok(q);
  }

  /** `build` on a builder holding `p`: the query, or the error of the first geometry with
      the wrong number of values. */
  method Build(p: GranuleParams, codec: TimeCodec) returns (r: Result<Values<GranuleKey>, string>)
    ensures r.Err? <==> GeometryError(p).Some?
    ensures r.Err? ==> r.error == GeometryError(p).value
    ensures r.Ok? ==> IsGranuleQuery(r.value, p, codec)
  {
    var query := BuildFilters(p, codec);
    var g := BuildGeometry(query, p, codec);
    if g.Err? {
      return Err(g.error);
    }
    query := g.value;
    if |p.versions| > 0 {
      query := AddAll(query, VersionParam, p.versions);
    }
    Advance(p, codec, 12);
    assert query == BuiltUpTo(p, codec, 13);
    query := query[SortKeyParam := ["-start_date"]];
    Advance(p, codec, 13);
    assert query == BuiltUpTo(p, codec, 14);
    BuiltQuery(p, codec);
    return Ok(query);
  }

  // ---------------------------------------------------------------------------------------
  // the UMM granule document, as far as the projection reads it

  /** An entry of `umm.DataGranule.ArchiveAndDistributionInformation`; a missing number
      reads as 0 and a missing text as "". */
  datatype ArchiveEntry = ArchiveEntry(
    name: string, sizeInBytes: int, size: int, sizeUnit: string,
    checksumValue: string, checksumAlgorithm: string)

  /** `umm.CollectionReference`. */
  datatype CollectionRef = CollectionRef(shortName: string, version: string)

  /** A boundary point, its longitude and latitude already rendered as text. */
  datatype BoundaryPoint = BoundaryPoint(longitude: string, latitude: string)

  /** An entry of `umm.ProviderDates`. */
  datatype ProviderDate = ProviderDate(kind: string, date: string)

  /** A granule search item: its `meta` ids and the parts of `umm` the projection reads.
      `polygons` holds the boundary points of each GPolygon. */
  datatype UmmGranule = UmmGranule(
    conceptId: string, nativeId: string, revisionId: string,
    collection: Option<CollectionRef>,
    relatedUrls: seq<RelatedUrl>,
    archive: seq<ArchiveEntry>,
    dayNightFlag: string, beginning: string, ending: string,
    polygons: seq<seq<BoundaryPoint>>,
    providerDates: seq<ProviderDate>)

  /** `Granule`: one downloadable file of a granule. */
  datatype Granule = Granule(
    name: string, size: string, checksum: string, checksumAlg: string,
    getDataUrl: string, getDataDaUrl: string,
    nativeId: string, revisionId: string, conceptId: string, collection: string,
    dayNightFlag: string, timeRange: seq<string>, boundingBox: seq<string>,
    providerDates: map<string, string>)

  /** A record with only a name and download URLs. */
  function FileGranule(name: string, url: string, daUrl: string): Granule
  {
    Granule(name, "", "", "", url, daUrl, "", "", "", "", "", [], [], map[])
  }

  // ---------------------------------------------------------------------------------------
  // findDownloadURLs

  const GetData := "GET DATA"
  const GetDataDirect := "GET DATA VIA DIRECT ACCESS"

  function TypeKey(directAccess: bool): string
  {
    if directAccess then GetDataDirect else GetData
  }

  /** A related URL of type `key` whose basename is `name`. */
  predicate Names(u: RelatedUrl, key: string, name: string)
  {
    u.kind == key && Base(u.url) == name
  }

  /** The URL of the last related URL of type `key` named `name`. */
  function LastUrlNamed(rel: seq<RelatedUrl>, key: string, name: string): Option<string>
  {
    if rel == [] then None
    else if Names(rel[|rel| - 1], key, name) then Some(rel[|rel| - 1].url)
    else LastUrlNamed(rel[..|rel| - 1], key, name)
  }

  /** A name has no URL exactly when no related URL of the type carries it. */
  lemma {:induction false} LastUrlNamedNone(rel: seq<RelatedUrl>, key: string, name: string)
    ensures LastUrlNamed(rel, key, name).None? <==> forall i | 0 <= i < |rel| :: !Names(rel[i], key, name)
  {
    if rel != [] {
      var init := rel[..|rel| - 1];
      LastUrlNamedNone(init, key, name);
      assert forall i | 0 <= i < |init| :: init[i] == rel[i];
    }
  }

  /** The URL kept for a name is the one of the last related URL of the type carrying it,
      at position `j`. */
  lemma {:induction false} LastUrlNamedIsLast(rel: seq<RelatedUrl>, key: string, name: string) returns (j: nat)
    requires LastUrlNamed(rel, key, name).Some?
    ensures j < |rel| && Names(rel[j], key, name) && rel[j].url == LastUrlNamed(rel, key, name).value
    ensures forall i | j < i < |rel| :: !Names(rel[i], key, name)
  {
    var last := rel[|rel| - 1];
    if Names(last, key, name) {
      j := |rel| - 1;
    } else {
      var init := rel[..|rel| - 1];
      assert LastUrlNamed(rel, key, name) == LastUrlNamed(init, key, name);
      j := LastUrlNamedIsLast(init, key, name);
      assert forall i | j <= i < |init| :: rel[i] == init[i];
    }
  }

  /** `findDownloadURLs`: the related URLs of type "GET DATA" (or "GET DATA VIA DIRECT
      ACCESS"), keyed by basename; a later entry with the same basename wins. */
  method FindDownloadUrls(doc: UmmGranule, directAccess: bool) returns (urls: map<string, string>)
    ensures forall name :: MapGet(urls, name) == LastUrlNamed(doc.relatedUrls, TypeKey(directAccess), name)
  {
    var typeKey := TypeKey(directAccess);
    var rel := doc.relatedUrls;
    urls := map[];
    for i := 0 to |rel|
      invariant forall name :: MapGet(urls, name) == LastUrlNamed(rel[..i], typeKey, name)
    {
      assert rel[..i + 1][..i] == rel[..i];
      var url := rel[i].url;
      var typ := rel[i].kind;
      if typ != typeKey {
        continue;
      }
      urls := urls[Base(url) := url];
    }
    assert rel[..|rel|] == rel;
  }

  // ---------------------------------------------------------------------------------------
  // decodeArchiveInfo

  /** `archiveInfo`. */
  datatype ArchiveInfo = ArchiveInfo(size: string, checksum: string, checksumAlg: string)

  /** The size an entry reports: SizeInBytes through `ByteCountSI` when non-zero, else Size
      with its unit when Size is non-zero, else nothing. */
  function EntrySize(e: ArchiveEntry, byteCountSI: int -> string): string
  {
    if e.sizeInBytes != 0 then byteCountSI(e.sizeInBytes)
    else if e.size != 0 then TrimSpace(IntToString(e.size) + " " + e.sizeUnit)
    else ""
  }

  /** The entries named `name`, in order. */
  function Named(entries: seq<ArchiveEntry>, name: string): seq<ArchiveEntry>
  {
    if entries == [] then []
    else Named(entries[..|entries| - 1], name)
         + (if entries[|entries| - 1].name == name then [entries[|entries| - 1]] else [])
  }

  /** The trimmed checksum of an entry, with its trimmed algorithm. */
  function EntryChecksum(e: ArchiveEntry): (string, string)
  {
    (TrimSpace(e.checksumValue), TrimSpace(e.checksumAlgorithm))
  }

  /** The sizes the entries report, in order. */
  function Sizes(es: seq<ArchiveEntry>, byteCountSI: int -> string): (r: seq<string>)
    ensures |r| == |es|
  {
    if es == [] then [] else Sizes(es[..|es| - 1], byteCountSI) + [EntrySize(es[|es| - 1], byteCountSI)]
  }

  /** The checksums and algorithms the entries give, in order. */
  function Checksums(es: seq<ArchiveEntry>): (r: seq<(string, string)>)
    ensures |r| == |es|
  {
    if es == [] then [] else Checksums(es[..|es| - 1]) + [EntryChecksum(es[|es| - 1])]
  }

  /** Position `i` of the reported sizes and checksums is that of entry `i`. */
  lemma {:induction false} ReportsAt(es: seq<ArchiveEntry>, i: nat, byteCountSI: int -> string)
    requires i < |es|
    ensures Sizes(es, byteCountSI)[i] == EntrySize(es[i], byteCountSI)
    ensures Checksums(es)[i] == EntryChecksum(es[i])
  {
    if i < |es| - 1 {
      ReportsAt(es[..|es| - 1], i, byteCountSI);
    }
  }

  /** Reported sizes folded in order: once one is non-empty, later ones are not consulted. */
  function FirstSize(sizes: seq<string>): string
  {
    if sizes == [] then ""
    else
      var before := FirstSize(sizes[..|sizes| - 1]);
      if before != "" then before else sizes[|sizes| - 1]
  }

  /** Checksums folded in order: once one is non-blank it is kept with its algorithm;
      until then each replaces both. */
  function FirstChecksum(cs: seq<(string, string)>): (string, string)
    requires cs != []
  {
    if |cs| == 1 then cs[0]
    else
      var before := FirstChecksum(cs[..|cs| - 1]);
      if before.0 != "" then before else cs[|cs| - 1]
  }

  /** The size kept is the first non-empty one, or "" when all are empty. */
  lemma {:induction false} FirstSizeIsFirst(sizes: seq<string>)
    ensures FirstSize(sizes) == "" <==> forall i | 0 <= i < |sizes| :: sizes[i] == ""
    ensures forall k | 0 <= k < |sizes| && sizes[k] != "" && (forall i | 0 <= i < k :: sizes[i] == "") ::
              FirstSize(sizes) == sizes[k]
  {
    if sizes != [] {
      var init := sizes[..|sizes| - 1];
      FirstSizeIsFirst(init);
      assert forall i | 0 <= i < |init| :: init[i] == sizes[i];
    }
  }

  /** The checksum kept is the first non-blank one, with its algorithm; when every
      checksum is blank, the last blank checksum and its algorithm. */
  lemma {:induction false} FirstChecksumIsFirst(cs: seq<(string, string)>)
    requires cs != []
    ensures (forall i | 0 <= i < |cs| :: cs[i].0 == "") ==> FirstChecksum(cs) == cs[|cs| - 1]
    ensures forall k | 0 <= k < |cs| && cs[k].0 != "" && (forall i | 0 <= i < k :: cs[i].0 == "") ::
              FirstChecksum(cs) == cs[k]
  {
    if |cs| > 1 {
      var init := cs[..|cs| - 1];
      FirstChecksumIsFirst(init);
      assert forall i | 0 <= i < |init| :: init[i] == cs[i];
    }
  }

  /** The entries named `n` after one more entry. */
  lemma NamedSnoc(es: seq<ArchiveEntry>, e: ArchiveEntry, n: string)
    ensures Named(es + [e], n) == Named(es, n) + if e.name == n then [e] else []
  {
    assert (es + [e])[..|es|] == es;
  }

  /** One more entry of a name folded into the info gathered so far: the size only while
      none is known, the checksum and algorithm only while no checksum is known. */
  function Merged(info: ArchiveInfo, ar: ArchiveEntry, byteCountSI: int -> string): ArchiveInfo
  {
    ArchiveInfo(
      if info.size == "" then EntrySize(ar, byteCountSI) else info.size,
      if info.checksum == "" then EntryChecksum(ar).0 else info.checksum,
      if info.checksum == "" then EntryChecksum(ar).1 else info.checksumAlg)
  }

  /** The archive info of the entries `es` of one name, folded in order from an empty one. */
  function InfoFor(es: seq<ArchiveEntry>, byteCountSI: int -> string): ArchiveInfo
    requires es != []
  {
    var prev := if |es| == 1 then ArchiveInfo("", "", "") else InfoFor(es[..|es| - 1], byteCountSI);
    Merged(prev, es[|es| - 1], byteCountSI)
  }

  /** The info of a name holds the first non-empty size its entries report and the first
      non-blank checksum they give, with its algorithm. */
  lemma {:induction false} InfoForIsFirst(es: seq<ArchiveEntry>, byteCountSI: int -> string)
    requires es != []
    ensures InfoFor(es, byteCountSI).size == FirstSize(Sizes(es, byteCountSI))
    ensures (InfoFor(es, byteCountSI).checksum, InfoFor(es, byteCountSI).checksumAlg) == FirstChecksum(Checksums(es))
  {
    var n := |es|;
    assert Sizes(es, byteCountSI)[..n - 1] == Sizes(es[..n - 1], byteCountSI);
    assert Checksums(es)[..n - 1] == Checksums(es[..n - 1]);
    if n > 1 {
      InfoForIsFirst(es[..n - 1], byteCountSI);
    } else {
      assert Sizes(es, byteCountSI)[..0] == [];
    }
  }

  /** The infos `decodeArchiveInfo` gathers from `es`, entry by entry. */
  function ArchiveInfos(es: seq<ArchiveEntry>, byteCountSI: int -> string): map<string, ArchiveInfo>
  {
    if es == [] then map[]
    else
      var infos := ArchiveInfos(es[..|es| - 1], byteCountSI);
      var ar := es[|es| - 1];
      if ar.name == "" then infos
      else
        var info := if ar.name in infos then infos[ar.name] else ArchiveInfo("", "", "");
        infos[ar.name := Merged(info, ar, byteCountSI)]
  }

  /** A name has an info exactly when it is not empty and some entry carries it, and its
      info is that of all the entries carrying it. */
  lemma {:induction false} ArchiveInfosAt(es: seq<ArchiveEntry>, name: string, byteCountSI: int -> string)
    ensures MapGet(ArchiveInfos(es, byteCountSI), name) ==
      if name != "" && Named(es, name) != [] then Some(InfoFor(Named(es, name), byteCountSI)) else None
  {
    if es != [] {
      var init := es[..|es| - 1];
      var ar := es[|es| - 1];
      ArchiveInfosAt(init, name, byteCountSI);
      var before := Named(init, name);
      var infos := ArchiveInfos(init, byteCountSI);
      if ar.name == name && name != "" {
        var named := before + [ar];
        assert Named(es, name) == named;
        assert named[..|named| - 1] == before && named[|named| - 1] == ar;
        var prev := if name in infos then infos[name] else ArchiveInfo("", "", "");
        assert ArchiveInfos(es, byteCountSI) == infos[name := Merged(prev, ar, byteCountSI)];
        assert InfoFor(named, byteCountSI) == Merged(prev, ar, byteCountSI);
      } else if ar.name != name {
        assert before + [] == before;
        assert Named(es, name) == before;
        assert MapGet(ArchiveInfos(es, byteCountSI), name) == MapGet(infos, name);
      }
    }
  }

  /** The infos gathered hold one info per non-empty name carried by some entry: the
      info of all the entries carrying it. */
  lemma ArchiveInfosMeaning(es: seq<ArchiveEntry>, byteCountSI: int -> string)
    ensures forall name :: name in ArchiveInfos(es, byteCountSI) <==> name != "" && Named(es, name) != []
    ensures forall name | name in ArchiveInfos(es, byteCountSI) ::
      ArchiveInfos(es, byteCountSI)[name] == InfoFor(Named(es, name), byteCountSI)
  {
    forall name ensures MapGet(ArchiveInfos(es, byteCountSI), name) ==
      if name != "" && Named(es, name) != [] then Some(InfoFor(Named(es, name), byteCountSI)) else None
    {
      ArchiveInfosAt(es, name, byteCountSI);
    }
  }

  /** The body of `decodeArchiveInfo`'s loop for one entry. */
  method MergeEntry(info: ArchiveInfo, ar: ArchiveEntry, byteCountSI: int -> string) returns (r: ArchiveInfo)
    ensures r == Merged(info, ar, byteCountSI)
  {
    r := info;
    if r.size == "" {
      var sizeInBytes := ar.sizeInBytes;
      var size := ar.size;
      if sizeInBytes != 0 {
        r := r.(size := byteCountSI(sizeInBytes));
      } else if size != 0 {
        r := r.(size := TrimSpace(IntToString(size) + " " + ar.sizeUnit));
      }
    }
    if r.checksum == "" {
      r := r.(checksum := TrimSpace(ar.checksumValue), checksumAlg := TrimSpace(ar.checksumAlgorithm));
    }
  }

  /** `decodeArchiveInfo`: one info per non-empty name; per name the first non-empty size
      wins (SizeInBytes before Size and unit), and the first non-blank checksum wins
      together with its algorithm. */
  method DecodeArchiveInfo(entries: seq<ArchiveEntry>, byteCountSI: int -> string)
    returns (infos: map<string, ArchiveInfo>)
    ensures infos == ArchiveInfos(entries, byteCountSI)
    ensures forall name :: name in infos <==> name != "" && Named(entries, name) != []
    ensures forall name | name in infos :: infos[name] == InfoFor(Named(entries, name), byteCountSI)
  {
    infos := map[];
    for i := 0 to |entries|
      invariant infos == ArchiveInfos(entries[..i], byteCountSI)
    {
      var ar := entries[i];
      assert entries[..i + 1][..i] == entries[..i];
      var name := ar.name;
      if name == "" {
        continue;
      }
      var info;
      if name in infos {
        info := infos[name];
      } else {
        info := ArchiveInfo("", "", "");
      }
      info := MergeEntry(info, ar, byteCountSI);
      infos := infos[name := info];
    }
    assert entries[..|entries|] == entries;
    ArchiveInfosMeaning(entries, byteCountSI);
  }

  // ---------------------------------------------------------------------------------------
  // findGranules and newGranulesFromUMM

  function UrlOrEmpty(o: Option<string>): string
  {
    if o.Some? then o.value else ""
  }

  /** A file name the document offers a download URL of either type for. */
  predicate HasUrl(doc: UmmGranule, name: string)
  {
    LastUrlNamed(doc.relatedUrls, GetData, name).Some? || LastUrlNamed(doc.relatedUrls, GetDataDirect, name).Some?
  }

  /** The record `findGranules` makes for the file `name`: its URLs of both types, and the
      archive info of the same name when there is one. */
  function FileOf(doc: UmmGranule, name: string, byteCountSI: int -> string): Granule
  {
    var g := FileGranule(name, UrlOrEmpty(LastUrlNamed(doc.relatedUrls, GetData, name)),
                         UrlOrEmpty(LastUrlNamed(doc.relatedUrls, GetDataDirect, name)));
    var named := Named(doc.archive, name);
    if name != "" && named != [] then
      var info := InfoFor(named, byteCountSI);
      g.(size := info.size, checksum := info.checksum, checksumAlg := info.checksumAlg)
    else g
  }

  /** One record per distinct name, in some order. */
  predicate DistinctNames(gs: seq<Granule>)
  {
    forall i, j | 0 <= i < j < |gs| :: gs[i].name != gs[j].name
  }

  /** A record with the archive info of its name, when there is one: size, checksum and
      algorithm. */
  function WithInfo(g: Granule, infos: map<string, ArchiveInfo>): Granule
  {
    if g.name in infos then
      var info := infos[g.name];
      g.(size := info.size, checksum := info.checksum, checksumAlg := info.checksumAlg)
    else g
  }

  /** The records `findGranules` keeps are, name by name, those `FileOf` describes, and
      there is one for every name with a download URL. */
  lemma FilesAreFileOf(doc: UmmGranule, get: map<string, string>, da: map<string, string>,
                       infos: map<string, ArchiveInfo>, files: map<string, Granule>, byteCountSI: int -> string)
    requires forall name :: MapGet(get, name) == LastUrlNamed(doc.relatedUrls, GetData, name)
    requires forall name :: MapGet(da, name) == LastUrlNamed(doc.relatedUrls, GetDataDirect, name)
    requires forall name :: name in infos <==> name != "" && Named(doc.archive, name) != []
    requires forall name | name in infos :: infos[name] == InfoFor(Named(doc.archive, name), byteCountSI)
    requires files.Keys == get.Keys + da.Keys
    requires forall n | n in files ::
      files[n] == WithInfo(FileGranule(n, UrlOrEmpty(MapGet(get, n)), UrlOrEmpty(MapGet(da, n))), infos)
    ensures forall n | n in files :: files[n].name == n && HasUrl(doc, n) && files[n] == FileOf(doc, n, byteCountSI)
    ensures forall n | HasUrl(doc, n) :: n in files
  {
    forall n | n in files ensures files[n].name == n && HasUrl(doc, n) && files[n] == FileOf(doc, n, byteCountSI) {
      assert MapGet(get, n) == LastUrlNamed(doc.relatedUrls, GetData, n);
      assert MapGet(da, n) == LastUrlNamed(doc.relatedUrls, GetDataDirect, n);
    }
    forall n | HasUrl(doc, n) ensures n in files {
      assert MapGet(get, n) == LastUrlNamed(doc.relatedUrls, GetData, n);
      assert MapGet(da, n) == LastUrlNamed(doc.relatedUrls, GetDataDirect, n);
    }
  }

  /** The first loop of `findGranules`: a record per "GET DATA" name with its URL. */
  method CollectGetData(get: map<string, string>) returns (files: map<string, Granule>)
    ensures files.Keys == get.Keys
    ensures forall n | n in files :: files[n] == FileGranule(n, get[n], "")
  {
    files := map[];
    var todo := get.Keys;
    while todo != {}
      invariant todo <= get.Keys
      invariant files.Keys == get.Keys - todo
      invariant forall n | n in files :: files[n] == FileGranule(n, get[n], "")
      decreases todo
    {
      var name :| name in todo;
      if name !in files {
        files := files[name := FileGranule(name, get[name], "")];
      }
      todo := todo - {name};
    }
  }

  /** The direct-access URL of `name` once the names still `todo` are skipped. */
  function DirectSoFar(da: map<string, string>, todo: set<string>, name: string): string
  {
    if name in da && name !in todo then da[name] else ""
  }

  /** One step of the second loop: setting the URL of `name` on its record keeps every
      record matching the names done so far. */
  lemma MergeStep(prev: map<string, Granule>, r: map<string, Granule>, get: map<string, string>,
                  da: map<string, string>, todo: set<string>, name: string)
    requires name in todo && name in da
    requires forall n | n in prev :: prev[n] == FileGranule(n, UrlOrEmpty(MapGet(get, n)), DirectSoFar(da, todo, n))
    requires r == prev[name := FileGranule(name, UrlOrEmpty(MapGet(get, name)), da[name])]
    ensures forall n | n in r :: r[n] == FileGranule(n, UrlOrEmpty(MapGet(get, n)), DirectSoFar(da, todo - {name}, n))
  {
    forall n | n in r
      ensures r[n] == FileGranule(n, UrlOrEmpty(MapGet(get, n)), DirectSoFar(da, todo - {name}, n))
    {
      if n != name {
        assert r[n] == prev[n];
        assert DirectSoFar(da, todo - {name}, n) == DirectSoFar(da, todo, n);
      }
    }
  }

  /** The second loop of `findGranules`: each direct-access URL is set on the record of
      its name, which is made when there is none. */
  method MergeDirect(files: map<string, Granule>, da: map<string, string>, ghost get: map<string, string>)
    returns (r: map<string, Granule>)
    requires files.Keys == get.Keys
    requires forall n | n in files :: files[n] == FileGranule(n, get[n], "")
    ensures r.Keys == get.Keys + da.Keys
    ensures forall n | n in r :: r[n] == FileGranule(n, UrlOrEmpty(MapGet(get, n)), UrlOrEmpty(MapGet(da, n)))
  {
    r := files;
    var todo := da.Keys;
    while todo != {}
      invariant todo <= da.Keys
      invariant r.Keys == get.Keys + (da.Keys - todo)
      invariant forall n | n in r :: r[n] == FileGranule(n, UrlOrEmpty(MapGet(get, n)), DirectSoFar(da, todo, n))
      decreases todo
    {
      var name :| name in todo;
      ghost var prev := r;
      if name !in r {
        assert MapGet(get, name) == None;
        r := r[name := FileGranule(name, "", da[name])];
      } else {
        var file := r[name];
        file := file.(getDataDaUrl := da[name]);
        r := r[name := file];
      }
      MergeStep(prev, r, get, da, todo, name);
      todo := todo - {name};
    }
  }

  /** The third loop of `findGranules`: the record of each name with archive info takes
      its size, checksum and algorithm. */
  method AttachArchive(files: map<string, Granule>, infos: map<string, ArchiveInfo>) returns (r: map<string, Granule>)
    ensures r.Keys == files.Keys
    requires forall n | n in files :: files[n].name == n
    ensures forall n | n in r :: r[n] == WithInfo(files[n], infos)
  {
    r := files;
    var todo := files.Keys;
    while todo != {}
      invariant todo <= files.Keys && r.Keys == files.Keys
      invariant forall n | n in r && n !in todo :: r[n] == WithInfo(files[n], infos)
      invariant forall n | n in todo :: r[n] == files[n]
      decreases todo
    {
      var name :| name in todo;
      var gran := r[name];
      if name in infos {
        var info := infos[name];
        gran := gran.(size := info.size, checksum := info.checksum, checksumAlg := info.checksumAlg);
        r := r[name := gran];
      }
      todo := todo - {name};
    }
  }

  /** The last loop of `findGranules`: the records of a map keyed by name, each once, in
      the map's iteration order. */
  method RecordsOf(files: map<string, Granule>) returns (granules: seq<Granule>)
    requires forall n | n in files :: files[n].name == n
    ensures DistinctNames(granules)
    ensures forall i | 0 <= i < |granules| :: granules[i].name in files && granules[i] == files[granules[i].name]
    ensures forall n | n in files :: exists i | 0 <= i < |granules| :: granules[i].name == n
  {
    granules := [];
    var todo := files.Keys;
    while todo != {}
      invariant todo <= files.Keys
      invariant DistinctNames(granules)
      invariant forall i | 0 <= i < |granules| ::
        granules[i].name in files && granules[i].name !in todo && granules[i] == files[granules[i].name]
      invariant forall n | n in files && n !in todo :: exists i | 0 <= i < |granules| :: granules[i].name == n
      decreases todo
    {
      var name :| name in todo;
      ghost var prev := granules;
      granules := granules + [files[name]];
      assert granules[|granules| - 1].name == name;
      forall n | n in files && n !in todo - {name}
        ensures exists i | 0 <= i < |granules| :: granules[i].name == n
      {
        if n != name {
          var i :| 0 <= i < |prev| && prev[i].name == n;
          assert granules[i].name == n;
        }
      }
      todo := todo - {name};
    }
  }

  /** `findGranules`: one record per distinct basename among the download URLs of either
      type, a direct-access URL merged into the record of the same name. The order is that
      of Go's map iteration, which the model leaves open. */
  method FindGranules(doc: UmmGranule, byteCountSI: int -> string) returns (granules: seq<Granule>)
    ensures DistinctNames(granules)
    ensures forall i | 0 <= i < |granules| ::
      HasUrl(doc, granules[i].name) && granules[i] == FileOf(doc, granules[i].name, byteCountSI)
    ensures forall name | HasUrl(doc, name) :: exists i | 0 <= i < |granules| :: granules[i].name == name
  {
    var get := FindDownloadUrls(doc, false);
    var da := FindDownloadUrls(doc, true);
    var files := CollectGetData(get);
    files := MergeDirect(files, da, get);
    var archiveInfos := DecodeArchiveInfo(doc.archive, byteCountSI);
    files := AttachArchive(files, archiveInfos);
    FilesAreFileOf(doc, get, da, archiveInfos, files, byteCountSI);
    granules := RecordsOf(files);
  }

  /** The last date given for a provider-date type. */
  function LastDate(dates: seq<ProviderDate>, kind: string): Option<string>
  {
    if dates == [] then None
    else if dates[|dates| - 1].kind == kind then Some(dates[|dates| - 1].date)
    else LastDate(dates[..|dates| - 1], kind)
  }

  /** The coordinates of a polygon's boundary: longitude then latitude of each point. */
  function Coordinates(points: seq<BoundaryPoint>): (r: seq<string>)
    ensures |r| == 2 * |points|
  {
    if points == [] then []
    else Coordinates(points[..|points| - 1]) + [points[|points| - 1].longitude, points[|points| - 1].latitude]
  }

  lemma {:induction false} CoordinatesOrder(points: seq<BoundaryPoint>, k: nat)
    requires k < |points|
    ensures Coordinates(points)[2 * k] == points[k].longitude
    ensures Coordinates(points)[2 * k + 1] == points[k].latitude
  {
    if k < |points| - 1 {
      CoordinatesOrder(points[..|points| - 1], k);
    }
  }

  /** The bounding-box texts: each polygon's coordinates joined by ",". */
  method PolygonTexts(polygons: seq<seq<BoundaryPoint>>) returns (boxes: seq<string>)
    ensures |boxes| == |polygons|
    ensures forall i | 0 <= i < |polygons| :: boxes[i] == Join(Coordinates(polygons[i]), ",")
  {
    boxes := [];
    for i := 0 to |polygons|
      invariant |boxes| == i
      invariant forall k | 0 <= k < i :: boxes[k] == Join(Coordinates(polygons[k]), ",")
    {
      var points: seq<string> := [];
      var polygon := polygons[i];
      for j := 0 to |polygon|
        invariant points == Coordinates(polygon[..j])
      {
        assert polygon[..j + 1][..j] == polygon[..j];
        points := points + [polygon[j].longitude];
        points := points + [polygon[j].latitude];
      }
      assert polygon[..|polygon|] == polygon;
      boxes := boxes + [Join(points, ",")];
    }
  }

  /** The provider dates by type; a later date of the same type wins. */
  method ProviderDatesOf(dates: seq<ProviderDate>) returns (m: map<string, string>)
    ensures forall kind :: MapGet(m, kind) == LastDate(dates, kind)
  {
    m := map[];
    for i := 0 to |dates|
      invariant forall kind :: MapGet(m, kind) == LastDate(dates[..i], kind)
    {
      assert dates[..i + 1][..i] == dates[..i];
      m := m[dates[i].kind := dates[i].date];
    }
    assert dates[..|dates|] == dates;
  }

  /** A record `newGranulesFromUMM` makes: the file record of its name, with the
      document's ids, its collection as "ShortName/Version" when the reference exists, its
      day/night flag, its temporal range, one bounding-box text per polygon and its
      provider dates. */
  ghost predicate Describes(g: Granule, doc: UmmGranule, byteCountSI: int -> string)
  {
    var file := FileOf(doc, g.name, byteCountSI);
    && g.size == file.size && g.checksum == file.checksum && g.checksumAlg == file.checksumAlg
    && g.getDataUrl == file.getDataUrl && g.getDataDaUrl == file.getDataDaUrl
    && g.conceptId == doc.conceptId && g.nativeId == doc.nativeId && g.revisionId == doc.revisionId
    && g.collection == (if doc.collection.Some? then doc.collection.value.shortName + "/" + doc.collection.value.version else "")
    && g.dayNightFlag == doc.dayNightFlag
    && g.timeRange == [doc.beginning, doc.ending]
    && |g.boundingBox| == |doc.polygons|
    && (forall i | 0 <= i < |doc.polygons| :: g.boundingBox[i] == Join(Coordinates(doc.polygons[i]), ","))
    && (forall kind :: MapGet(g.providerDates, kind) == LastDate(doc.providerDates, kind))
  }

  /** The records of one document: one per file name with a download URL, each
      described from the document. */
  ghost predicate IsGranulesOf(gs: seq<Granule>, doc: UmmGranule, byteCountSI: int -> string)
  {
    && DistinctNames(gs)
    && (forall i | 0 <= i < |gs| :: HasUrl(doc, gs[i].name) && Describes(gs[i], doc, byteCountSI))
    && (forall name | HasUrl(doc, name) :: exists i | 0 <= i < |gs| :: gs[i].name == name)
  }

  /** `newGranulesFromUMM`. */
  method NewGranulesFromUmm(doc: UmmGranule, byteCountSI: int -> string) returns (granules: seq<Granule>)
    ensures IsGranulesOf(granules, doc, byteCountSI)
  {
    var found := FindGranules(doc, byteCountSI);
    granules := [];
    for i := 0 to |found|
      invariant |granules| == i
      invariant forall k | 0 <= k < i :: granules[k].name == found[k].name && Describes(granules[k], doc, byteCountSI)
    {
      var gran := found[i];
      gran := gran.(conceptId := doc.conceptId, nativeId := doc.nativeId, revisionId := doc.revisionId);
      if doc.collection.Some? {
        gran := gran.(collection := doc.collection.value.shortName + "/" + doc.collection.value.version);
      }
      gran := gran.(dayNightFlag := doc.dayNightFlag, timeRange := [doc.beginning, doc.ending]);
      var boxes := PolygonTexts(doc.polygons);
      gran := gran.(boundingBox := boxes);
      var dates := ProviderDatesOf(doc.providerDates);
      gran := gran.(providerDates := dates);
      granules := granules + [gran];
    }
    assert forall name | HasUrl(doc, name) :: exists i | 0 <= i < |granules| :: granules[i].name == name by {
      forall name | HasUrl(doc, name) ensures exists i | 0 <= i < |granules| :: granules[i].name == name {
        var i :| 0 <= i < |found| && found[i].name == name;
        assert granules[i].name == name;
      }
    }
  }

  // ---------------------------------------------------------------------------------------
  // SearchGranules

  /** Sending each record of one item on the channel, in order. */
  method SendAll(result: CmrSearch.ScrollResult<Granule>, grans: seq<Granule>)
    modifies result
    ensures result.items == old(result.items) + grans && result.err == old(result.err) && result.hits == old(result.hits)
  {
    for j := 0 to |grans|
      invariant result.items == old(result.items) + grans[..j]
      invariant result.err == old(result.err) && result.hits == old(result.hits)
    {
      assert grans[..j + 1] == grans[..j] + [grans[j]];
      result.Send(grans[j]);
    }
    assert grans[..|grans|] == grans;
  }

  /** The goroutine of `SearchGranules`: each raw item of the stream becomes its records,
      sent in turn. */
  method SendItems(result: CmrSearch.ScrollResult<Granule>, items: seq<UmmGranule>, byteCountSI: int -> string)
    returns (ghost perItem: seq<seq<Granule>>)
    requires result.items == [] && result.err.None?
    modifies result
    ensures |perItem| == |items|
    ensures forall k | 0 <= k < |items| :: IsGranulesOf(perItem[k], items[k], byteCountSI)
    ensures result.items == Concat(perItem) && result.err.None? && result.hits == old(result.hits)
  {
    perItem := [];
    for i := 0 to |items|
      invariant |perItem| == i
      invariant forall k | 0 <= k < i :: IsGranulesOf(perItem[k], items[k], byteCountSI)
      invariant result.items == Concat(perItem) && result.err.None? && result.hits == old(result.hits)
    {
      var grans := NewGranulesFromUmm(items[i], byteCountSI);
      SendAll(result, grans);
      ghost var prev := perItem;
      perItem := perItem + [grans];
      assert perItem[..|perItem| - 1] == prev;
    }
  }

  /** `SearchGranules`: a query the builder refuses is returned as the error with an empty
      result. Otherwise the stream's hits are copied, each raw item becomes its records in
      turn, and the stream's own error is not copied. */
  method SearchGranules(params: SearchGranuleParams, codec: TimeCodec, server: seq<CmrSearch.Reply<UmmGranule>>,
                        byteCountSI: int -> string)
    returns (result: CmrSearch.ScrollResult<Granule>, err: Option<string>, query: Values<GranuleKey>, ghost perItem: seq<seq<Granule>>)
    ensures fresh(result)
    ensures err.Some? <==> GeometryError(params.Params()).Some?
    ensures err.Some? ==>
      err.value == GeometryError(params.Params()).value && result.items == [] && result.err.None? && result.hits == 0
    ensures err.None? ==>
      && IsGranuleQuery(query - {PageSizeParam}, params.Params(), codec)
      && ValuesOf(query, PageSizeParam) == [CmrSearch.PageSize]
    ensures err.None? ==>
      var o := CmrSearch.Scroll(None, server);
      && result.hits == (if o.hits.Some? then o.hits.value else 0)
      && result.err.None?
      && |perItem| == |o.items|
      && (forall i | 0 <= i < |o.items| :: IsGranulesOf(perItem[i], o.items[i], byteCountSI))
      && result.items == Concat(perItem)
  {
    var built := Build(params.Params(), codec);
    if built.Err? {
      result := new CmrSearch.ScrollResult<Granule>();
      return result, Some(built.error), map[], [];
    }
    err := None;
    assert ValuesOf(built.value, PageSizeParam) == Expected(params.Params(), codec, PageSizeParam) == [];
    query := built.value[PageSizeParam := [CmrSearch.PageSize]];
    assert query - {PageSizeParam} == built.value;
    var zult, _ := CmrSearch.Get(None, server);
    var items, hits := zult.items, zult.hits;
    result := new CmrSearch.ScrollResult<Granule>();
    result.hits := hits;
    perItem := SendItems(result, items, byteCountSI);
  }
}
