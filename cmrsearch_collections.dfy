/** internal/cmrsearch_collections.go: the collection query builder, the projection of one
    UMM collection document onto a flat record of named texts, and the typed collection
    search over the generic stream. */
module CmrCollections {
  import opened Common
  import opened Times
  import opened Umm
  import CmrSearch

  // ---------------------------------------------------------------------------------------
  // SearchCollectionParams and its query

  const InvalidKeyword := "invalid keyword"

  /** The keys of a collection query. */
  datatype CollectionKey =
    | KeywordParam
    | ProviderIgnoreCaseParam | ProviderParam
    | PlatformPatternParam | PlatformIgnoreCaseParam | PlatformParam
    | InstrumentPatternParam | InstrumentIgnoreCaseParam | InstrumentParam
    | EntryTitlePatternParam | EntryTitleIgnoreCaseParam | EntryTitleParam
    | UpdatedSinceParam | HasGranulesRevisedAtParam
    | CloudHostedParam | StandardProductParam | HasGranulesParam
    | SortKeyParam | PageSizeParam

  /** The text each key is sent as. */
  function KeyName(k: CollectionKey): string
  {
    match k
    case KeywordParam => "keyword"
    case ProviderIgnoreCaseParam => "options[provider_short_name][ignore_case]"
    case ProviderParam => "provider_short_name"
    case PlatformPatternParam => "options[platform][pattern]"
    case PlatformIgnoreCaseParam => "options[platform][ignore_case]"
    case PlatformParam => "platform"
    case InstrumentPatternParam => "options[instrument][pattern]"
    case InstrumentIgnoreCaseParam => "options[instrument][ignore_case]"
    case InstrumentParam => "instrument"
    case EntryTitlePatternParam => "options[entry_title][pattern]"
    case EntryTitleIgnoreCaseParam => "options[entry_title][ignore_case]"
    case EntryTitleParam => "entry_title"
    case UpdatedSinceParam => "updated_since"
    case HasGranulesRevisedAtParam => "has_granules_revised_at"
    case CloudHostedParam => "cloud_hosted"
    case StandardProductParam => "standard_product"
    case HasGranulesParam => "has_granules"
    case SortKeyParam => "sort_key"
    case PageSizeParam => "page_size"
  }

  /** Distinct keys are sent as distinct texts, so the query loses nothing on the wire. */
  lemma KeyNamesDistinct(a: CollectionKey, b: CollectionKey)
    requires a != b
    ensures KeyName(a) != KeyName(b)
  {
  }

  /** The parameters a builder holds. Each of the three flags comes with whether it was
      set at all. */
  datatype CollectionParams = CollectionParams(
    keyword: string,
    providers: seq<string>,
    platforms: seq<string>,
    instruments: seq<string>,
    titlePattern: string,
    updatedSince: Option<Instant>,
    granulesAdded: Option<TimeRange>,
    cloudHosted: bool, cloudHostedSet: bool,
    hasGranules: bool, hasGranulesSet: bool,
    standard: bool, standardSet: bool,
    sortField: string)

  /** A character of the class `[\w\s_-]`: an ASCII letter, digit or underscore, one of
      the five white-space characters of `\s` (tab, newline, form feed, carriage return,
      space), or a hyphen. */
  predicate KeywordChar(ch: char)
  {
    || ('a' <= ch <= 'z') || ('A' <= ch <= 'Z') || ('0' <= ch <= '9') || ch == '_'
    || ch == '\t' || ch == '\n' || ch == '\U{000C}' || ch == '\r' || ch == ' '
    || ch == '-'
  }

  /** The pattern `^[\w\s_-]+` matches somewhere: some non-empty prefix is made of class
      characters only. */
  ghost predicate KeywordPatternMatches(kw: string)
  {
    exists n | 1 <= n <= |kw| :: KeywordChars(kw[..n])
  }

  /** Every character of `s` is a class character. */
  predicate KeywordChars(s: string)
  {
    forall i | 0 <= i < |s| :: KeywordChar(s[i])
  }

  /** The check `build` makes on a keyword: its first character is a class character. */
  predicate KeywordAccepted(kw: string)
  {
    |kw| > 0 && KeywordChar(kw[0])
  }

  /** The pattern is anchored at the start only, so the first character alone decides
      whether it matches. */
  lemma KeywordAcceptedIsMatch(kw: string)
    ensures KeywordAccepted(kw) <==> KeywordPatternMatches(kw)
  {
    if KeywordAccepted(kw) {
      assert KeywordChars(kw[..1]);
    }
    if KeywordPatternMatches(kw) {
      var n :| 1 <= n <= |kw| && KeywordChars(kw[..n]);
      assert kw[..n][0] == kw[0];
    }
  }

  /** Only the start of a keyword is checked: whatever follows an accepted start is
      accepted too. */
  lemma KeywordTailIgnored(kw: string, rest: string)
    requires KeywordAccepted(kw)
    ensures KeywordAccepted(kw + rest)
  {
    assert (kw + rest)[0] == kw[0];
  }

  /** `build` refuses a non-empty keyword the pattern does not match. */
  predicate KeywordRefused(p: CollectionParams)
  {
    p.keyword != "" && !KeywordAccepted(p.keyword)
  }

  /** `fmt.Sprintf("%v", b)` for a bool. */
  function BoolText(b: bool): string
  {
    if b then "true" else "false"
  }

  /** The values a successful build gives each key: the keyword and title once when not
      empty, their option keys "true" alongside; providers, platforms and instruments one
      value per element in input order, with their option keys "true" exactly when the
      list is not empty; the update time and the granule revision range encoded when set;
      each flag as "true" or "false" only when its setter was called; the sort field when
      not empty. The page size is not the builder's. */
  function Expected(p: CollectionParams, codec: TimeCodec, k: CollectionKey): seq<string>
  {
    match k
    case KeywordParam => if p.keyword != "" then [p.keyword] else []
    case ProviderIgnoreCaseParam => if p.providers != [] then ["true"] else []
    case ProviderParam => p.providers
    case PlatformPatternParam => if p.platforms != [] then ["true"] else []
    case PlatformIgnoreCaseParam => if p.platforms != [] then ["true"] else []
    case PlatformParam => p.platforms
    case InstrumentPatternParam => if p.instruments != [] then ["true"] else []
    case InstrumentIgnoreCaseParam => if p.instruments != [] then ["true"] else []
    case InstrumentParam => p.instruments
    case EntryTitlePatternParam => if p.titlePattern != "" then ["true"] else []
    case EntryTitleIgnoreCaseParam => if p.titlePattern != "" then ["true"] else []
    case EntryTitleParam => if p.titlePattern != "" then [p.titlePattern] else []
    case UpdatedSinceParam =>
      if p.updatedSince.Some? then [EncodeTime(codec, p.updatedSince.value)] else []
    case HasGranulesRevisedAtParam =>
      if p.granulesAdded.Some? then [EncodeTimeRange(codec, p.granulesAdded.value)] else []
    case CloudHostedParam => if p.cloudHostedSet then [BoolText(p.cloudHosted)] else []
    case StandardProductParam => if p.standardSet then [BoolText(p.standard)] else []
    case HasGranulesParam => if p.hasGranulesSet then [BoolText(p.hasGranules)] else []
    case SortKeyParam => if p.sortField != "" then [p.sortField] else []
    case PageSizeParam => []
  }

  /** A query holding exactly the expected values, and no key without values. */
  predicate IsCollectionQuery(q: Values<CollectionKey>, p: CollectionParams, codec: TimeCodec)
  {
    NoEmptyKey(q) && forall k :: ValuesOf(q, k) == Expected(p, codec, k)
  }

  /** The position of a key in the order `build` sets them. */
  function Order(k: CollectionKey): nat
  {
    match k
    case KeywordParam => 0
    case ProviderIgnoreCaseParam => 1
    case ProviderParam => 2
    case PlatformPatternParam => 3
    case PlatformIgnoreCaseParam => 4
    case PlatformParam => 5
    case InstrumentPatternParam => 6
    case InstrumentIgnoreCaseParam => 7
    case InstrumentParam => 8
    case EntryTitlePatternParam => 9
    case EntryTitleIgnoreCaseParam => 10
    case EntryTitleParam => 11
    case UpdatedSinceParam => 12
    case HasGranulesRevisedAtParam => 13
    case CloudHostedParam => 14
    case StandardProductParam => 15
    case HasGranulesParam => 16
    case SortKeyParam => 17
    case PageSizeParam => 18
  }

  /** The key `build` sets at position `n`. */
  function KeyAt(n: nat): (k: CollectionKey)
    requires n < 18
    ensures Order(k) == n
  {
    if n == 0 then KeywordParam
    else if n == 1 then ProviderIgnoreCaseParam
    else if n == 2 then ProviderParam
    else if n == 3 then PlatformPatternParam
    else if n == 4 then PlatformIgnoreCaseParam
    else if n == 5 then PlatformParam
    else if n == 6 then InstrumentPatternParam
    else if n == 7 then InstrumentIgnoreCaseParam
    else if n == 8 then InstrumentParam
    else if n == 9 then EntryTitlePatternParam
    else if n == 10 then EntryTitleIgnoreCaseParam
    else if n == 11 then EntryTitleParam
    else if n == 12 then UpdatedSinceParam
    else if n == 13 then HasGranulesRevisedAtParam
    else if n == 14 then CloudHostedParam
    else if n == 15 then StandardProductParam
    else if n == 16 then HasGranulesParam
    else SortKeyParam
  }

  /** The query once `build` has set the keys before position `n`. */
  function BuiltUpTo(p: CollectionParams, codec: TimeCodec, n: nat): Values<CollectionKey>
    requires n <= 18
  {
    if n == 0 then map[]
    else Put(BuiltUpTo(p, codec, n - 1), KeyAt(n - 1), Expected(p, codec, KeyAt(n - 1)))
  }

  /** Each key holds its expected values once `build` has passed its position, and
      nothing before; a key is present only with values. */
  lemma {:induction false} BuiltUpToValues(p: CollectionParams, codec: TimeCodec, n: nat, k: CollectionKey)
    requires n <= 18
    ensures ValuesOf(BuiltUpTo(p, codec, n), k) == if Order(k) < n then Expected(p, codec, k) else []
    ensures NoEmptyKey(BuiltUpTo(p, codec, n))
  {
    if n > 0 {
      BuiltUpToValues(p, codec, n - 1, k);
      BuiltUpToValues(p, codec, n - 1, KeyAt(n - 1));
      forall j | j in BuiltUpTo(p, codec, n) ensures BuiltUpTo(p, codec, n)[j] != [] {
        BuiltUpToValues(p, codec, n - 1, j);
      }
    }
  }

  /** The step from position `n` to `n + 1`: the next key is set to its expected values,
      or left out when it has none. */
  lemma Advance(p: CollectionParams, codec: TimeCodec, n: nat)
    requires n < 18
    ensures var v := Expected(p, codec, KeyAt(n));
      BuiltUpTo(p, codec, n + 1) == if v == [] then BuiltUpTo(p, codec, n) else BuiltUpTo(p, codec, n)[KeyAt(n) := v]
  {
    BuiltUpToValues(p, codec, n, KeyAt(n));
    assert [] + Expected(p, codec, KeyAt(n)) == Expected(p, codec, KeyAt(n));
  }

  /** A query built through all eighteen positions is the expected one. */
  lemma BuiltQuery(p: CollectionParams, codec: TimeCodec)
    ensures IsCollectionQuery(BuiltUpTo(p, codec, 18), p, codec)
  {
    BuiltUpToValues(p, codec, 18, PageSizeParam);
    forall k ensures ValuesOf(BuiltUpTo(p, codec, 18), k) == Expected(p, codec, k) {
      BuiltUpToValues(p, codec, 18, k);
    }
  }

  /** The sort field `SortBy` stores: "shortname" is sent as "short_name", any other
      field as given. */
  function SortField(field: string): (f: string)
    ensures field != "shortname" ==> f == field
    ensures field == "shortname" ==> f == "short_name"
  {
    if field == "shortname" then "short_name" else field
  }

  /** `SearchCollectionParams`: a builder whose setters overwrite its fields. */
  class SearchCollectionParams {
    var keyword: string
    var providers: seq<string>
    var platforms: seq<string>
    var instruments: seq<string>
    var titlePattern: string
    var updatedSince: Option<Instant>
    var granulesAdded: Option<TimeRange>
    var cloudHosted: bool
    var cloudHostedSet: bool
    var hasGranules: bool
    var hasGranulesSet: bool
    var standard: bool
    var standardSet: bool
    var sortField: string

    function Params(): CollectionParams
      reads this
    {
      CollectionParams(keyword, providers, platforms, instruments, titlePattern, updatedSince,
                       granulesAdded, cloudHosted, cloudHostedSet, hasGranules, hasGranulesSet,
                       standard, standardSet, sortField)
    }

    /** `NewSearchCollectionParams`: nothing set. */
    constructor ()
      ensures Params() == CollectionParams("", [], [], [], "", None, None, false, false, false, false, false, false, "")
    {
      keyword := "";
      providers, platforms, instruments := [], [], [];
      titlePattern := "";
      updatedSince, granulesAdded := None, None;
      cloudHosted, cloudHostedSet := false, false;
      hasGranules, hasGranulesSet := false, false;
      standard, standardSet := false, false;
      sortField := "";
    }

    method Keyword(kw: string)
      modifies this
      ensures Params() == old(Params()).(keyword := kw)
    {
      keyword := kw;
    }

    method Providers(names: seq<string>)
      modifies this
      ensures Params() == old(Params()).(providers := names)
    {
      providers := names;
    }

    method Platforms(names: seq<string>)
      modifies this
      ensures Params() == old(Params()).(platforms := names)
    {
      platforms := names;
    }

    method Instruments(names: seq<string>)
      modifies this
      ensures Params() == old(Params()).(instruments := names)
    {
      instruments := names;
    }

    method Title(pattern: string)
      modifies this
      ensures Params() == old(Params()).(titlePattern := pattern)
    {
      titlePattern := pattern;
    }

    method UpdatedSince(t: Instant)
      modifies this
      ensures Params() == old(Params()).(updatedSince := Some(t))
    {
      updatedSince := Some(t);
    }

    method GranulesAdded(tr: TimeRange)
      modifies this
      ensures Params() == old(Params()).(granulesAdded := Some(tr))
    {
      granulesAdded := Some(tr);
    }

    /** The flag setters record the value and that it was set. */
    method CloudHosted(b: bool)
      modifies this
      ensures Params() == old(Params()).(cloudHosted := b, cloudHostedSet := true)
    {
      cloudHostedSet := true;
      cloudHosted := b;
    }

    method Standard(b: bool)
      modifies this
      ensures Params() == old(Params()).(standard := b, standardSet := true)
    {
      standardSet := true;
      standard := b;
    }

    method HasGranules(b: bool)
      modifies this
      ensures Params() == old(Params()).(hasGranules := b, hasGranulesSet := true)
    {
      hasGranulesSet := true;
      hasGranules := b;
    }

    method SortBy(field: string)
      modifies this
      ensures Params() == old(Params()).(sortField := SortField(field))
    {
      var f := field;
      if f == "shortname" {
        f := "short_name";
      }
      sortField := f;
    }
  }

  /** The keyword check and the provider, platform and instrument lists of `build`: the
      query through position 9, or the keyword error. */
  method BuildLists(p: CollectionParams, codec: TimeCodec) returns (r: Result<Values<CollectionKey>, string>)
    ensures r.Err? <==> KeywordRefused(p)
    ensures r.Err? ==> r.error == InvalidKeyword
    ensures r.Ok? ==> r.value == BuiltUpTo(p, codec, 9)
  {
    var query: Values<CollectionKey> := map[];
    if p.keyword != "" {
      if !KeywordAccepted(p.keyword) {
        return Err(InvalidKeyword);
      }
      query := query[KeywordParam := [p.keyword]];
    }
    Advance(p, codec, 0);
    assert query == BuiltUpTo(p, codec, 1);
    if |p.providers| != 0 {
      query := query[ProviderIgnoreCaseParam := ["true"]];
    }
    Advance(p, codec, 1);
    assert query == BuiltUpTo(p, codec, 2);
    query := AddAll(query, ProviderParam, p.providers);
    Advance(p, codec, 2);
    assert query == BuiltUpTo(p, codec, 3);
    if |p.platforms| != 0 {
      query := query[PlatformPatternParam := ["true"]];
      Advance(p, codec, 3);
      assert query == BuiltUpTo(p, codec, 4);
      query := query[PlatformIgnoreCaseParam := ["true"]];
      Advance(p, codec, 4);
    } else {
      Advance(p, codec, 3);
      Advance(p, codec, 4);
    }
    assert query == BuiltUpTo(p, codec, 5);
    query := AddAll(query, PlatformParam, p.platforms);
    Advance(p, codec, 5);
    assert query == BuiltUpTo(p, codec, 6);
    if |p.instruments| != 0 {
      query := query[InstrumentPatternParam := ["true"]];
      Advance(p, codec, 6);
      assert query == BuiltUpTo(p, codec, 7);
      query := query[InstrumentIgnoreCaseParam := ["true"]];
      Advance(p, codec, 7);
    } else {
      Advance(p, codec, 6);
      Advance(p, codec, 7);
    }
    assert query == BuiltUpTo(p, codec, 8);
    query := AddAll(query, InstrumentParam, p.instruments);
    Advance(p, codec, 8);
    assert query == BuiltUpTo(p, codec, 9);
    return Ok(query);
  }

  /** The title and the update time of `build`: the query from position 9 through
      position 13. */
  method BuildTitle(query: Values<CollectionKey>, p: CollectionParams, codec: TimeCodec) returns (q: Values<CollectionKey>)
    requires query == BuiltUpTo(p, codec, 9)
    ensures q == BuiltUpTo(p, codec, 13)
  {
    q := query;
    if p.titlePattern != "" {
      q := q[EntryTitlePatternParam := ["true"]];
      Advance(p, codec, 9);
      assert q == BuiltUpTo(p, codec, 10);
      q := q[EntryTitleIgnoreCaseParam := ["true"]];
      Advance(p, codec, 10);
      assert q == BuiltUpTo(p, codec, 11);
      q := q[EntryTitleParam := [p.titlePattern]];
      Advance(p, codec, 11);
    } else {
      Advance(p, codec, 9);
      Advance(p, codec, 10);
      Advance(p, codec, 11);
    }
    assert q == BuiltUpTo(p, codec, 12);
    if p.updatedSince.Some? {
      q := q[UpdatedSinceParam := [EncodeTime(codec, p.updatedSince.value)]];
    }
    Advance(p, codec, 12);
  }

  /** The revision range, the three flags and the sort field of `build`: the query from
      position 13 through position 18. */
  method BuildFlags(query: Values<CollectionKey>, p: CollectionParams, codec: TimeCodec) returns (q: Values<CollectionKey>)
    requires query == BuiltUpTo(p, codec, 13)
    ensures q == BuiltUpTo(p, codec, 18)
  {
    q := query;
    if p.granulesAdded.Some? {
      q := q[HasGranulesRevisedAtParam := [EncodeTimeRange(codec, p.granulesAdded.value)]];
    }
    Advance(p, codec, 13);
    assert q == BuiltUpTo(p, codec, 14);
    if p.cloudHostedSet {
      q := q[CloudHostedParam := [BoolText(p.cloudHosted)]];
    }
    Advance(p, codec, 14);
    assert q == BuiltUpTo(p, codec, 15);
    if p.standardSet {
      q := q[StandardProductParam := [BoolText(p.standard)]];
    }
    Advance(p, codec, 15);
    assert q == BuiltUpTo(p, codec, 16);
    if p.hasGranulesSet {
      q := q[HasGranulesParam := [BoolText(p.hasGranules)]];
    }
    Advance(p, codec, 16);
    assert q == BuiltUpTo(p, codec, 17);
    if p.sortField != "" {
      q := q[SortKeyParam := [p.sortField]];
    }
    Advance(p, codec, 17);
  }

  /** `build` on a builder holding `p`: the query, or "invalid keyword" when the keyword
      is refused. */
  method Build(p: CollectionParams, codec: TimeCodec) returns (r: Result<Values<CollectionKey>, string>)
    ensures r.Err? <==> KeywordRefused(p)
    ensures r.Err? ==> r.error == InvalidKeyword
    ensures r.Ok? ==> IsCollectionQuery(r.value, p, codec)
  {
    var lists := BuildLists(p, codec);
    if lists.Err? {
      return Err(lists.error);
    }
    var query := BuildTitle(lists.value, p, codec);
    query := BuildFlags(query, p, codec);
    BuiltQuery(p, codec);
    return Ok(query);
  }

  // ---------------------------------------------------------------------------------------
  // newCollectionFromUMM

  /** An entry of `umm.Platforms`: its short name and the short names of its instruments. */
  datatype Platform = Platform(shortName: string, instruments: seq<string>)

  /** A collection search item: its `meta` ids and the parts of `umm` the projection
      reads; a missing text reads as "". */
  datatype UmmCollection = UmmCollection(
    shortName: string, entryTitle: string, version: string, conceptId: string,
    processingLevel: string, doi: string, providerId: string, revisionId: string,
    revisionDate: string, summary: string,
    platforms: seq<Platform>, relatedUrls: seq<RelatedUrl>)

  /** `Collection`: named texts. */
  type Collection = map<string, string>

  const InfoUrlType := "VIEW RELATED INFORMATION"

  /** The names every collection record has. */
  const CollectionFields: set<string> := {
    "shortname", "title", "version", "concept_id", "processing_level", "doi", "provider",
    "revision_id", "revision_date", "abstract", "instruments", "infourls" }

  /** `fmt.Sprintf("%s/%s", platName, instName)`. */
  function Pair(platName: string, instName: string): string
  {
    platName + "/" + instName
  }

  /** The pairs of one platform, one per instrument in order. */
  function PlatformPairs(platName: string, insts: seq<string>): (r: seq<string>)
    ensures |r| == |insts|
  {
    if insts == [] then []
    else PlatformPairs(platName, insts[..|insts| - 1]) + [Pair(platName, insts[|insts| - 1])]
  }

  /** The pairs of every platform in turn. */
  function InstrumentPairs(plats: seq<Platform>): seq<string>
  {
    if plats == [] then []
    else
      var last := plats[|plats| - 1];
      InstrumentPairs(plats[..|plats| - 1]) + PlatformPairs(last.shortName, last.instruments)
  }

  /** The URLs of the related URLs of type "VIEW RELATED INFORMATION", in order. */
  function InfoUrls(urls: seq<RelatedUrl>): (r: seq<string>)
    ensures |r| <= |urls|
  {
    if urls == [] then []
    else
      var last := urls[|urls| - 1];
      InfoUrls(urls[..|urls| - 1]) + (if last.kind == InfoUrlType then [last.url] else [])
  }

  /** The record of one collection. */
  function CollectionOf(doc: UmmCollection): Collection
  {
    map[
      "shortname" := doc.shortName,
      "title" := doc.entryTitle,
      "version" := doc.version,
      "concept_id" := doc.conceptId,
      "processing_level" := doc.processingLevel,
      "doi" := TrimSpace(doc.doi),
      "provider" := doc.providerId,
      "revision_id" := doc.revisionId,
      "revision_date" := doc.revisionDate,
      "abstract" := doc.summary,
      "instruments" := Join(InstrumentPairs(doc.platforms), "\n"),
      "infourls" := Join(InfoUrls(doc.relatedUrls), "\n")]
  }

  /** Each pair names a platform of the document and one of that platform's instruments. */
  lemma {:induction false} PairOrigin(plats: seq<Platform>, k: nat) returns (i: nat, j: nat)
    requires k < |InstrumentPairs(plats)|
    ensures i < |plats| && j < |plats[i].instruments|
    ensures InstrumentPairs(plats)[k] == Pair(plats[i].shortName, plats[i].instruments[j])
  {
    var init := plats[..|plats| - 1];
    var last := plats[|plats| - 1];
    if k < |InstrumentPairs(init)| {
      i, j := PairOrigin(init, k);
      assert plats[i] == init[i];
    } else {
      i, j := |plats| - 1, k - |InstrumentPairs(init)|;
      PlatformPairAt(last.shortName, last.instruments, j);
    }
  }

  /** The pair at position `j` of a platform's pairs names its instrument at `j`. */
  lemma {:induction false} PlatformPairAt(platName: string, insts: seq<string>, j: nat)
    requires j < |insts|
    ensures PlatformPairs(platName, insts)[j] == Pair(platName, insts[j])
  {
    if j < |insts| - 1 {
      PlatformPairAt(platName, insts[..|insts| - 1], j);
    }
  }

  /** Every instrument of every platform has its pair. */
  lemma {:induction false} PairPresent(plats: seq<Platform>, i: nat, j: nat)
    requires i < |plats| && j < |plats[i].instruments|
    ensures Pair(plats[i].shortName, plats[i].instruments[j]) in InstrumentPairs(plats)
  {
    var init := plats[..|plats| - 1];
    var last := plats[|plats| - 1];
    if i < |plats| - 1 {
      assert init[i] == plats[i];
      PairPresent(init, i, j);
    } else {
      PlatformPairAt(last.shortName, last.instruments, j);
      assert PlatformPairs(last.shortName, last.instruments)[j] in InstrumentPairs(plats);
    }
  }

  /** Each info URL is the URL of a related URL of type "VIEW RELATED INFORMATION". */
  lemma {:induction false} InfoUrlOrigin(urls: seq<RelatedUrl>, k: nat) returns (i: nat)
    requires k < |InfoUrls(urls)|
    ensures i < |urls| && urls[i].kind == InfoUrlType && InfoUrls(urls)[k] == urls[i].url
  {
    var init := urls[..|urls| - 1];
    if k < |InfoUrls(init)| {
      i := InfoUrlOrigin(init, k);
      assert urls[i] == init[i];
    } else {
      i := |urls| - 1;
    }
  }

  /** Every related URL of type "VIEW RELATED INFORMATION" is among the info URLs. */
  lemma {:induction false} InfoUrlPresent(urls: seq<RelatedUrl>, i: nat)
    requires i < |urls| && urls[i].kind == InfoUrlType
    ensures urls[i].url in InfoUrls(urls)
  {
    var init := urls[..|urls| - 1];
    if i < |urls| - 1 {
      assert init[i] == urls[i];
      InfoUrlPresent(init, i);
    }
  }

  /** The record has exactly the twelve names; splitting its "instruments" at newlines
      gives back the platform/instrument pairs, and its "infourls" the info URLs, when
      there is at least one and no name or URL holds a newline. */
  lemma CollectionLines(doc: UmmCollection)
    ensures CollectionOf(doc).Keys == CollectionFields
    ensures InstrumentPairs(doc.platforms) != []
      && (forall i | 0 <= i < |doc.platforms| :: '\n' !in doc.platforms[i].shortName
            && forall j | 0 <= j < |doc.platforms[i].instruments| :: '\n' !in doc.platforms[i].instruments[j])
      ==> SplitOn(CollectionOf(doc)["instruments"], '\n') == InstrumentPairs(doc.platforms)
    ensures InfoUrls(doc.relatedUrls) != []
      && (forall i | 0 <= i < |doc.relatedUrls| :: '\n' !in doc.relatedUrls[i].url)
      ==> SplitOn(CollectionOf(doc)["infourls"], '\n') == InfoUrls(doc.relatedUrls)
  {
    var pairs := InstrumentPairs(doc.platforms);
    if pairs != []
      && (forall i | 0 <= i < |doc.platforms| :: '\n' !in doc.platforms[i].shortName
            && forall j | 0 <= j < |doc.platforms[i].instruments| :: '\n' !in doc.platforms[i].instruments[j])
    {
      forall k | 0 <= k < |pairs| ensures '\n' !in pairs[k] {
        var i, j := PairOrigin(doc.platforms, k);
      }
      SplitJoin(pairs, '\n');
    }
    var infos := InfoUrls(doc.relatedUrls);
    if infos != [] && (forall i | 0 <= i < |doc.relatedUrls| :: '\n' !in doc.relatedUrls[i].url) {
      forall k | 0 <= k < |infos| ensures '\n' !in infos[k] {
        var i := InfoUrlOrigin(doc.relatedUrls, k);
      }
      SplitJoin(infos, '\n');
    }
  }

  /** `newCollectionFromUMM`: the ten texts, the platform/instrument pairs of every
      platform in order, and the URLs of type "VIEW RELATED INFORMATION" in order. */
  method NewCollectionFromUmm(doc: UmmCollection) returns (col: Collection)
    ensures col == CollectionOf(doc)
  {
    var instruments: seq<string> := [];
    for i := 0 to |doc.platforms|
      invariant instruments == InstrumentPairs(doc.platforms[..i])
    {
      var plat := doc.platforms[i];
      var platName := plat.shortName;
      for j := 0 to |plat.instruments|
        invariant instruments == InstrumentPairs(doc.platforms[..i]) + PlatformPairs(platName, plat.instruments[..j])
      {
        var instName := plat.instruments[j];
        assert plat.instruments[..j + 1][..j] == plat.instruments[..j];
        instruments := instruments + [Pair(platName, instName)];
      }
      assert plat.instruments[..|plat.instruments|] == plat.instruments;
      assert doc.platforms[..i + 1][..i] == doc.platforms[..i];
    }
    assert doc.platforms[..|doc.platforms|] == doc.platforms;
    var urls: seq<string> := [];
    for i := 0 to |doc.relatedUrls|
      invariant urls == InfoUrls(doc.relatedUrls[..i])
    {
      assert doc.relatedUrls[..i + 1][..i] == doc.relatedUrls[..i];
      if doc.relatedUrls[i].kind == InfoUrlType {
        urls := urls + [doc.relatedUrls[i].url];
      }
    }
    assert doc.relatedUrls[..|doc.relatedUrls|] == doc.relatedUrls;
    col := map[
      "shortname" := doc.shortName,
      "title" := doc.entryTitle,
      "version" := doc.version,
      "concept_id" := doc.conceptId,
      "processing_level" := doc.processingLevel,
      "doi" := TrimSpace(doc.doi),
      "provider" := doc.providerId,
      "revision_id" := doc.revisionId,
      "revision_date" := doc.revisionDate,
      "abstract" := doc.summary,
      "instruments" := Join(instruments, "\n"),
      "infourls" := Join(urls, "\n")];
  }

  // ---------------------------------------------------------------------------------------
  // SearchCollections

  /** The goroutine of `SearchCollections`: each raw item of the stream becomes one
      record, sent in turn. */
  method SendCollections(result: CmrSearch.ScrollResult<Collection>, items: seq<UmmCollection>)
    requires result.items == [] && result.err.None?
    modifies result
    ensures |result.items| == |items|
    ensures forall k | 0 <= k < |items| :: result.items[k] == CollectionOf(items[k])
    ensures result.err.None? && result.hits == old(result.hits)
  {
    for i := 0 to |items|
      invariant |result.items| == i
      invariant forall k | 0 <= k < i :: result.items[k] == CollectionOf(items[k])
      invariant result.err.None? && result.hits == old(result.hits)
    {
      var col := NewCollectionFromUmm(items[i]);
      result.Send(col);
    }
  }

  /** `SearchCollections`: a query the builder refuses is returned as the error with an
      empty result. Otherwise the page size is added, the stream's hits are copied, each
      raw item becomes its record in turn, and the stream's own error is not copied. */
  method SearchCollections(params: SearchCollectionParams, codec: TimeCodec, server: seq<CmrSearch.Reply<UmmCollection>>)
    returns (result: CmrSearch.ScrollResult<Collection>, err: Option<string>, query: Values<CollectionKey>)
    ensures fresh(result)
    ensures err.Some? <==> KeywordRefused(params.Params())
    ensures err.Some? ==> err.value == InvalidKeyword && result.items == [] && result.err.None? && result.hits == 0
    ensures err.None? ==>
      && IsCollectionQuery(query - {PageSizeParam}, params.Params(), codec)
      && ValuesOf(query, PageSizeParam) == [CmrSearch.PageSize]
    ensures err.None? ==>
      var o := CmrSearch.Scroll(None, server);
      && result.hits == (if o.hits.Some? then o.hits.value else 0)
      && result.err.None?
      && |result.items| == |o.items|
      && forall i | 0 <= i < |o.items| :: result.items[i] == CollectionOf(o.items[i])
  {
    var built := Build(params.Params(), codec);
    if built.Err? {
      result := new CmrSearch.ScrollResult<Collection>();
      return result, Some(built.error), map[];
    }
    err := None;
    assert ValuesOf(built.value, PageSizeParam) == Expected(params.Params(), codec, PageSizeParam) == [];
    query := built.value[PageSizeParam := [CmrSearch.PageSize]];
    assert query - {PageSizeParam} == built.value;
    var zult, _ := CmrSearch.Get(None, server);
    var items, hits := zult.items, zult.hits;
    result := new CmrSearch.ScrollResult<Collection>();
    result.hits := hits;
    SendCollections(result, items);
  }
}
