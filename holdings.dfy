/** internal/holdingsapi.go: grouping the provider-holdings list by provider, and the
    choice between the on-disk cache and a fresh download. */
module Holdings {
  import opened Common
  import opened Times

  // ---------------------------------------------------------------------------------------
  // readHoldings

  /** An entry of the provider-holdings document; a missing field reads as "" or 0. */
  datatype HoldingEntry = HoldingEntry(conceptId: string, title: string, providerId: string, granuleCount: int)

  /** `CollectionItem`. */
  datatype CollectionItem = CollectionItem(conceptId: string, granuleCount: int, title: string)

  /** `Provider`: its id, its collections and the sum of their granule counts. */
  datatype Provider = Provider(id: string, collections: seq<CollectionItem>, granuleCount: int)

  function ItemOf(x: HoldingEntry): CollectionItem
  {
    CollectionItem(x.conceptId, x.granuleCount, x.title)
  }

  /** The items of the entries of provider `id`, in input order. */
  function ItemsOf(d: seq<HoldingEntry>, id: string): seq<CollectionItem>
  {
    if d == [] then []
    else
      var last := d[|d| - 1];
      ItemsOf(d[..|d| - 1], id) + (if last.providerId == id then [ItemOf(last)] else [])
  }

  /** The sum of `w` over the entries whose provider is in `ids`. */
  function Tally(d: seq<HoldingEntry>, ids: set<string>, w: HoldingEntry -> int): int
  {
    if d == [] then 0
    else
      var last := d[|d| - 1];
      Tally(d[..|d| - 1], ids, w) + (if last.providerId in ids then w(last) else 0)
  }

  /** The sum of `w` over all entries. */
  function Sum(d: seq<HoldingEntry>, w: HoldingEntry -> int): int
  {
    if d == [] then 0 else Sum(d[..|d| - 1], w) + w(d[|d| - 1])
  }

  function One(x: HoldingEntry): int { 1 }

  function EntryGranules(x: HoldingEntry): int { x.granuleCount }

  /** The provider `readHoldings` makes for `id`. */
  function ProviderOf(d: seq<HoldingEntry>, id: string): Provider
  {
    Provider(id, ItemsOf(d, id), Tally(d, {id}, EntryGranules))
  }

  /** The provider ids of the entries. */
  function ProviderIds(d: seq<HoldingEntry>): set<string>
  {
    if d == [] then {} else ProviderIds(d[..|d| - 1]) + {d[|d| - 1].providerId}
  }

  /** The ids of a list of providers. */
  function IdsOf(ps: seq<Provider>): set<string>
  {
    if ps == [] then {} else IdsOf(ps[..|ps| - 1]) + {ps[|ps| - 1].id}
  }

  predicate DistinctIds(ps: seq<Provider>)
  {
    forall i, j | 0 <= i < j < |ps| :: ps[i].id != ps[j].id
  }

  /** The result of `readHoldings` for the entries `d`: one provider per distinct id, in
      any order, each holding exactly the items and the granule sum of its entries. */
  predicate IsHoldingsOf(ps: seq<Provider>, d: seq<HoldingEntry>)
  {
    && DistinctIds(ps)
    && IdsOf(ps) == ProviderIds(d)
    && forall i | 0 <= i < |ps| :: ps[i] == ProviderOf(d, ps[i].id)
  }

  /** A provider with no entries has no items and no granules. */
  lemma {:induction false} AbsentProvider(d: seq<HoldingEntry>, id: string)
    requires id !in ProviderIds(d)
    ensures ItemsOf(d, id) == [] && Tally(d, {id}, EntryGranules) == 0
  {
    if d != [] {
      AbsentProvider(d[..|d| - 1], id);
    }
  }

  /** `readHoldings`: a document that does not decode is the error; otherwise each entry
      is appended, as an item, to the provider of its id, whose granule count grows by the
      entry's, and the providers are listed in map order. */
  method ReadHoldings(decoded: Result<seq<HoldingEntry>, string>) returns (r: Result<seq<Provider>, string>)
    ensures decoded.Err? ==> r == Err(decoded.error)
    ensures decoded.Ok? ==> r.Ok? && IsHoldingsOf(r.value, decoded.value)
  {
    if decoded.Err? {
      return Err(decoded.error);
    }
    var dat := decoded.value;
    var providers := GroupByProvider(dat);
    var zult: seq<Provider> := [];
    var todo := providers.Keys;
    while todo != {}
      invariant todo <= providers.Keys
      invariant IdsOf(zult) == providers.Keys - todo
      invariant DistinctIds(zult)
      invariant forall i | 0 <= i < |zult| :: zult[i] == ProviderOf(dat, zult[i].id)
      invariant forall i | 0 <= i < |zult| :: zult[i].id !in todo
      decreases todo
    {
      var id :| id in todo;
      ghost var prev := zult;
      zult := zult + [providers[id]];
      assert zult[..|zult| - 1] == prev;
      todo := todo - {id};
    }
    return Ok(zult);
  }

  /** The first loop of `readHoldings`: the providers by id. */
  method GroupByProvider(dat: seq<HoldingEntry>) returns (providers: map<string, Provider>)
    ensures providers.Keys == ProviderIds(dat)
    ensures forall id | id in providers :: providers[id] == ProviderOf(dat, id)
  {
    providers := map[];
    for i := 0 to |dat|
      invariant providers.Keys == ProviderIds(dat[..i])
      invariant forall id | id in providers :: providers[id] == ProviderOf(dat[..i], id)
    {
      var x := dat[i];
      assert dat[..i + 1][..i] == dat[..i];
      var prov: Provider;
      if x.providerId in providers {
        prov := providers[x.providerId];
      } else {
        AbsentProvider(dat[..i], x.providerId);
        prov := Provider(x.providerId, [], 0);
      }
      prov := prov.(granuleCount := prov.granuleCount + x.granuleCount);
      prov := prov.(collections := prov.collections + [CollectionItem(x.conceptId, x.granuleCount, x.title)]);
      providers := providers[x.providerId := prov];
    }
    assert dat[..|dat|] == dat;
  }

  // ---------------------------------------------------------------------------------------
  // what the grouping keeps

  /** Splitting the ids into a set and one more id splits the tally. */
  lemma {:induction false} TallySplit(d: seq<HoldingEntry>, ids: set<string>, id: string, w: HoldingEntry -> int)
    requires id !in ids
    ensures Tally(d, ids + {id}, w) == Tally(d, ids, w) + Tally(d, {id}, w)
  {
    if d != [] {
      TallySplit(d[..|d| - 1], ids, id, w);
    }
  }

  /** Over no ids the tally is zero. */
  lemma {:induction false} TallyNone(d: seq<HoldingEntry>, w: HoldingEntry -> int)
    ensures Tally(d, {}, w) == 0
  {
    if d != [] {
      TallyNone(d[..|d| - 1], w);
    }
  }

  /** Over a set holding every entry's provider, the tally is the plain sum. */
  lemma {:induction false} TallyEverything(d: seq<HoldingEntry>, ids: set<string>, w: HoldingEntry -> int)
    requires ProviderIds(d) <= ids
    ensures Tally(d, ids, w) == Sum(d, w)
  {
    if d != [] {
      TallyEverything(d[..|d| - 1], ids, w);
    }
  }

  /** A provider has one item per entry of its id. */
  lemma {:induction false} ItemsCounted(d: seq<HoldingEntry>, id: string)
    ensures |ItemsOf(d, id)| == Tally(d, {id}, One)
  {
    if d != [] {
      ItemsCounted(d[..|d| - 1], id);
    }
  }

  lemma {:induction false} SumOfOnes(d: seq<HoldingEntry>)
    ensures Sum(d, One) == |d|
  {
    if d != [] {
      SumOfOnes(d[..|d| - 1]);
    }
  }

  /** The number of items of every provider in turn. */
  function TotalItems(ps: seq<Provider>): int
  {
    if ps == [] then 0 else TotalItems(ps[..|ps| - 1]) + |ps[|ps| - 1].collections|
  }

  /** The granule count of every provider in turn. */
  function TotalGranules(ps: seq<Provider>): int
  {
    if ps == [] then 0 else TotalGranules(ps[..|ps| - 1]) + ps[|ps| - 1].granuleCount
  }

  /** Providers with distinct ids, each made from the entries, hold between them the
      items and the granules of the entries of their ids. */
  lemma {:induction false} ProviderTotals(ps: seq<Provider>, d: seq<HoldingEntry>)
    requires DistinctIds(ps)
    requires forall i | 0 <= i < |ps| :: ps[i] == ProviderOf(d, ps[i].id)
    ensures TotalItems(ps) == Tally(d, IdsOf(ps), One)
    ensures TotalGranules(ps) == Tally(d, IdsOf(ps), EntryGranules)
  {
    if ps != [] {
      var init := ps[..|ps| - 1];
      var last := ps[|ps| - 1];
      ProviderTotals(init, d);
      assert last.id !in IdsOf(init) by {
        if last.id in IdsOf(init) {
          var k := IdIndex(init, last.id);
          assert false;
        }
      }
      TallySplit(d, IdsOf(init), last.id, One);
      TallySplit(d, IdsOf(init), last.id, EntryGranules);
      ItemsCounted(d, last.id);
      assert last == ProviderOf(d, last.id);
      assert IdsOf(ps) == IdsOf(init) + {last.id};
      assert TotalItems(ps) == TotalItems(init) + |last.collections|;
      assert TotalGranules(ps) == TotalGranules(init) + last.granuleCount;
    } else {
      TallyNone(d, One);
      TallyNone(d, EntryGranules);
    }
  }

  /** Where an id of a list of providers is. */
  lemma {:induction false} IdIndex(ps: seq<Provider>, id: string) returns (k: nat)
    requires id in IdsOf(ps)
    ensures k < |ps| && ps[k].id == id
  {
    if ps[|ps| - 1].id == id {
      k := |ps| - 1;
    } else {
      k := IdIndex(ps[..|ps| - 1], id);
    }
  }

  /** Grouping loses and invents nothing: the providers hold one item per entry, and
      their granule counts add up to the sum over all entries. */
  lemma HoldingsTotals(ps: seq<Provider>, d: seq<HoldingEntry>)
    requires IsHoldingsOf(ps, d)
    ensures TotalItems(ps) == |d|
    ensures TotalGranules(ps) == Sum(d, EntryGranules)
  {
    ProviderTotals(ps, d);
    TallyEverything(d, ProviderIds(d), One);
    TallyEverything(d, ProviderIds(d), EntryGranules);
    SumOfOnes(d);
  }

  /** Each entry's item is among its provider's items. */
  lemma {:induction false} EntryListed(d: seq<HoldingEntry>, k: nat)
    requires k < |d|
    ensures ItemOf(d[k]) in ItemsOf(d, d[k].providerId)
  {
    var init := d[..|d| - 1];
    if k < |d| - 1 {
      EntryListed(init, k);
      assert init[k] == d[k];
    }
  }

  // ---------------------------------------------------------------------------------------
  // GetProviderHoldings

  /** 30 days, in nanoseconds. */
  const CacheMaxAge: int := 30 * 24 * 60 * 60 * 1_000_000_000

  /** `time.Time{}`, in nanoseconds since the Unix epoch: midnight, 1 January of year 1. */
  const ZeroTime: Instant := -62_135_596_800 * 1_000_000_000

  /** What the cache directory holds, as `getCachedProviderHoldings` finds it: the user
      cache directory unknown; no "cmrfetch" directory in it (`root` is the user cache
      directory); something there that is not a directory; no cache file; a cache file
      that cannot be opened or stat'ed; or a cache file, its modification time and what
      decoding it gave. */
  datatype CacheView =
    | NoUserCacheDir(reason: string)
    | DirMissing
    | NotADir(root: string)
    | FileMissing(reason: string)
    | OpenFails(reason: string)
    | StatFails(reason: string)
    | CacheFile(mtime: Instant, decoded: Result<seq<Provider>, string>)

  /** The providers and modification time the cache gives, or the error. */
  datatype Cached = Cached(providers: seq<Provider>, mtime: Instant)

  /** `getCachedProviderHoldings` as written: a missing cache file is an error, like any
      file that cannot be opened. */
  function CachedHoldingsAsWritten(v: CacheView): Result<Cached, string>
  {
    match v
    case NoUserCacheDir(reason) => Err(reason)
    case DirMissing => Ok(Cached([], ZeroTime))
    case NotADir(root) => Err("expected " + JoinPath(root, "cmrfetch") + " to be a dir")
    case FileMissing(reason) => Err(reason)
    case OpenFails(reason) => Err(reason)
    case StatFails(reason) => Err(reason)
    case CacheFile(mtime, decoded) => if decoded.Err? then Err(decoded.error) else Ok(Cached(decoded.value, mtime))
  }

  /** A cache directory without a cache file makes the lookup fail, so holdings are
      never downloaded to fill it. */
  lemma MissingFileIsAnError(reason: string)
    ensures CachedHoldingsAsWritten(FileMissing(reason)).Err?
    ensures CachedHoldingsAsWritten(DirMissing).Ok?
  {
  }

  /** `getCachedProviderHoldings` as evidently intended: a missing cache file, like a
      missing cache directory, is an empty cache. */
  function CachedHoldings(v: CacheView): (r: Result<Cached, string>)
    ensures v.DirMissing? || v.FileMissing? ==> r == Ok(Cached([], ZeroTime))
    ensures !v.FileMissing? ==> r == CachedHoldingsAsWritten(v)
  {
    match v
    case FileMissing(_) => Ok(Cached([], ZeroTime))
    case _ => CachedHoldingsAsWritten(v)
  }

  /** The cache is used only when it holds providers and is younger than 30 days. */
  predicate CacheFresh(c: Cached, now: Instant)
  {
    |c.providers| > 0 && now - c.mtime < CacheMaxAge
  }

  /** Neither a missing directory nor a missing file gives a cache that is used. */
  lemma EmptyCacheNeverFresh(v: CacheView, now: Instant)
    requires v.DirMissing? || v.FileMissing?
    ensures CachedHoldings(v).Ok? && !CacheFresh(CachedHoldings(v).value, now)
  {
  }

  /** `GetProviderHoldings`: a failed cache lookup is the error, before any download. A
      fresh cache is the answer. Otherwise the holdings are downloaded: a failed request
      or a document that does not decode is the error, and the grouped providers are
      written to the cache, ignoring any failure to write, and returned. `fetched` says
      whether a download was made, `written` what was written to the cache. */
  method GetProviderHoldings(v: CacheView, now: Instant, getErr: Option<string>, body: Result<seq<HoldingEntry>, string>)
    returns (r: Result<seq<Provider>, string>, fetched: bool, written: Option<seq<Provider>>)
    ensures CachedHoldings(v).Err? ==>
      r == Err("loading cached holdings: " + CachedHoldings(v).error) && !fetched && written.None?
    ensures CachedHoldings(v).Ok? && CacheFresh(CachedHoldings(v).value, now) ==>
      r == Ok(CachedHoldings(v).value.providers) && !fetched && written.None?
    ensures CachedHoldings(v).Ok? && !CacheFresh(CachedHoldings(v).value, now) ==>
      && fetched
      && (getErr.Some? ==> r == Err(getErr.value) && written.None?)
      && (getErr.None? && body.Err? ==> r == Err(body.error) && written.None?)
      && (getErr.None? && body.Ok? ==> r.Ok? && IsHoldingsOf(r.value, body.value) && written == Some(r.value))
  {
    fetched, written := false, None;
    var cached := CachedHoldings(v);
    if cached.Err? {
      return Err("loading cached holdings: " + cached.error), fetched, written;
    }
    if |cached.value.providers| > 0 && now - cached.value.mtime < CacheMaxAge {
      return Ok(cached.value.providers), fetched, written;
    }
    fetched := true;
    if getErr.Some? {
      return Err(getErr.value), fetched, written;
    }
    r := ReadHoldings(body);
    if r.Err? {
      return r, fetched, written;
    }
    written := Some(r.value);
  }
}
