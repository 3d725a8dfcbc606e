/** cmd/granules/download.go and cmd/granules/cmd.go: the checks the `granules` command
    makes on its arguments, the search parameters it builds from them, and the download
    requests it makes from the granules found. */
module GranulesCmd {
  import opened Common
  import Umm
  import CmrGranules
  import Checksums
  import HttpFetch
  import FetchPool

  // ---------------------------------------------------------------------------------------
  // zultsToRequests

  const MaxResultsWithoutPrompt := 1000

  /** The request for one granule: its file in `destdir` under the granule's name, its
      download URL, and its checksum and algorithm. */
  function RequestFor(g: CmrGranules.Granule, destdir: string): FetchPool.DownloadRequest
  {
    FetchPool.DownloadRequest(g.getDataUrl, g.checksumAlg, g.checksum, JoinPath(destdir, g.name))
  }

  /** Whether the request for a granule is sent: always with `clobber`, otherwise only when
      nothing exists at its destination (`existing` holds the paths that exist). */
  predicate Sent(g: CmrGranules.Granule, destdir: string, clobber: bool, existing: set<string>)
  {
    clobber || RequestFor(g, destdir).dest !in existing
  }

  /** The requests sent for `gs`, in granule order. */
  function Kept(gs: seq<CmrGranules.Granule>, destdir: string, clobber: bool, existing: set<string>): (r: seq<FetchPool.DownloadRequest>)
    ensures |r| <= |gs|
  {
    if gs == [] then []
    else
      var last := gs[|gs| - 1];
      Kept(gs[..|gs| - 1], destdir, clobber, existing)
        + (if Sent(last, destdir, clobber, existing) then [RequestFor(last, destdir)] else [])
  }

  /** `zultsToRequests`: each granule in turn becomes its request, which is dropped when
      its destination exists and `clobber` is off. */
  method ZultsToRequests(granules: seq<CmrGranules.Granule>, destdir: string, clobber: bool, existing: set<string>)
    returns (requests: seq<FetchPool.DownloadRequest>)
    ensures requests == Kept(granules, destdir, clobber, existing)
  {
    requests := [];
    for i := 0 to |granules|
      invariant requests == Kept(granules[..i], destdir, clobber, existing)
    {
      assert granules[..i + 1][..i] == granules[..i];
      var gran := granules[i];
      var request := FetchPool.DownloadRequest(gran.getDataUrl, gran.checksumAlg, gran.checksum, JoinPath(destdir, gran.name));
      if !clobber && request.dest in existing {
        continue;
      }
      requests := requests + [request];
    }
    assert granules[..|granules|] == granules;
  }

  /** With `clobber` every granule has its request, at its own position. */
  lemma {:induction false} ClobberKeepsAll(gs: seq<CmrGranules.Granule>, destdir: string, existing: set<string>)
    ensures |Kept(gs, destdir, true, existing)| == |gs|
    ensures forall i | 0 <= i < |gs| :: Kept(gs, destdir, true, existing)[i] == RequestFor(gs[i], destdir)
  {
    if gs != [] {
      ClobberKeepsAll(gs[..|gs| - 1], destdir, existing);
    }
  }

  /** Each request sent is the request of a granule that is sent, and requests come in the
      order of their granules: the `k`-th request comes from a granule at position `k` or
      later. */
  lemma {:induction false} KeptOrigin(gs: seq<CmrGranules.Granule>, destdir: string, clobber: bool, existing: set<string>, k: nat)
    returns (i: nat)
    requires k < |Kept(gs, destdir, clobber, existing)|
    ensures k <= i < |gs| && Sent(gs[i], destdir, clobber, existing)
    ensures Kept(gs, destdir, clobber, existing)[k] == RequestFor(gs[i], destdir)
  {
    var init := gs[..|gs| - 1];
    if k < |Kept(init, destdir, clobber, existing)| {
      i := KeptOrigin(init, destdir, clobber, existing, k);
    } else {
      i := |gs| - 1;
    }
  }

  /** Every granule that is sent has its request among those sent. */
  lemma {:induction false} KeptPresent(gs: seq<CmrGranules.Granule>, destdir: string, clobber: bool, existing: set<string>, i: nat)
    requires i < |gs| && Sent(gs[i], destdir, clobber, existing)
    ensures RequestFor(gs[i], destdir) in Kept(gs, destdir, clobber, existing)
  {
    var init := gs[..|gs| - 1];
    if i < |gs| - 1 {
      assert init[i] == gs[i];
      KeptPresent(init, destdir, clobber, existing, i);
    }
  }

  /** Without `clobber` no request is sent for a destination that exists. */
  lemma NoClobberSkipsExisting(gs: seq<CmrGranules.Granule>, destdir: string, existing: set<string>, k: nat)
    requires k < |Kept(gs, destdir, false, existing)|
    ensures Kept(gs, destdir, false, existing)[k].dest !in existing
  {
    var i := KeptOrigin(gs, destdir, false, existing, k);
  }

  /** The destination of a request is named after its granule, whatever the URL. */
  lemma DestIsGranuleName(g: CmrGranules.Granule, destdir: string)
    requires PlainName(g.name)
    ensures SplitPath(RequestFor(g, destdir).dest).1 == g.name
  {
    JoinPlainName(destdir, g.name);
  }

  /** With `--download .` the destination is the bare granule name: its directory part is
      empty, so the temporary file goes to the system temporary directory. */
  lemma DotDirTempsInTempDir(g: CmrGranules.Granule, env: FetchPool.DiskEnv)
    requires PlainName(g.name)
    ensures RequestFor(g, ".").dest == g.name
    ensures FetchPool.TempDirFor(env, SplitPath(RequestFor(g, ".").dest).0) == env.tempDir
  {
    JoinDotIsBare(g.name);
  }

  /** With an absolute download directory the destination keeps a directory part, and the
      temporary file is created there, next to the destination. */
  lemma AbsoluteDirKeepsTempsBeside(g: CmrGranules.Granule, destdir: string, env: FetchPool.DiskEnv)
    requires PlainName(g.name) && destdir != "" && destdir[0] == '/'
    ensures SplitPath(RequestFor(g, destdir).dest).0 != ""
    ensures FetchPool.TempDirFor(env, SplitPath(RequestFor(g, destdir).dest).0) == SplitPath(RequestFor(g, destdir).dest).0
  {
    var prefix := JoinedShape(destdir, g.name);
    JoinPlainName(destdir, g.name);
  }

  // ---------------------------------------------------------------------------------------
  // doDownload

  /** What the file system holds at the download directory: nothing, or an entry with
      its permission bits. */
  datatype DirState = Missing | Present(isDir: bool, mode: bv32)

  /** `CanWrite`: both the owner's write and execute bits are set. */
  predicate CanWrite(mode: bv32)
  {
    mode & 0xC0 == 0xC0
  }

  /** `doDownload`: a search error is returned; the user is asked to confirm when `yes` is
      off and there are more than 1000 hits; an existing download directory must be a
      directory the owner can write to and search, and a missing one is created (`mkdirErr`
      is how that went). Then the requests for the granules found go to the download pool,
      whose start-up failure is the error "init fetcher: ..."; once the workers run the
      result is no error, whatever happens to each download. `existing` is what exists
      when the requests are made; `exs` are the exchanges the requests meet, in order. */
  method DoDownload(searchErr: Option<string>, hits: int, granules: seq<CmrGranules.Granule>, yes: bool, clobber: bool,
                    destdir: string, dir: DirState, mkdirErr: Option<string>, existing: set<string>,
                    fs: FetchPool.FileSystem, exs: seq<HttpFetch.Exchange>, digest: Checksums.DigestFn,
                    concurrency: int, answers: seq<Option<string>>)
    returns (err: Option<string>, prompted: bool, created: bool, started: bool,
             requests: seq<FetchPool.DownloadRequest>, results: seq<FetchPool.DownloadResult>, ghost temps: seq<string>)
    requires fs.Valid()
    requires |exs| == |Kept(granules, destdir, clobber, existing)|
    requires forall i :: 0 <= i < |exs| && exs[i].Answered? ==> HttpFetch.WithinReadSize(exs[i].resp.chunks)
    modifies fs
    ensures fs.Valid()
    ensures searchErr.Some? ==> err == searchErr && !prompted && !created && !started
    ensures searchErr.None? ==> prompted == (!yes && hits > MaxResultsWithoutPrompt)
    ensures searchErr.None? && dir.Present? && !dir.isDir ==>
      err == Some("download dir " + destdir + " exists but is not a directory") && !started
    ensures searchErr.None? && dir.Present? && dir.isDir && !CanWrite(dir.mode) ==>
      err == Some("download dir " + destdir + " exists but is not writable") && !started
    ensures searchErr.None? && dir.Missing? ==> created == mkdirErr.None?
    ensures searchErr.None? && dir.Missing? && mkdirErr.Some? ==>
      err == Some("making download dir: " + mkdirErr.value) && !started
    ensures created ==> dir.Missing?
    ensures started <==> searchErr.None? && (if dir.Missing? then mkdirErr.None? else dir.isDir && CanWrite(dir.mode))
    ensures started ==> requests == Kept(granules, destdir, clobber, existing)
    ensures var failure := FetchPool.FirstFactoryFailure(answers, concurrency);
      started && failure.Some? ==> err == Some("init fetcher: failed to init fetcher: " + failure.value.1)
    ensures started && FetchPool.FirstFactoryFailure(answers, concurrency).None? ==> err.None?
    ensures !started || err.Some? || concurrency <= 0 ==>
      results == [] && fs.files == old(fs.files) && fs.modes == old(fs.modes)
    ensures started && err.None? && concurrency > 0 ==> |temps| == |requests|
    ensures started && err.None? && concurrency > 0 ==>
      FetchPool.DownloadAll(fs.env, old(fs.files), old(fs.modes), requests, exs, digest, temps)
        == FetchPool.Run(results, fs.files, fs.modes)
  {
    prompted, created, started, requests, results, temps := false, false, false, [], [], [];
    if searchErr.Some? {
      return searchErr, prompted, created, started, requests, results, temps;
    }
    if !yes && hits > MaxResultsWithoutPrompt {
      prompted := true;
    }
    match dir {
      case Present(isDir, mode) =>
        if !isDir {
          err := Some("download dir " + destdir + " exists but is not a directory");
          return err, prompted, created, started, requests, results, temps;
        }
        if !CanWrite(mode) {
          err := Some("download dir " + destdir + " exists but is not writable");
          return err, prompted, created, started, requests, results, temps;
        }
      case Missing =>
        if mkdirErr.Some? {
          err := Some("making download dir: " + mkdirErr.value);
          return err, prompted, created, started, requests, results, temps;
        }
        created := true;
    }
    started := true;
    err, requests, results, temps := StartDownloads(granules, destdir, clobber, existing, fs, exs, digest, concurrency, answers);
  }

  /** The pool's start-up error, wrapped by `doDownload`, reads as one message. */
  lemma InitErrorText(cause: string)
    ensures "init fetcher: " + ("failed to init fetcher: " + cause) == "init fetcher: failed to init fetcher: " + cause
  {
    var a, b := "init fetcher: ", "failed to init fetcher: ";
    assert a + (b + cause) == (a + b) + cause;
  }

  /** The end of `doDownload` once the directory is ready: the requests for the granules
      go to the download pool, whose start-up failure is the error "init fetcher: ...". */
  method StartDownloads(granules: seq<CmrGranules.Granule>, destdir: string, clobber: bool, existing: set<string>,
                        fs: FetchPool.FileSystem, exs: seq<HttpFetch.Exchange>, digest: Checksums.DigestFn,
                        concurrency: int, answers: seq<Option<string>>)
    returns (err: Option<string>, requests: seq<FetchPool.DownloadRequest>, results: seq<FetchPool.DownloadResult>,
             ghost temps: seq<string>)
    requires fs.Valid()
    requires |exs| == |Kept(granules, destdir, clobber, existing)|
    requires forall i :: 0 <= i < |exs| && exs[i].Answered? ==> HttpFetch.WithinReadSize(exs[i].resp.chunks)
    modifies fs
    ensures fs.Valid()
    ensures requests == Kept(granules, destdir, clobber, existing)
    ensures var failure := FetchPool.FirstFactoryFailure(answers, concurrency);
      failure.Some? ==> err == Some("init fetcher: failed to init fetcher: " + failure.value.1)
    ensures FetchPool.FirstFactoryFailure(answers, concurrency).None? ==> err.None?
    ensures err.Some? || concurrency <= 0 ==>
      results == [] && fs.files == old(fs.files) && fs.modes == old(fs.modes)
    ensures err.None? && concurrency > 0 ==> |temps| == |requests|
    ensures err.None? && concurrency > 0 ==>
      FetchPool.DownloadAll(fs.env, old(fs.files), old(fs.modes), requests, exs, digest, temps)
        == FetchPool.Run(results, fs.files, fs.modes)
  {
    requests := ZultsToRequests(granules, destdir, clobber, existing);
    var poolErr, workers;
    results, poolErr, workers, temps := FetchPool.FetchConcurrent(fs, requests, exs, digest, concurrency, answers);
    if poolErr.Some? {
      InitErrorText(FetchPool.FirstFactoryFailure(answers, concurrency).value.1);
      return Some("init fetcher: " + poolErr.value), requests, results, temps;
    }
    err := None;
  }

  // ---------------------------------------------------------------------------------------
  // argument checks (cmd.go)

  /** `validFields`, which are also the default fields. */
  const ValidFields: seq<string> := [
    "name", "size", "checksum", "checksum_alg", "download_url", "native_id", "revision_id",
    "concept_id", "collection", "download_direct_url", "daynight", "timerange", "boundingbox"]

  const SelectorError := "at least one of --collection, --shortname, --nativeid, or --filename is required"
  const FilenameError := "--collection is required when using --filename"
  const DayNightError := "daynight must be one of day, night, both, or unspecified"
  const OutputError := "--output must be one of short, long, json, csv"

  /** `arrayContains`. */
  method ArrayContains<T(==)>(arr: seq<T>, val: T) returns (found: bool)
    ensures found <==> val in arr
  {
    for i := 0 to |arr|
      invariant val !in arr[..i]
    {
      if arr[i] == val {
        return true;
      }
    }
    assert arr[..|arr|] == arr;
    return false;
  }

  /** The command's flags: a list flag is None when it was not given. Geometry values are
      already rendered as text. */
  datatype GranuleArgs = GranuleArgs(
    collection: Option<seq<string>>,
    nativeid: Option<seq<string>>,
    shortname: Option<seq<string>>,
    filename: Option<seq<string>>,
    daynight: Option<string>,
    timerange: Option<Umm.TimeRange>,
    polygon: seq<string>,
    boundingBox: seq<string>,
    circle: seq<string>,
    point: seq<string>,
    fields: seq<string>,
    output: string,
    download: string)

  /** The first requested field that is not a valid field name. */
  function FirstInvalidField(fields: seq<string>): (r: Option<string>)
    ensures r.None? <==> forall i | 0 <= i < |fields| :: fields[i] in ValidFields
    ensures r.Some? ==> r.value in fields && r.value !in ValidFields
    ensures r.Some? ==> exists k | 0 <= k < |fields| ::
      fields[k] == r.value && forall i | 0 <= i < k :: fields[i] in ValidFields
  {
    if fields == [] then None
    else if fields[0] !in ValidFields then Some(fields[0])
    else
      var rest := FirstInvalidField(fields[1..]);
      assert forall i | 1 <= i < |fields| :: fields[i] == fields[1..][i - 1];
      if rest.Some? then
        var k :| 0 <= k < |fields[1..]| && fields[1..][k] == rest.value
          && forall i | 0 <= i < k :: fields[1..][i] in ValidFields;
        assert fields[k + 1] == rest.value && forall i | 0 <= i < k + 1 :: fields[i] in ValidFields;
        rest
      else rest
  }

  /** The field check of the command: the first invalid name is reported. */
  method CheckFields(fields: seq<string>) returns (err: Option<string>)
    ensures err.None? <==> FirstInvalidField(fields).None?
    ensures err.Some? ==> err.value == FirstInvalidField(fields).value + " is not a valid field name"
  {
    for i := 0 to |fields|
      invariant FirstInvalidField(fields) == FirstInvalidField(fields[i..])
    {
      var ok := ArrayContains(ValidFields, fields[i]);
      if !ok {
        return Some(fields[i] + " is not a valid field name");
      }
      assert fields[i..][1..] == fields[i + 1..];
    }
    return None;
  }

  /** The pattern `^(day|night|both|unspecified)$`: the whole text is one of the four. */
  predicate DayNightValid(st: string)
  {
    st == "day" || st == "night" || st == "both" || st == "unspecified"
  }

  /** The output writers. */
  datatype Writer = ShortWriter | TablesWriter | JsonWriter | CsvWriter

  /** The writer an `--output` value names. */
  function WriterFor(name: string): (w: Option<Writer>)
    ensures w.Some? <==> name in ["short", "long", "json", "csv"]
  {
    if name == "short" then Some(ShortWriter)
    else if name == "long" then Some(TablesWriter)
    else if name == "json" then Some(JsonWriter)
    else if name == "csv" then Some(CsvWriter)
    else None
  }

  /** The search parameters the flags give. */
  function ParamsOf(a: GranuleArgs): CmrGranules.GranuleParams
  {
    CmrGranules.GranuleParams(
      if a.daynight.Some? then a.daynight.value else "",
      a.shortname,
      if a.filename.Some? then a.filename.value else [],
      if a.collection.Some? then a.collection.value else [],
      if a.nativeid.Some? then a.nativeid.value else [],
      a.boundingBox, a.point, a.circle, a.polygon,
      [],
      if a.timerange.Some? then Some(a.timerange.value.start) else None,
      if a.timerange.Some? then a.timerange.value.end else None)
  }

  /** `newParams`: a day/night value outside the four is refused before anything is set;
      otherwise each flag given is passed to its setter, and the geometry always is. */
  method NewParams(a: GranuleArgs) returns (params: CmrGranules.SearchGranuleParams, err: Option<string>)
    ensures fresh(params)
    ensures err.Some? <==> a.daynight.Some? && !DayNightValid(a.daynight.value)
    ensures err.Some? ==> err.value == DayNightError
    ensures err.Some? ==> params.Params() == CmrGranules.GranuleParams("", None, [], [], [], [], [], [], [], [], None, None)
    ensures err.None? ==> params.Params() == ParamsOf(a)
  {
    params := new CmrGranules.SearchGranuleParams();
    ghost var none, want := params.Params(), ParamsOf(a);
    if a.daynight.Some? {
      if !DayNightValid(a.daynight.value) {
        return params, Some(DayNightError);
      }
      params.DayNightFlag(a.daynight.value);
    }
    assert params.Params() == none.(daynight := want.daynight);
    if a.collection.Some? {
      params.Collections(a.collection.value);
    }
    assert params.Params() == none.(daynight := want.daynight, collectionIds := want.collectionIds);
    if a.nativeid.Some? {
      params.NativeIds(a.nativeid.value);
    }
    assert params.Params() == none.(daynight := want.daynight, collectionIds := want.collectionIds,
                                    nativeIds := want.nativeIds);
    if a.shortname.Some? {
      params.ShortNames(a.shortname);
    }
    assert params.Params() == none.(daynight := want.daynight, collectionIds := want.collectionIds,
                                    nativeIds := want.nativeIds, shortnames := want.shortnames);
    if a.filename.Some? {
      params.Filenames(a.filename.value);
    }
    assert params.Params() == none.(daynight := want.daynight, collectionIds := want.collectionIds,
                                    nativeIds := want.nativeIds, shortnames := want.shortnames,
                                    filenames := want.filenames);
    if a.timerange.Some? {
      params.Timerange(a.timerange.value.start, a.timerange.value.end);
    }
    params.Polygon(a.polygon);
    params.BoundingBox(a.boundingBox);
    params.Circle(a.circle);
    params.Point(a.point);
    err := None;
  }

  /** The error the command's checks give, in the order it makes them: no selector flag,
      an invalid field name, a file name without a collection, a bad day/night value, and
      (when not downloading) an unknown output format. */
  function ArgsError(a: GranuleArgs): (r: Option<string>)
    ensures r.None? <==>
      && (a.collection.Some? || a.nativeid.Some? || a.shortname.Some? || a.filename.Some?)
      && (forall i | 0 <= i < |a.fields| :: a.fields[i] in ValidFields)
      && (a.filename.Some? ==> a.collection.Some?)
      && (a.daynight.Some? ==> a.daynight.value in ["day", "night", "both", "unspecified"])
      && (a.download == "" ==> a.output in ["short", "long", "json", "csv"])
    ensures a.collection.None? && a.nativeid.None? && a.shortname.None? && a.filename.None? ==> r == Some(SelectorError)
  {
    if a.collection.None? && a.nativeid.None? && a.shortname.None? && a.filename.None? then Some(SelectorError)
    else if FirstInvalidField(a.fields).Some? then Some(FirstInvalidField(a.fields).value + " is not a valid field name")
    else if a.filename.Some? && a.collection.None? then Some(FilenameError)
    else if a.daynight.Some? && !DayNightValid(a.daynight.value) then Some(DayNightError)
    else if a.download == "" && WriterFor(a.output).None? then Some(OutputError)
    else None
  }

  /** The checks of the command's `RunE`, of `newParams` and, when not downloading, of
      `do`: the first that fails is the error; otherwise the parameters the search gets. */
  method CheckArgs(a: GranuleArgs) returns (err: Option<string>, params: CmrGranules.GranuleParams)
    ensures err == ArgsError(a)
    ensures err.None? ==> params == ParamsOf(a)
  {
    params := CmrGranules.GranuleParams("", None, [], [], [], [], [], [], [], [], None, None);
    if a.collection.None? && a.nativeid.None? && a.shortname.None? && a.filename.None? {
      return Some(SelectorError), params;
    }
    err := CheckFields(a.fields);
    if err.Some? {
      return err, params;
    }
    if a.filename.Some? && a.collection.None? {
      return Some(FilenameError), params;
    }
    var p, perr := NewParams(a);
    if perr.Some? {
      return perr, params;
    }
    params := p.Params();
    if a.download == "" && WriterFor(a.output).None? {
      return Some(OutputError), params;
    }
    err := None;
  }
}
