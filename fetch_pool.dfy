/** internal/fetch_pool.go: the download workers. Each request is fetched into a hidden
    temporary file beside its destination, checked against its expected checksum, and
    only then renamed onto the destination. */
module FetchPool {
  import opened Common
  import opened Checksums
  import opened FetchSupport
  import opened HttpFetch

  /** `DownloadRequest`. */
  datatype DownloadRequest = DownloadRequest(url: string, checksumAlg: string, checksum: string, dest: string)

  /** Why one request failed. */
  datatype Failure =
    | CreateTempFailed(pattern: string, osErr: string)
    | BadAlgorithm(msg: string)
    | Fetching(failure: FetchFailure)
    | ChecksumMismatch(got: string, expected: string)
    | RenameFailed(temp: string, dest: string, osErr: string)
    | ChmodFailed(dest: string, osErr: string)

  function FailureMessage(f: Failure): string
  {
    match f
    case CreateTempFailed(p, e) => "creating dest: createtemp " + p + ": " + e
    case BadAlgorithm(m) => m
    case Fetching(x) => FetchFailureMessage(x)
    case ChecksumMismatch(got, want) => "got checksum " + got + ", expected " + want
    case RenameFailed(t, d, e) => "failed to rename " + t + " to " + d + ": rename " + t + " " + d + ": " + e
    case ChmodFailed(d, e) => "failed to update permissions on " + d + ": chmod " + d + ": " + e
  }

  /** `FetchError`: the failed request and the reason. */
  datatype FetchError = FetchError(request: DownloadRequest, err: Failure)

  /** `FetchError.Error`. */
  function FetchErrorMessage(e: FetchError): (msg: string)
    ensures "fetching: " <= msg
  {
    "fetching: " + FailureMessage(e.err)
  }

  /** `DownloadResult`, without the elapsed time. */
  datatype DownloadResult = DownloadResult(url: string, path: string, checksum: string, size: int, err: Option<FetchError>)

  /** The permissions `os.CreateTemp` gives a new file, and the ones set on a download. */
  const TempMode := 0x180
  const DownloadMode := 0x1a4

  /** What the operating system decides on its own: the directory for temporary files,
      the directories in which files can be created (spelled as `filepath.Split` leaves
      them), the room for one new file, and the destinations on which rename and chmod
      fail, with the error each reports. */
  datatype DiskEnv = DiskEnv(tempDir: string, dirs: set<string>, room: nat,
                             renameFails: map<string, string>, chmodFails: map<string, string>)

  /** The directory `os.CreateTemp` uses for a destination directory. */
  function TempDirFor(env: DiskEnv, destdir: string): string
  {
    if destdir == "" then env.tempDir else destdir
  }

  /** The name `os.CreateTemp(dir, "." + fname + ".*")` builds before its random part. */
  function TempPrefix(dir: string, fname: string): string
  {
    (if |dir| > 0 && dir[|dir| - 1] == '/' then dir else dir + "/") + "." + fname + "."
  }

  predicate AllDigits(s: string)
  {
    forall i :: 0 <= i < |s| ==> IsDigit(s[i])
  }

  /** `tmp` is a name `os.CreateTemp` may pick: the prefix then a decimal number. */
  predicate IsTempName(tmp: string, dir: string, fname: string)
  {
    var p := TempPrefix(dir, fname);
    |tmp| > |p| && tmp[..|p|] == p && AllDigits(tmp[|p|..])
  }

  /** A temporary name in a destination directory `destdir` splits back into `destdir`
      and a name longer than the destination's. */
  lemma TempNameInDir(destdir: string, fname: string, tmp: string)
    requires destdir != "" && destdir[|destdir| - 1] == '/' && '/' !in fname
    requires IsTempName(tmp, destdir, fname)
    ensures SplitPath(tmp).0 == destdir
    ensures |tmp| > |destdir + fname|
  {
    var p := TempPrefix(destdir, fname);
    assert p == destdir + "." + fname + ".";
    var name := tmp[|destdir|..];
    assert tmp == destdir + name;
    assert name == "." + fname + "." + tmp[|p|..];
    assert '/' !in name by {
      forall i | 0 <= i < |name|
        ensures name[i] != '/'
      {
        if i >= |fname| + 2 {
          assert name[i] == tmp[|p|..][i - |fname| - 2];
        }
      }
    }
    LastIndexAfter(destdir, name, '/');
  }

  /** A temporary name in a non-empty directory holds a '/'. */
  lemma TempNameHasSlash(dir: string, fname: string, tmp: string)
    requires dir != ""
    requires IsTempName(tmp, dir, fname)
    ensures '/' in tmp
  {
    var p := TempPrefix(dir, fname);
    var slash := if dir[|dir| - 1] == '/' then |dir| - 1 else |dir|;
    assert p[slash] == '/';
    assert tmp[slash] == p[slash];
  }

  /** The temporary file for a destination lives in the destination's directory (or the
      temporary directory when the destination has none) and can never be the
      destination itself. */
  lemma TempNameNotDest(env: DiskEnv, dest: string, tmp: string)
    requires env.tempDir != ""
    requires IsTempName(tmp, TempDirFor(env, SplitPath(dest).0), SplitPath(dest).1)
    ensures tmp != dest
    ensures SplitPath(dest).0 != "" ==> SplitPath(tmp).0 == SplitPath(dest).0
  {
    var (destdir, fname) := SplitPath(dest);
    if destdir != "" {
      TempNameInDir(destdir, fname, tmp);
    } else {
      TempNameHasSlash(env.tempDir, fname, tmp);
    }
  }

  /** A finite set of names never holds every name of some length. */
  ghost function MaxLen(names: set<string>): (m: nat)
    ensures forall x :: x in names ==> |x| <= m
    decreases names
  {
    if names == {} then 0
    else
      var x :| x in names;
      var m := MaxLen(names - {x});
      if |x| > m then |x| else m
  }

  /** There is always a number that makes a fresh temporary name. */
  lemma FreshSuffixExists(prefix: string, names: set<string>)
    ensures exists s :: |s| >= 1 && AllDigits(s) && prefix + s !in names
  {
    var s := seq(MaxLen(names) + 1, _ => '0');
    assert |prefix + s| > MaxLen(names);
    assert AllDigits(s);
  }

  /** The file system the workers use: file contents and permissions by path. */
  class FileSystem {
    var files: map<string, seq<byte>>
    var modes: map<string, int>
    const env: DiskEnv

    ghost predicate Valid()
      reads this
    {
      env.tempDir != "" && files.Keys == modes.Keys
    }

    constructor (env: DiskEnv, files: map<string, seq<byte>>, modes: map<string, int>)
      requires env.tempDir != "" && files.Keys == modes.Keys
      ensures Valid() && this.env == env && this.files == files && this.modes == modes
    {
      this.env := env;
      this.files := files;
      this.modes := modes;
    }

    /** `os.CreateTemp(dir, "." + fname + ".*")`: a new empty file under a name no file
        has, or nothing when the directory does not take new files. */
    method CreateTemp(dir: string, fname: string) returns (tmp: string, f: File?)
      requires Valid()
      modifies this
      ensures Valid()
      ensures TempDirFor(env, dir) !in env.dirs ==> f == null && files == old(files) && modes == old(modes)
      ensures TempDirFor(env, dir) !in env.dirs ==> tmp == TempPrefix(TempDirFor(env, dir), fname) + "*"
      ensures TempDirFor(env, dir) in env.dirs ==>
        && f != null && fresh(f) && f.content == [] && f.room == env.room
        && IsTempName(tmp, TempDirFor(env, dir), fname) && tmp !in old(files)
        && files == old(files)[tmp := []] && modes == old(modes)[tmp := TempMode]
    {
      var d := TempDirFor(env, dir);
      var prefix := TempPrefix(d, fname);
      if d !in env.dirs {
        return prefix + "*", null;
      }
      FreshSuffixExists(prefix, files.Keys);
      var suffix :| |suffix| >= 1 && AllDigits(suffix) && prefix + suffix !in files.Keys;
      tmp := prefix + suffix;
      assert tmp[..|prefix|] == prefix && tmp[|prefix|..] == suffix;
      f := new File(env.room);
      files := files[tmp := []];
      modes := modes[tmp := TempMode];
    }

    /** Closing the file: what was written to it is what the path holds. */
    method Close(tmp: string, f: File)
      requires Valid() && tmp in files
      modifies this
      ensures Valid()
      ensures files == old(files)[tmp := f.content] && modes == old(modes)
    {
      files := files[tmp := f.content];
    }

    /** `os.Remove`, whose error the workers ignore. */
    method Remove(p: string)
      requires Valid()
      modifies this
      ensures Valid()
      ensures files == old(files) - {p} && modes == old(modes) - {p}
    {
      files := files - {p};
      modes := modes - {p};
    }

    /** `os.Rename`. */
    method Rename(src: string, dst: string) returns (err: Option<string>)
      requires Valid() && src in files
      modifies this
      ensures Valid()
      ensures dst in env.renameFails ==> err == Some(env.renameFails[dst]) && files == old(files) && modes == old(modes)
      ensures dst !in env.renameFails ==> err.None?
      ensures dst !in env.renameFails ==> files == (old(files) - {src})[dst := old(files)[src]]
      ensures dst !in env.renameFails ==> modes == (old(modes) - {src})[dst := old(modes)[src]]
    {
      if dst in env.renameFails {
        return Some(env.renameFails[dst]);
      }
      var content, mode := files[src], modes[src];
      files := (files - {src})[dst := content];
      modes := (modes - {src})[dst := mode];
      return None;
    }

    /** `os.Chmod`. */
    method Chmod(p: string, mode: int) returns (err: Option<string>)
      requires Valid() && p in files
      modifies this
      ensures Valid()
      ensures files == old(files)
      ensures p in env.chmodFails ==> err == Some(env.chmodFails[p]) && modes == old(modes)
      ensures p !in env.chmodFails ==> err.None? && modes == old(modes)[p := mode]
    {
      if p in env.chmodFails {
        return Some(env.chmodFails[p]);
      }
      modes := modes[p := mode];
      return None;
    }
  }

  /** The file system and result after one request. */
  datatype Step = Step(result: DownloadResult, files: map<string, seq<byte>>, modes: map<string, int>)

  function Failed(req: DownloadRequest, files: map<string, seq<byte>>, modes: map<string, int>,
                  f: Failure, sum: string, size: int): Step
  {
    Step(DownloadResult(req.url, req.dest, sum, size, Some(FetchError(req, f))), files, modes)
  }

  /** The hash a request asks for, when its algorithm name is accepted. */
  function RequestHash(req: DownloadRequest): Option<HashAlg>
  {
    if req.checksumAlg == "" then None
    else match NewHash(req.checksumAlg)
      case Ok(h) => Some(h)
      case Err(_) => None
  }

  /** The checksum a writer with hash `h` reports for `data`. */
  function SumOf(h: Option<HashAlg>, digest: DigestFn, data: seq<byte>): string
  {
    if h.None? then "" else HexEncode(digest(h.value, data))
  }

  /** After a complete fetch of `data`: compare the checksum, rename, set permissions. */
  function CommitStep(env: DiskEnv, files: map<string, seq<byte>>, modes: map<string, int>,
                      req: DownloadRequest, data: seq<byte>, sum: string, tmp: string): Step
  {
    if sum != req.checksum then Failed(req, files, modes, ChecksumMismatch(sum, req.checksum), sum, |data|)
    else if req.dest in env.renameFails then
      Failed(req, files, modes, RenameFailed(tmp, req.dest, env.renameFails[req.dest]), sum, |data|)
    else if req.dest in env.chmodFails then
      Failed(req, files[req.dest := data], modes[req.dest := TempMode],
             ChmodFailed(req.dest, env.chmodFails[req.dest]), sum, |data|)
    else
      Step(DownloadResult(req.url, req.dest, sum, |data|, None),
           files[req.dest := data], modes[req.dest := DownloadMode])
  }

  /** Once the temporary file exists and the hash is chosen: fetch, then commit. */
  function FetchStep(env: DiskEnv, files: map<string, seq<byte>>, modes: map<string, int>,
                     req: DownloadRequest, h: Option<HashAlg>, ex: Exchange, digest: DigestFn, tmp: string): Step
  {
    if Admit(ex).Refused? then Failed(req, files, modes, Fetching(Admit(ex).failure), "", 0)
    else
      var c := CopySpec(ex.resp.chunks, env.room);
      if c.err.Some? then Failed(req, files, modes, Fetching(c.err.value), "", 0)
      else CommitStep(env, files, modes, req, c.stored, SumOf(h, digest, c.stored), tmp)
  }

  /** One request, from the file system `files`/`modes`, with the temporary file `tmp`
      (which only shows in a rename error): the checks in the workers' order. */
  function Outcome(env: DiskEnv, files: map<string, seq<byte>>, modes: map<string, int>,
                   req: DownloadRequest, ex: Exchange, digest: DigestFn, tmp: string): Step
  {
    var (destdir, fname) := SplitPath(req.dest);
    var dir := TempDirFor(env, destdir);
    if dir !in env.dirs then
      Failed(req, files, modes, CreateTempFailed(TempPrefix(dir, fname) + "*", "no such file or directory"), "", 0)
    else if req.checksumAlg != "" && NewHash(req.checksumAlg).Err? then
      Failed(req, files, modes, BadAlgorithm(NewHash(req.checksumAlg).error), "", 0)
    else FetchStep(env, files, modes, req, RequestHash(req), ex, digest, tmp)
  }

  /** The end of `downloader`'s body once the fetch succeeded: `tmp` holds the fetched
      bytes and is removed on every path. */
  method Commit(fs: FileSystem, tmp: string, req: DownloadRequest, r0: DownloadResult) returns (r: DownloadResult)
    requires fs.Valid() && tmp in fs.files && tmp != req.dest && fs.modes[tmp] == TempMode
    requires r0 == DownloadResult(req.url, req.dest, r0.checksum, |fs.files[tmp]|, None)
    modifies fs
    ensures fs.Valid()
    ensures CommitStep(fs.env, old(fs.files) - {tmp}, old(fs.modes) - {tmp}, req, old(fs.files)[tmp], r0.checksum, tmp)
      == Step(r, fs.files, fs.modes)
  {
    r := r0;
    if r.checksum != req.checksum {
      fs.Remove(tmp);
      r := r.(err := Some(FetchError(req, ChecksumMismatch(r.checksum, req.checksum))));
      return;
    }
    var renameErr := fs.Rename(tmp, req.dest);
    if renameErr.Some? {
      fs.Remove(tmp);
      r := r.(err := Some(FetchError(req, RenameFailed(tmp, req.dest, renameErr.value))));
      return;
    }
    ghost var files0, modes0 := old(fs.files) - {tmp}, old(fs.modes) - {tmp};
    assert fs.files == files0[req.dest := old(fs.files)[tmp]];
    var chmodErr := fs.Chmod(req.dest, DownloadMode);
    fs.Remove(tmp);
    assert fs.files == files0[req.dest := old(fs.files)[tmp]];
    if chmodErr.Some? {
      assert fs.modes == modes0[req.dest := TempMode];
      r := r.(err := Some(FetchError(req, ChmodFailed(req.dest, chmodErr.value))));
    } else {
      assert fs.modes == modes0[req.dest := DownloadMode];
    }
  }

  /** The fetch into the temporary file `tmp` opened as `f`, then the commit. */
  method FetchInto(fs: FileSystem, tmp: string, f: File, req: DownloadRequest, h: Option<HashAlg>,
                   ex: Exchange, digest: DigestFn) returns (r: DownloadResult)
    requires fs.Valid() && tmp in fs.files && tmp != req.dest && fs.modes[tmp] == TempMode
    requires f.content == [] && f.room == fs.env.room
    requires ex.Answered? ==> WithinReadSize(ex.resp.chunks)
    modifies fs, f
    ensures fs.Valid()
    ensures FetchStep(fs.env, old(fs.files) - {tmp}, old(fs.modes) - {tmp}, req, h, ex, digest, tmp)
      == Step(r, fs.files, fs.modes)
  {
    r := DownloadResult(req.url, req.dest, "", 0, None);
    ghost var files0, modes0 := old(fs.files) - {tmp}, old(fs.modes) - {tmp};
    var w := new WriterHasher(f, h);
    var _, fetchErr := Fetch(ex, w);
    if fetchErr.Some? {
      fs.Remove(tmp);
      assert fs.files == files0 && fs.modes == modes0;
      r := r.(err := Some(FetchError(req, Fetching(fetchErr.value))));
      return;
    }
    assert Admit(ex) == Admitted && ex.Answered?;
    ghost var c := CopySpec(ex.resp.chunks, fs.env.room);
    assert c.err.None? && w.written == c.stored && f.content == c.stored;
    assert w.Checksum(digest) == SumOf(h, digest, c.stored);
    fs.Close(tmp, f);
    r := r.(checksum := w.Checksum(digest), size := w.size);
    assert r.checksum == SumOf(h, digest, c.stored) && r.size == |c.stored|;
    assert fs.files - {tmp} == files0 && fs.modes - {tmp} == modes0;
    r := Commit(fs, tmp, req, r);
  }

  /** `downloader`'s body for one request. `tmp` names the temporary file it used. */
  method Download(fs: FileSystem, req: DownloadRequest, ex: Exchange, digest: DigestFn)
    returns (r: DownloadResult, ghost tmp: string)
    requires fs.Valid()
    requires ex.Answered? ==> WithinReadSize(ex.resp.chunks)
    modifies fs
    ensures fs.Valid()
    ensures Outcome(fs.env, old(fs.files), old(fs.modes), req, ex, digest, tmp) == Step(r, fs.files, fs.modes)
  {
    r := DownloadResult(req.url, req.dest, "", 0, None);
    var destdir, fname := SplitPath(req.dest).0, SplitPath(req.dest).1;
    var t, f := fs.CreateTemp(destdir, fname);
    tmp := t;
    if f == null {
      r := r.(err := Some(FetchError(req, CreateTempFailed(t, "no such file or directory"))));
      return;
    }
    TempNameNotDest(fs.env, req.dest, t);
    assert fs.files - {t} == old(fs.files) && fs.modes - {t} == old(fs.modes);
    var h: Option<HashAlg> := None;
    if req.checksumAlg != "" {
      var named := NewHash(req.checksumAlg);
      if named.Err? {
        fs.Remove(t);
        r := r.(err := Some(FetchError(req, BadAlgorithm(named.error))));
        return;
      }
      h := Some(named.value);
    }
    r := FetchInto(fs, t, f, req, h, ex, digest);
  }

  /** The results and file system after a worker has taken `reqs` in order; request `i`
      met exchange `exs[i]` and used temporary file `temps[i]`. */
  datatype Run = Run(results: seq<DownloadResult>, files: map<string, seq<byte>>, modes: map<string, int>)

  function DownloadAll(env: DiskEnv, files: map<string, seq<byte>>, modes: map<string, int>,
                       reqs: seq<DownloadRequest>, exs: seq<Exchange>, digest: DigestFn, temps: seq<string>): Run
    requires |exs| == |reqs| && |temps| == |reqs|
    decreases |reqs|
  {
    if reqs == [] then Run([], files, modes)
    else
      var n := |reqs| - 1;
      var before := DownloadAll(env, files, modes, reqs[..n], exs[..n], digest, temps[..n]);
      var s := Outcome(env, before.files, before.modes, reqs[n], exs[n], digest, temps[n]);
      Run(before.results + [s.result], s.files, s.modes)
  }

  /** Taking one more request extends the run by that request's outcome. */
  lemma DownloadAllStep(env: DiskEnv, files: map<string, seq<byte>>, modes: map<string, int>,
                        reqs: seq<DownloadRequest>, exs: seq<Exchange>, digest: DigestFn, temps: seq<string>, tmp: string)
    requires |exs| == |reqs| && |temps| < |reqs|
    ensures var i := |temps|;
      var before := DownloadAll(env, files, modes, reqs[..i], exs[..i], digest, temps);
      var s := Outcome(env, before.files, before.modes, reqs[i], exs[i], digest, tmp);
      DownloadAll(env, files, modes, reqs[..i + 1], exs[..i + 1], digest, temps + [tmp])
        == Run(before.results + [s.result], s.files, s.modes)
  {
    var i := |temps|;
    assert reqs[..i + 1][..i] == reqs[..i] && exs[..i + 1][..i] == exs[..i];
    assert (temps + [tmp])[..i] == temps;
  }

  /** `downloader`'s loop, with the requests taken one after another. */
  method Downloader(fs: FileSystem, reqs: seq<DownloadRequest>, exs: seq<Exchange>, digest: DigestFn)
    returns (results: seq<DownloadResult>, ghost temps: seq<string>)
    requires fs.Valid() && |exs| == |reqs|
    requires forall i :: 0 <= i < |exs| && exs[i].Answered? ==> WithinReadSize(exs[i].resp.chunks)
    modifies fs
    ensures fs.Valid() && |temps| == |reqs|
    ensures DownloadAll(fs.env, old(fs.files), old(fs.modes), reqs, exs, digest, temps) == Run(results, fs.files, fs.modes)
  {
    results, temps := [], [];
    var i := 0;
    while i < |reqs|
      invariant 0 <= i <= |reqs| && |temps| == i
      invariant fs.Valid()
      invariant DownloadAll(fs.env, old(fs.files), old(fs.modes), reqs[..i], exs[..i], digest, temps)
        == Run(results, fs.files, fs.modes)
    {
      var r, tmp := Download(fs, reqs[i], exs[i], digest);
      DownloadAllStep(fs.env, old(fs.files), old(fs.modes), reqs, exs, digest, temps, tmp);
      results, temps := results + [r], temps + [tmp];
      i := i + 1;
    }
    assert reqs[..i] == reqs && exs[..i] == exs;
  }

  /** The answer of the fetcher factory on its `i`th call. */
  function FactoryAnswer(answers: seq<Option<string>>, i: nat): Option<string>
  {
    if i < |answers| then answers[i] else None
  }

  /** The first failing call among the first `n`, with its error. */
  function FirstFactoryFailure(answers: seq<Option<string>>, n: int): (r: Option<(nat, string)>)
    ensures r.Some? ==> r.value.0 < n && FactoryAnswer(answers, r.value.0) == Some(r.value.1)
    ensures r.Some? ==> forall j :: 0 <= j < r.value.0 ==> FactoryAnswer(answers, j).None?
    ensures r.None? ==> forall j :: 0 <= j < n ==> FactoryAnswer(answers, j).None?
    decreases if n < 0 then 0 else n
  {
    if n <= 0 then None
    else match FirstFactoryFailure(answers, n - 1)
      case Some(f) => Some(f)
      case None =>
        if FactoryAnswer(answers, n - 1).Some? then Some((n - 1, FactoryAnswer(answers, n - 1).value)) else None
  }

  /** `FetchConcurrentWithContext`: `concurrency` fetchers are made, one per worker, and
      the first factory failure ends start-up with an error and no results. Otherwise
      the workers take every request, and `started` is the number of workers. */
  method FetchConcurrent(fs: FileSystem, reqs: seq<DownloadRequest>, exs: seq<Exchange>, digest: DigestFn,
                         concurrency: int, answers: seq<Option<string>>)
    returns (results: seq<DownloadResult>, err: Option<string>, started: nat, ghost temps: seq<string>)
    requires fs.Valid() && |exs| == |reqs|
    requires forall i :: 0 <= i < |exs| && exs[i].Answered? ==> WithinReadSize(exs[i].resp.chunks)
    modifies fs
    ensures fs.Valid()
    ensures var failure := FirstFactoryFailure(answers, concurrency);
      failure.Some? ==> err == Some("failed to init fetcher: " + failure.value.1) && started == failure.value.0
    ensures err.Some? || started == 0 ==> results == [] && fs.files == old(fs.files) && fs.modes == old(fs.modes)
    ensures FirstFactoryFailure(answers, concurrency).None? ==>
      err.None? && started == (if concurrency < 0 then 0 else concurrency)
    ensures err.None? && started > 0 ==> |temps| == |reqs|
    ensures err.None? && started > 0 ==>
      DownloadAll(fs.env, old(fs.files), old(fs.modes), reqs, exs, digest, temps) == Run(results, fs.files, fs.modes)
  {
    results, err, temps := [], None, [];
    started := 0;
    while started < concurrency
      invariant concurrency >= 0 ==> started <= concurrency
      invariant FirstFactoryFailure(answers, started).None?
      invariant concurrency < 0 ==> started == 0
      decreases concurrency - started
    {
      var answer := FactoryAnswer(answers, started);
      if answer.Some? {
        assert FirstFactoryFailure(answers, started + 1) == Some((started, answer.value));
        FirstFactoryFailureStable(answers, started + 1, concurrency);
        return [], Some("failed to init fetcher: " + answer.value), started, [];
      }
      started := started + 1;
    }
    if started > 0 {
      results, temps := Downloader(fs, reqs, exs, digest);
    }
  }

  /** A failure among the first `m` calls is the first failure among any more calls. */
  lemma {:induction false} FirstFactoryFailureStable(answers: seq<Option<string>>, m: int, n: int)
    requires m <= n && FirstFactoryFailure(answers, m).Some?
    ensures FirstFactoryFailure(answers, n) == FirstFactoryFailure(answers, m)
    decreases n - m
  {
    if m < n {
      FirstFactoryFailureStable(answers, m, n - 1);
    }
  }

  /** A request succeeds only when the response was 200 OK, the whole body fitted and
      ended in EOF, and the checksum of the body equals the expected one; then the
      destination holds the body with permissions 0644 and nothing else changed. */
  lemma OutcomeSuccess(env: DiskEnv, files: map<string, seq<byte>>, modes: map<string, int>,
                       req: DownloadRequest, ex: Exchange, digest: DigestFn, tmp: string)
    requires Outcome(env, files, modes, req, ex, digest, tmp).result.err.None?
    ensures ex.Answered? && ex.resp.statusCode == 200
    ensures |Received(ex.resp.chunks)| <= env.room && Ending(ex.resp.chunks) == EOF
    ensures var s := Outcome(env, files, modes, req, ex, digest, tmp);
      && s.result.checksum == req.checksum
      && s.result.checksum == SumOf(RequestHash(req), digest, Received(ex.resp.chunks))
      && s.result.size == |Received(ex.resp.chunks)|
      && s.files == files[req.dest := Received(ex.resp.chunks)]
      && s.modes == modes[req.dest := DownloadMode]
  {
    var s := Outcome(env, files, modes, req, ex, digest, tmp);
    var h := RequestHash(req);
    assert s == FetchStep(env, files, modes, req, h, ex, digest, tmp);
    AdmitOnlyOk(ex);
    var c := CopySpec(ex.resp.chunks, env.room);
    CopyDeliversBody(ex.resp.chunks, env.room);
    assert s == CommitStep(env, files, modes, req, c.stored, SumOf(h, digest, c.stored), tmp);
  }

  /** The result names the request's URL and destination, and a failure carries the
      request. */
  predicate NamesRequest(s: Step, req: DownloadRequest)
  {
    s.result.url == req.url && s.result.path == req.dest
    && (s.result.err.Some? ==> s.result.err.value.request == req)
  }

  /** The commit stage either leaves the file system alone or puts the fetched bytes at
      the destination, and only after their checksum matched and the rename went through. */
  lemma CommitStepShape(env: DiskEnv, files: map<string, seq<byte>>, modes: map<string, int>,
                        req: DownloadRequest, data: seq<byte>, sum: string, tmp: string)
    ensures NamesRequest(CommitStep(env, files, modes, req, data, sum, tmp), req)
    ensures var s := CommitStep(env, files, modes, req, data, sum, tmp);
      || (s.files == files && s.modes == modes)
      || (sum == req.checksum && req.dest !in env.renameFails && s.files == files[req.dest := data])
  {
  }

  /** The fetch stage, likewise, with the bytes being the body the server sent. */
  lemma FetchStepShape(env: DiskEnv, files: map<string, seq<byte>>, modes: map<string, int>,
                       req: DownloadRequest, h: Option<HashAlg>, ex: Exchange, digest: DigestFn, tmp: string)
    ensures NamesRequest(FetchStep(env, files, modes, req, h, ex, digest, tmp), req)
    ensures var s := FetchStep(env, files, modes, req, h, ex, digest, tmp);
      || (s.files == files && s.modes == modes)
      || (&& ex.Answered? && ex.resp.statusCode == 200
          && s.result.checksum == req.checksum
          && req.dest !in env.renameFails
          && s.files == files[req.dest := Received(ex.resp.chunks)])
  {
    AdmitOnlyOk(ex);
    if ex.Answered? && ex.resp.statusCode == 200 {
      var c := CopySpec(ex.resp.chunks, env.room);
      CopyDeliversBody(ex.resp.chunks, env.room);
      CommitStepShape(env, files, modes, req, c.stored, SumOf(h, digest, c.stored), tmp);
      if c.err.None? {
        CommitStepShape(env, files, modes, req, c.stored, SumOf(h, digest, c.stored), tmp);
      }
    }
  }

  /** Whatever happens, the result names the request's URL and destination, and a failure
      carries the request. */
  lemma OutcomeNamesRequest(env: DiskEnv, files: map<string, seq<byte>>, modes: map<string, int>,
                            req: DownloadRequest, ex: Exchange, digest: DigestFn, tmp: string)
    ensures NamesRequest(Outcome(env, files, modes, req, ex, digest, tmp), req)
  {
    FetchStepShape(env, files, modes, req, RequestHash(req), ex, digest, tmp);
  }

  /** The only path a request can change is its destination, which then holds the
      fetched bytes whose checksum matched: a fetch error, a checksum mismatch or a
      refused rename leave the file system exactly as it was. */
  lemma OutcomeTouchesOnlyVerifiedDest(env: DiskEnv, files: map<string, seq<byte>>, modes: map<string, int>,
                                       req: DownloadRequest, ex: Exchange, digest: DigestFn, tmp: string)
    ensures var s := Outcome(env, files, modes, req, ex, digest, tmp);
      || (s.files == files && s.modes == modes)
      || (&& ex.Answered? && ex.resp.statusCode == 200
          && s.result.checksum == req.checksum
          && req.dest !in env.renameFails
          && s.files == files[req.dest := Received(ex.resp.chunks)])
  {
    FetchStepShape(env, files, modes, req, RequestHash(req), ex, digest, tmp);
  }

  /** With no checksum algorithm the computed checksum is "", so a request that still
      expects a checksum always fails, and leaves the file system alone. */
  lemma NoAlgorithmNeedsNoChecksum(env: DiskEnv, files: map<string, seq<byte>>, modes: map<string, int>,
                                   req: DownloadRequest, ex: Exchange, digest: DigestFn, tmp: string)
    requires req.checksumAlg == "" && req.checksum != ""
    ensures var s := Outcome(env, files, modes, req, ex, digest, tmp);
      s.result.err.Some? && s.files == files && s.modes == modes
  {
    var dir := TempDirFor(env, SplitPath(req.dest).0);
    if dir in env.dirs {
      assert RequestHash(req) == None;
      assert Outcome(env, files, modes, req, ex, digest, tmp) == FetchStep(env, files, modes, req, None, ex, digest, tmp);
      if ex.Answered? && Admit(ex).Admitted? {
        var c := CopySpec(ex.resp.chunks, env.room);
        if c.err.None? {
          assert SumOf(None, digest, c.stored) == "";
        }
      }
    }
  }

  /** A checksum algorithm `newHash` does not know fails the request before anything is
      fetched: the outcome is the same whatever the server would have answered. */
  lemma BadAlgorithmBeforeFetch(env: DiskEnv, files: map<string, seq<byte>>, modes: map<string, int>,
                                req: DownloadRequest, ex1: Exchange, ex2: Exchange, digest: DigestFn, tmp: string)
    requires req.checksumAlg != "" && NewHash(req.checksumAlg).Err?
    ensures Outcome(env, files, modes, req, ex1, digest, tmp) == Outcome(env, files, modes, req, ex2, digest, tmp)
    ensures var s := Outcome(env, files, modes, req, ex1, digest, tmp);
      && s.result.err.Some? && s.files == files && s.modes == modes
      && (s.result.err.value.err.BadAlgorithm? || s.result.err.value.err.CreateTempFailed?)
  {
  }

  /** Every request yields exactly one result, in request order, carrying the request's
      URL and destination. */
  lemma {:induction false} OneResultPerRequest(env: DiskEnv, files: map<string, seq<byte>>, modes: map<string, int>,
                                               reqs: seq<DownloadRequest>, exs: seq<Exchange>, digest: DigestFn, temps: seq<string>)
    requires |exs| == |reqs| && |temps| == |reqs|
    ensures var run := DownloadAll(env, files, modes, reqs, exs, digest, temps);
      && |run.results| == |reqs|
      && forall i :: 0 <= i < |reqs| ==> run.results[i].url == reqs[i].url && run.results[i].path == reqs[i].dest
    decreases |reqs|
  {
    if reqs != [] {
      var n := |reqs| - 1;
      assert reqs[..n] + [reqs[n]] == reqs;
      OneResultPerRequest(env, files, modes, reqs[..n], exs[..n], digest, temps[..n]);
      var r := LastResultNamesRequest(env, files, modes, reqs, exs, digest, temps);
      ResultsNameAppend(DownloadAll(env, files, modes, reqs[..n], exs[..n], digest, temps[..n]).results, reqs[..n], r, reqs[n]);
    }
  }

  /** The result a run adds for its last request names that request. */
  lemma LastResultNamesRequest(env: DiskEnv, files: map<string, seq<byte>>, modes: map<string, int>,
                               reqs: seq<DownloadRequest>, exs: seq<Exchange>, digest: DigestFn, temps: seq<string>)
    returns (r: DownloadResult)
    requires |exs| == |reqs| && |temps| == |reqs| && reqs != []
    ensures var n := |reqs| - 1;
      && DownloadAll(env, files, modes, reqs, exs, digest, temps).results
         == DownloadAll(env, files, modes, reqs[..n], exs[..n], digest, temps[..n]).results + [r]
      && r.url == reqs[n].url && r.path == reqs[n].dest
  {
    var n := |reqs| - 1;
    var before := DownloadAll(env, files, modes, reqs[..n], exs[..n], digest, temps[..n]);
    OutcomeNamesRequest(env, before.files, before.modes, reqs[n], exs[n], digest, temps[n]);
    r := Outcome(env, before.files, before.modes, reqs[n], exs[n], digest, temps[n]).result;
  }

  /** The results name their requests one for one, in order. */
  predicate ResultsName(results: seq<DownloadResult>, reqs: seq<DownloadRequest>)
  {
    |results| == |reqs| && forall i :: 0 <= i < |reqs| ==> results[i].url == reqs[i].url && results[i].path == reqs[i].dest
  }

  lemma ResultsNameAppend(results: seq<DownloadResult>, reqs: seq<DownloadRequest>, r: DownloadResult, req: DownloadRequest)
    requires ResultsName(results, reqs) && r.url == req.url && r.path == req.dest
    ensures ResultsName(results + [r], reqs + [req])
  {
  }

  /** A path no request names as its destination keeps its contents, so temporary
      files never outlive their request. */
  lemma {:induction false} OnlyDestinationsChange(env: DiskEnv, files: map<string, seq<byte>>, modes: map<string, int>,
                                                  reqs: seq<DownloadRequest>, exs: seq<Exchange>, digest: DigestFn,
                                                  temps: seq<string>, p: string)
    requires |exs| == |reqs| && |temps| == |reqs|
    requires forall i :: 0 <= i < |reqs| ==> reqs[i].dest != p
    ensures var run := DownloadAll(env, files, modes, reqs, exs, digest, temps);
      (p in run.files <==> p in files) && (p in files ==> run.files[p] == files[p])
    decreases |reqs|
  {
    if reqs != [] {
      var n := |reqs| - 1;
      OnlyDestinationsChange(env, files, modes, reqs[..n], exs[..n], digest, temps[..n], p);
      var before := DownloadAll(env, files, modes, reqs[..n], exs[..n], digest, temps[..n]);
      OutcomeTouchesOnlyVerifiedDest(env, before.files, before.modes, reqs[n], exs[n], digest, temps[n]);
    }
  }
}
