/** internal/fetch.go: checksum-name parsing, hash selection for downloads, and the writer
    that counts, hashes and keeps the first bytes of everything it writes. */
module FetchSupport {
  import opened Common
  import opened Checksums

  /** `numPrefixBytes`: the prefix stops growing once it holds this many bytes. */
  const NumPrefixBytes := 1000

  /** `SplitChecksum`: "<alg>:<value>" lowercased and cut at the first ':'. */
  function SplitChecksum(s: string): (r: Result<(string, string), string>)
    ensures r.Err? <==> ':' !in s
    ensures r.Err? ==> r.error == "expected <alg>:<val>, got " + s
    ensures r.Ok? ==> r.value.0 + ":" + r.value.1 == ToLower(s) && ':' !in r.value.0
  {
    assert ':' in s <==> ':' in ToLower(s) by {
      if ':' in s {
        var i :| 0 <= i < |s| && s[i] == ':';
        assert ToLower(s)[i] == ':';
      }
    }
    match Cut(ToLower(s), ':')
    case None => Err("expected <alg>:<val>, got " + s)
    case Some((alg, val)) => Ok((alg, val))
  }

  /** `newHash`: the download-side names, compared after lowercasing. The `%q` quoting of
      the name in the message is rendered as plain double quotes. */
  function NewHash(alg: string): Result<HashAlg, string>
  {
    var name := ToLower(alg);
    if name == "md5" then Ok(MD5)
    else if name == "sha256" || name == "sha-256" then Ok(SHA256)
    else if name == "sha512" || name == "sha-512" then Ok(SHA512)
    else Err("WARNING: expected one of md5, sha256, sha512, got \"" + alg + "\"")
  }

  /** `newHash` accepts a name exactly when its lowercase form is one of five spellings,
      and never selects SHA-384. */
  lemma NewHashNames(alg: string)
    ensures NewHash(alg).Ok? <==> ToLower(alg) in {"md5", "sha256", "sha-256", "sha512", "sha-512"}
    ensures NewHash(alg).Ok? ==> NewHash(alg).value != SHA384
    ensures NewHash(alg).Err? ==> NewHash(alg).error == "WARNING: expected one of md5, sha256, sha512, got \"" + alg + "\""
  {
  }

  /** Lowercasing a literal, one character at a time. */
  lemma LowerOf(s: string, t: string)
    requires |s| == |t| && forall i :: 0 <= i < |s| ==> LowerChar(s[i]) == t[i]
    ensures ToLower(s) == t
  {
  }

  /** The metadata names of `ChecksumAlgSupported` and the download names of `newHash`
      agree on MD5, SHA-256 and SHA-512 spelled in metadata style. */
  lemma NewHashAcceptsMetadataNames(alg: string)
    requires ChecksumAlgSupported(alg) && alg != "SHA-384"
    ensures NewHash(alg) == Ok(MetadataAlg(alg).value)
  {
    if alg == "SHA-256" {
      LowerOf(alg, "sha-256");
    } else if alg == "SHA-512" {
      LowerOf(alg, "sha-512");
    } else {
      LowerOf(alg, "md5");
    }
  }

  /** They differ on the rest: "SHA-384" is only a metadata name and "md5" only a
      download name. */
  lemma NewHashDiffersFromMetadataNames()
    ensures ChecksumAlgSupported("SHA-384") && NewHash("SHA-384").Err?
    ensures !ChecksumAlgSupported("md5") && NewHash("md5") == Ok(MD5)
  {
    LowerOf("SHA-384", "sha-384");
    LowerOf("md5", "md5");
  }

  /** The error the operating system reports for a write that did not fit (the path Go puts after "write" is omitted). */
  const NoSpaceError := "write: no space left on device"

  /** The destination file: what it holds and how many more bytes the disk accepts. */
  class File {
    var content: seq<byte>
    var room: nat

    constructor (room: nat)
      ensures content == [] && this.room == room
    {
      content := [];
      this.room := room;
    }

    /** `Write` as the operating system does it: as many bytes as fit, and an error when
        not all of them did. */
    method Write(buf: seq<byte>) returns (n: nat, err: Option<string>)
      modifies this
      ensures n == if |buf| <= old(room) then |buf| else old(room)
      ensures content == old(content) + buf[..n] && room == old(room) - n
      ensures err.Some? <==> n < |buf|
      ensures err.Some? ==> err.value == NoSpaceError
    {
      n := if |buf| <= room then |buf| else room;
      content := content + buf[..n];
      room := room - n;
      err := if n < |buf| then Some(NoSpaceError) else None;
    }
  }

  /** Go's `\s`: tab, newline, form feed, carriage return and space. */
  predicate IsSpaceByte(b: byte)
  {
    b == 9 || b == 10 || b == 12 || b == 13 || b == 32
  }

  /** The bytes with every `\s` removed (`regexp.MustCompile("\s*").ReplaceAllString(_, "")`). */
  function StripSpace(s: seq<byte>): (r: seq<byte>)
    ensures |r| <= |s|
    ensures forall i :: 0 <= i < |r| ==> !IsSpaceByte(r[i])
  {
    if s == [] then []
    else if IsSpaceByte(s[0]) then StripSpace(s[1..])
    else [s[0]] + StripSpace(s[1..])
  }

  /** Removing whitespace from a concatenation removes it from each part. */
  lemma {:induction false} StripSpaceAppend(a: seq<byte>, b: seq<byte>)
    ensures StripSpace(a + b) == StripSpace(a) + StripSpace(b)
  {
    if a != [] {
      assert (a + b)[0] == a[0];
      assert (a + b)[1..] == a[1..] + b;
      StripSpaceAppend(a[1..], b);
    } else {
      assert a + b == b;
    }
  }

  /** Whitespace only. */
  lemma {:induction false} StripSpaceOfSpace(ws: seq<byte>)
    requires forall i :: 0 <= i < |ws| ==> IsSpaceByte(ws[i])
    ensures StripSpace(ws) == []
  {
    if ws != [] {
      StripSpaceOfSpace(ws[1..]);
    }
  }

  /** The bytes of "<html". */
  const HtmlMarker: seq<byte> := [60, 104, 116, 109, 108]

  /** The test behind `ProbableHtml`: "<html" occurs once all whitespace is removed. */
  predicate LooksLikeHtml(prefix: seq<byte>)
  {
    Contains(StripSpace(prefix), HtmlMarker)
  }

  /** Whitespace anywhere does not change the verdict, so "< h t m l" counts as HTML. */
  lemma LooksLikeHtmlIgnoresSpace(a: seq<byte>, ws: seq<byte>, b: seq<byte>)
    requires forall i :: 0 <= i < |ws| ==> IsSpaceByte(ws[i])
    ensures LooksLikeHtml(a + ws + b) == LooksLikeHtml(a + b)
  {
    StripSpaceAppend(a + ws, b);
    StripSpaceAppend(a, ws);
    StripSpaceAppend(a, b);
    StripSpaceOfSpace(ws);
    assert StripSpace(a) + [] == StripSpace(a);
  }

  /** Once a prefix looks like HTML, every extension of it does too. */
  lemma LooksLikeHtmlGrows(p: seq<byte>, q: seq<byte>)
    requires p <= q && LooksLikeHtml(p)
    ensures LooksLikeHtml(q)
  {
    assert q == p + q[|p|..];
    StripSpaceAppend(p, q[|p|..]);
    ContainsPrefix(StripSpace(p), StripSpace(q), HtmlMarker);
  }

  /** `writerHasher`: writes go to `file`; the bytes the file accepted are counted in
      `size`, fed to the hash when there is one, and kept in `prefix` while it is shorter
      than `NumPrefixBytes`. */
  class WriterHasher {
    const file: File
    const hash: Option<HashAlg>
    var hashed: seq<byte>
    var size: int
    var prefix: seq<byte>
    /** Every byte the file accepted through this writer, and what it held before. */
    ghost var written: seq<byte>
    ghost const initial: seq<byte>

    ghost predicate Valid()
      reads this, file
    {
      && file.content == initial + written
      && size == |written|
      && (hash.Some? ==> hashed == written)
      && prefix <= written
      && (|prefix| < NumPrefixBytes ==> prefix == written)
    }

    constructor (file: File, hash: Option<HashAlg>)
      ensures Valid()
      ensures this.file == file && this.hash == hash && written == [] && size == 0
    {
      this.file := file;
      this.hash := hash;
      hashed := [];
      size := 0;
      prefix := [];
      written := [];
      initial := file.content;
    }

    /** `Write`: the file's own count and error come back unchanged, and only the bytes
        it accepted are counted, hashed and kept. */
    method Write(buf: seq<byte>) returns (n: nat, err: Option<string>)
      requires Valid()
      modifies this, file
      ensures Valid()
      ensures n == if |buf| <= old(file.room) then |buf| else old(file.room)
      ensures err.Some? <==> n < |buf|
      ensures err.Some? ==> err.value == NoSpaceError
      ensures written == old(written) + buf[..n] && size == old(size) + n
      ensures prefix == if old(|prefix|) < NumPrefixBytes then old(prefix) + buf[..n] else old(prefix)
      ensures hashed == if hash.Some? then old(hashed) + buf[..n] else old(hashed)
      ensures file.room == old(file.room) - n
    {
      n, err := file.Write(buf);
      if |prefix| < NumPrefixBytes {
        prefix := prefix + buf[..n];
      }
      if hash.Some? {
        hashed := hashed + buf[..n];
      }
      size := size + n;
      written := written + buf[..n];
    }

    /** `Checksum`: "" without a hash, else the hex digest of all bytes written. */
    function Checksum(digest: DigestFn): (r: string)
      requires Valid()
      reads this, file
      ensures hash.None? ==> r == ""
      ensures hash.Some? ==> r == HexEncode(digest(hash.value, written))
    {
      if hash.None? then "" else HexEncode(digest(hash.value, hashed))
    }

    /** `ProbableHtml`, on the kept prefix. */
    predicate ProbableHtml()
      reads this
    {
      LooksLikeHtml(prefix)
    }
  }

  /** A writer keeps the first bytes of what it wrote: at least the first thousand, or
      all of them. */
  lemma PrefixCoversStart(w: WriterHasher)
    requires w.Valid()
    ensures w.prefix == w.written || |w.prefix| >= NumPrefixBytes
    ensures w.written[..|w.prefix|] == w.prefix
  {
  }

  /** What `ProbableHtml` tells about the bytes written, whatever the sizes of the writes:
      "<html" within the first thousand bytes is always reported, and a report means
      "<html" occurs in the output. Up to a thousand bytes the verdict is exactly the
      test on everything written. */
  lemma ProbableHtmlMeaning(w: WriterHasher)
    requires w.Valid()
    ensures var head := if |w.written| < NumPrefixBytes then w.written else w.written[..NumPrefixBytes];
      LooksLikeHtml(head) ==> w.ProbableHtml()
    ensures w.ProbableHtml() ==> LooksLikeHtml(w.written)
    ensures |w.written| <= NumPrefixBytes ==> (w.ProbableHtml() <==> LooksLikeHtml(w.written))
  {
    var head := if |w.written| < NumPrefixBytes then w.written else w.written[..NumPrefixBytes];
    if LooksLikeHtml(head) {
      if |w.prefix| < NumPrefixBytes {
        assert w.prefix == w.written == head;
      } else {
        assert head <= w.prefix;
        LooksLikeHtmlGrows(head, w.prefix);
      }
    }
    if w.ProbableHtml() {
      LooksLikeHtmlGrows(w.prefix, w.written);
    }
    if |w.written| <= NumPrefixBytes {
      assert w.prefix == w.written;
    }
  }
}
