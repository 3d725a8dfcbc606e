/** internal/checksum.go: checksums of files already on disk, for the algorithms named in
    granule metadata. */
module Checksums {
  import opened Common

  /** The digest algorithms the core knows about. */
  datatype HashAlg = MD5 | SHA256 | SHA384 | SHA512

  /** A message digest: the digest bytes of `data` under an algorithm. MD5 and SHA-2 are
      not computed by the model. */
  type DigestFn = (HashAlg, seq<byte>) -> seq<byte>

  /** `ChecksumAlgSupported`: the four metadata spellings, case-sensitively. */
  predicate ChecksumAlgSupported(alg: string)
  {
    alg == "SHA-256" || alg == "SHA-384" || alg == "SHA-512" || alg == "MD5"
  }

  /** The algorithm `Checksum`'s switch selects for a name. */
  function MetadataAlg(alg: string): (r: Option<HashAlg>)
    ensures r.Some? <==> ChecksumAlgSupported(alg)
    ensures alg == "SHA-256" <==> r == Some(SHA256)
    ensures alg == "SHA-384" <==> r == Some(SHA384)
    ensures alg == "SHA-512" <==> r == Some(SHA512)
    ensures alg == "MD5" <==> r == Some(MD5)
  {
    if alg == "SHA-256" then Some(SHA256)
    else if alg == "SHA-384" then Some(SHA384)
    else if alg == "SHA-512" then Some(SHA512)
    else if alg == "MD5" then Some(MD5)
    else None
  }

  /** The error `os.Open` reports for a path that does not exist. */
  function OpenError(path: string): string
  {
    "open " + path + ": no such file or directory"
  }

  /** `Checksum` over a file system given as a map from path to contents: the file is
      opened before the algorithm is looked at, and the result is the lowercase hex
      encoding of the digest of the whole file. */
  function Checksum(digest: DigestFn, files: map<string, seq<byte>>, alg: string, path: string): (r: Result<string, string>)
    ensures path !in files ==> r == Err(OpenError(path))
    ensures path in files && !ChecksumAlgSupported(alg) ==> r == Err(alg + " checksum not supported")
    ensures r.Ok? <==> path in files && ChecksumAlgSupported(alg)
    ensures r.Ok? ==> r.value == HexEncode(digest(MetadataAlg(alg).value, files[path]))
    ensures r.Ok? ==> |r.value| == 2 * |digest(MetadataAlg(alg).value, files[path])|
    ensures r.Ok? ==> forall i :: 0 <= i < |r.value| ==> IsHexDigit(r.value[i])
  {
    if path !in files then Err(OpenError(path))
    else match MetadataAlg(alg)
      case None => Err(alg + " checksum not supported")
      case Some(h) => Ok(HexEncode(digest(h, files[path])))
  }

  /** Two files with the same contents have the same checksum, and two files whose
      checksums agree had equal digests (hex encoding loses nothing). */
  lemma ChecksumDeterminedByDigest(digest: DigestFn, files: map<string, seq<byte>>, alg: string, p: string, q: string)
    requires Checksum(digest, files, alg, p).Ok? && Checksum(digest, files, alg, q).Ok?
    ensures Checksum(digest, files, alg, p) == Checksum(digest, files, alg, q)
      <==> digest(MetadataAlg(alg).value, files[p]) == digest(MetadataAlg(alg).value, files[q])
  {
    var h := MetadataAlg(alg).value;
    if Checksum(digest, files, alg, p) == Checksum(digest, files, alg, q) {
      HexInjective(digest(h, files[p]), digest(h, files[q]));
    }
  }
}
