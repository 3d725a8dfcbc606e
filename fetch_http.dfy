/** internal/fetch_http.go: one HTTP download, from the status check to the copy loop that
    streams the body into a `WriterHasher`. */
module HttpFetch {
  import opened Common
  import opened FetchSupport

  /** `FailedDownload`: a response other than 200 OK. */
  datatype FailedDownload = FailedDownload(requestId: string, responseBody: string, status: string, url: string)

  /** `FailedDownload.Error`: "<status> requestid=<id>", the id shown as "<unavailable>"
      when the response carried none. */
  function FailedDownloadMessage(e: FailedDownload): (msg: string)
    ensures e.status <= msg
    ensures e.requestId != "" ==> msg == e.status + " requestid=" + e.requestId
    ensures e.requestId == "" ==> msg == e.status + " requestid=<unavailable>"
  {
    var rid := if e.requestId == "" then "<unavailable>" else e.requestId;
    e.status + " requestid=" + rid
  }

  /** Two failures with the same status have the same message exactly when they carry
      the same request id, except that no id and the literal id "<unavailable>" read
      alike. */
  lemma FailedDownloadMessageShowsId(a: FailedDownload, b: FailedDownload)
    requires a.status == b.status
    ensures FailedDownloadMessage(a) == FailedDownloadMessage(b)
      <==> (a.requestId == b.requestId
            || ({a.requestId, b.requestId} == {"", "<unavailable>"}))
  {
    var ra := if a.requestId == "" then "<unavailable>" else a.requestId;
    var rb := if b.requestId == "" then "<unavailable>" else b.requestId;
    var head := a.status + " requestid=";
    if FailedDownloadMessage(a) == FailedDownloadMessage(b) {
      assert ra == FailedDownloadMessage(a)[|head|..];
      assert rb == FailedDownloadMessage(b)[|head|..];
      if a.requestId != b.requestId {
        if a.requestId == "" {
          assert b.requestId == "<unavailable>";
        } else if b.requestId == "" {
          assert a.requestId == "<unavailable>";
        }
      }
    }
  }

  /** What `io.ReadAll` gave for the body of a refused response: the bytes read, and
      whether it reported an error. */
  datatype BodyRead = BodyRead(data: string, failed: bool)

  /** What a single `Read` of the body returned besides its bytes. */
  datatype ReadErr = NoError | EOF | ReadFailure(msg: string)

  /** One `Read` of the body: its bytes and its error. */
  datatype Chunk = Chunk(data: seq<byte>, err: ReadErr)

  /** `readSize`: 2<<19 bytes, the largest chunk one `Read` may return. */
  const ReadSize := 0x10_0000

  /** A response: status, the `request-id` header ("" when absent), the URL of the final
      request, the body as `io.ReadAll` sees it, and the body as the copy loop's reads
      see it. Reads past the end of `chunks` return EOF with no bytes. */
  datatype Response = Response(statusCode: int, status: string, requestId: string, url: string,
                               errorBody: BodyRead, chunks: seq<Chunk>)

  /** What became of the request: refused by `http.NewRequestWithContext`, failed in the
      transport with no response at all, or answered. */
  datatype Exchange = BadUrl(reason: string) | Unreachable(reason: string) | Answered(resp: Response)

  /** No `Read` returns more bytes than the buffer holds. */
  predicate WithinReadSize(chunks: seq<Chunk>)
  {
    forall i :: 0 <= i < |chunks| ==> |chunks[i].data| <= ReadSize
  }

  /** Why a fetch failed. */
  datatype FetchFailure =
    | BadRequest(reason: string)
    | TransportFailed(reason: string)
    | NotOk(download: FailedDownload)
    | WriteFailed(cause: string)
    | ReadFailed(cause: string)

  /** The error text of each failure. */
  function FetchFailureMessage(f: FetchFailure): string
  {
    match f
    case BadRequest(r) => r
    case TransportFailed(r) => r
    case NotOk(d) => FailedDownloadMessage(d)
    case WriteFailed(c) => "writing to file: " + c
    case ReadFailed(c) => "reading from remote: " + c
  }

  /** `newFailedDownloadError` as written: the body is kept only when reading it failed. */
  function NewFailedDownloadErrorAsWritten(resp: Response): (d: FailedDownload)
    ensures !resp.errorBody.failed ==> d.responseBody == ""
  {
    FailedDownload(resp.requestId, if resp.errorBody.failed then resp.errorBody.data else "", resp.status, resp.url)
  }

  /** A refused response whose body reads cleanly loses that body. */
  lemma FailedDownloadDropsReadableBody()
    ensures var resp := Response(404, "404 Not Found", "REQUESTID", "/", BodyRead("BODY", false), []);
      NewFailedDownloadErrorAsWritten(resp).responseBody == "" && resp.errorBody.data == "BODY"
  {
  }

  /** `newFailedDownloadError` as evidently intended: the request id, status and final URL
      of the response, and its body whenever it could be read. */
  function NewFailedDownloadError(resp: Response): (d: FailedDownload)
    ensures d.requestId == resp.requestId && d.status == resp.status && d.url == resp.url
    ensures !resp.errorBody.failed ==> d.responseBody == resp.errorBody.data
  {
    FailedDownload(resp.requestId, if resp.errorBody.failed then "" else resp.errorBody.data, resp.status, resp.url)
  }

  /** How `Fetch` reacts before reading the body. */
  datatype Admission = Panics | Refused(failure: FetchFailure) | Admitted

  /** `Fetch` as written: the error from `client.Do` is never looked at, so a request that
      got no response dereferences a nil response. */
  function AdmitAsWritten(ex: Exchange): Admission
  {
    match ex
    case BadUrl(r) => Refused(BadRequest(r))
    case Unreachable(_) => Panics
    case Answered(resp) =>
      if resp.statusCode != 200 then Refused(NotOk(NewFailedDownloadErrorAsWritten(resp))) else Admitted
  }

  /** An unreachable server crashes the download instead of failing it. */
  lemma UnreachableServerPanics()
    ensures AdmitAsWritten(Unreachable("dial tcp: connection refused")) == Panics
  {
  }

  /** `Fetch` as evidently intended: a transport failure is returned as the error. */
  function Admit(ex: Exchange): Admission
  {
    match ex
    case BadUrl(r) => Refused(BadRequest(r))
    case Unreachable(r) => Refused(TransportFailed(r))
    case Answered(resp) =>
      if resp.statusCode != 200 then Refused(NotOk(NewFailedDownloadError(resp))) else Admitted
  }

  /** The corrected check never panics, reads a body only after 200 OK, and reports any
      other status as a `FailedDownload` carrying the response's id, status and URL. */
  lemma AdmitOnlyOk(ex: Exchange)
    ensures Admit(ex) != Panics
    ensures Admit(ex) == Admitted <==> ex.Answered? && ex.resp.statusCode == 200
    ensures ex.Answered? && ex.resp.statusCode != 200 ==>
      Admit(ex) == Refused(NotOk(NewFailedDownloadError(ex.resp)))
    ensures AdmitAsWritten(ex) != Panics ==>
      (AdmitAsWritten(ex) == Admitted <==> Admit(ex) == Admitted)
  {
  }

  /** The message of a write failure as written: it wraps `err`, the variable left by
      `client.Do`, which is nil whenever the copy loop runs, so the cause is lost. */
  function WriteFailureMessageAsWritten(doErr: Option<string>, wErr: string): string
  {
    "writing to file: " + (if doErr.Some? then doErr.value else "%!w(<nil>)")
  }

  /** A full disk is reported without saying so. */
  lemma WriteFailureLosesCause()
    ensures WriteFailureMessageAsWritten(None, NoSpaceError) == "writing to file: %!w(<nil>)"
    ensures FetchFailureMessage(WriteFailed(NoSpaceError)) == "writing to file: " + NoSpaceError
    ensures WriteFailureMessageAsWritten(None, NoSpaceError) != FetchFailureMessage(WriteFailed(NoSpaceError))
  {
    assert ("writing to file: %!w(<nil>)")[17] != ("writing to file: " + NoSpaceError)[17];
  }

  /** What the copy loop ends with: the size it reports, its error, and the bytes the
      destination accepted (including any part of a chunk whose write failed). */
  datatype CopyOutcome = CopyOutcome(size: nat, err: Option<FetchFailure>, stored: seq<byte>)

  /** The next `Read`: past the scripted chunks, EOF with no bytes. */
  function NextChunk(chunks: seq<Chunk>): (c: Chunk)
    ensures chunks == [] ==> c.err == EOF
  {
    if chunks == [] then Chunk([], EOF) else chunks[0]
  }

  /** The copy loop over a destination that accepts `room` more bytes: each chunk is
      written before its read error is looked at; a short write stops at once without
      counting that chunk; EOF ends cleanly; any other read error ends with it. */
  function CopySpec(chunks: seq<Chunk>, room: nat): CopyOutcome
    decreases |chunks|
  {
    var c := NextChunk(chunks);
    if room < |c.data| then CopyOutcome(0, Some(WriteFailed(NoSpaceError)), c.data[..room])
    else if c.err.EOF? then CopyOutcome(|c.data|, None, c.data)
    else if c.err.ReadFailure? then CopyOutcome(|c.data|, Some(ReadFailed(c.err.msg)), c.data)
    else
      var rest := CopySpec(chunks[1..], room - |c.data|);
      CopyOutcome(|c.data| + rest.size, rest.err, c.data + rest.stored)
  }

  /** The body as the server sent it: every chunk up to and including the first one that
      came with EOF or a read error. */
  function Received(chunks: seq<Chunk>): seq<byte>
  {
    if chunks == [] then []
    else if chunks[0].err != NoError then chunks[0].data
    else chunks[0].data + Received(chunks[1..])
  }

  /** How the body ended: EOF, or the first read error. */
  function Ending(chunks: seq<Chunk>): (e: ReadErr)
    ensures e != NoError
  {
    if chunks == [] then EOF
    else if chunks[0].err != NoError then chunks[0].err
    else Ending(chunks[1..])
  }

  /** What the copy loop achieves, in terms of the body the server sent: when the body
      fits, all of it is stored and counted, and the loop fails only if the body ended in
      a read error; when it does not fit, the destination holds the part that fitted,
      the loop reports a write failure, and the size it reports stays within what fitted. */
  lemma {:induction false} CopyDeliversBody(chunks: seq<Chunk>, room: nat)
    ensures var c := CopySpec(chunks, room);
      && (|Received(chunks)| <= room ==>
            && c.stored == Received(chunks) && c.size == |Received(chunks)|
            && c.err == (if Ending(chunks) == EOF then None else Some(ReadFailed(Ending(chunks).msg))))
      && (|Received(chunks)| > room ==>
            && c.stored == Received(chunks)[..room] && c.size <= room
            && c.err == Some(WriteFailed(NoSpaceError)))
  {
    if chunks != [] && chunks[0].err == NoError && |chunks[0].data| <= room {
      CopyDeliversBody(chunks[1..], room - |chunks[0].data|);
      var d := chunks[0].data;
      if |Received(chunks)| > room {
        assert Received(chunks)[..room] == d + Received(chunks[1..])[..room - |d|];
      }
    }
  }

  /** `HTTPFetcher.Fetch` over the exchange the request met, writing into `w`: nothing is
      written unless the response is 200 OK, and then the result is the copy loop's. */
  method Fetch(ex: Exchange, w: WriterHasher) returns (size: int, err: Option<FetchFailure>)
    requires w.Valid()
    requires ex.Answered? ==> WithinReadSize(ex.resp.chunks)
    modifies w, w.file
    ensures w.Valid()
    ensures Admit(ex).Refused? ==> size == 0 && err == Some(Admit(ex).failure) && w.written == old(w.written)
    ensures Admit(ex).Admitted? ==>
      var c := CopySpec(ex.resp.chunks, old(w.file.room));
      size == c.size && err == c.err && w.written == old(w.written) + c.stored
  {
    match ex {
      case BadUrl(r) =>
        return 0, Some(BadRequest(r));
      case Unreachable(r) =>
        return 0, Some(TransportFailed(r));
      case Answered(resp) =>
        if resp.statusCode != 200 {
          return 0, Some(NotOk(NewFailedDownloadError(resp)));
        }
    }
    size, err := CopyBody(ex.resp.chunks, w);
  }

  /** The copy loop of `HTTPFetcher.Fetch`: `io.Copy` of the body into `w`, chunk by chunk. */
  method CopyBody(chunks: seq<Chunk>, w: WriterHasher) returns (size: int, err: Option<FetchFailure>)
    requires w.Valid()
    requires WithinReadSize(chunks)
    modifies w, w.file
    ensures w.Valid()
    ensures var c := CopySpec(chunks, old(w.file.room));
      size == c.size && err == c.err && w.written == old(w.written) + c.stored
  {
    ghost var total := CopySpec(chunks, w.file.room);
    size := 0;
    var k := 0;
    while true
      invariant 0 <= k <= |chunks|
      invariant w.Valid()
      invariant 0 <= size
      invariant total.size == size + CopySpec(chunks[k..], w.file.room).size
      invariant total.err == CopySpec(chunks[k..], w.file.room).err
      invariant old(w.written) + total.stored == w.written + CopySpec(chunks[k..], w.file.room).stored
      decreases |chunks| - k
    {
      var c := NextChunk(chunks[k..]);
      ghost var room := w.file.room;
      ghost var before := w.written;
      ghost var rest := CopySpec(chunks[k..], room);
      var _, wErr := w.Write(c.data);
      if wErr.Some? {
        assert rest == CopyOutcome(0, Some(WriteFailed(NoSpaceError)), c.data[..room]);
        return size, Some(WriteFailed(wErr.value));
      }
      assert w.written == before + c.data;
      size := size + |c.data|;
      if c.err.EOF? {
        return size, None;
      }
      if c.err.ReadFailure? {
        return size, Some(ReadFailed(c.err.msg));
      }
      assert chunks[k..][1..] == chunks[k + 1..];
      ghost var next := CopySpec(chunks[k + 1..], room - |c.data|);
      assert rest == CopyOutcome(|c.data| + next.size, next.err, c.data + next.stored);
      k := k + 1;
    }
  }
}
