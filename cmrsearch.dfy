/** internal/cmrsearch.go: the cursor-paginated search stream. One GET is repeated with
    the cursor of the previous page until the server signals the end. */
module CmrSearch {
  import opened Common

  /** The decoded body of a page: the `items` array and the `feed.entry` array, each
      empty when the document has none. */
  datatype Page<T> = Page(items: seq<T>, feedEntry: seq<T>)

  /** What the search server did with one request: no response at all, or a reply with
      its status, `cmr-request-id`, the error list decoded from a refused reply's body
      (None when it did not decode), the `cmr-hits` header, the page (None when reading
      the body failed) and the `cmr-search-after` header ("" when absent). */
  datatype Reply<T> =
    | NoResponse(reason: string)
    | Reply(statusCode: int, status: string, requestId: string, errorList: Option<seq<string>>,
            hitsHeader: string, page: Option<Page<T>>, cursor: string)

  /** `CMRError`: the status and request id of a refused reply, and its error list
      joined by "; " when the body decoded. */
  datatype CmrError = CmrError(status: string, requestId: string, err: Option<string>)

  /** Why the stream stopped early. */
  datatype SearchError =
    | CreateRequest(reason: string)
    | Protocol(reason: string)
    | Remote(cmr: CmrError)
    | BadHits(header: string)
    | ReadBody(reason: string)

  function SearchErrorMessage(e: SearchError): Option<string>
  {
    match e
    case CreateRequest(r) => Some("create request: " + r)
    case Protocol(r) => Some("protocol error: " + r)
    case Remote(_) => None
    case BadHits(h) => Some("failed to parse cmr-hits header as int: " + h)
    case ReadBody(r) => Some("reading response: " + r)
  }

  /** The transport error for a request the server script does not answer. */
  const Unanswered := "no response"

  /** The `page_size` every search asks for. */
  const PageSize := "200"

  /** `newCMRError`. */
  function NewCmrError(status: string, requestId: string, errorList: Option<seq<string>>): (e: CmrError)
    ensures e.status == status && e.requestId == requestId
    ensures e.err.Some? <==> errorList.Some?
    ensures errorList.Some? ==> e.err.value == Join(errorList.value, "; ")
  {
    CmrError(status, requestId, if errorList.Some? then Some(Join(errorList.value, "; ")) else None)
  }

  /** The items of a page: `items`, or `feed.entry` when `items` is empty. */
  function PageItems<T>(p: Page<T>): seq<T>
  {
    if |p.items| == 0 then p.feedEntry else p.items
  }

  /** What a stream produced: the items sent, the error recorded, the hits value sent
      (None when none was), and the `cmr-search-after` header of each request ("" for
      none). */
  datatype Scrolled<T> = Scrolled(items: seq<T>, err: Option<SearchError>, hits: Option<int>, requests: seq<string>)

  /** What one reply does to the stream: the items it emits, the error it records, the
      hits value it reads, and the cursor of the next request when the stream goes on. */
  datatype PageStep<T> = PageStep(items: seq<T>, err: Option<SearchError>, hits: Option<int>, next: Option<string>)

  function ServeReply<T>(reply: Reply<T>): (s: PageStep<T>)
    ensures s.next.Some? ==> s.err.None? && s.hits.Some? && s.next.value != "" && |s.items| > 0
    ensures s.err.Some? ==> s.items == []
  {
    match reply
    case NoResponse(r) => PageStep([], Some(Protocol(r)), None, None)
    case Reply(code, status, rid, errs, hitsHeader, page, next) =>
      if code != 200 then PageStep([], Some(Remote(NewCmrError(status, rid, errs))), None, None)
      else match Atoi(hitsHeader)
        case None => PageStep([], Some(BadHits(hitsHeader)), None, None)
        case Some(hits) =>
          if page.None? then PageStep([], Some(ReadBody("read failed")), Some(hits), None)
          else
            var items := PageItems(page.value);
            if next == "" || |items| == 0 then PageStep(items, None, Some(hits), None)
            else PageStep(items, None, Some(hits), Some(next))
  }

  /** The stream from page `k` on, whose request carries `cursor`. */
  function ScrollFrom<T>(server: seq<Reply<T>>, k: nat, cursor: string): (o: Scrolled<T>)
    ensures |o.requests| >= 1 && o.requests[0] == cursor
    decreases |server| - k
  {
    if k >= |server| then Scrolled([], Some(Protocol(Unanswered)), None, [cursor])
    else
      var s := ServeReply(server[k]);
      if s.next.None? then Scrolled(s.items, s.err, s.hits, [cursor])
      else
        var rest := ScrollFrom(server, k + 1, s.next.value);
        Scrolled(s.items + rest.items, rest.err, s.hits, [cursor] + rest.requests)
  }

  /** The whole stream: a URL the request constructor refuses fails at once. */
  function Scroll<T>(urlError: Option<string>, server: seq<Reply<T>>): Scrolled<T>
  {
    if urlError.Some? then Scrolled([], Some(CreateRequest(urlError.value)), None, [])
    else ScrollFrom(server, 0, "")
  }

  /** `ScrollResult`: the items sent on `Ch` so far, the error, and the hits value. `Err`
      and `Hits` read the last two. */
  class ScrollResult<T> {
    var items: seq<T>
    var err: Option<SearchError>
    var hits: int

    constructor ()
      ensures items == [] && err.None? && hits == 0
    {
      items := [];
      err := None;
      hits := 0;
    }

    /** `setErr`. */
    method SetErr(e: SearchError)
      modifies this
      ensures err == Some(e) && items == old(items) && hits == old(hits)
    {
      err := Some(e);
    }

    /** Sending one item on `Ch`. */
    method Send(item: T)
      modifies this
      ensures items == old(items) + [item] && err == old(err) && hits == old(hits)
    {
      items := items + [item];
    }
  }

  /** One pass of `Get`'s loop body after the request is sent: the reply's items are
      sent, its failure recorded, and on the first page its hits value stored. */
  method ServePage<T>(result: ScrollResult<T>, reply: Reply<T>, firstPage: bool) returns (next: Option<string>)
    requires result.err.None?
    modifies result
    ensures var s := ServeReply(reply);
      && next == s.next && result.items == old(result.items) + s.items && result.err == s.err
      && result.hits == (if firstPage && s.hits.Some? then s.hits.value else old(result.hits))
  {
    match reply {
      case NoResponse(r) =>
        result.SetErr(Protocol(r));
        return None;
      case Reply(code, status, rid, errs, hitsHeader, page, cursor) =>
        if code != 200 {
          result.SetErr(Remote(NewCmrError(status, rid, errs)));
          return None;
        }
        var hits := Atoi(hitsHeader);
        if hits.None? {
          result.SetErr(BadHits(hitsHeader));
          return None;
        }
        if firstPage {
          result.hits := hits.value;
        }
        if page.None? {
          result.SetErr(ReadBody("read failed"));
          return None;
        }
        var items := PageItems(page.value);
        ghost var before, hitsBefore := result.items, result.hits;
        for j := 0 to |items|
          invariant result.items == before + items[..j]
          invariant result.err.None? && result.hits == hitsBefore
        {
          result.Send(items[j]);
        }
        assert items[..|items|] == items;
        if cursor == "" || |items| == 0 {
          return None;
        }
        return Some(cursor);
    }
  }

  /** `CMRSearchAPI.Get` against a server that answers request `i` with `server[i]`.
      It returns no error of its own: every failure is recorded in the result. */
  method Get<T>(urlError: Option<string>, server: seq<Reply<T>>) returns (result: ScrollResult<T>, requests: seq<string>)
    ensures fresh(result)
    ensures var o := Scroll(urlError, server);
      && result.items == o.items && result.err == o.err && requests == o.requests
      && result.hits == (if o.hits.Some? then o.hits.value else 0)
  {
    result := new ScrollResult<T>();
    requests := [];
    if urlError.Some? {
      result.SetErr(CreateRequest(urlError.value));
      return;
    }
    ghost var o := Scroll(urlError, server);
    var k := 0;
    var searchAfter := "";
    while true
      invariant result.err.None?
      invariant o.items == result.items + ScrollFrom(server, k, searchAfter).items
      invariant o.err == ScrollFrom(server, k, searchAfter).err
      invariant o.requests == requests + ScrollFrom(server, k, searchAfter).requests
      invariant k > 0 ==> o.hits.Some? && o.hits.value == result.hits
      invariant k == 0 ==> result.hits == 0 && o.hits == ScrollFrom(server, k, searchAfter).hits
      decreases |server| - k
    {
      ghost var asked := requests;
      requests := requests + [searchAfter];
      if k >= |server| {
        result.SetErr(Protocol(Unanswered));
        return;
      }
      ScrollFromStep(server, k, searchAfter);
      ghost var sent := result.items;
      var next := ServePage(result, server[k], k == 0);
      if next.None? {
        return;
      }
      ghost var rest := ScrollFrom(server, k + 1, next.value);
      ConcatAssoc(sent, ServeReply(server[k]).items, rest.items);
      ConcatAssoc(asked, [searchAfter], rest.requests);
      searchAfter := next.value;
      k := k + 1;
    }
  }

  /** One reply of the stream: it ends the stream, or its items come before the rest. */
  lemma ScrollFromStep<T>(server: seq<Reply<T>>, k: nat, cursor: string)
    requires k < |server|
    ensures var s := ServeReply(server[k]); var o := ScrollFrom(server, k, cursor);
      && (s.next.None? ==> o == Scrolled(s.items, s.err, s.hits, [cursor]))
      && (s.next.Some? ==>
            var rest := ScrollFrom(server, k + 1, s.next.value);
            o == Scrolled(s.items + rest.items, rest.err, s.hits, [cursor] + rest.requests))
  {
  }

  /** How one reply is handled: a refused reply or an unparsable hits header records its
      error and emits nothing; otherwise the page's items (`items`, or `feed.entry` when
      `items` is empty) are all emitted, and the stream goes on only with a non-empty
      cursor after a non-empty page. */
  lemma ServeReplyCases<T>(reply: Reply<T>)
    ensures reply.Reply? && reply.statusCode != 200 ==>
      ServeReply(reply) == PageStep([], Some(Remote(NewCmrError(reply.status, reply.requestId, reply.errorList))), None, None)
    ensures reply.Reply? && reply.statusCode == 200 && Atoi(reply.hitsHeader).None? ==>
      ServeReply(reply) == PageStep([], Some(BadHits(reply.hitsHeader)), None, None)
    ensures reply.Reply? && reply.statusCode == 200 && Atoi(reply.hitsHeader).Some? && reply.page.Some? ==>
      && ServeReply(reply).items == PageItems(reply.page.value)
      && ServeReply(reply).err.None? && ServeReply(reply).hits == Atoi(reply.hitsHeader)
      && (ServeReply(reply).next.None? <==> reply.cursor == "" || |PageItems(reply.page.value)| == 0)
    ensures reply.Reply? && reply.page.Some? && |reply.page.value.items| > 0 ==>
      PageItems(reply.page.value) == reply.page.value.items
  {
  }

  /** Request `i` (past the first) carries the cursor with which reply `k + i - 1` went on. */
  predicate CursorsChained<T>(server: seq<Reply<T>>, k: nat, requests: seq<string>)
  {
    forall i :: 0 < i < |requests| ==> ChainedAt(server, k, requests, i)
  }

  predicate ChainedAt<T>(server: seq<Reply<T>>, k: nat, requests: seq<string>, i: nat)
    requires 0 < i < |requests|
  {
    k + i - 1 < |server| && ServeReply(server[k + i - 1]).next == Some(requests[i]) && requests[i] != ""
  }

  /** The first request carries no cursor, and every later request carries the cursor of
      the reply just before it, which went on with a non-empty cursor. */
  lemma {:induction false} CursorChain<T>(server: seq<Reply<T>>, k: nat, cursor: string)
    ensures CursorsChained(server, k, ScrollFrom(server, k, cursor).requests)
    decreases |server| - k
  {
    if k < |server| {
      var s := ServeReply(server[k]);
      if s.next.Some? {
        CursorChain(server, k + 1, s.next.value);
        var o := ScrollFrom(server, k, cursor);
        var rest := ScrollFrom(server, k + 1, s.next.value);
        assert o.requests == [cursor] + rest.requests;
        forall i | 0 < i < |o.requests|
          ensures ChainedAt(server, k, o.requests, i)
        {
          assert o.requests[i] == rest.requests[i - 1];
          if i == 1 {
            assert rest.requests[0] == s.next.value;
          } else {
            assert ChainedAt(server, k + 1, rest.requests, i - 1);
          }
        }
      }
    }
  }

  /** A stream always starts with a request without cursor. */
  lemma FirstRequestHasNoCursor<T>(server: seq<Reply<T>>)
    ensures |Scroll(None, server).requests| >= 1 && Scroll(None, server).requests[0] == ""
  {
  }

  /** The items emitted by the `n` replies from `k` on, in order. */
  function Emitted<T>(server: seq<Reply<T>>, k: nat, n: nat): seq<T>
    decreases n
  {
    if n == 0 || k >= |server| then [] else ServeReply(server[k]).items + Emitted(server, k + 1, n - 1)
  }

  /** The stream emits exactly the pages it requested, each page's items in document
      order, and nothing from a page that failed. */
  lemma {:induction false} EmittedIsConcatenation<T>(server: seq<Reply<T>>, k: nat, cursor: string)
    ensures ScrollFrom(server, k, cursor).items == Emitted(server, k, |ScrollFrom(server, k, cursor).requests|)
    decreases |server| - k
  {
    if k < |server| {
      var s := ServeReply(server[k]);
      if s.next.Some? {
        EmittedIsConcatenation(server, k + 1, s.next.value);
      } else {
        assert Emitted(server, k + 1, 0) == [];
        assert s.items + [] == s.items;
      }
    }
  }

  /** How a stream ends: with the error of the last reply it requested (or a transport
      error when the server gave none), or cleanly when that reply had an empty cursor
      or no items. Hits come from the first reply only. */
  lemma {:induction false} StreamEnd<T>(server: seq<Reply<T>>, k: nat, cursor: string)
    ensures var o := ScrollFrom(server, k, cursor);
      var last := k + |o.requests| - 1;
      && (last < |server| ==> ServeReply(server[last]).next.None? && o.err == ServeReply(server[last]).err)
      && (last >= |server| ==> o.err == Some(Protocol(Unanswered)))
      && o.hits == (if k < |server| then ServeReply(server[k]).hits else None)
    decreases |server| - k
  {
    if k < |server| {
      var s := ServeReply(server[k]);
      if s.next.Some? {
        StreamEnd(server, k + 1, s.next.value);
      }
    }
  }

  /** The hits value is read from the first page only; when that page fails before it,
      `Get` reports 0 hits together with the error. */
  lemma HitsFromFirstPage<T>(server: seq<Reply<T>>)
    ensures var o := Scroll(None, server);
      && (o.hits.Some? <==> |server| > 0 && server[0].Reply? && server[0].statusCode == 200
                            && Atoi(server[0].hitsHeader).Some?)
      && (o.hits.Some? ==> o.hits == Atoi(server[0].hitsHeader))
      && (o.hits.None? ==> o.err.Some? && o.items == [])
  {
  }
}
