/** internal/cmrsearch_keywords.go: the autocomplete search, whose items are facets. */
module CmrKeywords {
  import opened Common
  import CmrSearch

  /** The keys of an autocomplete query. */
  datatype FacetKey = QueryParam | PageSizeParam | TypeParam

  /** The text each key is sent as. */
  function KeyName(k: FacetKey): string
  {
    match k
    case QueryParam => "q"
    case PageSizeParam => "page_size"
    case TypeParam => "type[]"
  }

  /** An autocomplete search item: its `type`, `fields` and `value`, "" when missing. */
  datatype Suggestion = Suggestion(kind: string, fields: string, value: string)

  /** `Facet`, without its score. */
  datatype Facet = Facet(kind: string, fields: string, value: string)

  function FacetOf(s: Suggestion): Facet
  {
    Facet(s.kind, s.fields, s.value)
  }

  /** The query of a search for `val` restricted to `types`: the text once (even when
      empty), the page size once, and each type in order. */
  predicate IsFacetQuery(q: Values<FacetKey>, val: string, types: seq<string>)
  {
    && NoEmptyKey(q)
    && ValuesOf(q, QueryParam) == [val]
    && ValuesOf(q, PageSizeParam) == [CmrSearch.PageSize]
    && ValuesOf(q, TypeParam) == types
  }

  /** The goroutine of `SearchFacets`: each raw item of the stream becomes one facet,
      sent in turn. */
  method SendFacets(result: CmrSearch.ScrollResult<Facet>, items: seq<Suggestion>)
    requires result.items == [] && result.err.None?
    modifies result
    ensures |result.items| == |items|
    ensures forall k | 0 <= k < |items| :: result.items[k] == FacetOf(items[k])
    ensures result.err.None? && result.hits == old(result.hits)
  {
    for i := 0 to |items|
      invariant |result.items| == i
      invariant forall k | 0 <= k < i :: result.items[k] == FacetOf(items[k])
      invariant result.err.None? && result.hits == old(result.hits)
    {
      result.Send(Facet(items[i].kind, items[i].fields, items[i].value));
    }
  }

  /** `SearchFacets`: the stream's hits are copied and each raw item becomes its facet in
      turn; the stream's own error is not copied, so a refused search reads as one that
      found nothing. */
  method SearchFacets(val: string, types: seq<string>, server: seq<CmrSearch.Reply<Suggestion>>)
    returns (result: CmrSearch.ScrollResult<Facet>, query: Values<FacetKey>)
    ensures fresh(result)
    ensures IsFacetQuery(query, val, types)
    ensures var o := CmrSearch.Scroll(None, server);
      && result.hits == (if o.hits.Some? then o.hits.value else 0)
      && result.err.None?
      && |result.items| == |o.items|
      && forall i | 0 <= i < |o.items| :: result.items[i] == FacetOf(o.items[i])
  {
    query := map[QueryParam := [val]];
    query := query[PageSizeParam := [CmrSearch.PageSize]];
    query := AddAll(query, TypeParam, types);
    var zult, _ := CmrSearch.Get(None, server);
    var items, hits := zult.items, zult.hits;
    result := new CmrSearch.ScrollResult<Facet>();
    result.hits := hits;
    SendFacets(result, items);
  }

  /** A search the server refuses at once produces no items and no hits, and its stream
      records the refusal, the error `SearchFacets` does not pass on. */
  lemma RefusedSearchLooksEmpty(server: seq<CmrSearch.Reply<Suggestion>>)
    requires |server| > 0 && server[0].Reply? && server[0].statusCode != 200
    ensures var o := CmrSearch.Scroll(None, server);
      o.items == [] && o.hits.None? && o.err == Some(CmrSearch.Remote(
        CmrSearch.NewCmrError(server[0].status, server[0].requestId, server[0].errorList)))
  {
    CmrSearch.ServeReplyCases(server[0]);
  }
}
