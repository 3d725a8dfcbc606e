/** internal/umm.go: time-range encoding for search parameters and the error value built
    from a search server's error document. */
module Umm {
  import opened Common
  import opened Times

  datatype TimeRange = TimeRange(start: Instant, end: Option<Instant>)

  /** An entry of a UMM document's `RelatedUrls`: its `URL` and `Type`. */
  datatype RelatedUrl = RelatedUrl(url: string, kind: string)

  /** `encodeTime`: the layout "2006-01-02T15:04:05Z". */
  function EncodeTime(codec: TimeCodec, t: Instant): string
  {
    codec.formatZulu(t)
  }

  /** `encodeTimeRange`: the start, a comma, then the end when there is one. */
  function EncodeTimeRange(codec: TimeCodec, tr: TimeRange): string
  {
    EncodeTime(codec, tr.start) + "," + (if tr.end.Some? then EncodeTime(codec, tr.end.value) else "")
  }

  /** The encoded range holds exactly one comma, and cutting at it gives back the encoded
      start and the encoded end (empty when there is no end). */
  lemma EncodeTimeRangeCuts(codec: TimeCodec, tr: TimeRange)
    requires CommaFree(codec)
    ensures Cut(EncodeTimeRange(codec, tr), ',')
      == Some((EncodeTime(codec, tr.start), if tr.end.Some? then EncodeTime(codec, tr.end.value) else ""))
    ensures Count(EncodeTimeRange(codec, tr), ',') == 1
    ensures tr.end.None? ==> EncodeTimeRange(codec, tr)[|EncodeTimeRange(codec, tr)| - 1] == ','
  {
    var head := EncodeTime(codec, tr.start);
    var tail := if tr.end.Some? then EncodeTime(codec, tr.end.value) else "";
    assert ',' !in head && ',' !in tail;
    assert EncodeTimeRange(codec, tr) == head + [','] + tail;
    CutConcat(head, ',', tail);
    CountAppend(head + [','], tail, ',');
    CountAppend(head, [','], ',');
    CountAbsent(head, ',');
    CountAbsent(tail, ',');
  }

  /** `UMMErrors`: the server's error strings, or the failure to decode them. */
  datatype UmmErrors = UmmErrors(errors: seq<string>, err: Option<string>)

  /** `UMMErrors.Error`. */
  function UmmErrorMessage(e: UmmErrors): string
  {
    if e.err.Some? then e.err.value else Join(e.errors, ";")
  }

  /** The message of a decoded error document lists its errors separated by ';' (without a
      space), so splitting it at ';' recovers them when none of them contains ';'. */
  lemma UmmErrorMessageSplits(e: UmmErrors)
    requires e.err.None? && |e.errors| >= 1
    requires forall i :: 0 <= i < |e.errors| ==> ';' !in e.errors[i]
    ensures SplitOn(UmmErrorMessage(e), ';') == e.errors
  {
    SplitJoin(e.errors, ';');
  }

  /** `newUMMError`: `decoded` is what the JSON decoder produced: the errors list, or on a
      decode failure whatever part of the list it had filled in. */
  function NewUmmError(decoded: Result<seq<string>, seq<string>>): (e: UmmErrors)
    ensures e.err.Some? <==> decoded.Err?
    ensures decoded.Ok? ==> e.errors == decoded.value && UmmErrorMessage(e) == Join(decoded.value, ";")
    ensures decoded.Err? ==> UmmErrorMessage(e) == "failed to decode error"
  {
    match decoded
    case Ok(errs) => UmmErrors(errs, None)
    case Err(partial) => UmmErrors(partial, Some("failed to decode error"))
  }
}
