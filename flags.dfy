/** internal/flags.go: the `<start>,[<end>]` command-line time-range value. */
module TimeFlags {
  import opened Common
  import opened Times
  import Umm

  /** `timeRangeLayouts`, tried in this order. */
  const TimeRangeLayouts: seq<Layout> := [RFC3339, DateOnly]

  const NoCommaError := "expected <start>,[<end>], with format <yyyy-mm-dd>[T<hh:mm:ss>Z]"
  const BadStartError := "invalid start time format; expected <yyyy-mm-dd>[T<hh:mm:ss>Z]"
  const BadEndError := "invalid end time format; expected <yyyy-mm-dd>[T<hh:mm:ss>Z]"

  /** The instant `s` denotes under the first of `layouts` that accepts it. */
  function FirstParse(codec: TimeCodec, layouts: seq<Layout>, s: string): Option<Instant>
  {
    if |layouts| == 0 then None
    else if codec.parse(layouts[0], s).Some? then codec.parse(layouts[0], s)
    else FirstParse(codec, layouts[1..], s)
  }

  /** A string parses when some layout accepts it, and then the value is the one given by
      the earliest accepting layout. */
  lemma {:induction false} FirstParseIsFirst(codec: TimeCodec, layouts: seq<Layout>, s: string)
    ensures FirstParse(codec, layouts, s).Some?
      <==> exists i :: 0 <= i < |layouts| && codec.parse(layouts[i], s).Some?
    ensures FirstParse(codec, layouts, s).Some? ==>
      exists i :: 0 <= i < |layouts| && codec.parse(layouts[i], s) == FirstParse(codec, layouts, s)
        && forall j :: 0 <= j < i ==> codec.parse(layouts[j], s).None?
  {
    if |layouts| > 0 && codec.parse(layouts[0], s).None? {
      FirstParseIsFirst(codec, layouts[1..], s);
      if FirstParse(codec, layouts, s).Some? {
        var i :| 0 <= i < |layouts[1..]| && codec.parse(layouts[1..][i], s) == FirstParse(codec, layouts, s)
          && forall j :: 0 <= j < i ==> codec.parse(layouts[1..][j], s).None?;
        assert codec.parse(layouts[i + 1], s) == FirstParse(codec, layouts, s);
        forall j | 0 <= j < i + 1
          ensures codec.parse(layouts[j], s).None?
        {
          if j > 0 {
            assert layouts[j] == layouts[1..][j - 1];
          }
        }
      } else {
        forall i | 0 <= i < |layouts|
          ensures codec.parse(layouts[i], s).None?
        {
          if i > 0 {
            assert layouts[i] == layouts[1..][i - 1];
          }
        }
      }
    }
  }

  /** `TimeRangeValue.parse`: try each layout in turn and keep the first success. */
  method Parse(codec: TimeCodec, s: string) returns (t: Option<Instant>)
    ensures t == FirstParse(codec, TimeRangeLayouts, s)
  {
    var i := 0;
    while i < |TimeRangeLayouts|
      invariant 0 <= i <= |TimeRangeLayouts|
      invariant FirstParse(codec, TimeRangeLayouts, s) == FirstParse(codec, TimeRangeLayouts[i..], s)
    {
      var parsed := codec.parse(TimeRangeLayouts[i], s);
      if parsed.Some? {
        return parsed;
      }
      assert TimeRangeLayouts[i..][1..] == TimeRangeLayouts[i + 1..];
      i := i + 1;
    }
    return None;
  }

  /** What `Set` makes of its argument: the new start and end, or the error it reports. */
  function ParseTimeRange(codec: TimeCodec, val: string): Result<Umm.TimeRange, string>
  {
    match Cut(val, ',')
    case None => Err(NoCommaError)
    case Some((first, second)) =>
      var start := FirstParse(codec, TimeRangeLayouts, first);
      if start.None? then Err(BadStartError)
      else if second == "" then Ok(Umm.TimeRange(start.value, None))
      else
        var end := FirstParse(codec, TimeRangeLayouts, second);
        if end.None? then Err(BadEndError) else Ok(Umm.TimeRange(start.value, end))
  }

  /** The three ways `Set` refuses a value, and what it keeps when it accepts one: a value
      with no comma is refused; otherwise the text before the first comma must parse as
      the start; an empty remainder means no end, and any other remainder must parse. */
  lemma ParseTimeRangeCases(codec: TimeCodec, val: string)
    ensures ',' !in val <==> ParseTimeRange(codec, val) == Err(NoCommaError)
    ensures ',' in val ==> var (first, second) := Cut(val, ',').value;
      && first + [','] + second == val
      && (ParseTimeRange(codec, val) == Err(BadStartError) <==> FirstParse(codec, TimeRangeLayouts, first).None?)
      && (ParseTimeRange(codec, val).Ok? ==>
            && Some(ParseTimeRange(codec, val).value.start) == FirstParse(codec, TimeRangeLayouts, first)
            && (second == "" <==> ParseTimeRange(codec, val).value.end.None?)
            && (second != "" ==> ParseTimeRange(codec, val).value.end == FirstParse(codec, TimeRangeLayouts, second)))
  {
  }

  /** A range rendered for a search request reads back as the same range, when the parser
      accepts the rendered instants as RFC 3339 and gives back the instants themselves
      (whole seconds in UTC). */
  lemma ParseEncodedTimeRange(codec: TimeCodec, tr: Umm.TimeRange)
    requires CommaFree(codec)
    requires codec.parse(RFC3339, Umm.EncodeTime(codec, tr.start)) == Some(tr.start)
    requires tr.end.Some? ==> codec.parse(RFC3339, Umm.EncodeTime(codec, tr.end.value)) == Some(tr.end.value)
    requires tr.end.Some? ==> Umm.EncodeTime(codec, tr.end.value) != ""
    ensures ParseTimeRange(codec, Umm.EncodeTimeRange(codec, tr)) == Ok(tr)
  {
    Umm.EncodeTimeRangeCuts(codec, tr);
  }

  /** `TimeRangeValue`: the parsed flag, no bounds until a value is set. */
  class TimeRangeValue {
    var start: Option<Instant>
    var end: Option<Instant>

    constructor ()
      ensures start.None? && end.None?
    {
      start := None;
      end := None;
    }

    /** `Set`: on success both bounds are replaced (an end left out clears the previous
        end); on error the value is left as it was. */
    method Set(codec: TimeCodec, val: string) returns (err: Option<string>)
      modifies this
      ensures match ParseTimeRange(codec, val)
        case Err(msg) => err == Some(msg) && start == old(start) && end == old(end)
        case Ok(tr) => err.None? && start == Some(tr.start) && end == tr.end
    {
      var parts := Cut(val, ',');
      if parts.None? {
        return Some(NoCommaError);
      }
      var (first, second) := parts.value;
      var newStart := Parse(codec, first);
      if newStart.None? {
        return Some(BadStartError);
      }
      var newEnd: Option<Instant> := None;
      if second != "" {
        newEnd := Parse(codec, second);
        if newEnd.None? {
          return Some(BadEndError);
        }
      }
      start, end := newStart, newEnd;
      return None;
    }
  }
}
