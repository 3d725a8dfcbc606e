/** The part of Go's time package the core uses, left uninterpreted: an instant is an
    integer, and parsing and formatting are function values supplied by the caller. */
module Times {
  import opened Common

  /** An instant, as nanoseconds since the Unix epoch. */
  type Instant = int

  /** The two layouts the flag parser accepts: time.RFC3339 and "2006-01-02". */
  datatype Layout = RFC3339 | DateOnly

  /** `time.Parse` under a layout, `t.Format(time.RFC3339)` and
      `t.Format("2006-01-02T15:04:05Z")`. */
  datatype TimeCodec = TimeCodec(
    parse: (Layout, string) -> Option<Instant>,
    formatRfc3339: Instant -> string,
    formatZulu: Instant -> string)

  /** Both layouts render only digits, '-', ':', 'T', 'Z' and '+': never a comma. */
  ghost predicate CommaFree(codec: TimeCodec)
  {
    forall t :: ',' !in codec.formatZulu(t) && ',' !in codec.formatRfc3339(t)
  }
}
