/** cmd/keywords/cmd.go: the truncation applied to facet values and fields when the
    `keywords` command prints them. */
module KeywordsCmd {
  import opened Common

  /** "..." as bytes. */
  const Dots: seq<byte> := [46, 46, 46]

  /** `elipsis`: a text shorter than `maxLen` bytes is kept; any other is cut to its first
      `maxLen - 3` bytes followed by "...", which needs `maxLen` to be at least 3. */
  function Elipsis(s: seq<byte>, maxLen: int): (r: seq<byte>)
    requires |s| < maxLen || maxLen >= 3
    ensures |s| < maxLen ==> r == s
    ensures |s| >= maxLen ==> |r| == maxLen && r[..maxLen - 3] == s[..maxLen - 3] && r[maxLen - 3..] == Dots
    ensures |r| <= maxLen
  {
    if |s| < maxLen then s else s[..maxLen - 3] + Dots
  }

  /** A text of exactly `maxLen` bytes is still cut, unless it already ends in "...". */
  lemma ExactLengthIsCut(s: seq<byte>, maxLen: int)
    requires |s| == maxLen >= 3
    ensures Elipsis(s, maxLen) == s <==> s[maxLen - 3..] == Dots
  {
    if s[maxLen - 3..] == Dots {
      assert s == s[..maxLen - 3] + s[maxLen - 3..];
    }
  }

  /** Cutting twice is cutting once. */
  lemma ElipsisIdempotent(s: seq<byte>, maxLen: int)
    requires |s| < maxLen || maxLen >= 3
    ensures Elipsis(Elipsis(s, maxLen), maxLen) == Elipsis(s, maxLen)
  {
    var r := Elipsis(s, maxLen);
    if |s| >= maxLen {
      assert r == r[..maxLen - 3] + r[maxLen - 3..];
    }
  }
}
