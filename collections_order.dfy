/** cmd/collections/order.go: the check the `collections` command makes on its sort
    field. */
module CollectionsOrder {
  import opened Common

  /** `sortFields` as written, whose last name is misspelt. */
  const SortFieldsAsWritten: seq<string> := [
    "title", "shortname", "start_date", "platform", "instrument", "sensor", "provider", "revsion_date"]

  /** The sort fields with the revision date spelt as the search service spells it. */
  const SortFields: seq<string> := [
    "title", "shortname", "start_date", "platform", "instrument", "sensor", "provider", "revision_date"]

  /** `validSortField` over a given list of names: every '-' is removed, then the rest is
      compared with each name in turn. */
  method AcceptsSortField(fields: seq<string>, val: string) returns (ok: bool)
    ensures ok <==> RemoveChar(val, '-') in fields
  {
    var stripped := RemoveChar(val, '-');
    for i := 0 to |fields|
      invariant stripped !in fields[..i]
    {
      if stripped == fields[i] {
        return true;
      }
    }
    assert fields[..|fields|] == fields;
    return false;
  }

  /** `validSortField` as written. */
  method ValidSortFieldAsWritten(val: string) returns (ok: bool)
    ensures ok <==> RemoveChar(val, '-') in SortFieldsAsWritten
  {
    ok := AcceptsSortField(SortFieldsAsWritten, val);
  }

  /** `validSortField` with the revision date spelt correctly. */
  method ValidSortField(val: string) returns (ok: bool)
    ensures ok <==> RemoveChar(val, '-') in SortFields
  {
    ok := AcceptsSortField(SortFields, val);
  }

  /** Removing a character from a text that does not hold it changes nothing. */
  lemma {:induction false} RemoveAbsent(s: string, c: char)
    requires c !in s
    ensures RemoveChar(s, c) == s
  {
    if |s| > 0 {
      assert c !in s[1..];
      RemoveAbsent(s[1..], c);
    }
  }

  /** Removing a character from a concatenation removes it from each part. */
  lemma {:induction false} RemoveConcat(a: string, b: string, c: char)
    ensures RemoveChar(a + b, c) == RemoveChar(a, c) + RemoveChar(b, c)
  {
    if |a| > 0 {
      assert (a + b)[1..] == a[1..] + b;
      RemoveConcat(a[1..], b, c);
    } else {
      assert a + b == b;
    }
  }

  /** A hyphen anywhere in the value is ignored. */
  lemma HyphenIgnored(a: string, b: string)
    ensures RemoveChar(a + "-" + b, '-') == RemoveChar(a + b, '-')
  {
    RemoveConcat(a + "-", b, '-');
    RemoveConcat(a, "-", '-');
    RemoveConcat(a, b, '-');
  }

  /** Every listed field is accepted both as given and with a leading '-', the descending
      order. */
  lemma ListedAccepted(fields: seq<string>, i: nat)
    requires i < |fields| && '-' !in fields[i]
    ensures RemoveChar(fields[i], '-') in fields
    ensures RemoveChar("-" + fields[i], '-') in fields
  {
    var f := fields[i];
    RemoveAbsent(f, '-');
    RemoveConcat("-", f, '-');
    assert "-"[1..] == "";
    assert RemoveChar("-", '-') == "";
    assert RemoveChar("-" + f, '-') == "" + f == f;
  }

  /** A value without hyphens is accepted only when it is listed as it stands. */
  lemma UnhyphenatedRefused(fields: seq<string>, v: string)
    requires '-' !in v && v !in fields
    ensures RemoveChar(v, '-') !in fields
  {
    RemoveAbsent(v, '-');
  }

  /** The name the search service sorts revisions by is refused as written. */
  lemma RevisionDateRefusedAsWritten()
    ensures RemoveChar("revision_date", '-') !in SortFieldsAsWritten
  {
    UnhyphenatedRefused(SortFieldsAsWritten, "revision_date");
  }

  /** The misspelt name is accepted as written, and the correct one once corrected. */
  lemma RevisionDateAcceptedWhenCorrected()
    ensures RemoveChar("revsion_date", '-') in SortFieldsAsWritten
    ensures RemoveChar("revision_date", '-') in SortFields
  {
    ListedAccepted(SortFieldsAsWritten, 7);
    ListedAccepted(SortFields, 7);
  }

  /** The corrected list differs from the written one only in its last name. */
  lemma OnlyRevisionDateChanged()
    ensures |SortFields| == |SortFieldsAsWritten|
    ensures SortFields[..7] == SortFieldsAsWritten[..7]
  {
  }
}
