/** Helpers shared by the whole model: failure-carrying datatypes and the few pieces of the
    Go standard library (strings, strconv, path, encoding/hex) that the core relies on,
    written out so that their behaviour is part of what is verified. */
module Common {

  datatype Option<T> = None | Some(value: T)

  datatype Result<T, E> = Ok(value: T) | Err(error: E)

  /** A byte, as Go's `byte`. */
  type byte = b: int | 0 <= b < 256

  const MinInt64: int := -0x8000_0000_0000_0000
  const MaxInt64: int := 0x7FFF_FFFF_FFFF_FFFF

  // ---------------------------------------------------------------------------------------
  // strings.Join and its inverse for a one-character separator

  /** Go's `strings.Join`. */
  function Join(parts: seq<string>, sep: string): string
  {
    if |parts| == 0 then ""
    else if |parts| == 1 then parts[0]
    else parts[0] + sep + Join(parts[1..], sep)
  }

  /** Go's `strings.Split` for a one-character separator: always at least one piece. */
  function SplitOn(s: string, c: char): (pieces: seq<string>)
    ensures |pieces| >= 1
    decreases |s|
  {
    match IndexOf(s, c)
    case None => [s]
    case Some(i) => [s[..i]] + SplitOn(s[i + 1..], c)
  }

  /** The index of the first occurrence of `c` in `s`. */
  function IndexOf(s: string, c: char): (r: Option<nat>)
    ensures r.None? <==> c !in s
    ensures r.Some? ==> r.value < |s| && s[r.value] == c && c !in s[..r.value]
  {
    if |s| == 0 then None
    else if s[0] == c then Some(0)
    else match IndexOf(s[1..], c)
      case None => None
      case Some(i) => assert s[1..][..i] == s[1..i + 1]; Some(i + 1)
  }

  /** Splitting a join of pieces that do not contain the separator gives the pieces back. */
  lemma {:induction false} SplitJoin(parts: seq<string>, c: char)
    requires |parts| >= 1
    requires forall i :: 0 <= i < |parts| ==> c !in parts[i]
    ensures SplitOn(Join(parts, [c]), c) == parts
  {
    if |parts| == 1 {
    } else {
      var rest := Join(parts[1..], [c]);
      var s := parts[0] + [c] + rest;
      assert s[|parts[0]|] == c;
      assert s[..|parts[0]|] == parts[0];
      assert IndexOf(s, c) == Some(|parts[0]|);
      assert s[|parts[0]| + 1..] == rest;
      SplitJoin(parts[1..], c);
    }
  }

  /** Number of occurrences of `c` in `s`. */
  function Count(s: string, c: char): nat
  {
    if |s| == 0 then 0 else (if s[0] == c then 1 else 0) + Count(s[1..], c)
  }

  lemma {:induction false} CountAppend(a: string, b: string, c: char)
    ensures Count(a + b, c) == Count(a, c) + Count(b, c)
  {
    if |a| == 0 {
      assert a + b == b;
    } else {
      assert (a + b)[1..] == a[1..] + b;
      CountAppend(a[1..], b, c);
    }
  }

  lemma {:induction false} CountAbsent(s: string, c: char)
    requires c !in s
    ensures Count(s, c) == 0
  {
    if |s| > 0 {
      CountAbsent(s[1..], c);
    }
  }

  /** Go's `strings.Cut` for a one-character separator: the text before and after the
      first occurrence of the separator, or nothing when it does not occur. */
  function Cut(s: string, c: char): (r: Option<(string, string)>)
    ensures r.None? <==> c !in s
    ensures r.Some? ==> r.value.0 + [c] + r.value.1 == s && c !in r.value.0
  {
    match IndexOf(s, c)
    case None => None
    case Some(i) =>
      assert s[..i] + [c] + s[i + 1..] == s;
      Some((s[..i], s[i + 1..]))
  }

  /** Cut undoes the concatenation of a separator-free head, the separator and any tail. */
  lemma CutConcat(head: string, c: char, tail: string)
    requires c !in head
    ensures Cut(head + [c] + tail, c) == Some((head, tail))
  {
    var s := head + [c] + tail;
    assert s[|head|] == c;
    assert s[..|head|] == head;
    assert s[|head| + 1..] == tail;
  }

  // ---------------------------------------------------------------------------------------
  // characters

  function LowerChar(ch: char): char
  {
    if 'A' <= ch <= 'Z' then (ch as int - 'A' as int + 'a' as int) as char else ch
  }

  /** `strings.ToLower`, restricted to ASCII letters. */
  function ToLower(s: string): (r: string)
    ensures |r| == |s|
    ensures forall i :: 0 <= i < |s| ==> r[i] == LowerChar(s[i])
  {
    if |s| == 0 then "" else [LowerChar(s[0])] + ToLower(s[1..])
  }

  /** Go's `unicode.IsSpace`. */
  predicate IsSpace(ch: char)
  {
    ch == '\t' || ch == '\n' || ch == '\U{000B}' || ch == '\U{000C}' || ch == '\r' || ch == ' '
    || ch == '\U{0085}' || ch == '\U{00A0}' || ch == '\U{1680}' || ('\U{2000}' <= ch <= '\U{200A}')
    || ch == '\U{2028}' || ch == '\U{2029}' || ch == '\U{202F}' || ch == '\U{205F}' || ch == '\U{3000}'
  }

  function TrimLeft(s: string): (r: string)
    ensures |r| <= |s| && r == s[|s| - |r|..]
    ensures r == "" || !IsSpace(r[0])
    ensures forall i :: 0 <= i < |s| - |r| ==> IsSpace(s[i])
  {
    if |s| > 0 && IsSpace(s[0]) then TrimLeft(s[1..]) else s
  }

  function TrimRight(s: string): (r: string)
    ensures |r| <= |s| && r == s[..|r|]
    ensures r == "" || !IsSpace(r[|r| - 1])
    ensures forall i :: |r| <= i < |s| ==> IsSpace(s[i])
  {
    if |s| > 0 && IsSpace(s[|s| - 1]) then TrimRight(s[..|s| - 1]) else s
  }

  /** Go's `strings.TrimSpace`: the text with leading and trailing white space removed. */
  function TrimSpace(s: string): (r: string)
    ensures r == "" || (!IsSpace(r[0]) && !IsSpace(r[|r| - 1]))
    ensures |r| <= |s|
  {
    TrimRight(TrimLeft(s))
  }

  /** `strings.ReplaceAll(s, [c], "")`. */
  function RemoveChar(s: string, c: char): (r: string)
    ensures c !in r
    ensures |r| <= |s|
  {
    if |s| == 0 then "" else (if s[0] == c then "" else [s[0]]) + RemoveChar(s[1..], c)
  }

  /** `strings.Contains`. */
  predicate Contains<T(==)>(s: seq<T>, sub: seq<T>)
  {
    exists i | 0 <= i <= |s| - |sub| :: OccursAt(s, sub, i)
  }

  predicate OccursAt<T(==)>(s: seq<T>, sub: seq<T>, i: nat)
  {
    i + |sub| <= |s| && s[i..i + |sub|] == sub
  }

  /** A text found inside a prefix of `s` is found in `s`. */
  lemma ContainsPrefix<T>(p: seq<T>, s: seq<T>, sub: seq<T>)
    requires p <= s && Contains(p, sub)
    ensures Contains(s, sub)
  {
    var i :| 0 <= i <= |p| - |sub| && OccursAt(p, sub, i);
    assert s[i..i + |sub|] == p[i..i + |sub|];
    assert OccursAt(s, sub, i);
  }

  // ---------------------------------------------------------------------------------------
  // decimal integers: fmt's %v / strconv.Itoa and strconv.Atoi

  predicate IsDigit(ch: char) { '0' <= ch <= '9' }

  function DigitChar(d: nat): char
    requires d < 10
  {
    ('0' as int + d) as char
  }

  /** The decimal digits of `n`, without leading zeros. */
  function Digits(n: nat): (s: string)
    ensures |s| >= 1 && forall i :: 0 <= i < |s| ==> IsDigit(s[i])
  {
    if n < 10 then [DigitChar(n)] else Digits(n / 10) + [DigitChar(n % 10)]
  }

  /** The value of a string of decimal digits. */
  function DigitsValue(s: string): nat
    requires forall i :: 0 <= i < |s| ==> IsDigit(s[i])
  {
    if |s| == 0 then 0
    else
      assert IsDigit(s[|s| - 1]);
      DigitsValue(s[..|s| - 1]) * 10 + (s[|s| - 1] as int - '0' as int)
  }

  lemma {:induction false} DigitsValueOfDigits(n: nat)
    ensures DigitsValue(Digits(n)) == n
  {
    if n >= 10 {
      var s := Digits(n);
      assert s[..|s| - 1] == Digits(n / 10);
      DigitsValueOfDigits(n / 10);
    }
  }

  /** `strconv.Itoa` / `fmt.Sprintf("%v", n)` for an integer. */
  function IntToString(n: int): string
  {
    if n < 0 then "-" + Digits(-n) else Digits(n)
  }

  /** `strconv.Atoi` on a 64-bit platform: an optional sign followed by at least one decimal
      digit, whose value fits in an int64. Anything else (including the empty text of a
      missing header) is an error. */
  function Atoi(s: string): (r: Option<int>)
    ensures r.Some? ==> MinInt64 <= r.value <= MaxInt64
  {
    if |s| == 0 then None
    else
      var body := if s[0] == '-' || s[0] == '+' then s[1..] else s;
      if |body| == 0 || exists i | 0 <= i < |body| :: !IsDigit(body[i]) then None
      else
        var v: int := if s[0] == '-' then 0 - DigitsValue(body) as int else DigitsValue(body);
        if MinInt64 <= v <= MaxInt64 then Some(v) else None
  }

  /** Atoi reads back every int64 that Itoa writes. */
  lemma AtoiOfIntToString(n: int)
    requires MinInt64 <= n <= MaxInt64
    ensures Atoi(IntToString(n)) == Some(n)
  {
    var s := IntToString(n);
    if n < 0 {
      assert s[1..] == Digits(-n);
      DigitsValueOfDigits(-n);
    } else {
      DigitsValueOfDigits(n);
    }
  }

  // ---------------------------------------------------------------------------------------
  // encoding/hex

  /** A lower-case hexadecimal digit. */
  predicate IsHexDigit(ch: char)
  {
    '0' <= ch <= '9' || 'a' <= ch <= 'f'
  }

  function HexDigit(d: nat): (ch: char)
    requires d < 16
    ensures IsHexDigit(ch)
  {
    if d < 10 then ('0' as int + d) as char else ('a' as int + d - 10) as char
  }

  function HexValue(ch: char): (d: nat)
    requires IsHexDigit(ch)
    ensures d < 16
  {
    if '0' <= ch <= '9' then ch as int - '0' as int else ch as int - 'a' as int + 10
  }

  /** `hex.EncodeToString`: two lower-case hex digits per byte, high nibble first. */
  function HexEncode(bs: seq<byte>): (r: string)
    ensures |r| == 2 * |bs|
    ensures forall i :: 0 <= i < |r| ==> IsHexDigit(r[i])
  {
    if |bs| == 0 then ""
    else [HexDigit(bs[0] / 16), HexDigit(bs[0] % 16)] + HexEncode(bs[1..])
  }

  function HexDecode(s: string): seq<byte>
    requires |s| % 2 == 0
    requires forall i :: 0 <= i < |s| ==> IsHexDigit(s[i])
  {
    if |s| == 0 then [] else [HexValue(s[0]) * 16 + HexValue(s[1])] + HexDecode(s[2..])
  }

  /** Hex encoding loses nothing: decoding gives the bytes back, so equal digests and only
      equal digests have equal checksum strings. */
  lemma {:induction false} HexRoundTrip(bs: seq<byte>)
    ensures HexDecode(HexEncode(bs)) == bs
  {
    if |bs| > 0 {
      var s := HexEncode(bs);
      var hi, lo := HexDigit(bs[0] / 16), HexDigit(bs[0] % 16);
      assert s == [hi, lo] + HexEncode(bs[1..]);
      assert s[2..] == HexEncode(bs[1..]);
      assert HexValue(hi) == bs[0] / 16 && HexValue(lo) == bs[0] % 16;
      HexRoundTrip(bs[1..]);
    }
  }

  lemma HexInjective(a: seq<byte>, b: seq<byte>)
    requires HexEncode(a) == HexEncode(b)
    ensures a == b
  {
    HexRoundTrip(a);
    HexRoundTrip(b);
  }

  // ---------------------------------------------------------------------------------------
  // path and path/filepath on a '/'-separated system

  function LastIndexOf(s: string, c: char): (r: Option<nat>)
    ensures r.None? <==> c !in s
    ensures r.Some? ==> r.value < |s| && s[r.value] == c && c !in s[r.value + 1..]
  {
    if |s| == 0 then None
    else if s[|s| - 1] == c then Some(|s| - 1)
    else LastIndexOf(s[..|s| - 1], c)
  }

  function TrimTrailingSlashes(s: string): (r: string)
    ensures r <= s
    ensures r == "" || r[|r| - 1] != '/'
  {
    if |s| > 0 && s[|s| - 1] == '/' then TrimTrailingSlashes(s[..|s| - 1]) else s
  }

  /** Go's `path.Base`: the last element of a slash-separated path, "." for the empty path
      and "/" for a path of slashes only. */
  function Base(p: string): (r: string)
    ensures r != ""
    ensures r == "/" || '/' !in r
  {
    if p == "" then "."
    else
      var t := TrimTrailingSlashes(p);
      var last := match LastIndexOf(t, '/')
        case None => t
        case Some(i) => t[i + 1..];
      if last == "" then "/" else last
  }

  /** Go's `filepath.Split`: everything up to and including the last separator, and the
      rest. */
  function SplitPath(p: string): (r: (string, string))
    ensures r.0 + r.1 == p
    ensures '/' !in r.1
    ensures r.0 == "" || r.0[|r.0| - 1] == '/'
  {
    match LastIndexOf(p, '/')
    case None => ("", p)
    case Some(i) => assert p[..i + 1] + p[i + 1..] == p; (p[..i + 1], p[i + 1..])
  }

  /** One element in the lexical clean-up of `filepath.Clean`: an empty element (from a
      repeated separator) and "." are dropped; ".." removes the element kept before it,
      is dropped at the root, and is kept in a relative path with nothing to remove;
      any other element is kept. */
  function CleanStep(kept: seq<string>, elem: string, rooted: bool): seq<string>
  {
    if elem == "" || elem == "." then kept
    else if elem == ".." then
      if |kept| > 0 && kept[|kept| - 1] != ".." then kept[..|kept| - 1]
      else if rooted then kept
      else kept + [".."]
    else kept + [elem]
  }

  /** The elements kept after cleaning `elems` in order. */
  function CleanElems(kept: seq<string>, elems: seq<string>, rooted: bool): seq<string>
    decreases |elems|
  {
    if elems == [] then kept else CleanElems(CleanStep(kept, elems[0], rooted), elems[1..], rooted)
  }

  /** Go's `filepath.Clean` on a slash-separated path: the kept elements joined by single
      separators, after a "/" when the path is rooted, and "." when nothing is left. */
  function Clean(p: string): (r: string)
    ensures r != ""
  {
    if p == "" then "."
    else
      var rooted := p[0] == '/';
      var body := Join(CleanElems([], SplitOn(p, '/'), rooted), "/");
      if rooted then "/" + body else if body == "" then "." else body
  }

  /** `filepath.Join(dir, name)`: the empty elements are skipped and the rest joined by a
      separator and cleaned. */
  function JoinPath(dir: string, name: string): string
  {
    if dir == "" && name == "" then ""
    else if dir == "" then Clean(name)
    else Clean(dir + "/" + name)
  }

  /** A file name that cleaning leaves as it is: not empty, not "." or "..", and without a
      separator. */
  predicate PlainName(name: string)
  {
    name != "" && name != "." && name != ".." && '/' !in name
  }

  /** The first occurrence is at `i` when `s[i]` is `c` and nothing before it is. */
  lemma {:induction false} IndexOfAt(s: string, c: char, i: nat)
    requires i < |s| && s[i] == c && c !in s[..i]
    ensures IndexOf(s, c) == Some(i)
    decreases i
  {
    if i > 0 {
      assert s[..i][0] == s[0];
      assert s[1..][..i - 1] == s[1..i];
      assert forall k :: 0 <= k < i - 1 ==> s[1..i][k] == s[..i][k + 1];
      IndexOfAt(s[1..], c, i - 1);
    }
  }

  lemma {:induction false} SplitOnSnoc(d: string, name: string)
    requires '/' !in name
    ensures SplitOn(d + "/" + name, '/') == SplitOn(d, '/') + [name]
    decreases |d|
  {
    var p := d + "/" + name;
    match IndexOf(d, '/')
    case None =>
      assert p[|d|] == '/' && p[..|d|] == d;
      IndexOfAt(p, '/', |d|);
      assert p[|d| + 1..] == name;
      assert SplitOn(name, '/') == [name];
    case Some(i) =>
      assert p[..i] == d[..i] && p[i] == '/';
      IndexOfAt(p, '/', i);
      var tail := d[i + 1..];
      assert p[i + 1..] == tail + "/" + name;
      SplitOnSnoc(tail, name);
      ConcatAssoc([d[..i]], SplitOn(tail, '/'), [name]);
  }

  lemma {:induction false} CleanElemsSnoc(kept: seq<string>, elems: seq<string>, last: string, rooted: bool)
    ensures CleanElems(kept, elems + [last], rooted) == CleanStep(CleanElems(kept, elems, rooted), last, rooted)
    decreases |elems|
  {
    if elems == [] {
      assert CleanElems(CleanStep(kept, last, rooted), [], rooted) == CleanStep(kept, last, rooted);
    } else {
      assert (elems + [last])[1..] == elems[1..] + [last];
      CleanElemsSnoc(CleanStep(kept, elems[0], rooted), elems[1..], last, rooted);
    }
  }

  lemma {:induction false} JoinSnoc(parts: seq<string>, last: string)
    requires parts != []
    ensures Join(parts + [last], "/") == Join(parts, "/") + "/" + last
    decreases |parts|
  {
    if |parts| > 1 {
      assert (parts + [last])[1..] == parts[1..] + [last];
      JoinSnoc(parts[1..], last);
    }
  }

  lemma ConcatAssoc<T>(a: seq<T>, b: seq<T>, c: seq<T>)
    ensures a + (b + c) == (a + b) + c
  {
  }

  /** A plain name is already clean. */
  lemma CleanPlainName(name: string)
    requires PlainName(name)
    ensures Clean(name) == name
  {
    assert name[0] != '/' by { assert name[0] in name; }
    assert SplitOn(name, '/') == [name];
    assert CleanStep([], name, false) == [name];
    assert CleanElems([], [name], false) == CleanElems([name], [], false) == [name];
    assert Join([name], "/") == name;
  }

  /** Joining a plain name to a non-empty directory gives a prefix that is empty or ends
      with a separator, then the name. */
  lemma JoinedShape(dir: string, name: string) returns (prefix: string)
    requires PlainName(name) && dir != ""
    ensures JoinPath(dir, name) == prefix + name
    ensures prefix == "" || prefix[|prefix| - 1] == '/'
    ensures dir[0] == '/' ==> prefix != ""
  {
    var rooted := dir[0] == '/';
    var q := dir + "/" + name;
    assert q[0] == dir[0];
    SplitOnSnoc(dir, name);
    var kept := CleanElems([], SplitOn(dir, '/'), rooted);
    CleanElemsSnoc([], SplitOn(dir, '/'), name, rooted);
    assert CleanStep(kept, name, rooted) == kept + [name];
    var stack := CleanElems([], SplitOn(q, '/'), rooted);
    assert stack == kept + [name];
    var body := Join(stack, "/");
    var rest;
    if kept == [] {
      assert body == Join([name], "/") == name;
      rest := "";
    } else {
      JoinSnoc(kept, name);
      rest := Join(kept, "/") + "/";
    }
    assert body == rest + name;
    assert JoinPath(dir, name) == Clean(q) == (if rooted then "/" + body else body);
    if rooted {
      prefix := "/" + rest;
      ConcatAssoc("/", rest, name);
    } else {
      prefix := rest;
    }
  }

  /** The file part of a plain name joined to any directory is that name. */
  lemma JoinPlainName(dir: string, name: string)
    requires PlainName(name)
    ensures SplitPath(JoinPath(dir, name)).1 == name
  {
    var p := JoinPath(dir, name);
    if dir == "" {
      CleanPlainName(name);
    } else {
      var prefix := JoinedShape(dir, name);
      if prefix != "" {
        LastIndexAfter(prefix, name, '/');
        assert p[..|prefix|] == prefix && p[|prefix|..] == name;
      }
    }
  }

  /** A name joined to "." is the bare name, with no directory part: `filepath.Split`
      leaves an empty directory. */
  lemma JoinDotIsBare(name: string)
    requires PlainName(name)
    ensures JoinPath(".", name) == name
    ensures SplitPath(JoinPath(".", name)).0 == ""
  {
    SplitOnSnoc(".", name);
    assert SplitOn(".", '/') == ["."];
    CleanElemsSnoc([], ["."], name, false);
    assert CleanElems([], ["."], false) == [];
    assert ("./" + name)[0] == '.';
    assert Join([name], "/") == name;
  }

  lemma {:induction false} LastIndexAfter(a: string, b: string, c: char)
    requires |a| > 0 && a[|a| - 1] == c && c !in b
    ensures LastIndexOf(a + b, c) == Some(|a| - 1)
  {
    if |b| == 0 {
      assert a + b == a;
    } else {
      assert (a + b)[..|a + b| - 1] == a + b[..|b| - 1];
      LastIndexAfter(a, b[..|b| - 1], c);
    }
  }

  // ---------------------------------------------------------------------------------------
  // maps, net/url.Values and flattening

  /** A map lookup with Go's comma-ok: None for a missing key. */
  function MapGet<K, V>(m: map<K, V>, k: K): Option<V>
  {
    if k in m then Some(m[k]) else None
  }

  /** `url.Values`: each key with its values in the order they were added. Keys are kept
      abstract here; each query's key type names the text a key is sent as. */
  type Values<K(==)> = map<K, seq<string>>

  /** `query[key]`: the values of `key`, none when it is absent. */
  function ValuesOf<K(==)>(q: Values<K>, key: K): seq<string>
  {
    if key in q then q[key] else []
  }

  /** `Set` and `Add` never leave a key with no values. */
  predicate NoEmptyKey<K(==)>(q: Values<K>)
  {
    forall k :: k in q ==> q[k] != []
  }

  /** The elements of every sequence in turn. */
  function Concat<T>(ss: seq<seq<T>>): seq<T>
  {
    if |ss| == 0 then [] else Concat(ss[..|ss| - 1]) + ss[|ss| - 1]
  }

  /** `query.Add(key, v)` for each of `vals`: the values are appended, and a key gets no
      entry from an empty list. */
  function Put<K(==)>(q: Values<K>, key: K, vals: seq<string>): Values<K>
  {
    if vals == [] then q else q[key := ValuesOf(q, key) + vals]
  }

  /** `query.Add(key, v)` for each value in turn. */
  method AddAll<K(==)>(query: Values<K>, key: K, vals: seq<string>) returns (r: Values<K>)
    ensures r == Put(query, key, vals)
  {
    r := query;
    for i := 0 to |vals|
      invariant r == Put(query, key, vals[..i])
    {
      assert vals[..i + 1] == vals[..i] + [vals[i]];
      assert ValuesOf(r, key) + [vals[i]] == ValuesOf(query, key) + vals[..i + 1];
      r := r[key := ValuesOf(r, key) + [vals[i]]];
    }
    assert vals[..|vals|] == vals;
  }
}
