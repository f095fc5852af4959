/**
 * Resource paths: the segments a chain of accesses accumulates and the URL
 * they render to, "/" followed by the segments joined with "/".
 */
module Paths {
  import opened Wrappers
  import opened Http

  /**
   * A key used to extend a path. Any key is accepted when the path is built;
   * only string keys can be joined into a URL.
   */
  datatype Key = Name(name: string) | NonString(typeName: string)

  /** The separator of path segments. */
  const Slash: char := '/'

  /** The total length of the parts. */
  function TotalLength(parts: seq<string>): nat
    decreases |parts|
  {
    if |parts| == 0 then 0 else |parts[0]| + TotalLength(parts[1..])
  }

  /**
   * The parts joined with `sep` between consecutive ones: the empty list
   * joins to "", the result starts with the first part, and its length is
   * that of the parts plus one separator per gap.
   */
  function Join(parts: seq<string>, sep: string): (r: string)
    ensures |parts| == 0 ==> r == ""
    ensures |parts| >= 1 ==> parts[0] <= r
    ensures |r| == TotalLength(parts) + (if |parts| == 0 then 0 else (|parts| - 1) * |sep|)
    decreases |parts|
  {
    if |parts| == 0 then ""
    else if |parts| == 1 then parts[0]
    else parts[0] + sep + Join(parts[1..], sep)
  }

  /** Joining one more part appends the separator and that part. */
  lemma {:induction false} JoinAppend(parts: seq<string>, x: string, sep: string)
    requires |parts| >= 1
    ensures Join(parts + [x], sep) == Join(parts, sep) + sep + x
    decreases |parts|
  {
    if |parts| > 1 {
      assert (parts + [x])[1..] == parts[1..] + [x];
      JoinAppend(parts[1..], x, sep);
    }
  }

  /**
   * `s` cut at every occurrence of `c`; the pieces contain no `c`, and
   * there is always at least one piece.
   */
  function SplitOn(s: string, c: char): (r: seq<string>)
    ensures |r| >= 1
    ensures forall i :: 0 <= i < |r| ==> c !in r[i]
    decreases |s|
  {
    if |s| == 0 then [""]
    else if s[0] == c then [""] + SplitOn(s[1..], c)
    else
      var rest := SplitOn(s[1..], c);
      [[s[0]] + rest[0]] + rest[1..]
  }

  lemma {:induction false} SplitNoSeparator(a: string, c: char)
    requires c !in a
    ensures SplitOn(a, c) == [a]
    decreases |a|
  {
    if |a| > 0 {
      SplitNoSeparator(a[1..], c);
      assert [a[0]] + a[1..] == a;
    }
  }

  lemma {:induction false} SplitAtSeparator(a: string, b: string, c: char)
    requires c !in a
    ensures SplitOn(a + [c] + b, c) == [a] + SplitOn(b, c)
    decreases |a|
  {
    var s := a + [c] + b;
    if |a| == 0 {
      assert s == [c] + b;
      assert s[1..] == b;
    } else {
      assert s[1..] == a[1..] + [c] + b;
      SplitAtSeparator(a[1..], b, c);
      assert [a[0]] + a[1..] == a;
    }
  }

  /** Splitting a join of separator-free parts gives the parts back. */
  lemma {:induction false} SplitJoin(parts: seq<string>, c: char)
    requires |parts| >= 1
    requires forall i :: 0 <= i < |parts| ==> c !in parts[i]
    ensures SplitOn(Join(parts, [c]), c) == parts
    decreases |parts|
  {
    if |parts| == 1 {
      SplitNoSeparator(parts[0], c);
    } else {
      SplitAtSeparator(parts[0], Join(parts[1..], [c]), c);
      SplitJoin(parts[1..], c);
      assert [parts[0]] + parts[1..] == parts;
    }
  }

  /** The index of the first key that is not a string, if there is one. */
  function FirstNonString(keys: seq<Key>): (r: Option<nat>)
    ensures r.None? <==> forall j :: 0 <= j < |keys| ==> keys[j].Name?
    ensures r.Some? ==> r.value < |keys| && keys[r.value].NonString?
    ensures r.Some? ==> forall j :: 0 <= j < r.value ==> keys[j].Name?
    decreases |keys|
  {
    if |keys| == 0 then None
    else if keys[0].NonString? then Some(0)
    else match FirstNonString(keys[1..])
      case None => None
      case Some(i) => Some(i + 1)
  }

  /** The strings held by keys that are all strings. */
  function Names(keys: seq<Key>): (r: seq<string>)
    requires forall j :: 0 <= j < |keys| ==> keys[j].Name?
    ensures |r| == |keys|
    ensures forall j :: 0 <= j < |keys| ==> keys[j] == Name(r[j])
  {
    seq(|keys|, j requires 0 <= j < |keys| => keys[j].name)
  }

  /**
   * The URL of a path: "/" followed by its segments joined with "/", or the
   * error the join raises at the first segment that is not a string.
   */
  function ResourceUrl(keys: seq<Key>): (r: Result<string, Error>)
    ensures r.Failure? <==> exists j :: 0 <= j < |keys| && keys[j].NonString?
    ensures r.Failure? ==> r.error.SegmentTypeError? && r.error.index < |keys|
                           && keys[r.error.index].NonString?
                           && forall j :: 0 <= j < r.error.index ==> keys[j].Name?
    ensures r.Success? ==> |r.value| >= 1 && r.value[0] == Slash
  {
    match FirstNonString(keys)
    case Some(i) => Failure(SegmentTypeError(i))
    case None => Success([Slash] + Join(Names(keys), [Slash]))
  }

  /** The empty path renders as "/", the URL of the client itself. */
  lemma RootUrl()
    ensures ResourceUrl([]) == Success("/")
  {
    assert FirstNonString([]) == None;
    assert Join(Names([]), [Slash]) == "";
    assert [Slash] + "" == "/";
  }

  /**
   * A path of string segments renders as "/" followed by them joined with "/".
   */
  lemma UrlOfNames(names: seq<string>)
    ensures ResourceUrl(seq(|names|, j requires 0 <= j < |names| => Name(names[j])))
            == Success("/" + Join(names, "/"))
  {
    var keys := seq(|names|, j requires 0 <= j < |names| => Name(names[j]));
    assert Names(keys) == names;
  }

  /** A two-segment path renders as "/a/b". */
  lemma UrlOfTwo(a: string, b: string)
    ensures ResourceUrl([Name(a), Name(b)]) == Success("/" + a + "/" + b)
  {
    var keys := [Name(a), Name(b)];
    assert FirstNonString(keys) == None;
    assert Names(keys) == [a, b];
    assert [a, b][1..] == [b];
    assert Join([a, b], [Slash]) == a + [Slash] + b;
    assert [Slash] + (a + [Slash] + b) == "/" + a + "/" + b;
  }

  /** A three-segment path renders as "/a/b/c". */
  lemma UrlOfThree(a: string, b: string, c: string)
    ensures ResourceUrl([Name(a), Name(b), Name(c)]) == Success("/" + a + "/" + b + "/" + c)
  {
    UrlOfTwo(a, b);
    AppendedUrl([Name(a), Name(b)], c);
    assert [Name(a), Name(b)] + [Name(c)] == [Name(a), Name(b), Name(c)];
  }

  /**
   * One more string segment extends the URL of a non-empty path by "/" and
   * that segment.
   */
  lemma AppendedUrl(keys: seq<Key>, k: string)
    requires |keys| >= 1
    requires ResourceUrl(keys).Success?
    ensures ResourceUrl(keys + [Name(k)]) == Success(ResourceUrl(keys).value + "/" + k)
  {
    var ks := keys + [Name(k)];
    assert forall j :: 0 <= j < |ks| ==> ks[j].Name?;
    assert Names(ks) == Names(keys) + [k];
    JoinAppend(Names(keys), k, [Slash]);
    assert ResourceUrl(ks).value == [Slash] + Join(Names(keys), [Slash]) + [Slash] + k;
  }

  /** A URL split back into its segments, the inverse of rendering. */
  function ParseUrl(url: string): (r: seq<string>)
    ensures |r| >= 1
  {
    if |url| >= 1 && url[0] == Slash then SplitOn(url[1..], Slash) else SplitOn(url, Slash)
  }

  /**
   * Rendering a non-empty path whose segments hold no "/" loses nothing:
   * parsing the URL gives the segments back.
   */
  lemma ParseRenderedUrl(keys: seq<Key>)
    requires |keys| >= 1
    requires forall j :: 0 <= j < |keys| ==> keys[j].Name? && Slash !in keys[j].name
    ensures ResourceUrl(keys).Success?
    ensures ParseUrl(ResourceUrl(keys).value) == Names(keys)
  {
    var names := Names(keys);
    var url := [Slash] + Join(names, [Slash]);
    assert url[1..] == Join(names, [Slash]);
    SplitJoin(names, Slash);
  }

  /** So two such paths with the same URL are the same path. */
  lemma UrlInjective(a: seq<Key>, b: seq<Key>)
    requires |a| >= 1 && |b| >= 1
    requires forall j :: 0 <= j < |a| ==> a[j].Name? && Slash !in a[j].name
    requires forall j :: 0 <= j < |b| ==> b[j].Name? && Slash !in b[j].name
    requires ResourceUrl(a) == ResourceUrl(b)
    ensures a == b
  {
    ParseRenderedUrl(a);
    ParseRenderedUrl(b);
    assert Names(a) == Names(b);
  }

  /**
   * Without the non-empty requirement rendering is not injective: the empty
   * path and the path of one empty segment both render as "/".
   */
  lemma EmptySegmentIsRoot()
    ensures ResourceUrl([Name("")]) == ResourceUrl([])
  {
    assert Names([Name("")]) == [""];
  }
}
