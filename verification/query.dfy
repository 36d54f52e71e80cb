/**
 * The request URL that fetch() builds from the stream's configuration, and a
 * reader that recovers the configuration from such a URL, as the forum's API
 * reads its query string.
 */
module Query {
  import opened Wrappers
  import opened PhpStrings

  const ApiPath := "/api/discussions?include="
  const LimitParameter := "&page[limit]="
  const TagFilter := "&filter[q]=tag:"

  /**
   * PHP truthiness of the tag field: null, "" and "0" are all false, so each
   * of them leaves the filter off.
   */
  predicate TagIsSet(tag: Option<string>)
  {
    tag.Some? && tag.value != "" && tag.value != "0"
  }

  /** The URL fetch() requests; urlencode is the library function it applies to the tag. */
  function FetchUrl(base: string, includes: seq<string>, limit: int, tag: Option<string>,
                    urlencode: string -> string): (url: string)
    ensures base + ApiPath <= url
  {
    base + ApiPath + Implode(',', includes) + LimitParameter + IntToString(limit)
    + (if TagIsSet(tag) then TagFilter + urlencode(tag.value) else "")
  }

  /** What a reader of the URL recovers: include names, page limit and the encoded tag. */
  datatype Request = Request(includes: seq<string>, limit: int, encodedTag: Option<string>)

  /** The longest prefix of s without c. */
  function TakeUntil(s: string, c: char): (r: string)
    ensures r <= s && c !in r
    ensures r == s || s[|r|] == c
  {
    if s == [] || s[0] == c then [] else [s[0]] + TakeUntil(s[1..], c)
  }

  /** The include list from its comma-separated form; an empty value names nothing. */
  function IncludeNames(s: string): seq<string>
  {
    if s == "" then [] else Explode(',', s)
  }

  /** Reads a URL of the shape FetchUrl builds for the given base URL. */
  function ParseFetchUrl(base: string, url: string): Option<Request>
  {
    var head := base + ApiPath;
    if head <= url then ParseQuery(url[|head|..]) else None
  }

  /** Reads what follows "include=": the names, then the limit parameter and the rest. */
  function ParseQuery(query: string): Option<Request>
  {
    var names := TakeUntil(query, '&');
    var afterNames := query[|names|..];
    if !(LimitParameter <= afterNames) then None
    else
      match ParseLimitAndTag(afterNames[|LimitParameter|..])
      case None => None
      case Some(parsed) => Some(Request(IncludeNames(names), parsed.0, parsed.1))
  }

  /** Reads the limit value and the optional tag filter that may follow it. */
  function ParseLimitAndTag(s: string): Option<(int, Option<string>)>
  {
    var digits := TakeUntil(s, '&');
    var tail := s[|digits|..];
    match ParseInt(digits)
    case None => None
    case Some(n) =>
      if tail == "" then Some((n, None))
      else if TagFilter <= tail then Some((n, Some(tail[|TagFilter|..])))
      else None
  }

  /** An include name that survives the round trip through the query string. */
  predicate PlainName(name: string)
  {
    name != "" && ',' !in name && '&' !in name
  }

  lemma {:induction false} TakeUntilStops(a: string, b: string, c: char)
    requires c !in a
    requires b == [] || b[0] == c
    ensures TakeUntil(a + b, c) == a
  {
    if a != [] {
      assert (a + b)[1..] == a[1..] + b;
      TakeUntilStops(a[1..], b, c);
    }
  }

  lemma LimitAndTagRoundTrip(limit: int, encodedTag: Option<string>)
    ensures var suffix := if encodedTag.Some? then TagFilter + encodedTag.value else "";
            ParseLimitAndTag(IntToString(limit) + suffix) == Some((limit, encodedTag))
  {
    var digits := IntToString(limit);
    var suffix := if encodedTag.Some? then TagFilter + encodedTag.value else "";
    assert '&' !in digits;
    TakeUntilStops(digits, suffix, '&');
    assert (digits + suffix)[|digits|..] == suffix;
    IntRoundTrip(limit);
    if encodedTag.Some? {
      assert suffix[|TagFilter|..] == encodedTag.value;
    }
  }

  lemma QueryRoundTrip(includes: seq<string>, rest: string)
    requires forall k :: 0 <= k < |includes| ==> PlainName(includes[k])
    ensures var names := Implode(',', includes);
            ParseQuery(names + LimitParameter + rest)
            == match ParseLimitAndTag(rest)
               case None => None
               case Some(parsed) => Some(Request(includes, parsed.0, parsed.1))
  {
    var names := Implode(',', includes);
    ImplodeAvoids(',', includes, '&');
    assert names + LimitParameter + rest == names + (LimitParameter + rest);
    TakeUntilStops(names, LimitParameter + rest, '&');
    assert (names + (LimitParameter + rest))[|names|..] == LimitParameter + rest;
    assert (LimitParameter + rest)[|LimitParameter|..] == rest;
    if includes != [] {
      ImplodeRoundTrip(',', includes);
    }
    assert IncludeNames(names) == includes;
  }

  /** The request URL carries exactly the include list, the limit and the encoded tag. */
  lemma FetchUrlRoundTrip(base: string, includes: seq<string>, limit: int, tag: Option<string>,
                          urlencode: string -> string)
    requires forall k :: 0 <= k < |includes| ==> PlainName(includes[k])
    ensures ParseFetchUrl(base, FetchUrl(base, includes, limit, tag, urlencode))
         == Some(Request(includes, limit, if TagIsSet(tag) then Some(urlencode(tag.value)) else None))
  {
    var head := base + ApiPath;
    var encodedTag := if TagIsSet(tag) then Some(urlencode(tag.value)) else None;
    var suffix := if encodedTag.Some? then TagFilter + encodedTag.value else "";
    var names := Implode(',', includes);
    var digits := IntToString(limit);
    var query := names + LimitParameter + (digits + suffix);
    assert FetchUrl(base, includes, limit, tag, urlencode) == head + query by {
      assert head + names + LimitParameter + digits + suffix == head + (names + LimitParameter + digits + suffix);
      assert names + LimitParameter + digits + suffix == query;
    }
    HeadThenQuery(base, query);
    QueryRoundTrip(includes, digits + suffix);
    LimitAndTagRoundTrip(limit, encodedTag);
  }

  lemma HeadThenQuery(base: string, query: string)
    ensures ParseFetchUrl(base, base + ApiPath + query) == ParseQuery(query)
  {
    assert (base + ApiPath + query)[|base + ApiPath|..] == query;
  }

  /** With the default include list and limit and no tag, the request URL as literal text. */
  lemma DefaultFetchUrl(base: string, urlencode: string -> string)
    ensures FetchUrl(base, ["startUser", "startPost"], 5, None, urlencode)
         == base + "/api/discussions?include=startUser,startPost&page[limit]=5"
  {
    DefaultQuery();
    assert FetchUrl(base, ["startUser", "startPost"], 5, None, urlencode)
        == base + (ApiPath + Implode(',', ["startUser", "startPost"]) + LimitParameter + IntToString(5));
  }

  lemma DefaultQuery()
    ensures ApiPath + Implode(',', ["startUser", "startPost"]) + LimitParameter + IntToString(5)
         == "/api/discussions?include=startUser,startPost&page[limit]=5"
  {
    assert Implode(',', ["startUser", "startPost"]) == "startUser,startPost" by {
      assert ["startUser", "startPost"][1..] == ["startPost"];
    }
    assert IntToString(5) == "5" by {
      assert NatToString(5) == [DigitChar(5)];
    }
  }

  /** Setting a tag only appends the filter to the URL built without one. */
  lemma TagOnlyAppends(base: string, includes: seq<string>, limit: int, tag: Option<string>,
                       urlencode: string -> string)
    ensures FetchUrl(base, includes, limit, tag, urlencode)
         == FetchUrl(base, includes, limit, None, urlencode)
            + (if TagIsSet(tag) then TagFilter + urlencode(tag.value) else "")
  {
  }
}
