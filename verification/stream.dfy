/**
 * FlarumDiscussionStream: a fluent configuration, one fetch that indexes the
 * response, and the accessors the listing template uses.
 *
 * The network request and the JSON decoder are parameters of Fetch: fetchBody
 * stands for file_get_contents (None when it fails) and jsonDecode for
 * json_decode (Null both for a body that is not JSON and for the literal null).
 */
module Stream {
  import opened Wrappers
  import opened Json
  import opened Store
  import Query

  const DefaultFlarumUrl := "https://manslandlife.tk/forum/v2"
  const DefaultLimit := 5
  const DefaultIncludes := ["startUser", "startPost"]

  /** What queryAndParse leaves behind and how it ends, given what the network and the decoder return. */
  function AfterQuery(base: string, previous: State, url: string,
                      fetchBody: string -> Option<string>, jsonDecode: string -> Json): (r: (State, Outcome))
    ensures fetchBody(url).None? ==> r == (previous, Failed(CouldNotFetch))
    ensures fetchBody(url).Some? && jsonDecode(fetchBody(url).value) == Null ==> r == (previous, Failed(CouldNotDecode))
  {
    match fetchBody(url)
    case None => (previous, Failed(CouldNotFetch))
    case Some(body) =>
      var document := jsonDecode(body);
      if document == Null then (previous, Failed(CouldNotDecode))
      else AfterParse(base, previous, document)
  }

  class DiscussionStream {
    var flarumUrl: string
    var limit: int
    var tag: Option<string>
    var includes: seq<string>
    var state: State

    /** The index only ever holds resources filed under their own type and id. */
    ghost predicate Valid()
      reads this
    {
      state.Fetched? ==> WellKeyed(state.included) && NoEmptyType(state.included)
    }

    constructor ()
      ensures Valid()
      ensures flarumUrl == DefaultFlarumUrl && limit == DefaultLimit && tag == None
      ensures includes == DefaultIncludes && state == Unfetched
    {
      flarumUrl := DefaultFlarumUrl;
      limit := DefaultLimit;
      tag := None;
      includes := DefaultIncludes;
      state := Unfetched;
    }

    method Tag(newTag: Option<string>) returns (self: DiscussionStream)
      requires Valid()
      modifies this`tag
      ensures Valid()
      ensures self == this && tag == newTag
    {
      tag := newTag;
      self := this;
    }

    method Limit(newLimit: int) returns (self: DiscussionStream)
      requires Valid()
      modifies this`limit
      ensures Valid()
      ensures self == this && limit == newLimit
    {
      limit := newLimit;
      self := this;
    }

    method ReplaceInclude(newIncludes: seq<string>) returns (self: DiscussionStream)
      requires Valid()
      modifies this`includes
      ensures Valid()
      ensures self == this && includes == newIncludes
    {
      includes := newIncludes;
      self := this;
    }

    /** The URL fetch() requests. */
    function RequestUrl(urlencode: string -> string): string
      reads this
    {
      Query.FetchUrl(flarumUrl, includes, limit, tag, urlencode)
    }

    /** fetch(): builds the URL, queries and parses; on success returns the stream itself. */
    method Fetch(urlencode: string -> string, fetchBody: string -> Option<string>, jsonDecode: string -> Json)
      returns (r: Result<DiscussionStream>)
      requires Valid()
      modifies this`state
      ensures Valid()
      ensures var (after, outcome) := AfterQuery(flarumUrl, old(state), RequestUrl(urlencode), fetchBody, jsonDecode);
              && state == after
              && (outcome == Done ==> r == Ok(this))
              && (outcome.Failed? ==> r == Err(outcome.error))
    {
      var url := Query.FetchUrl(flarumUrl, includes, limit, tag, urlencode);
      var outcome := QueryAndParse(url, fetchBody, jsonDecode);
      if outcome.Failed? {
        return Err(outcome.error);
      }
      r := Ok(this);
    }

    /** queryAndParse(url): a failed request or decode throws before the state is touched. */
    method QueryAndParse(url: string, fetchBody: string -> Option<string>, jsonDecode: string -> Json)
      returns (outcome: Outcome)
      requires Valid()
      modifies this`state
      ensures Valid()
      ensures (state, outcome) == AfterQuery(flarumUrl, old(state), url, fetchBody, jsonDecode)
    {
      var response := fetchBody(url);
      if response.None? {
        return Failed(CouldNotFetch);
      }
      var document := jsonDecode(response.value);
      if document == Null {
        return Failed(CouldNotDecode);
      }
      outcome := Parse(document);
    }

    /**
     * The part of queryAndParse after decoding: check the document, reset the
     * state, store the data entries, then file the included ones. An
     * exception thrown after the reset leaves what was stored so far.
     */
    method Parse(document: Json) returns (outcome: Outcome)
      requires Valid()
      modifies this`state
      ensures Valid()
      ensures (state, outcome) == AfterParse(flarumUrl, old(state), document)
    {
      if !Has(document, "data") || !document.members["data"].Arr? {
        return Failed(InvalidResponse);
      }
      state := Fetched([], map[]);
      var dataError := StoreData(document.members["data"].items);
      if dataError.Some? {
        return Failed(dataError.value);
      }
      if !Has(document, "included") {
        return Done;
      }
      if !document.members["included"].Arr? {
        return Failed(InvalidResponse);
      }
      var indexError := FileIncluded(document.members["included"].items);
      outcome := if indexError.Some? then Failed(indexError.value) else Done;
    }

    /** The data loop of queryAndParse: appends each entry, with its url when it is a slugged discussion. */
    method StoreData(entries: seq<Json>) returns (error: Option<Error>)
      requires state == Fetched([], map[])
      modifies this`state
      ensures (state, error) == (Fetched(Decorated(flarumUrl, entries).0, map[]), Decorated(flarumUrl, entries).1)
    {
      var i := 0;
      while i < |entries|
        invariant 0 <= i <= |entries|
        invariant state.Fetched? && state.included == map[]
        invariant Decorated(flarumUrl, entries[..i]) == (state.data, None)
      {
        assert entries[..i + 1][..i] == entries[..i];
        match WithUrl(flarumUrl, entries[i]) {
          case Err(e) =>
            DecoratedStops(flarumUrl, entries, i + 1);
            return Some(e);
          case Ok(entry) =>
            state := state.(data := state.data + [entry]);
        }
        i := i + 1;
      }
      assert entries[..i] == entries;
      error := None;
    }

    /**
     * The included loop of queryAndParse: files each entry under its type and
     * id, creating the type's table first when needed.
     */
    method FileIncluded(included: seq<Json>) returns (error: Option<Error>)
      requires state.Fetched? && state.included == map[]
      modifies this`state
      ensures (state, error) == (Fetched(old(state.data), Indexed(included).0), Indexed(included).1)
    {
      var j := 0;
      while j < |included|
        invariant 0 <= j <= |included|
        invariant state.Fetched? && state.data == old(state.data)
        invariant Indexed(included[..j]) == (state.included, None)
      {
        var resource := included[j];
        if !HasTypeAndId(resource) {
          assert included[..j + 1][..j] == included[..j];
          IndexedStops(included, j + 1);
          return Some(MissingTypeOrIdInIncluded);
        }
        var kind, id := resource.kind.value, resource.id.value;
        ghost var before := state.included;
        if kind !in state.included {
          state := state.(included := state.included[kind := map[]]);
        }
        state := state.(included := state.included[kind := state.included[kind][id := resource]]);
        PutInTwoSteps(before, kind, id, resource);
        IndexedStep(included, j);
        j := j + 1;
      }
      assert included[..j] == included;
      error := None;
    }

    /** discussions(): the stored data entries, or an exception before any fetch. */
    method Discussions() returns (r: Result<seq<Json>>)
      ensures r == Store.Discussions(state)
      ensures r.Ok? <==> state.Fetched?
    {
      if state.Unfetched? {
        return Err(DataNotReady);
      }
      r := Ok(state.data);
    }

    /** relationship(pointer): the included resource a pointer or its envelope names. */
    method Relationship(pointer: Json) returns (r: Result<Json>)
      requires Valid()
      ensures r == Store.Relationship(state, pointer)
      ensures r.Ok? ==> IsResource(r.value, Target(pointer).kind.value, Target(pointer).id.value)
    {
      var target := pointer;
      if Has(target, "data") {
        target := target.members["data"];
      }
      if !HasTypeAndId(target) {
        return Err(MissingTypeOrIdInPointer);
      }
      if state.Unfetched? {
        return Err(IndexMissing);
      }
      var kind, id := target.kind.value, target.id.value;
      if kind !in state.included || id !in state.included[kind] {
        return Err(NoSuchResource(kind, id));
      }
      r := Ok(state.included[kind][id]);
    }
  }
}
