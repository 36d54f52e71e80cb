/**
 * The resolver behind FlarumDiscussionStream: what parsing a decoded
 * JSON:API document leaves in the stream, and how relationship pointers are
 * resolved against the index of included resources.
 */
module Store {
  import opened Wrappers
  import opened Json

  /** The exceptions the stream throws, one per message in the source. */
  datatype Error =
    | CouldNotFetch              // the request produced no body
    | CouldNotDecode             // json_decode gave null
    | InvalidResponse            // `data` (or `included`) missing or not an array
    | SlugNotConvertible         // an object slug cannot be interpolated into the url
    | MissingTypeOrIdInIncluded  // an included entry without `type` or `id`
    | DataNotReady               // discussions() before any fetch
    | MissingTypeOrIdInPointer   // a relationship pointer without `type` or `id`
    | NoSuchResource(kind: string, id: string)
    | IndexMissing               // relationship() before any fetch: PHP's TypeError on a null index

  datatype Result<T> = Ok(value: T) | Err(error: Error)

  /** Whether a method that returns nothing ran to its end or threw. */
  datatype Outcome = Done | Failed(error: Error)

  /** Included resources by type, then by id. */
  type Index = map<string, map<string, Json>>

  /** parsedData: null before the first fetch, then the primary data and the index. */
  datatype State = Unfetched | Fetched(data: seq<Json>, included: Index)

  /**
   * Every resource is filed under its own type and id, and no type maps to an
   * empty table.
   */
  ghost predicate WellKeyed(index: Index)
  {
    forall t, i {:trigger index[t][i]} :: t in index && i in index[t] ==> IsResource(index[t][i], t, i)
  }

  ghost predicate NoEmptyType(index: Index)
  {
    forall t :: t in index ==> index[t] != map[]
  }

  function Lookup(index: Index, kind: string, id: string): Option<Json>
  {
    if kind in index && id in index[kind] then Some(index[kind][id]) else None
  }

  /** Data entries that gain a url: an id, type "discussions", and attributes that are an object with a slug. */
  predicate IsSluggedDiscussion(entry: Json)
  {
    && entry.Obj?
    && entry.id.Some?
    && entry.kind == Some("discussions")
    && Has(entry, "attributes")
    && Has(entry.members["attributes"], "slug")
  }

  function Attribute(entry: Json, name: string): Option<Json>
  {
    if Has(entry, "attributes") && Has(entry.members["attributes"], name)
    then Some(entry.members["attributes"].members[name])
    else None
  }

  function DiscussionUrl(base: string, id: string, slug: string): string
  {
    base + "/d/" + id + "-" + slug
  }

  /**
   * A data entry as the stream keeps it: a slugged discussion gains the
   * attribute url; every other entry is kept as it is.
   */
  function WithUrl(base: string, entry: Json): (r: Result<Json>)
    ensures r.Err? <==> IsSluggedDiscussion(entry) && Attribute(entry, "slug").value.Obj?
    ensures r.Err? ==> r.error == SlugNotConvertible
    ensures !IsSluggedDiscussion(entry) ==> r == Ok(entry)
    ensures r.Ok? && IsSluggedDiscussion(entry) ==>
              && r.value.Obj? && r.value.id == entry.id && r.value.kind == entry.kind
              && r.value.members.Keys == entry.members.Keys
              && r.value.members["attributes"].Obj?
              && r.value.members["attributes"].id == entry.members["attributes"].id
              && r.value.members["attributes"].kind == entry.members["attributes"].kind
              && r.value.members["attributes"].members.Keys == entry.members["attributes"].members.Keys + {"url"}
              && (forall k :: k in entry.members && k != "attributes" ==> r.value.members[k] == entry.members[k])
              && Attribute(r.value, "url") == Some(Str(DiscussionUrl(base, entry.id.value, Interpolate(Attribute(entry, "slug").value).value)))
              && (forall k :: k != "url" ==> Attribute(r.value, k) == Attribute(entry, k))
    ensures r.Ok? && IsSluggedDiscussion(entry) && Attribute(entry, "slug").value.Str? ==>
              Attribute(r.value, "url") == Some(Str(base + "/d/" + entry.id.value + "-" + Attribute(entry, "slug").value.s))
  {
    if !IsSluggedDiscussion(entry) then Ok(entry)
    else
      var attributes := entry.members["attributes"];
      match Interpolate(attributes.members["slug"])
      case None => Err(SlugNotConvertible)
      case Some(slug) =>
        var url := Str(DiscussionUrl(base, entry.id.value, slug));
        Ok(entry.(members := entry.members["attributes" := attributes.(members := attributes.members["url" := url])]))
  }

  /** Adding the url keeps a well-formed entry well formed: "url" is neither "id" nor "type". */
  lemma WithUrlKeepsWellFormed(base: string, entry: Json)
    requires WellFormed(entry)
    requires WithUrl(base, entry).Ok?
    ensures WellFormed(WithUrl(base, entry).value)
  {
    if IsSluggedDiscussion(entry) {
      var r := WithUrl(base, entry).value;
      var attributes := r.members["attributes"];
      assert WellFormed(entry.members["attributes"]);
      assert forall key :: key in attributes.members && key != "url" ==>
        attributes.members[key] == entry.members["attributes"].members[key];
      assert WellFormed(attributes);
      assert forall key :: key in r.members && key != "attributes" ==> r.members[key] == entry.members[key];
    }
  }

  /**
   * The data loop: entries pass through WithUrl in order until the first
   * that throws. The result holds the entries stored so far and the error.
   */
  function Decorated(base: string, entries: seq<Json>): (p: (seq<Json>, Option<Error>))
    ensures |p.0| <= |entries|
    ensures forall k :: 0 <= k < |p.0| ==> WithUrl(base, entries[k]) == Ok(p.0[k])
    ensures p.1.None? ==> |p.0| == |entries|
    ensures p.1.Some? ==> |p.0| < |entries| && WithUrl(base, entries[|p.0|]) == Err(p.1.value)
  {
    if entries == [] then ([], None)
    else
      var (stored, error) := Decorated(base, entries[..|entries| - 1]);
      if error.Some? then (stored, error)
      else
        match WithUrl(base, entries[|entries| - 1])
        case Err(e) => (stored, Some(e))
        case Ok(entry) => (stored + [entry], None)
  }

  /** Files one included resource, creating its type's table when it is the first of its type. */
  function Put(index: Index, kind: string, id: string, resource: Json): (r: Index)
    ensures NoEmptyType(index) ==> NoEmptyType(r)
    ensures forall t, i :: Lookup(r, t, i) == if t == kind && i == id then Some(resource) else Lookup(index, t, i)
  {
    var table := (if kind in index then index[kind] else map[])[id := resource];
    assert id in table;
    index[kind := table]
  }

  lemma PutKeepsKeys(index: Index, kind: string, id: string, resource: Json)
    requires WellKeyed(index) && IsResource(resource, kind, id)
    ensures WellKeyed(Put(index, kind, id, resource))
  {
    var r: Index := Put(index, kind, id, resource);
    forall t: string, i: string | t in r && i in r[t]
      ensures IsResource(r[t][i], t, i)
    {
      assert Lookup(r, t, i) == Some(r[t][i]);
      if t != kind || i != id {
        assert Lookup(index, t, i) == Some(r[t][i]);
        assert index[t][i] == r[t][i];
      } else {
        assert r[t][i] == resource;
      }
    }
  }

  /**
   * The included loop: entries are filed in order, a later one replacing an
   * earlier one with the same type and id, until the first without a type or id.
   */
  function Indexed(entries: seq<Json>): (p: (Index, Option<Error>))
    ensures WellKeyed(p.0) && NoEmptyType(p.0)
    ensures p.1.None? <==> forall k :: 0 <= k < |entries| ==> HasTypeAndId(entries[k])
    ensures p.1.Some? ==> p.1.value == MissingTypeOrIdInIncluded
  {
    if entries == [] then (map[], None)
    else
      var (index, error) := Indexed(entries[..|entries| - 1]);
      var last := entries[|entries| - 1];
      if error.Some? then (index, error)
      else if !HasTypeAndId(last) then (index, Some(MissingTypeOrIdInIncluded))
      else
        PutKeepsKeys(index, last.kind.value, last.id.value, last);
        (Put(index, last.kind.value, last.id.value, last), None)
  }

  /** Put as the source does it: create the type's table if missing, then store into it. */
  lemma PutInTwoSteps(index: Index, kind: string, id: string, resource: Json)
    ensures var created := if kind in index then index else index[kind := map[]];
            created[kind := created[kind][id := resource]] == Put(index, kind, id, resource)
  {
    var created := if kind in index then index else index[kind := map[]];
    assert created[kind] == if kind in index then index[kind] else map[];
  }

  /** One more entry through the included loop. */
  lemma IndexedStep(entries: seq<Json>, j: nat)
    requires j < |entries|
    requires Indexed(entries[..j]).1.None?
    requires HasTypeAndId(entries[j])
    ensures Indexed(entries[..j + 1])
         == (Put(Indexed(entries[..j]).0, entries[j].kind.value, entries[j].id.value, entries[j]), None)
  {
    assert entries[..j + 1][..j] == entries[..j];
  }

  predicate IsResource(entry: Json, kind: string, id: string)
  {
    entry.Obj? && entry.kind == Some(kind) && entry.id == Some(id)
  }

  /** Reference search: the last entry with the given type and id. */
  function LastWith(entries: seq<Json>, kind: string, id: string): (r: Option<Json>)
    ensures r.Some? ==> IsResource(r.value, kind, id) && r.value in entries
    ensures r.None? <==> forall k :: 0 <= k < |entries| ==> !IsResource(entries[k], kind, id)
  {
    if entries == [] then None
    else if IsResource(entries[|entries| - 1], kind, id) then Some(entries[|entries| - 1])
    else LastWith(entries[..|entries| - 1], kind, id)
  }

  /** What parsing a decoded document (lines 71-112 of the source) leaves behind, and how it ends. */
  function AfterParse(base: string, previous: State, document: Json): (r: (State, Outcome))
    ensures !Has(document, "data") || !document.members["data"].Arr? ==>
              r == (previous, Failed(InvalidResponse))
    ensures Has(document, "data") && document.members["data"].Arr? ==> r.0.Fetched?
    ensures && Has(document, "data") && document.members["data"].Arr?
            && Decorated(base, document.members["data"].items).1.None?
            && Has(document, "included") && !document.members["included"].Arr? ==>
              r == (Fetched(Decorated(base, document.members["data"].items).0, map[]), Failed(InvalidResponse))
  {
    if !Has(document, "data") || !document.members["data"].Arr? then (previous, Failed(InvalidResponse))
    else
      var (data, dataError) := Decorated(base, document.members["data"].items);
      if dataError.Some? then (Fetched(data, map[]), Failed(dataError.value))
      else if !Has(document, "included") then (Fetched(data, map[]), Done)
      else if !document.members["included"].Arr? then (Fetched(data, map[]), Failed(InvalidResponse))
      else
        var (index, indexError) := Indexed(document.members["included"].items);
        (Fetched(data, index), if indexError.Some? then Failed(indexError.value) else Done)
  }

  /** discussions(): the stored data once a fetch has got past the data check. */
  function Discussions(state: State): (r: Result<seq<Json>>)
    ensures r.Err? <==> state.Unfetched?
    ensures r.Err? ==> r.error == DataNotReady
    ensures r.Ok? ==> r.value == state.data
  {
    if state.Unfetched? then Err(DataNotReady) else Ok(state.data)
  }

  /** The pointer relationship() looks up: the value of `data` when there is one. */
  function Target(pointer: Json): Json
  {
    if Has(pointer, "data") then pointer.members["data"] else pointer
  }

  /** The lookup of relationship() against an index. */
  function Resolve(index: Index, pointer: Json): (r: Result<Json>)
    ensures r.Ok? <==> HasTypeAndId(Target(pointer)) && Lookup(index, Target(pointer).kind.value, Target(pointer).id.value).Some?
    ensures r.Ok? ==> r.value == Lookup(index, Target(pointer).kind.value, Target(pointer).id.value).value
    ensures r.Ok? && WellKeyed(index) ==> IsResource(r.value, Target(pointer).kind.value, Target(pointer).id.value)
    ensures r.Err? && !HasTypeAndId(Target(pointer)) ==> r.error == MissingTypeOrIdInPointer
    ensures r.Err? && HasTypeAndId(Target(pointer)) ==>
              r.error == NoSuchResource(Target(pointer).kind.value, Target(pointer).id.value)
  {
    var target := Target(pointer);
    if !HasTypeAndId(target) then Err(MissingTypeOrIdInPointer)
    else
      var kind, id := target.kind.value, target.id.value;
      if kind !in index || id !in index[kind] then Err(NoSuchResource(kind, id))
      else Ok(index[kind][id])
  }

  /** relationship(): the pointer is checked first; before any fetch there is no index to search. */
  function Relationship(state: State, pointer: Json): (r: Result<Json>)
    ensures state.Fetched? ==> r == Resolve(state.included, pointer)
    ensures state.Unfetched? ==> r.Err?
    ensures state.Unfetched? && HasTypeAndId(Target(pointer)) ==> r.error == IndexMissing
    ensures state.Unfetched? && !HasTypeAndId(Target(pointer)) ==> r.error == MissingTypeOrIdInPointer
  {
    match state
    case Fetched(_, included) => Resolve(included, pointer)
    case Unfetched =>
      if !HasTypeAndId(Target(pointer)) then Err(MissingTypeOrIdInPointer) else Err(IndexMissing)
  }

  /** A raw resource identifier object {type, id}. */
  function Identifier(kind: string, id: string): Json
  {
    Obj(Some(id), Some(kind), map[])
  }

  /** A relationship object {data: pointer}. */
  function Envelope(pointer: Json): Json
  {
    Obj(None, None, map["data" := pointer])
  }

  // ---------------------------------------------------------------------------
  // Properties

  /** Once the data loop has stopped, later entries change nothing. */
  lemma {:induction false} DecoratedStops(base: string, entries: seq<Json>, n: nat)
    requires n <= |entries|
    requires Decorated(base, entries[..n]).1.Some?
    ensures Decorated(base, entries) == Decorated(base, entries[..n])
    decreases |entries| - n
  {
    if n < |entries| {
      assert entries[..n + 1][..n] == entries[..n];
      DecoratedStops(base, entries, n + 1);
    } else {
      assert entries[..n] == entries;
    }
  }

  /** Once the included loop has stopped, later entries change nothing. */
  lemma {:induction false} IndexedStops(entries: seq<Json>, n: nat)
    requires n <= |entries|
    requires Indexed(entries[..n]).1.Some?
    ensures Indexed(entries) == Indexed(entries[..n])
    decreases |entries| - n
  {
    if n < |entries| {
      assert entries[..n + 1][..n] == entries[..n];
      IndexedStops(entries, n + 1);
    } else {
      assert entries[..n] == entries;
    }
  }

  /**
   * The index agrees with a backward search of the included entries: a key is
   * present exactly when some entry carries it, and it holds the last such entry.
   */
  lemma {:induction false} IndexedIsLastWrite(entries: seq<Json>, kind: string, id: string)
    requires Indexed(entries).1.None?
    ensures Lookup(Indexed(entries).0, kind, id) == LastWith(entries, kind, id)
  {
    if entries != [] {
      var prefix := entries[..|entries| - 1];
      assert forall k :: 0 <= k < |prefix| ==> prefix[k] == entries[k];
      IndexedIsLastWrite(prefix, kind, id);
    }
  }

  /** Every included entry can be looked up, enveloped or not, and yields the last entry with its type and id. */
  lemma ResolveIncluded(entries: seq<Json>, k: nat)
    requires Indexed(entries).1.None?
    requires k < |entries|
    ensures var e := entries[k];
            && Resolve(Indexed(entries).0, Identifier(e.kind.value, e.id.value)) == Ok(LastWith(entries, e.kind.value, e.id.value).value)
            && Resolve(Indexed(entries).0, Envelope(Identifier(e.kind.value, e.id.value))) == Ok(LastWith(entries, e.kind.value, e.id.value).value)
  {
    var e := entries[k];
    var kind, id := e.kind.value, e.id.value;
    assert IsResource(e, kind, id);
    IndexedIsLastWrite(entries, kind, id);
    var found := LastWith(entries, kind, id);
    assert found.Some?;
    var index := Indexed(entries).0;
    assert Lookup(index, kind, id) == found;
    assert Target(Identifier(kind, id)) == Identifier(kind, id);
    assert Target(Envelope(Identifier(kind, id))) == Identifier(kind, id);
  }

  /** An identifier that no included entry carries is reported as missing. */
  lemma ResolveAbsent(entries: seq<Json>, kind: string, id: string)
    requires Indexed(entries).1.None?
    requires forall k :: 0 <= k < |entries| ==> !IsResource(entries[k], kind, id)
    ensures Resolve(Indexed(entries).0, Identifier(kind, id)) == Err(NoSuchResource(kind, id))
    ensures Resolve(Indexed(entries).0, Envelope(Identifier(kind, id))) == Err(NoSuchResource(kind, id))
  {
    IndexedIsLastWrite(entries, kind, id);
  }

  /** Unwrapping is transparent: a pointer and its envelope resolve alike. */
  lemma EnvelopeTransparent(index: Index, pointer: Json)
    requires !Has(pointer, "data")
    ensures Resolve(index, Envelope(pointer)) == Resolve(index, pointer)
  {
  }

  /**
   * After a parse that completes, discussions() returns one entry per data
   * entry, in order, each the entry with its url added when it is a slugged
   * discussion.
   */
  lemma DiscussionsAfterParse(base: string, previous: State, document: Json)
    requires AfterParse(base, previous, document).1 == Done
    ensures Has(document, "data") && document.members["data"].Arr?
    ensures var data := document.members["data"].items;
            var r := Discussions(AfterParse(base, previous, document).0);
            && r.Ok? && |r.value| == |data|
            && forall k :: 0 <= k < |data| ==> WithUrl(base, data[k]) == Ok(r.value[k])
  {
  }

  /**
   * After a parse that completes, the index holds exactly the included
   * resources, a later duplicate replacing an earlier one (no `included`
   * member leaves it empty).
   */
  lemma IndexAfterParse(base: string, previous: State, document: Json, kind: string, id: string)
    requires AfterParse(base, previous, document).1 == Done
    ensures var included := if Has(document, "included") then document.members["included"].items else [];
            Lookup(AfterParse(base, previous, document).0.included, kind, id) == LastWith(included, kind, id)
  {
    if Has(document, "included") {
      IndexedIsLastWrite(document.members["included"].items, kind, id);
    }
  }

  /** A document whose data is missing or not an array leaves discussions() as it was. */
  lemma RejectedDataKeepsState(base: string, previous: State, document: Json)
    requires !Has(document, "data") || !document.members["data"].Arr?
    ensures Discussions(AfterParse(base, previous, document).0) == Discussions(previous)
    ensures Discussions(AfterParse(base, Unfetched, document).0) == Err(DataNotReady)
  {
  }

  /**
   * An included entry without type or id aborts the fetch, but the data
   * entries stored before it stay visible through discussions().
   */
  lemma FailedIndexKeepsData(base: string, previous: State, document: Json)
    requires AfterParse(base, previous, document).1 == Failed(MissingTypeOrIdInIncluded)
    ensures Has(document, "data") && document.members["data"].Arr?
    ensures var data := document.members["data"].items;
            var r := Discussions(AfterParse(base, previous, document).0);
            && r.Ok? && |r.value| == |data|
            && forall k :: 0 <= k < |data| ==> WithUrl(base, data[k]) == Ok(r.value[k])
  {
    var (data, dataError) := Decorated(base, document.members["data"].items);
    assert dataError.None?;
  }

  /**
   * A slug that cannot be interpolated aborts the fetch: the data entries
   * stored before it stay, and the index is left empty.
   */
  lemma SlugErrorKeepsPrefix(base: string, previous: State, document: Json)
    requires Has(document, "data") && document.members["data"].Arr?
    requires Decorated(base, document.members["data"].items).1.Some?
    ensures var (stored, error) := Decorated(base, document.members["data"].items);
            AfterParse(base, previous, document) == (Fetched(stored, map[]), Failed(error.value))
  {
  }

  /**
   * An included entry without type or id aborts the fetch, and the index
   * holds exactly what the entries before it filed, a later duplicate
   * replacing an earlier one.
   */
  lemma {:induction false} FailedIndexKeepsFiled(base: string, previous: State, document: Json, m: nat, kind: string, id: string)
    requires Has(document, "data") && document.members["data"].Arr?
    requires Decorated(base, document.members["data"].items).1.None?
    requires Has(document, "included") && document.members["included"].Arr?
    requires m < |document.members["included"].items|
    requires !HasTypeAndId(document.members["included"].items[m])
    requires forall k :: 0 <= k < m ==> HasTypeAndId(document.members["included"].items[k])
    ensures AfterParse(base, previous, document).1 == Failed(MissingTypeOrIdInIncluded)
    ensures var included := document.members["included"].items;
            Lookup(AfterParse(base, previous, document).0.included, kind, id) == LastWith(included[..m], kind, id)
  {
    var included := document.members["included"].items;
    assert included[..m + 1][..m] == included[..m];
    IndexedStops(included, m + 1);
    IndexedIsLastWrite(included[..m], kind, id);
  }

  /** The listing's worked example: one discussion by user 9, who is included. */
  lemma ExampleListing()
    ensures var discussion := Obj(Some("1"), Some("discussions"), map[
              "attributes" := Obj(None, None, map["slug" := Str("hello"), "title" := Str("Hi")]),
              "relationships" := Obj(None, None, map["startUser" := Envelope(Identifier("users", "9"))])]);
            var bob := Obj(Some("9"), Some("users"), map["attributes" := Obj(None, None, map["username" := Str("bob")])]);
            var document := Obj(None, None, map["data" := Arr([discussion]), "included" := Arr([bob])]);
            var (state, outcome) := AfterParse("https://x.tld", Unfetched, document);
            && outcome == Done
            && Attribute(state.data[0], "url") == Some(Str("https://x.tld/d/1-hello"))
            && Relationship(state, Envelope(Identifier("users", "9"))) == Ok(bob)
  {
    var discussion := Obj(Some("1"), Some("discussions"), map[
      "attributes" := Obj(None, None, map["slug" := Str("hello"), "title" := Str("Hi")]),
      "relationships" := Obj(None, None, map["startUser" := Envelope(Identifier("users", "9"))])]);
    var bob := Obj(Some("9"), Some("users"), map["attributes" := Obj(None, None, map["username" := Str("bob")])]);
    var document := Obj(None, None, map["data" := Arr([discussion]), "included" := Arr([bob])]);
    assert IsSluggedDiscussion(discussion);
    assert DiscussionUrl("https://x.tld", "1", "hello") == "https://x.tld/d/1-hello";
    var stored := WithUrl("https://x.tld", discussion);
    assert stored.Ok? && Attribute(stored.value, "url") == Some(Str("https://x.tld/d/1-hello"));
    assert [discussion][..0] == [];
    var decorated := Decorated("https://x.tld", [discussion]);
    assert decorated.1.None?;
    assert decorated.0[0] == stored.value;
    assert decorated.0 == [stored.value];
    assert Decorated("https://x.tld", [discussion]) == ([stored.value], None);
    assert [bob][..0] == [];
    IndexedIsLastWrite([bob], "users", "9");
    assert Lookup(Indexed([bob]).0, "users", "9") == Some(bob);
    assert AfterParse("https://x.tld", Unfetched, document) == (Fetched([stored.value], Indexed([bob]).0), Done);
  }
}
