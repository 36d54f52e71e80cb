# Flarum discussion stream, modelled in Dafny

This project models `FlarumDiscussionStream`, a small PHP client that loads
one page of discussions from a Flarum forum's JSON:API endpoint, and the
`excerpt` helper its listing template uses.

- **Configuration.** The stream holds the forum URL, a page limit (default 5),
  an optional tag, and a list of relations to include (default `startUser`,
  `startPost`). The fluent setters `tag`, `limit` and `replaceInclude` each set
  one field and return the stream itself (`Stream.DiscussionStream`).
- **Request URL.** `fetch` builds
  `{url}/api/discussions?include={names joined by ","}&page[limit]={limit}`.
  It appends `&filter[q]=tag:{urlencoded tag}` only when the tag is truthy in
  PHP (`Query.FetchUrl`). A reader of that URL (`Query.ParseFetchUrl`) recovers
  the include list, the limit and the encoded tag.
- **Parsing.** The decoded document must carry a `data` array. The stream then
  resets its state and copies the data entries in order. A discussion with an
  id and a slug gains the attribute `url = {url}/d/{id}-{slug}`. Entries of
  `included` are then filed in a map from type to id to resource, where a
  later duplicate replaces an earlier one (`Store.AfterParse`, the methods
  `Parse`, `StoreData` and `FileIncluded`).
- **Accessors.** `discussions()` fails until a fetch has got past the `data`
  check. `relationship(p)` unwraps a `{data: …}` envelope and requires a type
  and an id. It then returns the filed resource or reports that none exists
  (`Store.Relationship`, `Store.Resolve`).
- **Excerpt.** Text whose length is at most `length` is kept as it is. Longer
  text becomes `substr(text, 0, length)` followed by the ending
  (`Excerpt.Excerpt`).

The whole stream is one class with a state field (`Unfetched` or
`Fetched(data, index)`). The parsing loops are methods proved against the
specification function `Store.AfterParse`. The lemmas about that function
carry the properties: order and count of the data, when the url is added,
last-write-wins indexing checked against a backward search
(`Store.LastWith`), and resolution of every included resource.

Decoded JSON is the datatype `Json.Json`. An object keeps its `id` and `type`
members apart from the others, as `Option<string>`.

Three behaviours of the code worth noting:

- **Partial state after an exception.** An exception thrown after the reset
  at index.php:75 leaves the entries stored so far in the object.
  `parsedData` is then a non-empty array, so `discussions()` returns them.
  This happens in three cases:
  - a slug that is an object cannot be interpolated at index.php:90
    (`Store.SlugNotConvertible`), which leaves the entries before it;
  - an `included` member that is not an array leaves every data entry;
  - an included entry without type or id leaves every data entry and the
    resources filed before it.

  `Store.SlugErrorKeepsPrefix` states the first case, `Store.AfterParse` the
  second, and `Store.FailedIndexKeepsData` with `Store.FailedIndexKeepsFiled`
  the third.
- **`relationship()` before any fetch.** The code checks the pointer first.
  A malformed pointer gets the pointer error; otherwise the call fails on the
  null index (`Store.IndexMissing`).
- **One message for two checks.** A missing or non-array `data` and a
  non-array `included` raise the same message (`Store.InvalidResponse`).

## Model

| member | source | states |
|---|---|---|
| `PhpStrings.IntToString` | index.php:50 | the interpolated limit is PHP's canonical decimal text: a non-empty string of digits, "0" for zero, no leading zero otherwise, and a leading minus only for negative limits |
| `PhpStrings.IntRoundTrip` | index.php:50 | reading the interpolated limit back gives the limit |
| `PhpStrings.Implode` | index.php:50 | joining a non-empty list whose first name is non-empty gives a non-empty string |
| `PhpStrings.ImplodeRoundTrip` | index.php:50 | splitting the joined include list at its glue gives the list back when no name contains the glue |
| `PhpStrings.ImplodeAvoids` | index.php:50 | a character absent from every name and from the glue is absent from the joined list |
| `Json.Interpolate` | index.php:90 | interpolating a value fails exactly for objects; a string interpolates as itself and an integer as its canonical decimal text, which reads back as that integer |
| `Query.FetchUrl` | index.php:50 | the request URL starts with the forum URL followed by `/api/discussions?include=` |
| `Query.FetchUrlRoundTrip` | index.php:50 | the request URL carries exactly the include list, the limit and, only when the tag is truthy, the urlencoded tag |
| `Query.DefaultFetchUrl` | index.php:18-25 | with the default include list and limit and no tag, the request URL is literally `{url}/api/discussions?include=startUser,startPost&page[limit]=5` |
| `Query.TagOnlyAppends` | index.php:50 | a tag changes the URL only by appending `&filter[q]=tag:` and the encoded tag, and only when the tag is set and is neither "" nor "0" |
| `Excerpt.Substr` | index.php:167 | `substr(s, 0, n)` is a prefix of `s`: n characters for `0 <= n <= |s|`, `|s| + n` (at least 0) for negative n, and shorter than `s` when `n < |s|` and `s` is non-empty |
| `Excerpt.Excerpt` | index.php:159-168 | stripped text of at most `length` characters is returned unchanged; longer text yields a prefix of it followed by the ending: the first `length` characters when `length >= 0`, and the text without its last `-length` characters (nothing once that reaches past the start) when `length < 0` |
| `Excerpt.ExcerptBounded` | index.php:163-167 | with a non-negative length the excerpt is at most `length + |ending|` long, and exactly that long when truncated |
| `Excerpt.DefaultExcerpt` | index.php:159-168 | with the default length 200 and ending "...", the excerpt is the stripped text when it fits, and otherwise its first 200 characters followed by "..."; it never exceeds 203 characters |
| `Store.WithUrl` | index.php:81-91 | an entry gains `url = base + "/d/" + id + "-" + slug` exactly when it has an id, type "discussions" and an object attributes with a slug; nothing else of the entry changes, neither its other members nor the attributes object's own id, type and other attributes; other entries pass unchanged; an object slug throws |
| `Store.WithUrlKeepsWellFormed` | index.php:90 | adding the url keeps a well-formed entry well formed, so `type` and `id` stay out of its members |
| `Store.Decorated` | index.php:80-94 | the data loop stores, in order and one for one, the entries that pass through WithUrl, up to the first that throws, and reports that error |
| `Store.DecoratedStops` | index.php:80-94 | after the data loop has thrown, later entries change nothing |
| `Store.Put` | index.php:106-110 | filing a resource sets that type and id and leaves every other lookup as it was; it never leaves an empty type table |
| `Store.PutKeepsKeys` | index.php:110 | filing a resource under its own type and id keeps every resource filed under its own type and id |
| `Store.PutInTwoSteps` | index.php:106-110 | creating the type's table when missing and then storing equals Put |
| `Store.Indexed` | index.php:101-111 | the included loop fails exactly when some entry lacks a type or an id; the index it builds files each resource under its own type and id and has no empty type table |
| `Store.IndexedStep` | index.php:101-110 | one more well-formed entry through the included loop is one more Put |
| `Store.IndexedStops` | index.php:101-104 | after the included loop has thrown, later entries change nothing |
| `Store.LastWith` | index.php:106-110 | the reference search finds an entry with that type and id exactly when one exists, and the one it finds is among the entries |
| `Store.IndexedIsLastWrite` | index.php:106-110 | a (type, id) is in the index exactly when some included entry carries it, and it holds the last such entry |
| `Store.AfterParse` | index.php:71-112 | a document without a `data` array is rejected and the previous state is kept; otherwise the state becomes fetched; a present `included` that is not an array is rejected after the data entries are stored, with an empty index |
| `Store.RejectedDataKeepsState` | index.php:71-73 | a rejected document leaves `discussions()` as it was, which still fails when no fetch has succeeded before |
| `Store.DiscussionsAfterParse` | index.php:80-94 | after a complete parse, `discussions()` returns one entry per data entry, in the same order, each the entry after WithUrl |
| `Store.IndexAfterParse` | index.php:96-111 | after a complete parse, the index holds exactly the included resources, last write winning, and is empty when `included` is absent |
| `Store.FailedIndexKeepsData` | index.php:101-104 | an included entry without type or id aborts the fetch, but every data entry stays visible through `discussions()`, in order, each the entry after WithUrl |
| `Store.SlugErrorKeepsPrefix` | index.php:80-94 | a slug that cannot be interpolated aborts the fetch with its error, keeping the data entries stored before it and an empty index |
| `Store.FailedIndexKeepsFiled` | index.php:101-110 | an included entry without type or id aborts the fetch, and the index holds exactly what the entries before it filed, last write winning |
| `Store.Discussions` | index.php:119-126 | `discussions()` fails with "not ready" exactly before any fetch, and otherwise returns the stored data |
| `Store.Resolve` | index.php:136-148 | the pointer, or its `data` when it has one, must have type and id, else one error; a (type, id) absent from the index is a different error; otherwise the filed resource is returned, and it carries the pointer's type and id |
| `Store.Relationship` | index.php:133-149 | after a fetch `relationship` is Resolve on the index; before any fetch it fails: with the pointer error when the pointer lacks type or id, and with the missing-index error otherwise |
| `Store.ResolveIncluded` | index.php:136-148 | every included resource can be looked up by a raw identifier and by an enveloped one, and both yield the last included entry with its type and id |
| `Store.ResolveAbsent` | index.php:144-146 | an identifier that no included entry carries, raw or enveloped, reports no such resource |
| `Store.EnvelopeTransparent` | index.php:136-138 | a pointer and its `{data: pointer}` envelope resolve alike |
| `Store.ExampleListing` | index.php:81-91 | for one discussion with slug "hello" and an included user 9, the url is `https://x.tld/d/1-hello` and the enveloped pointer to user 9 resolves to that user |
| `Stream.AfterQuery` | index.php:57-69 | a failed request or a body that decodes to null throws before the state is touched |
| `Stream.DiscussionStream.constructor` | index.php:14-25 | a new stream has the default forum URL, limit 5, no tag, the includes startUser and startPost, and nothing fetched |
| `Stream.DiscussionStream.Tag` | index.php:27-32 | sets only the tag and returns the stream itself |
| `Stream.DiscussionStream.Limit` | index.php:34-39 | sets only the limit and returns the stream itself |
| `Stream.DiscussionStream.ReplaceInclude` | index.php:41-46 | sets only the include list and returns the stream itself |
| `Stream.DiscussionStream.Fetch` | index.php:48-55 | requests the URL built from the configuration and leaves the state AfterQuery gives; returns the stream on success, the error otherwise; the configuration is unchanged |
| `Stream.DiscussionStream.QueryAndParse` | index.php:57-113 | the new state and the outcome are those AfterQuery gives for the old state |
| `Stream.DiscussionStream.Parse` | index.php:71-112 | the new state and the outcome are those AfterParse gives for the old state; the index stays well keyed |
| `Stream.DiscussionStream.StoreData` | index.php:80-94 | the loop leaves exactly the entries Decorated gives, with an empty index, and its error |
| `Stream.DiscussionStream.FileIncluded` | index.php:96-111 | the loop leaves the stored data and exactly the index Indexed gives, and its error |
| `Stream.DiscussionStream.Discussions` | index.php:119-126 | returns the stored data once fetched and the "not ready" error before |
| `Stream.DiscussionStream.Relationship` | index.php:133-149 | returns what Relationship gives for the current state; a resource it returns carries the pointer's type and id |

## Left out

- The network request (`file_get_contents`, index.php:59) and `json_decode` (index.php:65) are parameters of `Fetch`. Their failure branches are kept.
- `urlencode` (index.php:50) and `strip_tags` (index.php:161) are library functions. They are parameters of `FetchUrl` and `Excerpt`, and nothing is assumed about them.
- The HTML template at index.php:170-190 is presentation: `htmlspecialchars`, `DateTime::createFromFormat` and the output.
- `Stream.DiscussionStream.Limit`: takes an integer. PHP's `intval` coercion of other values is not modelled.
- `Stream.DiscussionStream.Tag`: the tag is an `Option<string>`. Other PHP values are not modelled. PHP truthiness is reproduced, so `""` and `"0"` leave the filter off (`Query.TagIsSet`).
- `id` and `type` members that are not strings are not modelled. JSON:API v1.0 requires them to be strings.
- JSON numbers are integers here. Floating-point numbers are not modelled.
- `property_exists` on a non-object is false in the model. PHP 8 accepts only an object or a class-name string and raises a TypeError for an array, an integer, a float, a boolean or null. So a data entry that is an array, a number, a boolean or null passes through unchanged here but aborts the fetch in PHP. A document, an included entry or a relationship pointer of those kinds gets a TypeError in PHP; the model reports `InvalidResponse`, `MissingTypeOrIdInIncluded` or `MissingTypeOrIdInPointer` instead.
- Objects whose other members include the keys `id` or `type` are not modelled. `Json.WellFormed` names the decoded values the model is meant for.
- Strings are sequences of characters, one per byte. `strlen` and `substr` count bytes, so multi-byte text is not modelled.
- The url is written into the decoded objects in place. The model uses values, so aliasing between the stored data and other references to those objects is not captured.
