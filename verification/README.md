# Saved-object type census, modelled in Dafny

This project models the saved-object info service of the Kibana functional-test
tooling (`test/common/services/saved_object_info/saved_object_info.ts`). The
service asks the search backend for a terms aggregation named `savedobjs` over
the `type` field of the `.kibana` index. It pulls
`aggregations.savedobjs.buckets` out of the untyped response through a
short-circuiting chain of `pluck` steps. It reduces every settled search to either
that bucket value or a string. The one exception is a `null` response body: the
source's first read from it throws, and this model does not follow that (see
"## Left out"). `logSoTypes` is meant to label that result for the log. As
written, it labels the unapplied census function instead (see "## Findings").

Files:

- `fp.dfy`, module `Fp`: the fp-ts pieces in use. These are `Option` and
  `Either` with `map`, `chain`, `getOrElse` and `fold`.
- `json.dfy`, module `Json`: decoded JSON values, the property read `v[key]`,
  and fp-ts `fromNullable`.
- `decimal.dfy`, module `Decimal`: how JavaScript turns a length into text. It
  comes with a decimal reader as its partner.
- `saved_object_info.dfy`, module `SavedObjectInfo`: `pluck`, the chain, the
  fixed request, the census pipeline and the log label.

The awaited search call is an input. `Outcome<E>` is either `Transport(err)`
(the call rejected) or `Body(json)` (the decoded response body). `Types` also
takes the backend as a function from request to outcome. `Census` takes the
text that `${x}` produces for the converted rejection reason as a parameter,
`errText`. That text is normally `"Error: "` followed by the message. The
pipeline returns an untyped value, so the census result is a `Json`. An error
message is `Str(message)`, so a string-valued `buckets` member cannot be told
apart from a message, just as in the source.

Where the code and its English description disagree, the model follows the code:

- An extraction failure is not prefixed. `getOrElse` runs inside `TE.map`, so a
  missing key yields the bare string `"Missing <key>"` on the success side. Only
  a rejected search gets the `"Error while searching for saved object types: "`
  prefix. See `Census` and `ExtractionFailureIsBare`.
- A rejected search is rendered through `${x}` on an `Error` object. The text is
  the error's string form (`errText`), not only its message.
- The optional type filter is accepted and ignored. The filtered query exists
  only in a comment. See `RequestIgnoresTypeList` and `TypesIgnoresTypeList`.
- The label is `msg`, or `"Count: "` followed by `xs.length`. As written,
  `logSoTypes` passes the unapplied function `types(node)` to `print`. No search
  is made, and the label without `msg` is always `"Count: 0"`. See
  `LogSoTypesAsWritten`. In the intended composition, `LogSoTypes`, the count of
  an error result is that string's character count. See `MissingAggregationsLabel`.

## Model

| member | source | states |
|---|---|---|
| `SavedObjectInfo.Pluck` | test/common/services/saved_object_info/saved_object_info.ts:19-20 | succeeds exactly when the member exists and is not null, with that member's value; otherwise fails with the error `"Missing " + key` |
| `SavedObjectInfo.PluckKeepsFalsyValues` | test/common/services/saved_object_info/saved_object_info.ts:19-20 | `false`, `0` and `""` are plucked successfully; null and absence fail with `"Missing " + key` |
| `Fp.ChainAssociative` | test/common/services/saved_object_info/saved_object_info.ts:94-97 | chaining two steps one after the other equals chaining one step that runs both, so a `flow` of `chain` steps composes into a single walk |
| `SavedObjectInfo.PluckPathMeetsDeref` | test/common/services/saved_object_info/saved_object_info.ts:94-97 | a chain of plucks succeeds exactly when nested access along the key path succeeds, and returns the value found there |
| `SavedObjectInfo.PluckPathNamesFirstMissing` | test/common/services/saved_object_info/saved_object_info.ts:94-98 | a failed chain names the first key whose read failed: the descent along every shorter prefix succeeded, and the read of that key did not |
| `SavedObjectInfo.PluckPathAppend` | test/common/services/saved_object_info/saved_object_info.ts:94-97 | the chain over a path `p + q` is the chain over `p` chained with the chain over `q` |
| `SavedObjectInfo.PluckPathStopsAtFailure` | test/common/services/saved_object_info/saved_object_info.ts:94-97 | after a failure, later keys are never consulted: appending keys leaves the result unchanged |
| `SavedObjectInfo.ExtractBuckets` | test/common/services/saved_object_info/saved_object_info.ts:94-97 | reads `aggregations`, then `savedobjs`, then `buckets`; reports the first missing one, or returns the buckets member itself |
| `SavedObjectInfo.ExtractBucketsIsPluckPath` | test/common/services/saved_object_info/saved_object_info.ts:94-97 | the three explicit `chain` steps are the general pluck chain over the path `aggregations`, `savedobjs`, `buckets` |
| `SavedObjectInfo.Request` | test/common/services/saved_object_info/saved_object_info.ts:68-88 | the request has size 0 and targets the given index, or `.kibana` when none is given; its body holds one aggregation, `savedobjs`, a terms aggregation on the field `type` |
| `SavedObjectInfo.RequestIgnoresTypeList` | test/common/services/saved_object_info/saved_object_info.ts:78-88 | the type list argument does not affect the request |
| `SavedObjectInfo.Census` | test/common/services/saved_object_info/saved_object_info.ts:82-101 | a rejected search yields the prefix followed by the error's text; a body yields the buckets value unchanged, or the bare `"Missing <key>"` for the first missing key; the result is never null |
| `SavedObjectInfo.ExtractionFailureIsBare` | test/common/services/saved_object_info/saved_object_info.ts:93-101 | whenever extraction fails, the census result is `"Missing "` followed by one of the three path keys, with no search-error prefix |
| `SavedObjectInfo.SingleBucketCensus` | test/common/services/saved_object_info/saved_object_info.ts:93-101 | a response with a one-bucket list yields exactly that list |
| `SavedObjectInfo.Types` | test/common/services/saved_object_info/saved_object_info.ts:78-102 | for the backend's answer to the fixed request: a rejection yields the search-error prefix followed by the error's text; a body with buckets yields them unchanged; a body without yields the bare `"Missing <key>"` for one of the three path keys; never null |
| `SavedObjectInfo.TypesIgnoresTypeList` | test/common/services/saved_object_info/saved_object_info.ts:78-102 | the type list argument does not affect the census result |
| `SavedObjectInfo.Label` | test/common/services/saved_object_info/saved_object_info.ts:107-109 | a non-empty `msg` is the label; otherwise the label is `"Count: "` followed by canonical decimal text that reads back as the string's or array's length |
| `SavedObjectInfo.LogSoTypesAsWritten` | test/common/services/saved_object_info/saved_object_info.ts:107-111 | as written, the label is a non-empty `msg`, otherwise `"Count: 0"` (the arity of the unapplied `types(node)`), whatever the backend holds |
| `SavedObjectInfo.LogSoTypes` | test/common/services/saved_object_info/saved_object_info.ts:107-111 | as intended, the label is a non-empty `msg`, otherwise `"Count: "` followed by decimal text that reads back as the length of the census result |
| `SavedObjectInfo.LogSoTypesConsultsOnlyDefaultRequest` | test/common/services/saved_object_info/saved_object_info.ts:78-88 | the intended label depends on the backend only through its answer to the size-0 request to `.kibana` with the fixed aggregation body |
| `SavedObjectInfo.LogSoTypesMislabelsBuckets` | test/common/services/saved_object_info/saved_object_info.ts:111 | against a backend holding one bucket type, the code as written labels `"Count: 0"` and the intended composition labels `"Count: 1"` |
| `SavedObjectInfo.MissingAggregationsLabel` | test/common/services/saved_object_info/saved_object_info.ts:107-111 | in the intended composition, with no `msg`, a response without `aggregations` is labelled `"Count: 20"`, the character count of `"Missing aggregations"` |
| `Decimal.FromNat` | test/common/services/saved_object_info/saved_object_info.ts:109 | the text of a length is non-empty, made only of digits, and has no leading zero unless it is `"0"` |
| `Decimal.ValueOfFromNat` | test/common/services/saved_object_info/saved_object_info.ts:109 | reading the rendered text back as a decimal gives the original length |

## Left out

- The search client, the HTTP round-trip, `url.format` and the `config` lookup are network I/O and service plumbing. The settled search call is an `Outcome` input, and the backend is a function parameter in `Types`.
- The Task/TaskEither machinery is asynchronous. Only its sequential meaning is kept: `tryCatch`, then `map`, then `fold`.
- `toError` and `Error.prototype.toString` are not modelled. Their combined text is the parameter `errText`.
- `format` from `./utils` is not part of this model. `log.info` is output only. `Label`, `LogSoTypes` and `LogSoTypesAsWritten` model only the label inside the header line.
- The filtered `bool`/`should` query appears only in a comment and is never built.
- `SavedObjectInfo.Pluck`: a read from a non-object counts as missing. In JavaScript, arrays answer numeric-string keys, strings answer `length`, and every object inherits `Object.prototype` members. The pipeline only reads the fixed keys `aggregations`, `savedobjs` and `buckets`, so none of these cases arises.
- `SavedObjectInfo.Census`: a `null` (or absent) response body is not modelled as the source handles it. In the source, the first `pluck` reads `null["aggregations"]`, which throws a TypeError. `TE.map` does not catch it, so `types` rejects. The model instead yields `"Missing aggregations"` for `Body(Null)`. Later reads cannot meet `null`, because `fromNullable` has already excluded it.
- `SavedObjectInfo.LogSoTypesAsWritten`: the count of 0 assumes the default parameter of `types(node)` survives compilation, so that the function's `length` is 0. A compiler that rewrote default parameters into plain ones would give 1. `format` applied to that function is not modelled.
- `SavedObjectInfo.Label`: JavaScript string length counts UTF-16 code units, while the model counts Dafny characters. An object's own `length` member is rendered by the parameter `show` (JavaScript `String(v)`).
- JSON numbers are integers in the model. Fractional numbers are never read by the pipeline.
- Duplicate keys in a response body are not modelled. A decoded object is a map, in which the last duplicate wins.

## Findings

| source | as written | input that shows it | evidently intended | confidence | as-written member | corrected member |
|---|---|---|---|---|---|---|
| test/common/services/saved_object_info/saved_object_info.ts:111 | `pipe(await types(url), print)` hands `print` the curried function `types(url)`, which still awaits a type list and an index; no search runs, and without `msg` the label is `'Count: ' + fn.length`, that is "Count: 0" | `logSoTypes(log)` against an index holding saved objects of the single type `config` | `types(url)()()` is awaited and its result is labelled and formatted, giving "Count: 1" | high that no search runs; the exact 0 depends on how default parameters are compiled; not executed | `SavedObjectInfo.LogSoTypesMislabelsBuckets` | `SavedObjectInfo.LogSoTypes` |
