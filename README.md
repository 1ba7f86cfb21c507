# FetchRequest lifecycle model

A Dafny model of `src/http/fetch_request.ts` from Turbo: the object that
describes one HTTP exchange, shapes what is sent (method string, URL with
query, body, headers), and runs the exchange while notifying its delegate.

The model has six modules:

- `Wrappers`: `Option` and `Result`.
- `AsciiCase`: the case mapping that `toLowerCase` and `toUpperCase` apply to
  the method and encoding names.
- `FormUrlEncoded`: the application/x-www-form-urlencoded serializer of the
  WHATWG URL Standard (section 5.2), which `URLSearchParams.toString` uses. It
  comes with a parser after section 5.1, proved to be its inverse; the
  parser's decoding is ASCII-only (see "## Left out"). The class
  `SearchParams` is the `URLSearchParams` accumulator that `params` appends to.
- `FetchMappings`: the `FetchMethod` and `EncodingType` enums and their string
  mappings.
- `RequestShaping`: the getters of `FetchRequest`, over its read-only
  fields (`Descriptor`). `url`, `entries`, `bodyContent`, `isIdempotent`,
  `headers`, `additionalHeaders` and `fetchOptions` are pure functions.
  `params` is a method, because its `reduce` appends to a fresh
  `URLSearchParams` one entry at a time. The module also has the
  constructor's encoding default.
- `Lifecycle`: the class `FetchRequest` with its `AbortController`, and the
  methods `Cancel`, `Receive` and `Perform`. These append everything the
  request does to a `log`, in order:
  - the call of the delegate's `additionalHeadersForRequest`, made while
    `fetchOptions` is read (`AskedHeaders`);
  - each event dispatched on the bus;
  - the `fetch` call;
  - each call of the six notification callbacks.

  Dafny has no `try`/`catch`/`finally` statement, so `Perform` follows the
  source's one with an explicit `Result` for the exception in flight. The
  `try` block is the method `Try`. The `catch` and `finally` blocks are the
  two steps of `Settle` that follow it. `Perform` asks the delegate for its
  headers, then calls `Send`, which reads the fetch options, dispatches
  `before-fetch-request` and calls `Settle`. Each method is proved equal to a
  specification function (`TrySpec`, `SettleSpec`, `PerformSpec`), and the
  lemmas state the notification protocol about `PerformSpec`.

Inputs stand in for what happens outside the request:

- how `fetch` settles: a raw response, or an error;
- whether a listener prevented the default of `turbo:before-fetch-response`;
- the response's `succeeded` flag;
- the set of delegate callbacks that throw.

With an already aborted signal, `fetch` rejects with an abort error,
whatever it would otherwise have done (`FetchOutcome`). An abort while the
fetch is in flight is the input `Rejected(AbortError)`.

Delegate callbacks may throw, as they may in the source:

- If `additionalHeadersForRequest` throws, that happens while `fetchOptions`
  is read, before the `try`. Then the call itself is the only effect:
  nothing is dispatched, nobody is notified, and the exception propagates.
- If a callback inside the `try` throws, `requestErrored` fires after it.
- If `requestErrored` or `requestFinished` throws, its exception replaces the
  one in flight.

The constructor's `encodingType || EncodingType.multipart_form_data`
(src/http/fetch_request.ts:80) is modelled as written. `application_json`
is enum value 0, which is falsy, so asking for JSON gives a multipart
request, the same as omitting the encoding (`DefaultEncoding`,
`JsonPostSendsMultipart`). The evident intent is for a JSON POST to declare
`application/json`, but the model follows the code.

## Model

| member | source | states |
|---|---|---|
| `FetchMappings.FetchMethodFromString` | src/http/fetch_request.ts:23-31 | the result is `Some(m)` exactly when the lower-cased input is the name of `m`, and `None` exactly when it is no method name (no default) |
| `FetchMappings.MethodName` | src/http/fetch_request.ts:15-21 | each enum name, as `FetchMethod[method]` gives it, is non-empty and has no upper-case letter |
| `FetchMappings.MethodString` | src/http/fetch_request.ts:147 | the method string sent is the enum name upper-cased: same length, no lower-case letter, and lower-casing it gives back the enum name |
| `FetchMappings.MethodStringGet` | src/http/fetch_request.ts:147 | the method string is `GET` for GET and for no other method |
| `FetchMappings.MethodParseIgnoresCase` | src/http/fetch_request.ts:23-31 | under the model's ASCII case mapping, upper-casing or lower-casing the input does not change what it parses to |
| `FetchMappings.MethodRoundTrip` | src/http/fetch_request.ts:15-31 | the upper-cased enum name sent in the fetch options, and the bare enum name, both parse back to the method |
| `FetchMappings.EncodingTypeToContentType` | src/http/fetch_request.ts:49-57 | every encoding has a non-empty content type with no upper-case letter |
| `FetchMappings.ContentTypeInjective` | src/http/fetch_request.ts:49-57 | distinct encodings have distinct content types |
| `FetchMappings.EncodingTypeFromString` | src/http/fetch_request.ts:39-47 | a content type matching case-insensitively gives its encoding; any result other than multipart comes from such a match |
| `FetchMappings.UnknownEncodingIsMultipart` | src/http/fetch_request.ts:39-47 | every unrecognised string gives `multipart_form_data` |
| `FetchMappings.EncodingRoundTrip` | src/http/fetch_request.ts:39-57 | parsing the content type of an encoding, lower- or upper-cased, gives back the encoding |
| `RequestShaping.DefaultEncoding` | src/http/fetch_request.ts:80 | the constructor's encoding is never JSON: omitted and JSON give multipart, url-encoded is kept, multipart is kept |
| `RequestShaping.IsIdempotent` | src/http/fetch_request.ts:156-158 | a request is idempotent exactly when its method string is `GET` |
| `RequestShaping.Entries` | src/http/fetch_request.ts:104-106 | the body's pairs in order, none without a body; the serialized query is empty exactly when there is no body or an empty one |
| `RequestShaping.ResolveUrl` | src/http/fetch_request.ts:85-95 | the `url` getter computed as the source does, via `params.toString()`, equals `Url` |
| `RequestShaping.Url` | src/http/fetch_request.ts:85-95 | the URL always starts with the absolute URL; it is unchanged exactly when the method is not GET or there are no entries; otherwise `&` follows if the URL has a `?` (else `?`), and the rest parses back to the entries in order |
| `RequestShaping.Params` | src/http/fetch_request.ts:97-102 | the fold yields a fresh `URLSearchParams` holding exactly the entries, in order |
| `RequestShaping.BodyContent` | src/http/fetch_request.ts:140-143 | the body is absent exactly when the method is GET or there is no body, and equals the request's body otherwise |
| `RequestShaping.PayloadTravelsOnce` | src/http/fetch_request.ts:85-158 | a payload never travels in both the query and the body, and a non-empty payload travels in one of them |
| `RequestShaping.GetWithQueryExample` | src/http/fetch_request.ts:85-102 | a GET to a URL that already has a `?`, with one pair of unreserved characters (say `/items?sort=asc` and `page=2`), resolves to the URL, `&`, `name=value` (`/items?sort=asc&page=2`), and has no body |
| `RequestShaping.AdditionalHeaders` | src/http/fetch_request.ts:168-174 | the delegate's headers when it has `additionalHeadersForRequest`, the empty map when it has not |
| `RequestShaping.RequestHeaders` | src/http/fetch_request.ts:160-174 | the keys are `Accept`, `Content-Type` and the delegate's keys; delegate values win; a default not overridden keeps its value; without the capability there are exactly two entries |
| `RequestShaping.JsonPostSendsMultipart` | src/http/fetch_request.ts:160-166 | a POST asked for JSON keeps its URL and sends its body, but declares `multipart/form-data` because of line 80 |
| `RequestShaping.FetchOptionsOf` | src/http/fetch_request.ts:145-154 | the method string is upper case and parses back to the method; credentials are same-origin and redirects are followed; the headers and body are the request's |
| `FormUrlEncoded.DecodeEncode` | src/http/fetch_request.ts:88 | percent-decoding undoes the encoding of any name or value |
| `FormUrlEncoded.ParseSerialize` | src/http/fetch_request.ts:88 | parsing the serialized pairs gives back the same pairs in the same order |
| `FormUrlEncoded.SearchParams.Append` | src/http/fetch_request.ts:99 | `append` adds the pair at the end and keeps the earlier ones |
| `FormUrlEncoded.SearchParams.ToString` | src/http/fetch_request.ts:88 | the query is empty exactly when there are no pairs, and it parses back to the pairs |
| `Lifecycle.AbortController.Abort` | src/http/fetch_request.ts:109 | after `abort` the signal is aborted, whatever it was before, so aborting twice is aborting once |
| `Lifecycle.FetchRequest.constructor` | src/http/fetch_request.ts:77-83 | the fields are the arguments, with the encoding defaulted; the controller is fresh and not aborted; nothing is logged |
| `Lifecycle.FetchRequest.Cancel` | src/http/fetch_request.ts:108-110 | the signal is aborted and the request itself, its log included, is unchanged, so cancelling never notifies anyone |
| `Lifecycle.FetchRequest.Receive` | src/http/fetch_request.ts:127-138 | logs `before-fetch-response`, then the verdict (prevented over succeeded over failed); returns the wrapped response unless the verdict callback throws |
| `Lifecycle.FetchRequest.Try` | src/http/fetch_request.ts:115-118 | logs `requestStarted`, the fetch and what `receive` does, as `TrySpec` says; the result is the response or the error in flight |
| `Lifecycle.FetchRequest.Settle` | src/http/fetch_request.ts:115-124 | the effects and result of the whole `try`/`catch`/`finally` are those of `SettleSpec` |
| `Lifecycle.FetchRequest.Send` | src/http/fetch_request.ts:113-125 | after the headers call, the new log is the old one followed by the effects of `SendSpec` (nothing when that call threw, else the dispatch and the `try`/`catch`/`finally`), and the result is its result |
| `Lifecycle.FetchRequest.Perform` | src/http/fetch_request.ts:112-125 | the new log is the old one followed by the effects of `PerformSpec` (the headers call when the delegate has that callback, then those of `SendSpec`), and the result is its result |
| `Lifecycle.PerformNotifications` | src/http/fetch_request.ts:112-138 | the delegate calls are `requestStarted`, any verdict, then `requestErrored` for an error in flight, then `requestFinished`; there are none when reading the headers throws |
| `Lifecycle.Bracketed` | src/http/fetch_request.ts:112-138 | once the `try` is entered, the only `requestStarted` comes first and the only `requestFinished` last; at most one verdict and at most one error lie between, the error after the verdict |
| `Lifecycle.HeadersThrowBeforeStart` | src/http/fetch_request.ts:112-114 | if `additionalHeadersForRequest` throws, that call is the only effect: nothing is dispatched or notified, and its exception is raised |
| `Lifecycle.FetchErrorIsReported` | src/http/fetch_request.ts:115-124 | with no throwing callback, a fetch error gives exactly started, errored(e), finished, and `e` is raised again |
| `Lifecycle.ResponseIsReported` | src/http/fetch_request.ts:127-138 | with no throwing callback, a response gives exactly started, one verdict (prevented over succeeded over failed), finished, and the envelope is returned |
| `Lifecycle.ThrowingVerdictIsReported` | src/http/fetch_request.ts:115-138 | a throwing verdict callback is followed by `requestErrored` with its exception, which is then raised |
| `Lifecycle.CancelledRequestErrors` | src/http/fetch_request.ts:108-125 | a request aborted before `perform` never reports a verdict, errors with the abort right after `requestStarted`, and raises |
| `Lifecycle.ErrorsAreRaised` | src/http/fetch_request.ts:119-124 | after `requestErrored` the call always raises, and a normal return always follows a verdict carrying the returned envelope |
| `Lifecycle.SendSendsRequest` | src/http/fetch_request.ts:113-117 | once the headers are read, the dispatch of `before-fetch-request`, `requestStarted` and the fetch of `url` come first, and the delegate is never asked for headers again |
| `Lifecycle.PerformSendsRequest` | src/http/fetch_request.ts:112-117 | `additionalHeadersForRequest` is called first, exactly when the delegate has it, and never again; then comes the event `before-fetch-request`, then `requestStarted`, then the fetch of `url` with the same options, whose headers are `headers` and whose body is `bodyContent` |

## Left out

- Case mapping covers ASCII letters only. Full Unicode `toLowerCase` and `toUpperCase` are not modelled.
- FetchMappings.MethodParseIgnoresCase: holds for the model's ASCII case mapping only. With JavaScript's full mapping, upper-casing can create a method name: U+017F "ſ" upper-cases to "S", so "poſt" upper-cased parses as POST while "poſt" itself parses to nothing. `FetchMethodFromString` and `EncodingTypeFromString` are unaffected, because no non-ASCII character lower-cases into any of the names they match.
- FormUrlEncoded.Decode: a `%XX` escape of a byte 0x80 or above becomes the code point XX. The standard's parser UTF-8 decodes such bytes instead: `%C3%A9` gives "é" there and "Ã©" here. The round trip is unaffected, because `Encode` never writes such escapes.
- FormUrlEncoded.EncodeChar: characters outside ASCII are passed through unchanged. The standard would UTF-8 encode and percent-encode them.
- `FormData` values that are files, and the raw-string body path of `entries`, are not modelled. A body is a list of string pairs, so `value.toString()` is the identity.
- `fetch` itself and the `async`/`await` scheduling are not modelled. The settled fetch is an input. An abort while the fetch is in flight is the input `Rejected(AbortError)`.
- The `dispatch` event bus is not modelled. A listener's changes to `fetchOptions` are not modelled, and neither are listener exceptions, which the DOM reports rather than propagates. All that is kept is the single "default prevented" flag of `before-fetch-response`.
- `FetchResponse` and its `succeeded` getter are not part of this model. `succeeded` is an input. `Location.absoluteURL` is not part of this model either; it is a plain string.
- The abort signal inside `fetchOptions` and the abort reason are not modelled. The signal's state is the controller's `aborted` flag, which `Perform` reads.
- Lifecycle.Delegate: `additionalHeadersForRequest` is a fixed header map per delegate. `perform` reads `fetchOptions`, and so calls `additionalHeadersForRequest`, once (src/http/fetch_request.ts:113), so one map per call is all that call can observe. How the map could differ between two calls, for instance after a `cancel`, is not modelled.
- The case-insensitive merging of header names in the Fetch Standard's `Headers` object is not modelled. Header keys are compared as written, as the object spread does.
- Calling `perform` twice is not guarded in the source. The model lets the second call append its effects to the log again.
- The fallback `return ""` of `encodingTypeToContentType` is unreachable for a member of the enum, so the model leaves it out.
- The functional tests in `src/tests/functional/form_submission_tests.ts` drive a browser and hold no logic of the request. They are not part of this model.
