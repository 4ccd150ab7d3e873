# Playback SDK for iOS: session managers, entry requests and error reasons

This project models the core of the StreamAMG Playback SDK for iOS. The model covers:

- the two session managers. `PlaybackSDKManager` is the current one. `PlayBackSDKManager` is the older one.
- how each manager initialises with an API key and fetches the Bitmovin licence.
- how each manager resolves one entry, or a whole playlist of entries, through the playback API.
- the request the older `PlayBackAPIService` builds for `GET {baseURL}/entry/{entryId}`.
- the parser that turns an API reason code into a `PlaybackErrorReason`. The SDK has one copy and the documentation resources have another.

Modules, one concept each:

- `Results`: `Option` and `Result`.
- `ErrorReason`: `PlaybackErrorReason` and `init(fromString:)`, with the table of the fourteen reason codes.
- `ErrorReasonDocs`: the documentation copy of the parser. It is proved equal to the SDK's parser.
- `Errors`: `SDKError`, `PlaybackAPIError` and the older `PlayBackAPIError`. `SwiftError` stands in for Swift's open `Error` existential. `AsPlaybackAPIError` stands in for the `as? PlaybackAPIError … else .networkError(error)` idiom.
- `Models`:
  - the response records the core reads.
  - `Delivery`: what a one-shot publisher delivers, a value or a failure.
  - `Termination`: how a merged publisher ends.
  - `AcceptLicense`: the licence check. Both managers use it.
- `APIService`: `PlayBackAPIService` and its request builder.
- `PlaylistFold`: the lists `loadAllHLSStream` builds from the merged stream.
- `SDKManager`: the current manager.
  - The class `PlaybackSDKManager` holds the source's fields.
  - Its methods are proved equal to the pure step functions `InitializeStep` and `FetchPlayerInfoStep`, which act on the `Session` value.
  - Lemmas about series of `initialize` calls are stated over `Run`.
- `LegacySDKManager`: the older manager, the class `PlayBackSDKManager`.

Network responses are parameters of the methods, and so is the outcome of Foundation's `URL(string:)` (a predicate `urlParses`). A completion handler's argument is an out-parameter. When a handler is never called, that out-parameter is `None`.

Three behaviours of the code are easy to misread:

- The older `PlayBackAPIService` sends the token verbatim as the `Authorization` header, with no `Bearer ` prefix (`PlayBackAPIService.swift:29-31`). The header is left out only when the token is empty, so a token of spaces is still sent. The current service, by contrast, sends `Bearer ` followed by the token (`PlayBack API/PlaybackAPIService.swift:49-50`).
- `loadAllHLSStream` appends each result as it arrives from `Publishers.MergeMany` (`PlaybackSDKManager.swift:261-276`). The two lists are in arrival order, not in the order of the entry ids.
- A merge that fails, for example on a transport error such as a timeout, never calls the completion handler (`PlaybackSDKManager.swift:248-255`). The error only goes into a local list that nothing reads afterwards. An unknown entry id is reported as a failed value inside the stream, so it does not end the stream. The playlist then still completes and lists the error.

## Model

| member | source | states |
|---|---|---|
| ErrorReason.Uppercased | Sources/PlaybackSDK/PlaybackSDKManager.swift:47 | `String.uppercased()` on ASCII letters: the length is kept, no lower-case letter is left, each lower-case letter becomes its capital and every other character stays |
| ErrorReason.FromString | Sources/PlaybackSDK/PlaybackSDKManager.swift:46-64 | `init(fromString:)`, the switch on the upper-cased input: a known reason is selected only by its own code, up to case, and the fallback `unknownError` carries the input as received |
| ErrorReason.FromStringCaseInsensitive | Sources/PlaybackSDK/PlaybackSDKManager.swift:46-63 | two inputs that agree up to case select the same known reason, or both take the fallback, each keeping its own original string |
| ErrorReason.FromStringOfUppercased | Sources/PlaybackSDK/PlaybackSDKManager.swift:47 | parsing the upper-cased input selects the same known reason; only the fallback's payload becomes the upper-cased string |
| ErrorReason.KnownCodeParses | Sources/PlaybackSDK/PlaybackSDKManager.swift:48-61 | each of the fourteen literals selects its own case, never the fallback, and is that case's code |
| ErrorReason.KnownCodesDistinct | Sources/PlaybackSDK/PlaybackSDKManager.swift:48-61 | the fourteen literals are pairwise distinct and so are the cases they select |
| ErrorReason.UnknownIffNotKnown | Sources/PlaybackSDK/PlaybackSDKManager.swift:47-62 | the fallback `unknownError` is taken exactly when the upper-cased input is none of the literals, and carries the input unchanged |
| ErrorReason.CodeRoundTrip | Sources/PlaybackSDK/PlaybackSDKManager.swift:22-61 | every known reason has a code, and parsing that code gives the reason back |
| ErrorReason.ParseRoundTrip | Sources/PlaybackSDK/PlaybackSDKManager.swift:47-61 | a string that parses to a known reason is, up to case, exactly that reason's code |
| ErrorReason.KnownInjective | Sources/PlaybackSDK/PlaybackSDKManager.swift:47-61 | two strings that parse to the same known reason agree up to case |
| ErrorReason.UppercasedIdempotent | Sources/PlaybackSDK/PlaybackSDKManager.swift:47 | upper-casing twice is upper-casing once, so the parser sees the same key for `s` and `s.uppercased()` |
| ErrorReasonDocs.FromString | Sources/PlaybackSDK/Documentation.docc/Resources/PlaybackAPIError.swift:32-50 | the documentation copy's own switch on the upper-cased input, with the same fourteen literals and the same fallback; its properties are the lemmas below |
| ErrorReasonDocs.AgreesWithSDK | Sources/PlaybackSDK/Documentation.docc/Resources/PlaybackAPIError.swift:32-50 | the documentation copy of the parser returns the same reason as the SDK's for every input |
| ErrorReasonDocs.CaseInsensitive | Sources/PlaybackSDK/Documentation.docc/Resources/PlaybackAPIError.swift:33-47 | the copy selects the same known reason for inputs that agree up to case |
| ErrorReasonDocs.KnownCodesDistinct | Sources/PlaybackSDK/Documentation.docc/Resources/PlaybackAPIError.swift:34-47 | in the copy each literal selects its own case, and distinct literals select distinct cases |
| ErrorReasonDocs.UnknownIffNotKnown | Sources/PlaybackSDK/Documentation.docc/Resources/PlaybackAPIError.swift:33-48 | in the copy the fallback is taken exactly when the upper-cased input is not a literal, and keeps the input |
| Errors.AsPlaybackAPIError | Sources/PlaybackSDK/PlaybackSDKManager.swift:302-306 | an error that already is a `PlaybackAPIError` passes through; any other becomes `networkError` wrapping it |
| Errors.AsPlaybackAPIErrorIdempotent | Sources/PlaybackSDK/PlaybackSDKManager.swift:316-320 | mapping an already mapped error changes nothing |
| Models.AcceptLicense | Sources/PlaybackSDK/PlaybackSDKManager.swift:218-227 | success exactly for a non-empty licence, which is then stored and reported; an empty one gives `missingLicense` and keeps the stored licence |
| APIService.AddValue | Sources/PlaybackSDK/PlayBackAPIService.swift:27-33 | `URLRequest.addValue(_:forHTTPHeaderField:)` for a field the request does not have yet: it appends the field to the model's header list, which records the order of the `addValue` calls |
| APIService.PlayBackAPIService.constructor | Sources/PlaybackSDK/PlayBackAPIService.swift:12-19 | the service keeps the token and key it was given, and its base URL is the fixed production URL |
| APIService.PlayBackAPIService.GetVideoDetails | Sources/PlaybackSDK/PlayBackAPIService.swift:21-40 | an unparsable URL fails with `invalidResponse` and sends nothing. Otherwise the request goes to base + "/entry/" + id. The `addValue` calls are exactly `Accept: application/json` first, then `Authorization` only for a non-empty token, then `x-api-key`: two header fields or three. `Authorization` is present exactly when the token is non-empty, and holds it verbatim. No field is repeated. Transport or decoding failures become `networkError` |
| PlaylistFold.Successes | Sources/PlaybackSDK/PlaybackSDKManager.swift:272-274 | the details list after a run of arrivals: each `.success` value appended in arrival order |
| PlaylistFold.Failures | Sources/PlaybackSDK/PlaybackSDKManager.swift:265-271 | the error list after a run of arrivals: each `.failure` appended in arrival order, passed through as a `PlaybackAPIError` or wrapped as `networkError` |
| PlaylistFold.PartitionCount | Sources/PlaybackSDK/PlaybackSDKManager.swift:261-276 | every arrival lands in exactly one of the details list and the error list |
| PlaylistFold.FoldConcat | Sources/PlaybackSDK/PlaybackSDKManager.swift:261-276 | folding two runs of arrivals one after the other appends their lists |
| PlaylistFold.SuccessMembership | Sources/PlaybackSDK/PlaybackSDKManager.swift:272-274 | a decoded entry is in the details list exactly when it arrived as a success |
| PlaylistFold.FailureMembership | Sources/PlaybackSDK/PlaybackSDKManager.swift:265-271 | an error is in the error list exactly when some arrival failed with an error that maps to it |
| PlaylistFold.AllSucceeded | Sources/PlaybackSDK/PlaybackSDKManager.swift:261-276 | the error list is empty exactly when every arrival succeeded, and then the details list is every value in arrival order |
| PlaylistFold.OneMissingEntry | Tests/PlaybackSDKTests/PlaybackSDKManagerTests.swift:100-127 | three arrivals whose middle arrival is an API error yield the other two details, in arrival order, and that one error |
| SDKManager.FetchPlayerInfoStep | Sources/PlaybackSDK/PlaybackSDKManager.swift:198-230 | without the player-information service it fails with `initializationError` and requests nothing. Otherwise it requests with the stored key and user agent. Only the licence can change. It succeeds exactly for a delivered non-empty licence, which is then stored. Stream failures pass through, and an empty licence gives `missingLicense` |
| SDKManager.InitializeStep | Sources/PlaybackSDK/PlaybackSDKManager.swift:118-135 | an empty key fails with `initializationError` and touches nothing. A non-empty key overwrites key, user agent and both services, and the base URL only when one is given, before the licence fetch. Then a stream failure is passed on and keeps the licence, and a delivered response is decided by `AcceptLicense`: `.success` with the licence exactly when it is non-empty, else `missingLicense`. Success means a stored non-empty licence. Failure keeps the previous licence. Field consistency is preserved |
| SDKManager.Run | Sources/PlaybackSDK/PlaybackSDKManager.swift:118-135 | the fields after a series of `initialize` calls, each applied to the fields the previous one left; nothing guards against re-initialising |
| SDKManager.RunKeepsConsistent | Sources/PlaybackSDK/PlaybackSDKManager.swift:118-135 | any series of `initialize` calls keeps key, services and licence consistent with each other |
| SDKManager.UninitializedUntilKeyed | Sources/PlaybackSDK/PlaybackSDKManager.swift:119-129 | the playback service stays unset, so every load fails with `initializationError`, exactly while no call has carried a non-empty key |
| SDKManager.LicenseNeverCleared | Sources/PlaybackSDK/PlaybackSDKManager.swift:218-224 | once a licence is stored, later `initialize` calls may replace it but never clear it |
| SDKManager.LastInitializeWins | Sources/PlaybackSDK/PlaybackSDKManager.swift:124-132 | after any series of calls the session holds the key and user agent of the last call whose key is non-empty; a series without such a call leaves the session unchanged |
| SDKManager.StaleLicenseAfterFailedReinitialize | Sources/PlaybackSDK/PlaybackSDKManager.swift:118-135 | a re-initialisation whose licence is empty reports `missingLicense` yet leaves the new key installed beside the previous licence |
| SDKManager.PlaybackSDKManager.constructor | Sources/PlaybackSDK/PlaybackSDKManager.swift:93-107 | a new manager has no services, key, user agent or licence, and the default base URL |
| SDKManager.PlaybackSDKManager.Initialize | Sources/PlaybackSDK/PlaybackSDKManager.swift:118-135 | the new fields, the completion value and the request are exactly those of `InitializeStep` on the old fields |
| SDKManager.PlaybackSDKManager.FetchPlayerInfo | Sources/PlaybackSDK/PlaybackSDKManager.swift:198-230 | the new fields, the completion value and the request are exactly those of `FetchPlayerInfoStep` on the old fields; only the licence field may change |
| SDKManager.PlaybackSDKManager.LoadAllHLSStream | Sources/PlaybackSDK/PlaybackSDKManager.swift:232-278 | without the playback service it fails with `initializationError` and requests nothing. Otherwise it makes one request per entry id, in list order, with the shared token and stored user agent. A finished stream completes with success holding the two arrival lists. Since each entry's publisher delivers one value before it finishes, the two lists together account for every entry id. A failed stream never completes |
| SDKManager.PlaybackSDKManager.LoadHLSStream | Sources/PlaybackSDK/PlaybackSDKManager.swift:286-327 | without the playback service it fails with `initializationError` and requests nothing. It succeeds exactly when decoded details arrive, and passes them on unchanged. Errors, delivered as a value or as the stream's failure, pass through as `PlaybackAPIError` or are wrapped as `networkError` |
| LegacySDKManager.PlayBackSDKManager.constructor | Sources/PlaybackSDK/PlayBackSDKManager.swift:29-38 | a new manager has no services, key or licence |
| LegacySDKManager.PlayBackSDKManager.Initialize | Sources/PlaybackSDK/PlayBackSDKManager.swift:45-57 | an empty key fails with `initializationError` and changes nothing. A non-empty key installs key and both services and fetches the licence, which `AcceptLicense` decides. A stream failure passes through and keeps the licence |
| LegacySDKManager.PlayBackSDKManager.FetchPlayerInfo | Sources/PlaybackSDK/PlayBackSDKManager.swift:64-96 | it fetches exactly when the player-information service is set, and otherwise fails with `initializationError`. A stream failure passes through, and a delivered response is decided by `AcceptLicense` |
| LegacySDKManager.PlayBackSDKManager.LoadHLSStream | Sources/PlaybackSDK/PlayBackSDKManager.swift:104-135 | without the playback service it fails with `initializationError`. It succeeds exactly when the details carry an HLS string that parses as a URL, and yields that URL. Other details give `loadHLSStreamError`, and a stream failure passes through unchanged |

## Left out

- Combine, URLSession and JSON decoding: a publisher's output is a parameter of the method that consumes it (`Delivery`, or a sequence of arrivals plus a `Termination`). Cancellable storage and `print` logging are not modelled.
- SDKManager.Run: each `initialize` call's licence fetch is taken to finish before the next call starts. A licence from an earlier call that arrives after a later call has installed its key is not modelled.
- Concurrency of `Publishers.MergeMany`: the arrival order is a parameter. The model says nothing about which orders can occur, or about how arrivals relate to the order of the entry ids.
- A publisher that emits more than once would call a one-shot completion handler more than once. `Delivery` models exactly one emission or one failure.
- ErrorReason.Uppercased, ErrorReason.FromString: `String.uppercased()` is modelled for ASCII letters only, and the switch compares strings character by character. Three Swift behaviours are therefore not modelled, and each can change which reason is selected:
  - Unicode case mapping that changes length (`ß` becomes `SS`).
  - Case mapping of non-ASCII letters onto ASCII capitals: `ı` becomes `I` and `ſ` becomes `S`, so Swift parses `"no_entıty_exıst"` as `noEntityExist`, while the model gives `unknownError`.
  - Swift's `String` equality is canonical equivalence: `"TO\u{212A}EN_ERROR"` (with KELVIN SIGN) equals `"TOKEN_ERROR"` in Swift, but not in the model.
- ErrorReason.FromStringCaseInsensitive: its notion of "agree up to case" is the ASCII-only `Uppercased` above.
- `URL(string:)` parsing: it is the predicate `urlParses`. `URL` is modelled as the string it was built from.
- `loadPlayer` and `loadPlaylist`, and the SwiftUI views and Bitmovin plugin behind them, are user-interface code and are not part of this model.
- `PlayerInformationAPIService`, `PlaybackAPIService` and their HTTP status handling are not part of this model. Their handles are values that record the key they were built with. Their requests are records of the arguments passed.
- `VideoDetails` is not part of this model beyond `media.hls`, the only field the core reads. `PlaybackResponseModel` keeps a subset of its fields, since the core only passes the record on whole.
- APIService.AddValue: appends a header field; it models `addValue` for a field not yet present. `URLRequest`'s comma-joining of a repeated field is left out, because the builder never repeats a field (proved as `FieldsDistinct`). `URLRequest` keeps header fields unordered; "first" and "last" in `GetVideoDetails` describe the order of the calls, not of the request as sent.
- The shared singletons (`shared`) and the mismatch between the two managers' service and API-protocol versions are not modelled.
