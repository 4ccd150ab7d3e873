/**
 * The error types the SDK passes to its completion handlers.
 *
 * Swift's `Error` is an open existential: a completion receives "some error",
 * which the code inspects with `as?`. `SwiftError` stands for it, with one
 * case per error type of the SDK and `Foreign` for errors raised by code
 * outside the model (URLSession, JSONDecoder).
 */
module Errors {
  import opened ErrorReason

  /** `SDKError`, declared identically by both session managers. */
  datatype SDKError = InitializationError | MissingLicense | LoadHLSStreamError

  /** `PlaybackAPIError`, the error type of the current SDK manager and its API service. */
  datatype PlaybackAPIError =
    | InvalidResponsePlaybackData
    | InvalidPlaybackDataURL
    | InvalidPlayerInformationURL
    | InitializationError
    | LoadHLSStreamError
    | Unknown
    | NetworkError(cause: SwiftError)
    | ApiError(statusCode: int, message: string, reason: PlaybackErrorReason)

  /** `PlayBackAPIError`, the older API service's error type. */
  datatype PlayBackAPIError =
    | InvalidResponse
    | NetworkError(cause: SwiftError)
    | ApiError(statusCode: int, message: string)

  /** A value of Swift's `Error` existential. */
  datatype SwiftError =
    | Sdk(sdk: SDKError)
    | PlaybackAPI(api: PlaybackAPIError)
    | PlayBackAPI(legacy: PlayBackAPIError)
    | Foreign(description: string)

  /**
   * `if let e = error as? PlaybackAPIError { e } else { .networkError(error) }`:
   * an error that already is a `PlaybackAPIError` passes through, any other is wrapped.
   */
  function AsPlaybackAPIError(error: SwiftError): (r: PlaybackAPIError)
    ensures error.PlaybackAPI? ==> r == error.api
    ensures !error.PlaybackAPI? ==> r.NetworkError? && r.cause == error
  {
    match error
    case PlaybackAPI(e) => e
    case _ => PlaybackAPIError.NetworkError(error)
  }

  /** Mapping an already mapped error changes nothing. */
  lemma AsPlaybackAPIErrorIdempotent(error: SwiftError)
    ensures AsPlaybackAPIError(PlaybackAPI(AsPlaybackAPIError(error))) == AsPlaybackAPIError(error)
  {
  }
}
