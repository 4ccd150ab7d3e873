/**
 * Decoded response records, the outcome of a network request as the SDK
 * sees it, and the licence check both session managers perform.
 */
module Models {
  import opened Results
  import opened Errors

  /** Body of `GET {baseURL}/player`, reduced to the fields the SDK reads or keeps. */
  datatype PlayerInformationResponseModel = PlayerInformationResponseModel(player: PlayerInfo, defaults: Defaults)
  datatype PlayerInfo = PlayerInfo(bitmovin: Bitmovin)
  datatype Bitmovin = Bitmovin(license: string, integrations: Integrations)
  datatype Integrations = Integrations(mux: Mux, resume: Resume)
  datatype Mux = Mux(playerName: string, envKey: string)
  datatype Resume = Resume(enabled: bool)
  datatype Defaults = Defaults(player: string)

  /** Stream locations of an entry. */
  datatype Media = Media(hls: Option<string>, mpegdash: Option<string>, applehttp: Option<string>)

  /** Body of `GET {baseURL}/entry/{entryId}`: a subset of its fields, since the SDK only passes the record on. */
  datatype PlaybackResponseModel = PlaybackResponseModel(
    message: Option<string>,
    id: Option<string>,
    name: Option<string>,
    description: Option<string>,
    media: Option<Media>)

  /** The older entry record; only `media` is read by the code modelled here. */
  datatype VideoDetails = VideoDetails(media: Option<Media>)

  /**
   * The player-information service handle, known by the key it was created
   * with; both managers create it the same way, `PlayerInformationAPIService(apiKey:)`.
   */
  datatype PlayerInformationAPIService = PlayerInformationAPIService(apiKey: string)

  /** A Foundation `URL`, known only by the string it was built from. */
  datatype URL = URL(absoluteString: string)

  /**
   * What a one-request publisher (a URLSession data task mapped and decoded)
   * delivers to its subscriber: one value followed by `.finished`, or a
   * `.failure` completion without a value.
   */
  datatype Delivery<T> = Received(value: T) | StreamFailed(error: SwiftError)

  /** How a multi-value publisher ends. */
  datatype Termination = Finished | Aborted(error: SwiftError)

  /**
   * The licence check in `fetchPlayerInfo`'s value handler, the same in both
   * managers: an empty licence is refused with `missingLicense` and the stored
   * licence is left alone; a non-empty one is stored and reported.
   * Returns the new stored licence and the completion value.
   */
  function AcceptLicense(stored: Option<string>, info: PlayerInformationResponseModel): (r: (Option<string>, Result<string, SwiftError>))
    ensures r.1.Success? <==> info.player.bitmovin.license != ""
    ensures r.1.Success? ==> r.1.value == info.player.bitmovin.license && r.0 == Some(r.1.value)
    ensures r.1.Failure? ==> r.1.error == Sdk(MissingLicense) && r.0 == stored
  {
    var license := info.player.bitmovin.license;
    if license == "" then (stored, Failure(Sdk(MissingLicense)))
    else (Some(license), Success(license))
  }
}
