/**
 * `PlayBackSDKManager`: the older session manager. It keeps the API key, the
 * two API service handles and the Bitmovin licence, and resolves an entry to
 * its HLS stream URL. Network responses are parameters; whether Foundation's
 * `URL(string:)` accepts a string is the predicate `urlParses`.
 */
module LegacySDKManager {
  import opened Results
  import opened Errors
  import opened Models

  /**
   * The playback service handle this manager creates with `PlayBackAPIService(apiKey:)`,
   * known by that key. It is kept apart from the class `APIService.PlayBackAPIService`
   * because that class's initialiser takes an authorisation token as well as the key,
   * so the two do not describe the same version of the service.
   */
  datatype PlayBackAPIService = PlayBackAPIService(apiKey: string)

  /** A `getVideoDetails(forEntryId:andAuthorizationToken:)` call on the playback service. */
  datatype VideoDetailsRequest = VideoDetailsRequest(apiKey: string, entryId: string, authorizationToken: Option<string>)

  class PlayBackSDKManager {
    var playerInfoAPI: Option<PlayerInformationAPIService>
    var playBackAPI: Option<PlayBackAPIService>
    var bitmovinLicense: Option<string>
    var amgAPIKey: Option<string>

    constructor ()
      ensures playerInfoAPI.None? && playBackAPI.None? && bitmovinLicense.None? && amgAPIKey.None?
    {
      playerInfoAPI := None;
      playBackAPI := None;
      bitmovinLicense := None;
      amgAPIKey := None;
    }

    /**
     * `initialize(apiKey:completion:)`; `outcome` is what the completion
     * handler receives, `requested` whether the player information was fetched.
     */
    method Initialize(apiKey: string, response: Delivery<PlayerInformationResponseModel>)
      returns (outcome: Result<string, SwiftError>, requested: bool)
      modifies this
      // an empty key is refused before anything is touched or requested
      ensures apiKey == "" ==>
        outcome == Failure(Sdk(SDKError.InitializationError)) && !requested &&
        unchanged(this)
      // a non-empty key is stored and both handles are installed before the fetch
      ensures apiKey != "" ==>
        && requested
        && amgAPIKey == Some(apiKey)
        && playerInfoAPI == Some(PlayerInformationAPIService(apiKey))
        && playBackAPI == Some(PlayBackAPIService(apiKey))
      // then the licence is fetched and checked
      ensures apiKey != "" && response.StreamFailed? ==>
        outcome == Failure(response.error) && bitmovinLicense == old(bitmovinLicense)
      ensures apiKey != "" && response.Received? ==>
        (bitmovinLicense, outcome) == AcceptLicense(old(bitmovinLicense), response.value)
    {
      if apiKey == "" {
        return Failure(Sdk(SDKError.InitializationError)), false;
      }
      amgAPIKey := Some(apiKey);
      playerInfoAPI := Some(PlayerInformationAPIService(apiKey));
      playBackAPI := Some(PlayBackAPIService(apiKey));
      outcome, requested := FetchPlayerInfo(response);
    }

    /** `fetchPlayerInfo`; `requested` says whether the player information was fetched. */
    method FetchPlayerInfo(response: Delivery<PlayerInformationResponseModel>)
      returns (outcome: Result<string, SwiftError>, requested: bool)
      modifies this`bitmovinLicense
      ensures requested <==> playerInfoAPI.Some?
      ensures playerInfoAPI.None? ==>
        outcome == Failure(Sdk(SDKError.InitializationError)) && bitmovinLicense == old(bitmovinLicense)
      ensures playerInfoAPI.Some? && response.StreamFailed? ==>
        outcome == Failure(response.error) && bitmovinLicense == old(bitmovinLicense)
      ensures playerInfoAPI.Some? && response.Received? ==>
        (bitmovinLicense, outcome) == AcceptLicense(old(bitmovinLicense), response.value)
    {
      if playerInfoAPI.None? {
        return Failure(Sdk(SDKError.InitializationError)), false;
      }
      requested := true;
      match response
      case StreamFailed(e) =>
        outcome := Failure(e);
      case Received(info) =>
        if info.player.bitmovin.license == "" {
          outcome := Failure(Sdk(MissingLicense));
          return;
        }
        bitmovinLicense := Some(info.player.bitmovin.license);
        outcome := Success(info.player.bitmovin.license);
    }

    /**
     * `loadHLSStream` (older version). `response` is what the playback
     * service's publisher delivers; `completion` is what the handler receives.
     */
    method LoadHLSStream(entryId: string, authorizationToken: Option<string>, response: Delivery<VideoDetails>, urlParses: string -> bool)
      returns (requests: seq<VideoDetailsRequest>, completion: Result<URL, SwiftError>)
      ensures playBackAPI.None? ==>
        requests == [] && completion == Failure(Sdk(SDKError.InitializationError))
      ensures playBackAPI.Some? ==>
        requests == [VideoDetailsRequest(playBackAPI.value.apiKey, entryId, authorizationToken)]
      // success exactly when the details carry an HLS string that parses as a URL, and then it is that URL
      ensures completion.Success? <==>
        && playBackAPI.Some? && response.Received?
        && response.value.media.Some? && response.value.media.value.hls.Some?
        && urlParses(response.value.media.value.hls.value)
      ensures completion.Success? ==> completion.value == URL(response.value.media.value.hls.value)
      // details without a usable HLS URL give loadHLSStreamError; a stream failure is passed on as it is
      ensures playBackAPI.Some? && response.Received? && !completion.Success? ==>
        completion == Failure(Sdk(SDKError.LoadHLSStreamError))
      ensures playBackAPI.Some? && response.StreamFailed? ==> completion == Failure(response.error)
    {
      if playBackAPI.None? {
        return [], Failure(Sdk(SDKError.InitializationError));
      }
      requests := [VideoDetailsRequest(playBackAPI.value.apiKey, entryId, authorizationToken)];
      match response
      case StreamFailed(error) =>
        completion := Failure(error);
      case Received(videoDetails) =>
        if videoDetails.media.None? || videoDetails.media.value.hls.None? {
          return requests, Failure(Sdk(SDKError.LoadHLSStreamError));
        }
        var hlsURLString := videoDetails.media.value.hls.value;
        if !urlParses(hlsURLString) {
          return requests, Failure(Sdk(SDKError.LoadHLSStreamError));
        }
        completion := Success(URL(hlsURLString));
    }
  }
}
