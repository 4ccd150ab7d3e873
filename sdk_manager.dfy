/**
 * `PlaybackSDKManager`: the session manager of the current SDK. It keeps the
 * API key, base URL, user agent, the two API service handles and the Bitmovin
 * licence, and loads entry details through the playback service.
 *
 * The manager's fields, taken together, are a `Session` value; `InitializeStep`
 * and `FetchPlayerInfoStep` say what one call does to it, and the class methods
 * are proved to do exactly that. Network responses are parameters.
 */
module SDKManager {
  import opened Results
  import opened Errors
  import opened Models
  import opened PlaylistFold

  /** The base URL a fresh manager starts with. */
  const DefaultBaseURL: string := "https://api.playback.streamamg.com/v1"

  /** The playback service handle, known by the key it was created with. */
  datatype PlaybackAPIService = PlaybackAPIService(apiKey: string)

  /** The `GET /player` request `fetchPlayerInfo` starts: the service's key and the stored user agent. */
  datatype PlayerInfoRequest = PlayerInfoRequest(apiKey: string, userAgent: Option<string>)

  /** A `getVideoDetails(forEntryId:andAuthorizationToken:userAgent:)` call on the playback service. */
  datatype VideoDetailsRequest = VideoDetailsRequest(apiKey: string, entryId: string, authorizationToken: Option<string>, userAgent: Option<string>)

  /** The manager's fields. */
  datatype Session = Session(
    playerInfoAPI: Option<PlayerInformationAPIService>,
    playbackAPI: Option<PlaybackAPIService>,
    userAgentHeader: Option<string>,
    bitmovinLicense: Option<string>,
    amgAPIKey: Option<string>,
    baseURL: string)

  const InitialSession: Session := Session(None, None, None, None, None, DefaultBaseURL)

  /** The new fields, what the completion handler receives, and the player-information request started, if any. */
  datatype Step = Step(session: Session, outcome: Result<string, SwiftError>, request: Option<PlayerInfoRequest>)

  /** The fields agree with each other: both handles and the key are set together, with the same non-empty key, and a licence is only held once a key is. */
  ghost predicate Consistent(s: Session) {
    && (s.amgAPIKey.Some? <==> s.playerInfoAPI.Some?)
    && (s.amgAPIKey.Some? <==> s.playbackAPI.Some?)
    && (s.amgAPIKey.Some? ==>
          && s.amgAPIKey.value != ""
          && s.playerInfoAPI.value.apiKey == s.amgAPIKey.value
          && s.playbackAPI.value.apiKey == s.amgAPIKey.value)
    && (s.bitmovinLicense.Some? ==> s.bitmovinLicense.value != "" && s.amgAPIKey.Some?)
  }

  /** A session that has been initialised and holds a licence. */
  ghost predicate Ready(s: Session) {
    Consistent(s) && s.amgAPIKey.Some? && s.bitmovinLicense.Some?
  }

  /** `fetchPlayerInfo`: the guard on the player-information service, then the licence check on the response. */
  function FetchPlayerInfoStep(s: Session, response: Delivery<PlayerInformationResponseModel>): (r: Step)
    ensures s.playerInfoAPI.None? ==> r == Step(s, Failure(Sdk(SDKError.InitializationError)), None)
    ensures s.playerInfoAPI.Some? ==> r.request == Some(PlayerInfoRequest(s.playerInfoAPI.value.apiKey, s.userAgentHeader))
    // only the licence can change
    ensures r.session == s.(bitmovinLicense := r.session.bitmovinLicense)
    ensures r.outcome.Success? <==>
      s.playerInfoAPI.Some? && response.Received? && response.value.player.bitmovin.license != ""
    ensures r.outcome.Success? ==>
      r.outcome.value == response.value.player.bitmovin.license && r.session.bitmovinLicense == Some(r.outcome.value)
    ensures r.outcome.Failure? ==> r.session == s
    ensures s.playerInfoAPI.Some? && response.StreamFailed? ==> r.outcome == Failure(response.error)
    ensures s.playerInfoAPI.Some? && response.Received? && response.value.player.bitmovin.license == "" ==>
      r.outcome == Failure(Sdk(MissingLicense))
  {
    if s.playerInfoAPI.None? then Step(s, Failure(Sdk(SDKError.InitializationError)), None)
    else
      var request := Some(PlayerInfoRequest(s.playerInfoAPI.value.apiKey, s.userAgentHeader));
      match response
      case StreamFailed(e) => Step(s, Failure(e), request)
      case Received(info) =>
        var accepted := AcceptLicense(s.bitmovinLicense, info);
        Step(s.(bitmovinLicense := accepted.0), accepted.1, request)
  }

  /** `initialize(apiKey:baseURL:userAgent:completion:)`. */
  function InitializeStep(
    s: Session, apiKey: string, baseURL: Option<string>, userAgent: Option<string>,
    response: Delivery<PlayerInformationResponseModel>): (r: Step)
    // an empty key is refused before anything is touched or requested
    ensures apiKey == "" ==> r == Step(s, Failure(Sdk(SDKError.InitializationError)), None)
    // a non-empty key overwrites key, user agent and handles, and the base URL only when one is given
    ensures apiKey != "" ==>
      && r.session.baseURL == (if baseURL.Some? then baseURL.value else s.baseURL)
      && r.session.amgAPIKey == Some(apiKey)
      && r.session.userAgentHeader == userAgent
      && r.session.playerInfoAPI == Some(PlayerInformationAPIService(apiKey))
      && r.session.playbackAPI == Some(PlaybackAPIService(apiKey))
      && r.request == Some(PlayerInfoRequest(apiKey, userAgent))
    // then the licence is fetched: a stream failure is passed on, a delivered licence is checked
    ensures apiKey != "" && response.StreamFailed? ==>
      r.outcome == Failure(response.error) && r.session.bitmovinLicense == s.bitmovinLicense
    ensures apiKey != "" && response.Received? ==>
      (r.session.bitmovinLicense, r.outcome) == AcceptLicense(s.bitmovinLicense, response.value)
    // success means a stored, non-empty licence equal to the one reported
    ensures r.outcome.Success? ==> Ready(r.session) && r.session.bitmovinLicense == Some(r.outcome.value)
    ensures r.outcome.Failure? ==> r.session.bitmovinLicense == s.bitmovinLicense
    ensures Consistent(s) ==> Consistent(r.session)
  {
    if apiKey == "" then Step(s, Failure(Sdk(SDKError.InitializationError)), None)
    else
      var keyed := s.(
        baseURL := if baseURL.Some? then baseURL.value else s.baseURL,
        amgAPIKey := Some(apiKey),
        userAgentHeader := userAgent,
        playerInfoAPI := Some(PlayerInformationAPIService(apiKey)),
        playbackAPI := Some(PlaybackAPIService(apiKey)));
      FetchPlayerInfoStep(keyed, response)
  }

  /** The arguments and the network response of one `initialize` call. */
  datatype InitializeCall = InitializeCall(
    apiKey: string, baseURL: Option<string>, userAgent: Option<string>,
    response: Delivery<PlayerInformationResponseModel>)

  /** The session after a series of `initialize` calls; there is no "already initialised" guard. */
  function Run(s: Session, calls: seq<InitializeCall>): Session
    decreases |calls|
  {
    if calls == [] then s
    else
      var c := calls[0];
      Run(InitializeStep(s, c.apiKey, c.baseURL, c.userAgent, c.response).session, calls[1..])
  }

  /** Any series of `initialize` calls keeps the fields consistent. */
  lemma {:induction false} RunKeepsConsistent(s: Session, calls: seq<InitializeCall>)
    requires Consistent(s)
    ensures Consistent(Run(s, calls))
    decreases |calls|
  {
    if calls != [] {
      var c := calls[0];
      RunKeepsConsistent(InitializeStep(s, c.apiKey, c.baseURL, c.userAgent, c.response).session, calls[1..]);
    }
  }

  /** The playback service stays unset, so every load fails with `initializationError`, exactly while no call has had a non-empty key. */
  lemma {:induction false} UninitializedUntilKeyed(s: Session, calls: seq<InitializeCall>)
    ensures Run(s, calls).playbackAPI.None? <==>
      s.playbackAPI.None? && forall i :: 0 <= i < |calls| ==> calls[i].apiKey == ""
    decreases |calls|
  {
    if calls != [] {
      var c := calls[0];
      var next := InitializeStep(s, c.apiKey, c.baseURL, c.userAgent, c.response).session;
      UninitializedUntilKeyed(next, calls[1..]);
      assert forall i :: 1 <= i < |calls| ==> calls[1..][i - 1] == calls[i];
    }
  }

  /** Once a licence is stored, later `initialize` calls may replace it but never clear it. */
  lemma {:induction false} LicenseNeverCleared(s: Session, calls: seq<InitializeCall>)
    requires s.bitmovinLicense.Some?
    ensures Run(s, calls).bitmovinLicense.Some?
    decreases |calls|
  {
    if calls != [] {
      var c := calls[0];
      LicenseNeverCleared(InitializeStep(s, c.apiKey, c.baseURL, c.userAgent, c.response).session, calls[1..]);
    }
  }

  /** The last call of a series that carries a non-empty key, if any. */
  function LastKeyed(calls: seq<InitializeCall>): (r: Option<InitializeCall>)
    ensures r.None? <==> forall i :: 0 <= i < |calls| ==> calls[i].apiKey == ""
    ensures r.Some? ==> r.value.apiKey != ""
    ensures r.Some? ==>
      exists i :: && 0 <= i < |calls| && calls[i] == r.value
                  && forall j :: i < j < |calls| ==> calls[j].apiKey == ""
    decreases |calls|
  {
    if calls == [] then None
    else
      var rest := LastKeyed(calls[1..]);
      assert forall i :: 1 <= i < |calls| ==> calls[1..][i - 1] == calls[i];
      if rest.Some? then rest
      else if calls[0].apiKey != "" then Some(calls[0])
      else None
  }

  /**
   * Re-initialising overwrites: after any series of calls the session holds the
   * key and user agent of the last call with a non-empty key, and a series
   * without one leaves the session as it was.
   */
  lemma {:induction false} LastInitializeWins(s: Session, calls: seq<InitializeCall>)
    ensures LastKeyed(calls).Some? ==>
      && Run(s, calls).amgAPIKey == Some(LastKeyed(calls).value.apiKey)
      && Run(s, calls).userAgentHeader == LastKeyed(calls).value.userAgent
    ensures LastKeyed(calls).None? ==> Run(s, calls) == s
    decreases |calls|
  {
    if calls != [] {
      var c := calls[0];
      var next := InitializeStep(s, c.apiKey, c.baseURL, c.userAgent, c.response).session;
      LastInitializeWins(next, calls[1..]);
    }
  }

  /**
   * A re-initialisation whose delivered licence is empty leaves the new key installed
   * beside the previous session's licence.
   */
  lemma StaleLicenseAfterFailedReinitialize(
    s: Session, apiKey: string, userAgent: Option<string>, info: PlayerInformationResponseModel)
    requires apiKey != "" && info.player.bitmovin.license == ""
    ensures var r := InitializeStep(s, apiKey, None, userAgent, Received(info));
      && r.outcome == Failure(Sdk(MissingLicense))
      && r.session.amgAPIKey == Some(apiKey)
      && r.session.bitmovinLicense == s.bitmovinLicense
  {
  }

  class PlaybackSDKManager {
    var playerInfoAPI: Option<PlayerInformationAPIService>
    var playbackAPI: Option<PlaybackAPIService>
    var userAgentHeader: Option<string>
    var bitmovinLicense: Option<string>
    var amgAPIKey: Option<string>
    var baseURL: string

    /** The fields as one value. */
    function State(): Session
      reads this
    {
      Session(playerInfoAPI, playbackAPI, userAgentHeader, bitmovinLicense, amgAPIKey, baseURL)
    }

    constructor ()
      ensures State() == InitialSession
    {
      playerInfoAPI := None;
      playbackAPI := None;
      userAgentHeader := None;
      bitmovinLicense := None;
      amgAPIKey := None;
      baseURL := DefaultBaseURL;
    }

    /** `initialize`; `outcome` is what the completion handler receives. */
    method Initialize(apiKey: string, baseURL: Option<string>, userAgent: Option<string>, response: Delivery<PlayerInformationResponseModel>)
      returns (outcome: Result<string, SwiftError>, request: Option<PlayerInfoRequest>)
      modifies this
      ensures var r := InitializeStep(old(State()), apiKey, baseURL, userAgent, response);
        State() == r.session && outcome == r.outcome && request == r.request
    {
      if apiKey == "" {
        return Failure(Sdk(SDKError.InitializationError)), None;
      }
      if baseURL.Some? {
        this.baseURL := baseURL.value;
      }
      amgAPIKey := Some(apiKey);
      userAgentHeader := userAgent;
      playerInfoAPI := Some(PlayerInformationAPIService(apiKey));
      playbackAPI := Some(PlaybackAPIService(apiKey));
      outcome, request := FetchPlayerInfo(response);
    }

    /** `fetchPlayerInfo`; `outcome` is what the completion handler receives. */
    method FetchPlayerInfo(response: Delivery<PlayerInformationResponseModel>)
      returns (outcome: Result<string, SwiftError>, request: Option<PlayerInfoRequest>)
      modifies this`bitmovinLicense
      ensures var r := FetchPlayerInfoStep(old(State()), response);
        State() == r.session && outcome == r.outcome && request == r.request
    {
      if playerInfoAPI.None? {
        return Failure(Sdk(SDKError.InitializationError)), None;
      }
      request := Some(PlayerInfoRequest(playerInfoAPI.value.apiKey, userAgentHeader));
      match response
      case StreamFailed(e) =>
        outcome := Failure(e);
      case Received(info) =>
        if info.player.bitmovin.license == "" {
          outcome := Failure(Sdk(MissingLicense));
          return;
        }
        bitmovinLicense := Some(info.player.bitmovin.license);
        outcome := Success(info.player.bitmovin.license);
    }

    /**
     * `loadAllHLSStream`. `arrivals` are the values the merged publisher
     * delivers, in arrival order, and `termination` how it ends. `completion`
     * is the value the completion handler receives, or `None` when it is
     * never called.
     */
    method LoadAllHLSStream(entryIds: seq<string>, authorizationToken: Option<string>, arrivals: seq<Arrival>, termination: Termination)
      returns (requests: seq<VideoDetailsRequest>,
               completion: Option<Result<(seq<PlaybackResponseModel>, seq<PlaybackAPIError>), PlaybackAPIError>>)
      // each entry's publisher delivers exactly one `Result` value before it finishes, so a
      // merge that finishes has delivered one value per entry id
      requires termination.Finished? ==> |arrivals| == |entryIds|
      // without the playback service nothing is requested
      ensures playbackAPI.None? ==>
        requests == [] && completion == Some(Failure(PlaybackAPIError.InitializationError))
      // one request per entry id, in list order, with the shared token and the stored user agent
      ensures playbackAPI.Some? ==>
        && |requests| == |entryIds|
        && forall i :: 0 <= i < |entryIds| ==>
             requests[i] == VideoDetailsRequest(playbackAPI.value.apiKey, entryIds[i], authorizationToken, userAgentHeader)
      // a finished stream always completes with success, partitioning the arrivals
      ensures playbackAPI.Some? && termination.Finished? ==>
        completion == Some(Success((Successes(arrivals), Failures(arrivals))))
      // so every entry id is accounted for, as a detail or as an error
      ensures playbackAPI.Some? && termination.Finished? ==>
        |completion.value.value.0| + |completion.value.value.1| == |entryIds|
      // a failed stream never calls the completion handler
      ensures playbackAPI.Some? && termination.Aborted? ==> completion == None
    {
      var videoDetails: seq<PlaybackResponseModel> := [];
      var playbackErrors: seq<PlaybackAPIError> := [];

      if playbackAPI.None? {
        return [], Some(Failure(PlaybackAPIError.InitializationError));
      }
      var api := playbackAPI.value;

      requests := [];
      var i := 0;
      while i < |entryIds|
        invariant 0 <= i <= |entryIds|
        invariant |requests| == i
        invariant forall j :: 0 <= j < i ==>
          requests[j] == VideoDetailsRequest(api.apiKey, entryIds[j], authorizationToken, userAgentHeader)
      {
        requests := requests + [VideoDetailsRequest(api.apiKey, entryIds[i], authorizationToken, userAgentHeader)];
        i := i + 1;
      }

      var k := 0;
      while k < |arrivals|
        invariant 0 <= k <= |arrivals|
        invariant videoDetails == Successes(arrivals[..k])
        invariant playbackErrors == Failures(arrivals[..k])
      {
        assert arrivals[..k + 1][..k] == arrivals[..k];
        if arrivals[k].Failure? {
          playbackErrors := playbackErrors + [AsPlaybackAPIError(arrivals[k].error)];
        } else {
          videoDetails := videoDetails + [arrivals[k].value];
        }
        k := k + 1;
      }
      assert arrivals[..k] == arrivals;

      match termination
      case Finished =>
        PartitionCount(arrivals);
        completion := Some(Success((videoDetails, playbackErrors)));
      case Aborted(e) =>
        // the error is recorded in the local list, which nothing reads afterwards
        playbackErrors := playbackErrors + [AsPlaybackAPIError(e)];
        completion := None;
    }

    /**
     * `loadHLSStream` (current version). `response` is what the playback
     * service's publisher delivers; `completion` is what the handler receives.
     */
    method LoadHLSStream(entryId: string, authorizationToken: Option<string>, response: Delivery<Arrival>)
      returns (requests: seq<VideoDetailsRequest>, completion: Result<PlaybackResponseModel, PlaybackAPIError>)
      ensures playbackAPI.None? ==>
        requests == [] && completion == Failure(PlaybackAPIError.InitializationError)
      ensures playbackAPI.Some? ==>
        requests == [VideoDetailsRequest(playbackAPI.value.apiKey, entryId, authorizationToken, userAgentHeader)]
      // success exactly when the service delivered decoded details, which are passed on unchanged
      ensures completion.Success? <==> playbackAPI.Some? && response.Received? && response.value.Success?
      ensures completion.Success? ==> completion.value == response.value.value
      // errors, delivered as a value or as the stream's failure, are passed through or wrapped as network errors
      ensures playbackAPI.Some? && response.Received? && response.value.Failure? ==>
        completion == Failure(AsPlaybackAPIError(response.value.error))
      ensures playbackAPI.Some? && response.StreamFailed? ==>
        completion == Failure(AsPlaybackAPIError(response.error))
    {
      if playbackAPI.None? {
        return [], Failure(PlaybackAPIError.InitializationError);
      }
      requests := [VideoDetailsRequest(playbackAPI.value.apiKey, entryId, authorizationToken, userAgentHeader)];
      match response
      case StreamFailed(error) =>
        if error.PlaybackAPI? {
          completion := Failure(error.api);
        } else {
          completion := Failure(PlaybackAPIError.NetworkError(error));
        }
      case Received(Failure(error)) =>
        if error.PlaybackAPI? {
          completion := Failure(error.api);
        } else {
          completion := Failure(PlaybackAPIError.NetworkError(error));
        }
      case Received(Success(details)) =>
        completion := Success(details);
    }
  }
}
