/**
 * The older entry service, `PlayBackAPIService`: builds the
 * `GET {baseURL}/entry/{entryId}` request header by header and maps whatever
 * the data task reports into its own error type.
 *
 * Whether Foundation's `URL(string:)` accepts a string is outside the model;
 * it is passed in as the predicate `urlParses`.
 */
module APIService {
  import opened Results
  import opened Errors
  import opened Models

  /** The service's fixed base URL. */
  const BaseURL: string := "https://api.playback.streamamg.com/v1"

  datatype Header = Header(field: string, value: string)

  /**
   * A `URLRequest`: its URL and its header fields. Foundation keeps the fields
   * unordered; the sequence records the order of the `addValue` calls.
   */
  datatype URLRequest = URLRequest(url: URL, headers: seq<Header>)

  /** `URLRequest.addValue(_:forHTTPHeaderField:)` for a field the request does not have yet. */
  function AddValue(request: URLRequest, value: string, field: string): URLRequest {
    request.(headers := request.headers + [Header(field, value)])
  }

  /** The value of the first header named `field`, if any. */
  function HeaderValue(headers: seq<Header>, field: string): (r: Option<string>)
    ensures r.Some? <==> exists i :: 0 <= i < |headers| && headers[i].field == field
    ensures r.Some? ==> Header(field, r.value) in headers
    // and it is the first header with that name
    ensures r.Some? ==>
      exists i :: && 0 <= i < |headers| && headers[i] == Header(field, r.value)
                  && forall j :: 0 <= j < i ==> headers[j].field != field
  {
    if headers == [] then None
    else if headers[0].field == field then Some(headers[0].value)
    else HeaderValue(headers[1..], field)
  }

  /** No header field is set twice. */
  predicate FieldsDistinct(headers: seq<Header>) {
    forall i, j :: 0 <= i < j < |headers| ==> headers[i].field != headers[j].field
  }

  class PlayBackAPIService {
    const baseURL: string := BaseURL
    const authorizationToken: string
    const apiKey: string

    constructor (authorizationToken: string, apiKey: string)
      ensures this.authorizationToken == authorizationToken && this.apiKey == apiKey
    {
      this.authorizationToken := authorizationToken;
      this.apiKey := apiKey;
    }

    /**
     * `getVideoDetails(forEntryId:)`. `transport` is what the data task and the
     * JSON decoding deliver. Returns the request handed to URLSession (none when
     * the URL does not parse) and what the returned publisher delivers.
     */
    method GetVideoDetails(entryId: string, urlParses: string -> bool, transport: Result<VideoDetails, SwiftError>)
      returns (request: Option<URLRequest>, published: Result<VideoDetails, PlayBackAPIError>)
      // the URL is the fixed base, "/entry/" and the entry id; an unparsable one fails before any request
      ensures request.None? <==> !urlParses(BaseURL + "/entry/" + entryId)
      ensures request.None? ==> published == Failure(InvalidResponse)
      ensures request.Some? ==> request.value.url == URL(BaseURL + "/entry/" + entryId)
      // in call order: Accept first, x-api-key last, Authorization only for a non-empty token, verbatim
      ensures request.Some? ==> |request.value.headers| == if authorizationToken == "" then 2 else 3
      ensures request.Some? ==> request.value.headers[0] == Header("Accept", "application/json")
      ensures request.Some? ==> request.value.headers[|request.value.headers| - 1] == Header("x-api-key", apiKey)
      ensures request.Some? ==>
        HeaderValue(request.value.headers, "Authorization") ==
          (if authorizationToken == "" then None else Some(authorizationToken))
      ensures request.Some? ==> HeaderValue(request.value.headers, "x-api-key") == Some(apiKey)
      ensures request.Some? ==> FieldsDistinct(request.value.headers)
      // every transport or decoding failure is reported as a network error
      ensures request.Some? && transport.Success? ==> published == Success(transport.value)
      ensures request.Some? && transport.Failure? ==> published == Failure(PlayBackAPIError.NetworkError(transport.error))
    {
      var urlString := baseURL + "/entry/" + entryId;
      if !urlParses(urlString) {
        return None, Failure(InvalidResponse);
      }

      var r := URLRequest(URL(urlString), []);
      r := AddValue(r, "application/json", "Accept");
      if authorizationToken != "" {
        r := AddValue(r, authorizationToken, "Authorization");
      }
      r := AddValue(r, apiKey, "x-api-key");
      request := Some(r);

      match transport
      case Success(details) =>
        published := Success(details);
      case Failure(e) =>
        published := Failure(PlayBackAPIError.NetworkError(e));
    }
  }
}
