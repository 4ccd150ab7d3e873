/**
 * The reason codes the Playback API returns in the `reason` field of an error
 * body, and the case-insensitive parser `PlaybackErrorReason(fromString:)` that
 * turns a server string into one of them.
 */
module ErrorReason {
  import opened Results

  /** The closed set of reason codes, plus a fallback that keeps the server's string. */
  datatype PlaybackErrorReason =
    // HTTP 400
    | HeaderError
    | BadRequestError
    | SiteNotFound
    | ConfigurationError
    | ApiKeyError
    | MpPartnerError
    // HTTP 401
    | TokenError
    | TooManyDevices
    | TooManyRequests
    | NoEntitlement
    | NoSubscription
    | NoActiveSession
    | NotAuthenticated
    // HTTP 404
    | NoEntityExist
    // anything else, with the string as received
    | UnknownError(message: string)

  /** One character of `String.uppercased()`, for the ASCII letters. */
  function UppercasedChar(c: char): char {
    if 'a' <= c <= 'z' then (c as int - 32) as char else c
  }

  predicate IsLowercase(c: char) {
    'a' <= c <= 'z'
  }

  /** `String.uppercased()`: every character mapped on its own, the length kept. */
  function Uppercased(s: string): (r: string)
    ensures |r| == |s|
    // nothing lower-case is left, every lower-case letter becomes its capital, and every other character stays
    ensures forall i :: 0 <= i < |r| ==> !IsLowercase(r[i])
    ensures forall i :: 0 <= i < |s| && IsLowercase(s[i]) ==> r[i] as int == s[i] as int - 32
    ensures forall i :: 0 <= i < |s| && !IsLowercase(s[i]) ==> r[i] == s[i]
  {
    seq(|s|, i requires 0 <= i < |s| => UppercasedChar(s[i]))
  }

  /** `PlaybackErrorReason.init(fromString:)`: the switch on `value.uppercased()`. */
  function FromString(value: string): (r: PlaybackErrorReason)
    // a known reason is selected only by its own code, up to case; anything else keeps the input as received
    ensures !r.UnknownError? ==> Code(r) == Some(Uppercased(value))
    ensures r.UnknownError? ==> r.message == value
  {
    match Uppercased(value)
    case "HEADER_ERROR" => HeaderError
    case "BAD_REQUEST_ERROR" => BadRequestError
    case "SITE_NOT_FOUND" => SiteNotFound
    case "CONFIGURATION_ERROR" => ConfigurationError
    case "API_KEY_ERROR" => ApiKeyError
    case "MP_PARTNER_ERROR" => MpPartnerError
    case "TOKEN_ERROR" => TokenError
    case "TOO_MANY_DEVICES" => TooManyDevices
    case "TOO_MANY_REQUESTS" => TooManyRequests
    case "NO_ENTITLEMENT" => NoEntitlement
    case "NO_SUBSCRIPTION" => NoSubscription
    case "NO_ACTIVE_SESSION" => NoActiveSession
    case "NOT_AUTHENTICATED" => NotAuthenticated
    case "NO_ENTITY_EXIST" => NoEntityExist
    case _ => UnknownError(value)
  }

  /** The fourteen literals of the switch, in source order. */
  const KnownCodes: seq<string> := [
    "HEADER_ERROR", "BAD_REQUEST_ERROR", "SITE_NOT_FOUND", "CONFIGURATION_ERROR",
    "API_KEY_ERROR", "MP_PARTNER_ERROR", "TOKEN_ERROR", "TOO_MANY_DEVICES",
    "TOO_MANY_REQUESTS", "NO_ENTITLEMENT", "NO_SUBSCRIPTION", "NO_ACTIVE_SESSION",
    "NOT_AUTHENTICATED", "NO_ENTITY_EXIST"]

  /** The case each literal selects, position by position. */
  const KnownReasons: seq<PlaybackErrorReason> := [
    HeaderError, BadRequestError, SiteNotFound, ConfigurationError,
    ApiKeyError, MpPartnerError, TokenError, TooManyDevices,
    TooManyRequests, NoEntitlement, NoSubscription, NoActiveSession,
    NotAuthenticated, NoEntityExist]

  /** The server literal of a known reason; the inverse direction of the table. */
  function Code(r: PlaybackErrorReason): Option<string> {
    match r
    case HeaderError => Some("HEADER_ERROR")
    case BadRequestError => Some("BAD_REQUEST_ERROR")
    case SiteNotFound => Some("SITE_NOT_FOUND")
    case ConfigurationError => Some("CONFIGURATION_ERROR")
    case ApiKeyError => Some("API_KEY_ERROR")
    case MpPartnerError => Some("MP_PARTNER_ERROR")
    case TokenError => Some("TOKEN_ERROR")
    case TooManyDevices => Some("TOO_MANY_DEVICES")
    case TooManyRequests => Some("TOO_MANY_REQUESTS")
    case NoEntitlement => Some("NO_ENTITLEMENT")
    case NoSubscription => Some("NO_SUBSCRIPTION")
    case NoActiveSession => Some("NO_ACTIVE_SESSION")
    case NotAuthenticated => Some("NOT_AUTHENTICATED")
    case NoEntityExist => Some("NO_ENTITY_EXIST")
    case UnknownError(_) => None
  }

  /** A string without lower-case letters is its own upper-case form. */
  lemma UppercasedFixesUppercase(s: string)
    requires forall i :: 0 <= i < |s| ==> !IsLowercase(s[i])
    ensures Uppercased(s) == s
  {
  }

  /** Every literal of the table is already upper case. */
  lemma CodeIsUppercase(r: PlaybackErrorReason)
    requires !r.UnknownError?
    ensures Code(r).Some? && Uppercased(Code(r).value) == Code(r).value
  {
    match r
    case HeaderError => UppercasedFixesUppercase("HEADER_ERROR");
    case BadRequestError => UppercasedFixesUppercase("BAD_REQUEST_ERROR");
    case SiteNotFound => UppercasedFixesUppercase("SITE_NOT_FOUND");
    case ConfigurationError => UppercasedFixesUppercase("CONFIGURATION_ERROR");
    case ApiKeyError => UppercasedFixesUppercase("API_KEY_ERROR");
    case MpPartnerError => UppercasedFixesUppercase("MP_PARTNER_ERROR");
    case TokenError => UppercasedFixesUppercase("TOKEN_ERROR");
    case TooManyDevices => UppercasedFixesUppercase("TOO_MANY_DEVICES");
    case TooManyRequests => UppercasedFixesUppercase("TOO_MANY_REQUESTS");
    case NoEntitlement => UppercasedFixesUppercase("NO_ENTITLEMENT");
    case NoSubscription => UppercasedFixesUppercase("NO_SUBSCRIPTION");
    case NoActiveSession => UppercasedFixesUppercase("NO_ACTIVE_SESSION");
    case NotAuthenticated => UppercasedFixesUppercase("NOT_AUTHENTICATED");
    case NoEntityExist => UppercasedFixesUppercase("NO_ENTITY_EXIST");
  }

  /** Upper-casing twice is upper-casing once. */
  lemma UppercasedIdempotent(s: string)
    ensures Uppercased(Uppercased(s)) == Uppercased(s)
  {
    UppercasedFixesUppercase(Uppercased(s));
  }

  /** Two strings that agree up to case parse to the same known reason, or both fall back. */
  lemma FromStringCaseInsensitive(a: string, b: string)
    requires Uppercased(a) == Uppercased(b)
    ensures FromString(a).UnknownError? <==> FromString(b).UnknownError?
    ensures !FromString(a).UnknownError? ==> FromString(a) == FromString(b)
    ensures FromString(a).UnknownError? ==> FromString(a).message == a && FromString(b).message == b
  {
  }

  /** Parsing the upper-cased input gives the same known reason; only the fallback's payload differs. */
  lemma FromStringOfUppercased(s: string)
    ensures FromString(Uppercased(s)) ==
      if FromString(s).UnknownError? then UnknownError(Uppercased(s)) else FromString(s)
  {
    UppercasedIdempotent(s);
  }

  /** Each of the fourteen literals selects its own case, never the fallback. */
  lemma KnownCodeParses(i: nat)
    requires i < |KnownCodes|
    ensures FromString(KnownCodes[i]) == KnownReasons[i]
    ensures !KnownReasons[i].UnknownError?
    ensures Code(KnownReasons[i]) == Some(KnownCodes[i])
  {
    CodeIsUppercase(KnownReasons[i]);
  }

  /** The fourteen literals, and the fourteen cases they select, are pairwise distinct. */
  lemma KnownCodesDistinct(i: nat, j: nat)
    requires i < |KnownCodes| && j < |KnownCodes| && i != j
    ensures KnownCodes[i] != KnownCodes[j]
    ensures KnownReasons[i] != KnownReasons[j]
  {
  }

  /** The fallback is taken exactly when the upper-cased input is none of the literals, and keeps the original string. */
  lemma UnknownIffNotKnown(s: string)
    ensures FromString(s).UnknownError? <==> Uppercased(s) !in KnownCodes
    ensures FromString(s).UnknownError? ==> FromString(s) == UnknownError(s)
  {
  }

  /** A known reason survives printing it as its literal and parsing it back. */
  lemma CodeRoundTrip(r: PlaybackErrorReason)
    requires !r.UnknownError?
    ensures Code(r).Some? && FromString(Code(r).value) == r
  {
    CodeIsUppercase(r);
  }

  /** A string that parses to a known reason is, up to case, that reason's literal. */
  lemma ParseRoundTrip(s: string)
    requires !FromString(s).UnknownError?
    ensures Code(FromString(s)) == Some(Uppercased(s))
  {
  }

  /** On known codes the parser is injective up to case. */
  lemma KnownInjective(a: string, b: string)
    requires !FromString(a).UnknownError? && FromString(a) == FromString(b)
    ensures Uppercased(a) == Uppercased(b)
  {
    ParseRoundTrip(a);
    ParseRoundTrip(b);
  }
}
