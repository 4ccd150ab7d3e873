/**
 * The copy of `PlaybackErrorReason(fromString:)` shipped as a documentation
 * resource. It declares the same fifteen cases as the SDK's own enum (in a
 * different declaration order, which carries no meaning), so the model reuses
 * that datatype and gives the copy its own switch.
 */
module ErrorReasonDocs {
  import opened ErrorReason

  /** The documentation copy's switch on `value.uppercased()`. */
  function FromString(value: string): PlaybackErrorReason {
    match Uppercased(value)
    case "HEADER_ERROR" => HeaderError
    case "BAD_REQUEST_ERROR" => BadRequestError
    case "SITE_NOT_FOUND" => SiteNotFound
    case "CONFIGURATION_ERROR" => ConfigurationError
    case "API_KEY_ERROR" => ApiKeyError
    case "MP_PARTNER_ERROR" => MpPartnerError
    case "TOKEN_ERROR" => TokenError
    case "TOO_MANY_DEVICES" => TooManyDevices
    case "TOO_MANY_REQUESTS" => TooManyRequests
    case "NO_ENTITLEMENT" => NoEntitlement
    case "NO_SUBSCRIPTION" => NoSubscription
    case "NO_ACTIVE_SESSION" => NoActiveSession
    case "NOT_AUTHENTICATED" => NotAuthenticated
    case "NO_ENTITY_EXIST" => NoEntityExist
    case _ => UnknownError(value)
  }

  /** The documentation copy and the SDK's parser return the same reason for every input. */
  lemma AgreesWithSDK(value: string)
    ensures FromString(value) == ErrorReason.FromString(value)
  {
  }

  /** The copy is case-insensitive on known codes, and its fallback keeps the original string. */
  lemma CaseInsensitive(a: string, b: string)
    requires Uppercased(a) == Uppercased(b)
    ensures FromString(a).UnknownError? <==> FromString(b).UnknownError?
    ensures !FromString(a).UnknownError? ==> FromString(a) == FromString(b)
  {
    AgreesWithSDK(a);
    AgreesWithSDK(b);
    ErrorReason.FromStringCaseInsensitive(a, b);
  }

  /** In the copy, each of the fourteen literals selects its own case, and distinct literals select distinct cases. */
  lemma KnownCodesDistinct(i: nat, j: nat)
    requires i < |KnownCodes| && j < |KnownCodes|
    ensures FromString(KnownCodes[i]) == KnownReasons[i]
    ensures !FromString(KnownCodes[i]).UnknownError?
    ensures i != j ==> FromString(KnownCodes[i]) != FromString(KnownCodes[j])
  {
    AgreesWithSDK(KnownCodes[i]);
    AgreesWithSDK(KnownCodes[j]);
    ErrorReason.KnownCodeParses(i);
    ErrorReason.KnownCodeParses(j);
    if i != j {
      ErrorReason.KnownCodesDistinct(i, j);
    }
  }

  /** In the copy, the result is the fallback exactly when the upper-cased input is not in the table, and it carries the input unchanged. */
  lemma UnknownIffNotKnown(value: string)
    ensures FromString(value).UnknownError? <==> Uppercased(value) !in KnownCodes
    ensures FromString(value).UnknownError? ==> FromString(value) == UnknownError(value)
  {
    AgreesWithSDK(value);
    ErrorReason.UnknownIffNotKnown(value);
  }
}
