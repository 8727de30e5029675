/** Values of the enterprise-licence subscription core: the singleton
    subscription entity, its cached projection, what the licence server
    answers, and what the service throws. */
module Types {

  datatype Option<+T> = None | Some(value: T)

  /** `SubscriptionStatus` of the stored subscription. */
  datatype Status = Unknown | Active | Error | KeyUsedByAnotherInstance | Canceled

  /** `Feature` flags. The fourteen named ones make up the fixed feature list
      the service grants on activation; any other flag the licence server
      may send is `OtherFeature`. */
  datatype Feature =
    | GranularPermissions
    | PrioritizedFeatureRequests
    | PremiumSupport
    | DedicatedSlackChannel
    | AssistedUpdates
    | DeploymentAssistance
    | BackupConfiguration
    | TeamTraining
    | AccountManager
    | StandardSupport
    | ProjectLevelContentStorages
    | Webhooks
    | MultipleContentDeliveryConfigs
    | AiPromptCustomization
    | OtherFeature(name: string)

  /** The `features` array granted on activation, in the order it is declared. */
  const FixedFeatures: seq<Feature> := [
    GranularPermissions, PrioritizedFeatureRequests, PremiumSupport,
    DedicatedSlackChannel, AssistedUpdates, DeploymentAssistance,
    BackupConfiguration, TeamTraining, AccountManager, StandardSupport,
    ProjectLevelContentStorages, Webhooks, MultipleContentDeliveryConfigs,
    AiPromptCustomization
  ]

  /** Times are `Date.time` values: milliseconds since the epoch. */
  type Millis = int

  /** The subscription entity. Its identity is always `SubscriptionId`. */
  datatype Record = Record(
    licenseKey: string,
    status: Status,
    currentPeriodEnd: Option<Millis>,
    enabledFeatures: seq<Feature>,
    lastValidCheck: Option<Millis>)

  /** The read-only projection (`EeSubscriptionDto`) served by the cache. */
  datatype Snapshot = Snapshot(
    licenseKey: string,
    status: Status,
    currentPeriodEnd: Option<Millis>,
    enabledFeatures: seq<Feature>,
    lastValidCheck: Option<Millis>)

  /** The subscription part of the licence server's answer
      (`SelfHostedEeSubscriptionModel`): period end, plan features, status. */
  datatype RemoteSubscription = RemoteSubscription(
    currentPeriodEnd: Option<Millis>,
    planFeatures: seq<Feature>,
    status: Status)

  /** Parsed body of an error response: `{code, params}`. */
  datatype ErrorBody = ErrorBody(code: string, params: seq<string>)

  /** How a call to the licence server can fail. */
  datatype RemoteError =
      /** `HttpClientErrorException.BadRequest`, with its parsed body. */
    | HttpBadRequest(body: ErrorBody)
      /** `HttpClientErrorException.NotFound`, with its (nullable) message. */
    | HttpNotFound(message: Option<string>)
      /** Any other failure of the call (another status, a transport error). */
    | OtherRemoteFailure(description: string)

  /** Everything a call in this core can throw. */
  datatype Exn =
      /** An exception raised by a call to the licence server. */
    | Remote(error: RemoteError)
      /** `BadRequestException`: a business error carrying a message code. */
    | BadRequestException(code: string, params: seq<string>)
      /** `NoActiveSubscriptionException`. */
    | NoActiveSubscriptionException

  /** The result of a call: a value, or the exception it threw. */
  datatype Outcome<+T> = Ok(value: T) | Thrown(exn: Exn)

  /** The outcome of a licence-server call that answers nothing, given
      the error it raised, if any. */
  function Posted(failure: Option<RemoteError>): Outcome<()>
  {
    match failure
    case None => Ok(())
    case Some(e) => Thrown(Remote(e))
  }

  /** Requests the service posts to the licence server. */
  datatype UsageReport = UsageReport(licenseKey: string, seats: int)
  datatype ReleaseKeyRequest = ReleaseKeyRequest(licenseKey: string)
  datatype ErrorReport = ErrorReport(error: string, licenseKey: string)

  /** The fixed identity of the singleton entity, and the cache key of its projection. */
  const SubscriptionId: int := 1
  const CacheKey: string := "1"

  /** Codes of the `Message` constants this core uses (the lower-case enum names). */
  const AlreadyLicensedCode: string := "this_instance_is_already_licensed"
  const SeatsSpendingLimitExceededCode: string := "seats_spending_limit_exceeded"
  const LicenseKeyNotFoundCode: string := "license_key_not_found"

  /** Status of a freshly created entity, before any confirmation. */
  const NewEntityStatus: Status := Unknown

  /** `Date(2077, 1, 1)`: the deprecated constructor counts years from 1900
      and months from 0, so this is 3977-02-01 (taken at UTC). */
  const ActivationPeriodEnd: Millis := 63337507200000

  const MillisPerDay: int := 24 * 60 * 60 * 1000

  /** `toDto()`: the snapshot that reads of the subscription return. */
  function ToDto(r: Record): Snapshot
  {
    Snapshot(r.licenseKey, r.status, r.currentPeriodEnd, r.enabledFeatures, r.lastValidCheck)
  }

  /** `findSubscriptionEntity()?.toDto()`. */
  function Project(stored: Option<Record>): Option<Snapshot>
  {
    match stored
    case None => None
    case Some(r) => Some(ToDto(r))
  }
}
