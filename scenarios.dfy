/** Sequences of calls on the subscription service, showing what a caller
    can rely on from the operations' contracts alone. */
module Scenarios {
  import opened Types
  import opened Classifiers
  import opened SubscriptionService

  /** Activating an unlicensed instance stores the key, checked valid now,
      with the fixed features and a status other than `ERROR`; the next read
      returns exactly that subscription. */
  method ActivateThenRead(svc: EeSubscriptionService, licenseKey: string, now: Millis)
    returns (res: Outcome<Record>, read: Option<Snapshot>)
    requires svc.Valid() && svc.Stored() == None
    modifies svc
    ensures svc.Valid()
    ensures res.Ok? && res.value.licenseKey == licenseKey && res.value.lastValidCheck == Some(now)
    ensures res.Ok? && res.value.enabledFeatures == FixedFeatures && res.value.status != Error
    ensures read == Some(ToDto(res.value))
  {
    res := svc.SetLicenceKey(licenseKey, now);
    read := svc.FindSubscriptionDto();
  }

  /** A second activation fails with the already-licensed error and the
      first one's subscription stays stored. */
  method ActivateTwice(svc: EeSubscriptionService, firstKey: string, secondKey: string, t1: Millis, t2: Millis)
    returns (first: Outcome<Record>, second: Outcome<Record>)
    requires svc.Valid() && svc.Stored() == None
    modifies svc
    ensures svc.Valid()
    ensures first.Ok? && svc.Stored() == Some(first.value)
    ensures second == Thrown(BadRequestException(AlreadyLicensedCode, []))
  {
    first := svc.SetLicenceKey(firstKey, t1);
    second := svc.SetLicenceKey(secondKey, t2);
  }

  /** Two reads with nothing in between return the same snapshot, the
      second one from the cache. */
  method ReadTwice(svc: EeSubscriptionService) returns (first: Option<Snapshot>, second: Option<Snapshot>)
    requires svc.Valid()
    modifies svc
    ensures svc.Valid() && svc.rows == old(svc.rows)
    ensures first == second == Project(svc.Stored())
  {
    first := svc.FindSubscriptionDto();
    assert CacheKey in svc.cache;
    second := svc.FindSubscriptionDto();
  }

  /** A save between two reads is seen by the second read: the cached
      snapshot of the first read is never served again. */
  method SaveBetweenReads(svc: EeSubscriptionService, subscription: Record)
    returns (before: Option<Snapshot>, after: Option<Snapshot>)
    requires svc.Valid()
    modifies svc
    ensures svc.Valid()
    ensures before == old(Project(svc.Stored()))
    ensures after == Some(ToDto(subscription))
  {
    before := svc.FindSubscriptionDto();
    var _ := svc.Save(subscription);
    after := svc.FindSubscriptionDto();
  }

  /** A licence-not-found 404 while reporting usage leaves the stored
      subscription `ERROR`, and the next read shows it, although the report
      itself ends with the rethrown error. */
  method UsageReportAgainstUnknownKey(svc: EeSubscriptionService, decrease: bool, seats: int, message: string)
    returns (res: Outcome<()>, read: Option<Snapshot>)
    requires svc.Valid() && svc.Stored().Some?
    modifies svc
    ensures svc.Valid()
    ensures res == Thrown(Remote(HttpNotFound(Some("404 Not Found: " + LicenseKeyNotFoundCode + message))))
    ensures read.Some? && read.value.status == Error
    ensures read.value.licenseKey == old(svc.Stored()).value.licenseKey
  {
    var failure := HttpNotFound(Some("404 Not Found: " + LicenseKeyNotFoundCode + message));
    EmbeddedCodeIsRecognised("404 Not Found: ", message);
    var sent;
    sent, res := svc.CheckCountAndReportUsage(decrease, seats, Some(failure));
    read := svc.FindSubscriptionDto();
  }

  /** A release the server answers with a licence-not-found 404 still
      deletes the subscription, and the next read finds none. */
  method ReleaseAlreadyReleasedKey(svc: EeSubscriptionService, message: string)
    returns (res: Outcome<()>, read: Option<Snapshot>)
    requires svc.Valid() && svc.Stored().Some?
    modifies svc
    ensures svc.Valid()
    ensures res == Ok(()) && read == None
  {
    EmbeddedCodeIsRecognised("", message);
    var sent;
    sent, res := svc.ReleaseSubscription(Some(HttpNotFound(Some(LicenseKeyNotFoundCode + message))));
    read := svc.FindSubscriptionDto();
  }
}
