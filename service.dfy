/** `EeSubscriptionServiceImpl`: the singleton subscription row held by the
    repository, the single-entry `EE_SUBSCRIPTION` cache in front of it, and
    the operations that activate, update, report on and release the licence.

    Calls to the licence server are not made here: each operation that posts
    a request takes the error that request raised (`None` when it answered),
    and returns the request it posted. `now` is the current date's
    millisecond value. A cache eviction declared on an operation happens when
    that operation returns normally; one that throws leaves the cache as it
    was. Calls made through the service's own proxy (`self.save`) evict as
    well; calls made on `this` do not. */
module SubscriptionService {
  import opened Types
  import opened Classifiers

  class EeSubscriptionService {
    /** The subscription table, by id. */
    var rows: map<int, Record>
    /** The `EE_SUBSCRIPTION` cache, by key. */
    var cache: map<string, Option<Snapshot>>

    /** Only the fixed id and the fixed key are ever used, and a cached
        entry is always the projection of what is stored. */
    ghost predicate Valid()
      reads this
    {
      rows.Keys <= {SubscriptionId} &&
      cache.Keys <= {CacheKey} &&
      (CacheKey in cache ==> cache[CacheKey] == Project(Stored()))
    }

    /** The stored subscription, if any. */
    function Stored(): Option<Record>
      reads this
    {
      if SubscriptionId in rows then Some(rows[SubscriptionId]) else None
    }

    /** A service over a repository holding `stored`, with an empty cache. */
    constructor (stored: Option<Record>)
      ensures Valid() && Stored() == stored && cache == map[]
    {
      rows := if stored.Some? then map[SubscriptionId := stored.value] else map[];
      cache := map[];
    }

    /** `findSubscriptionEntity`: the row with the fixed id, read from the
        repository without the cache. */
    method FindSubscriptionEntity() returns (r: Option<Record>)
      ensures r.Some? <==> SubscriptionId in rows
      ensures r.Some? ==> r.value == rows[SubscriptionId]
    {
      if SubscriptionId in rows {
        r := Some(rows[SubscriptionId]);
      } else {
        r := None;
      }
    }

    /** `findSubscriptionDto`: served from the cache when the entry is there,
        otherwise projected from the repository and cached (an absent
        subscription is cached as well). Either way it is the projection of
        the stored subscription. */
    method FindSubscriptionDto() returns (d: Option<Snapshot>)
      requires Valid()
      modifies this`cache
      ensures Valid()
      ensures d == Project(Stored())
      ensures CacheKey in old(cache) ==> d == old(cache)[CacheKey] && cache == old(cache)
      ensures cache == map[CacheKey := d]
    {
      if CacheKey in cache {
        d := cache[CacheKey];
      } else {
        var entity := FindSubscriptionEntity();
        d := Project(entity);
        cache := cache[CacheKey := d];
      }
    }

    /** `save`: upsert the entity under the fixed id, then evict the cache. */
    method Save(subscription: Record) returns (saved: Record)
      requires Valid()
      modifies this
      ensures Valid()
      ensures saved == subscription
      ensures rows == old(rows)[SubscriptionId := subscription]
      ensures Stored() == Some(subscription) && CacheKey !in cache
    {
      rows := rows[SubscriptionId := subscription];
      saved := subscription;
      cache := cache - {CacheKey};
    }

    /** `setLicenceKey`: refuses when a subscription exists, leaving the
        store and the cache as they were; otherwise stores a new entity for
        the key, checked valid now, with the fixed feature list. */
    method SetLicenceKey(licenseKey: string, now: Millis) returns (res: Outcome<Record>)
      requires Valid()
      modifies this
      ensures Valid()
      ensures old(Stored()).Some? ==>
                res == Thrown(BadRequestException(AlreadyLicensedCode, [])) && unchanged(this)
      ensures old(Stored()).None? ==>
                res == Ok(Record(licenseKey, NewEntityStatus, Some(ActivationPeriodEnd), FixedFeatures, Some(now)))
      ensures old(Stored()).None? ==> Stored() == Some(res.value) && CacheKey !in cache
    {
      var existing := FindSubscriptionEntity();
      if existing.Some? {
        return Thrown(BadRequestException(AlreadyLicensedCode, []));
      }
      var entity := Record(licenseKey, NewEntityStatus, Some(ActivationPeriodEnd), FixedFeatures, Some(now));
      var saved := Save(entity);
      cache := cache - {CacheKey};
      res := Ok(saved);
    }

    /** `refreshSubscription`: loads the entity and evicts the cache. */
    method RefreshSubscription()
      requires Valid()
      modifies this`cache
      ensures Valid() && CacheKey !in cache
    {
      var _ := FindSubscriptionEntity();
      cache := cache - {CacheKey};
    }

    /** `checkSubscription`, the scheduled job: it calls `refreshSubscription`
        on `this`, not through the proxy, so not even the cache changes. */
    method CheckSubscription()
      requires Valid()
      ensures Valid() && unchanged(this)
    {
      var _ := FindSubscriptionEntity();
    }

    /** `updateLocalSubscription`: with a remote answer, copies its period
        end, plan features and status into the entity, marks it checked
        now and saves it; without one, changes nothing. */
    method UpdateLocalSubscription(responseBody: Option<RemoteSubscription>, subscription: Record, now: Millis)
      returns (updated: Record)
      requires Valid()
      modifies this
      ensures Valid()
      ensures responseBody.None? ==> updated == subscription && unchanged(this)
      ensures responseBody.Some? ==>
                updated == Record(subscription.licenseKey, responseBody.value.status,
                                  responseBody.value.currentPeriodEnd, responseBody.value.planFeatures, Some(now))
      ensures responseBody.Some? ==> Stored() == Some(updated) && CacheKey !in cache
    {
      updated := subscription;
      if responseBody.Some? {
        var remote := responseBody.value;
        updated := updated.(currentPeriodEnd := remote.currentPeriodEnd);
        updated := updated.(enabledFeatures := remote.planFeatures);
        updated := updated.(status := remote.status);
        updated := updated.(lastValidCheck := Some(now));
        var _ := Save(updated);
      }
    }

    /** `setSubscriptionKeyUsedByOtherInstance`: marks the entity as bound to
        another instance and saves it. */
    method SetSubscriptionKeyUsedByOtherInstance(subscription: Record) returns (updated: Record)
      requires Valid()
      modifies this
      ensures Valid()
      ensures updated == subscription.(status := KeyUsedByAnotherInstance)
      ensures Stored() == Some(updated) && CacheKey !in cache
    {
      updated := subscription.(status := KeyUsedByAnotherInstance);
      var _ := Save(updated);
    }

    /** `handleConstantlyFailingRemoteCheck`: when the last valid check is
        more than two days old, marks the entity `ERROR` and saves it;
        otherwise (including no valid check at all) changes nothing. */
    method HandleConstantlyFailingRemoteCheck(subscription: Record, now: Millis) returns (updated: Record)
      requires Valid()
      modifies this
      ensures Valid()
      ensures IsConstantlyFailing(now, subscription.lastValidCheck) ==>
                updated == subscription.(status := Error) && Stored() == Some(updated) && CacheKey !in cache
      ensures !IsConstantlyFailing(now, subscription.lastValidCheck) ==>
                updated == subscription && unchanged(this)
    {
      updated := subscription;
      if IsConstantlyFailing(now, subscription.lastValidCheck) {
        updated := subscription.(status := Error);
        var _ := Save(updated);
      }
    }

    /** `catchingLicenseNotFound`, given the outcome of the wrapped call.
        A licence-not-found 404 marks the stored subscription `ERROR` in a
        transaction of its own, which has taken effect when the same error is
        rethrown; with no stored subscription it throws
        `NoActiveSubscriptionException` instead. Anything else passes through
        and changes nothing. */
    method CatchingLicenseNotFound<T>(o: Outcome<T>) returns (res: Outcome<T>)
      requires Valid()
      modifies this
      ensures Valid()
      ensures !(o.Thrown? && IsLicenceKeyNotFound(o.exn)) ==> res == o && unchanged(this)
      ensures o.Thrown? && IsLicenceKeyNotFound(o.exn) && old(Stored()).None? ==>
                res == Thrown(NoActiveSubscriptionException) && unchanged(this)
      ensures o.Thrown? && IsLicenceKeyNotFound(o.exn) && old(Stored()).Some? ==>
                res == o && Stored() == Some(old(Stored()).value.(status := Error)) && CacheKey !in cache
    {
      if o.Ok? || !o.exn.Remote? || !o.exn.error.HttpNotFound? {
        return o;
      }
      if !NamesMissingLicence(o.exn.error.message) {
        return o;
      }
      var entity := FindSubscriptionEntity();
      if entity.None? {
        return Thrown(NoActiveSubscriptionException);
      }
      var _ := Save(entity.value.(status := Error));
      res := o;
    }

    /** `reportUsage`: with no subscription, does nothing; otherwise posts
        the seat count for its key, and the error that raises goes through
        the licence-not-found handler and then the spending-limit one. */
    method ReportUsage(seats: int, subscription: Option<Snapshot>, failure: Option<RemoteError>)
      returns (sent: Option<UsageReport>, res: Outcome<()>)
      requires Valid()
      modifies this
      ensures Valid()
      ensures subscription.None? ==> sent == None && res == Ok(()) && unchanged(this)
      ensures subscription.Some? ==> sent == Some(UsageReport(subscription.value.licenseKey, seats))
      ensures subscription.Some? && failure.None? ==> res == Ok(()) && unchanged(this)
      ensures subscription.Some? && failure.Some? && !KeyNotFound(failure.value) ==>
                res == CatchingSeatsSpendingLimit(Thrown(Remote(failure.value))) && unchanged(this)
      ensures subscription.Some? && failure.Some? && KeyNotFound(failure.value) && old(Stored()).None? ==>
                res == Thrown(NoActiveSubscriptionException) && unchanged(this)
      ensures subscription.Some? && failure.Some? && KeyNotFound(failure.value) && old(Stored()).Some? ==>
                res == Thrown(Remote(failure.value)) && Stored() == Some(old(Stored()).value.(status := Error))
                && CacheKey !in cache
    {
      if subscription.None? {
        return None, Ok(());
      }
      sent := Some(UsageReport(subscription.value.licenseKey, seats));
      var inner := CatchingLicenseNotFound(Posted(failure));
      res := CatchingSeatsSpendingLimit(inner);
    }

    /** `checkCountAndReportUsage`: reads the subscription through the cache
        and reports the seat count; `NoActiveSubscriptionException` is
        swallowed. The seat check that would follow an increase does
        nothing. */
    method CheckCountAndReportUsage(decrease: bool, seats: int, failure: Option<RemoteError>)
      returns (sent: Option<UsageReport>, res: Outcome<()>)
      requires Valid()
      modifies this
      ensures Valid()
      ensures res != Thrown(NoActiveSubscriptionException)
      ensures old(Stored()).None? ==> sent == None && res == Ok(()) && rows == old(rows)
      ensures old(Stored()).Some? ==> sent == Some(UsageReport(old(Stored()).value.licenseKey, seats))
      ensures old(Stored()).Some? && failure.None? ==> res == Ok(()) && rows == old(rows)
      ensures old(Stored()).Some? && failure.Some? && IsSpendingLimitExceeded(Remote(failure.value)) ==>
                res == Thrown(BadRequestException(SeatsSpendingLimitExceededCode, failure.value.body.params))
                && rows == old(rows)
      ensures old(Stored()).Some? && failure.Some? && KeyNotFound(failure.value) ==>
                res == Thrown(Remote(failure.value)) && Stored() == Some(old(Stored()).value.(status := Error))
                && CacheKey !in cache
      ensures old(Stored()).Some? && failure.Some? && !KeyNotFound(failure.value)
              && !IsSpendingLimitExceeded(Remote(failure.value)) ==>
                res == Thrown(Remote(failure.value)) && rows == old(rows)
      ensures !(old(Stored()).Some? && failure.Some? && KeyNotFound(failure.value)) ==>
                cache == map[CacheKey := Project(old(Stored()))]
    {
      var subscription := FindSubscriptionDto();
      sent, res := ReportUsage(seats, subscription, failure);
      if res.Thrown? && res.exn.NoActiveSubscriptionException? {
        res := Ok(());
      }
    }

    /** `releaseSubscription`: with no subscription, only evicts the cache.
        Otherwise posts the release of its key; when that succeeds or the
        server no longer knows the key, deletes every row and evicts the
        cache; any other error propagates and nothing changes. */
    method ReleaseSubscription(failure: Option<RemoteError>)
      returns (sent: Option<ReleaseKeyRequest>, res: Outcome<()>)
      requires Valid()
      modifies this
      ensures Valid()
      ensures old(Stored()).None? ==> sent == None && res == Ok(()) && rows == old(rows) && CacheKey !in cache
      ensures old(Stored()).Some? ==> sent == Some(ReleaseKeyRequest(old(Stored()).value.licenseKey))
      ensures old(Stored()).Some? && (failure.None? || KeyNotFound(failure.value)) ==>
                res == Ok(()) && rows == map[] && CacheKey !in cache
      ensures old(Stored()).Some? && failure.Some? && !KeyNotFound(failure.value) ==>
                res == Thrown(Remote(failure.value)) && unchanged(this)
    {
      var subscription := FindSubscriptionEntity();
      sent := None;
      if subscription.Some? {
        sent := Some(ReleaseKeyRequest(subscription.value.licenseKey));
        if failure.Some? {
          var e := failure.value;
          if !(e.HttpNotFound? && NamesMissingLicence(e.message)) {
            return sent, Thrown(Remote(e));
          }
        }
        rows := map[];
      }
      cache := cache - {CacheKey};
      res := Ok(());
    }

    /** `reportError`: posts the error with the stored key when there is a
        subscription, and nothing otherwise. Whatever the post raises is
        swallowed, so this never fails and changes nothing. */
    method ReportError(error: string) returns (sent: Option<ErrorReport>)
      ensures sent.Some? <==> SubscriptionId in rows
      ensures sent.Some? ==> sent.value == ErrorReport(error, rows[SubscriptionId].licenseKey)
    {
      var subscription := FindSubscriptionEntity();
      sent := None;
      if subscription.Some? {
        sent := Some(ErrorReport(error, subscription.value.licenseKey));
      }
    }
  }
}
