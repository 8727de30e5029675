/** The pure decisions of the subscription service: which remote errors are
    recognised, and when a failing remote check counts as persistent. */
module Classifiers {
  import opened Types

  /** `sub` occurs in `s` starting at index `i`. */
  predicate OccursAt(s: string, sub: string, i: int)
  {
    0 <= i && i + |sub| <= |s| && s[i..i + |sub|] == sub
  }

  lemma OccursShifted(s: string, sub: string, i: int)
    requires |s| > 0 && i >= 0
    ensures OccursAt(s[1..], sub, i) <==> OccursAt(s, sub, i + 1)
  {
  }

  /** Past index 0, the occurrences in `s` are those in its tail. */
  lemma OccursInTail(s: string, sub: string)
    requires |s| > 0 && !OccursAt(s, sub, 0)
    ensures (exists i :: OccursAt(s[1..], sub, i)) <==> (exists i :: OccursAt(s, sub, i))
  {
    if i :| OccursAt(s[1..], sub, i) {
      OccursShifted(s, sub, i);
      assert OccursAt(s, sub, i + 1);
    }
    if j :| OccursAt(s, sub, j) {
      OccursShifted(s, sub, j - 1);
      assert OccursAt(s[1..], sub, j - 1);
    }
  }

  /** Kotlin's `String.contains`: `sub` occurs somewhere in `s`
      (the empty string occurs in every string). */
  function Contains(s: string, sub: string): (r: bool)
    ensures r <==> exists i :: OccursAt(s, sub, i)
    decreases |s|
  {
    if OccursAt(s, sub, 0) then true
    else if |s| == 0 then false
    else
      OccursInTail(s, sub);
      Contains(s[1..], sub)
  }

  /** `e.message?.contains(LICENSE_KEY_NOT_FOUND.code) == true`: a message is
      present and holds the licence-not-found code somewhere. */
  function NamesMissingLicence(message: Option<string>): (r: bool)
    ensures r <==> message.Some? && exists i :: OccursAt(message.value, LicenseKeyNotFoundCode, i)
  {
    match message
    case None => false
    case Some(m) => Contains(m, LicenseKeyNotFoundCode)
  }

  /** A 404 from the licence server saying the key is unknown to it. */
  predicate KeyNotFound(e: RemoteError)
  {
    e.HttpNotFound? && NamesMissingLicence(e.message)
  }

  /** A thrown exception that is such a 404. */
  predicate IsLicenceKeyNotFound(e: Exn)
  {
    e.Remote? && KeyNotFound(e.error)
  }

  /** A thrown 400 from the licence server whose body carries the spending-limit code. */
  predicate IsSpendingLimitExceeded(e: Exn)
  {
    e.Remote? && e.error.HttpBadRequest? && e.error.body.code == SeatsSpendingLimitExceededCode
  }

  /** `catchingSeatsSpendingLimit`: the outcome of the wrapped call, with a
      spending-limit 400 turned into a business error carrying the same code
      and params. It touches no state. */
  function CatchingSeatsSpendingLimit<T>(o: Outcome<T>): (r: Outcome<T>)
    ensures o.Ok? ==> r == o
    ensures o.Thrown? && IsSpendingLimitExceeded(o.exn) ==>
              r == Thrown(BadRequestException(o.exn.error.body.code, o.exn.error.body.params))
    ensures o.Thrown? && !IsSpendingLimitExceeded(o.exn) ==> r == o
    ensures r.Ok? <==> o.Ok?
    ensures !(r.Thrown? && IsSpendingLimitExceeded(r.exn))
  {
    match o
    case Ok(_) => o
    case Thrown(Remote(HttpBadRequest(body))) =>
      if body.code == SeatsSpendingLimitExceededCode
      then Thrown(BadRequestException(body.code, body.params))
      else o
    case Thrown(_) => o
  }

  /** The decision of `handleConstantlyFailingRemoteCheck`: the last valid
      check is known and lies more than two days before `now`. */
  function IsConstantlyFailing(now: Millis, lastValidCheck: Option<Millis>): (r: bool)
    ensures r <==> lastValidCheck.Some? && now > lastValidCheck.value + 2 * MillisPerDay
  {
    match lastValidCheck
    case None => false
    case Some(t) => now - t > 1000 * 60 * 60 * 24 * 2
  }

  /** Any message that embeds the licence-not-found code is recognised,
      whatever the server puts around it. */
  lemma {:induction false} EmbeddedCodeIsRecognised(prefix: string, suffix: string)
    ensures NamesMissingLicence(Some(prefix + LicenseKeyNotFoundCode + suffix))
  {
    var m := prefix + LicenseKeyNotFoundCode + suffix;
    assert m[|prefix|..|prefix| + |LicenseKeyNotFoundCode|] == LicenseKeyNotFoundCode;
    assert OccursAt(m, LicenseKeyNotFoundCode, |prefix|);
  }
}
