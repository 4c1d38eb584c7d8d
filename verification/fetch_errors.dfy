/**
  A failed fetch as the error log keeps it: the repository URL, the error
  (domain, status code, description) and the time of the failure, with the
  record equality the Objective-C runtime uses for it.
 */
module FetchErrors {
  import opened PathNames

  /** A point in time; only compared for equality. */
  type Date = int

  /** The `NSError` carried by a record. */
  datatype ErrorValue = ErrorValue(domain: string, code: int, localizedDescription: string)

  datatype FetchError = FetchError(url: Path, error: ErrorValue, date: Date)

  /** Error domain of the errors built from a fetch status. */
  const FetcherDomain := "com.xs-labs.Fetcher"

  /** `init(url:status:message:date:)`: the status becomes the error code and
      the message its description, in the application's error domain. */
  function FromStatus(url: Path, status: int, message: string, date: Date): (e: FetchError)
    ensures e.url == url && e.date == date
    ensures e.error.code == status && e.error.localizedDescription == message
    ensures e.error.domain == FetcherDomain
  {
    FetchError(url, ErrorValue(FetcherDomain, status, message), date)
  }

  /** The argument of `isEqual(_:)`: nil, a fetch error, or any other object. */
  datatype AnyObject = Nil | FetchErrorObject(e: FetchError) | OtherObject

  /** `isEqual(_:)`: false for anything that is not a fetch error; otherwise
      URL, error description and date must match. */
  predicate IsEqual(a: FetchError, other: AnyObject) {
    match other
    case FetchErrorObject(b) =>
      a.url == b.url && a.error.localizedDescription == b.error.localizedDescription && a.date == b.date
    case _ => false
  }

  /** `isEqual(to:)`, which defers to `isEqual(_:)`. */
  predicate IsEqualTo(a: FetchError, other: AnyObject) {
    IsEqual(a, other)
  }

  /** Record equality between two fetch errors, as Swift's `==` on these
      objects computes it. */
  predicate Same(a: FetchError, b: FetchError) {
    IsEqual(a, FetchErrorObject(b))
  }

  /** Nothing but a fetch error can equal a fetch error, and `isEqual(to:)`
      gives the same answers as `isEqual(_:)`. */
  lemma IsEqualOnlyFetchErrors(a: FetchError, other: AnyObject)
    ensures !other.FetchErrorObject? ==> !IsEqual(a, other)
    ensures IsEqualTo(a, other) <==> IsEqual(a, other)
  {
  }

  /** Two records are the same exactly when URL, description and date agree;
      the error domain and status code play no part. */
  lemma SameIff(a: FetchError, b: FetchError)
    ensures Same(a, b) <==>
              a.url == b.url && a.error.localizedDescription == b.error.localizedDescription && a.date == b.date
  {
  }

  /** Record equality is an equivalence relation. */
  lemma SameIsEquivalence(a: FetchError, b: FetchError, c: FetchError)
    ensures Same(a, a)
    ensures Same(a, b) ==> Same(b, a)
    ensures Same(a, b) && Same(b, c) ==> Same(a, c)
  {
  }

  /** Failures that differ only in status code are the same record. */
  lemma StatusIgnored(url: Path, s1: int, s2: int, message: string, date: Date)
    ensures Same(FromStatus(url, s1, message, date), FromStatus(url, s2, message, date))
  {
  }

  /** Failures at different times are different records, so a repeated
      failure is logged again. */
  lemma DatesKeepFailuresApart(url: Path, status: int, message: string, d1: Date, d2: Date)
    requires d1 != d2
    ensures !Same(FromStatus(url, status, message, d1), FromStatus(url, status, message, d2))
  {
  }
}
