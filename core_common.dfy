/** The outcome envelope shared by the whole app: `CoreError`, the closed set
    of error kinds, and `Result`, success with data or failure with an error. */
module CoreCommon {
  import opened Platform

  /** The error kinds the app knows about. */
  datatype CoreError =
    | Network
    | Database
    | NotFound
    | Validation(message: string)
    | Unknown(throwable: Option<Throwable>)

  /** `toString()` of a `CoreError`: a data object prints its name, a data
      class its name and its properties. */
  function ErrorText(e: CoreError): (text: string)
    ensures e == Network ==> text == "Network"
    ensures e == Database ==> text == "Database"
    ensures e == NotFound ==> text == "NotFound"
    ensures e.Validation? ==> text == "Validation(message=" + e.message + ")"
    ensures e.Unknown? && e.throwable.None? ==> text == "Unknown(throwable=null)"
    ensures e.Unknown? && e.throwable.Some? ==> text == "Unknown(throwable=" + e.throwable.value.description + ")"
  {
    match e
    case Network => "Network"
    case Database => "Database"
    case NotFound => "NotFound"
    case Validation(m) => "Validation(message=" + m + ")"
    case Unknown(None) => "Unknown(throwable=null)"
    case Unknown(Some(t)) => "Unknown(throwable=" + t.description + ")"
  }

  lemma {:induction false} ValidationTextInjective(m1: string, m2: string)
    requires ErrorText(Validation(m1)) == ErrorText(Validation(m2))
    ensures m1 == m2
  {
    var p := "Validation(message=";
    var s1, s2 := p + m1 + ")", p + m2 + ")";
    assert |m1| == |m2|;
    forall i | 0 <= i < |m1| ensures m1[i] == m2[i] {
      assert s1[|p| + i] == m1[i];
      assert s2[|p| + i] == m2[i];
    }
  }

  /** Two different errors render differently, except possibly two `Unknown`
      errors whose throwables print alike: the text a screen shows
      identifies the error. */
  lemma ErrorTextDistinguishes(e1: CoreError, e2: CoreError)
    requires e1 != e2 && !(e1.Unknown? && e2.Unknown?)
    ensures ErrorText(e1) != ErrorText(e2)
  {
    if e1.Validation? && e2.Validation? {
      if ErrorText(e1) == ErrorText(e2) {
        ValidationTextInjective(e1.message, e2.message);
      }
    } else {
      var s1, s2 := ErrorText(e1), ErrorText(e2);
      assert s1[0] != s2[0] || s1[1] != s2[1];
    }
  }

  /** The result of an operation: `Success` carries the data it produced,
      `Failure` carries only a `CoreError`, so it stands in for any data type. */
  datatype Result<+T> = Success(data: T) | Failure(error: CoreError)

  /** Every `Result` is exactly one of the two variants. */
  lemma ResultIsOneVariant<T>(r: Result<T>)
    ensures r.Success? != r.Failure?
    ensures r.Failure? ==> r == Failure(r.error)
  {
  }

  /** `Result.map`: transforms the data of a success and hands a failure on
      untouched. */
  function Map<T, R>(r: Result<T>, transform: T -> R): (m: Result<R>)
    ensures m.Success? <==> r.Success?
    ensures r.Success? ==> m.data == transform(r.data)
    ensures r.Failure? ==> m.error == r.error
  {
    match r
    case Success(d) => Success(transform(d))
    case Failure(e) => Failure(e)
  }

  /** Mapping the identity gives back the same result. */
  lemma MapIdentity<T>(r: Result<T>)
    ensures Map(r, x => x) == r
  {
  }

  /** Mapping twice is mapping the composition once. */
  lemma MapComposition<T, U, V>(r: Result<T>, f: T -> U, g: U -> V)
    ensures Map(Map(r, f), g) == Map(r, x => g(f(x)))
  {
  }
}
