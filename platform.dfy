/** The parts of the Kotlin and JVM platform that the to-do code relies on:
    nullable values, 64-bit `Long`, thrown exceptions, `java.time.Instant`,
    `List.map`, and the values a `Flow` delivers to its collector. */
module Platform {

  /** A Kotlin nullable value: `None` stands for `null`. */
  datatype Option<+T> = None | Some(value: T)

  const MinLong: int := -0x8000_0000_0000_0000
  const MaxLong: int := 0x7FFF_FFFF_FFFF_FFFF

  /** Kotlin's `Long`, a signed 64-bit integer. */
  type Long = x: int | MinLong <= x <= MaxLong

  /** A thrown exception, as far as the code looks at it: whether it is a
      `java.io.IOException` (or a subclass of it), and the text its
      `toString()` gives. */
  datatype Throwable = IOFailure(description: string) | OtherFailure(description: string)

  /** The epoch seconds of `Instant.MIN` and `Instant.MAX`. */
  const MinInstantSecond: int := -31557014167219200
  const MaxInstantSecond: int := 31556889864403199

  datatype InstantValue = InstantValue(epochSecond: int, nano: int)

  /** A `java.time.Instant`: whole seconds since the epoch plus a nanosecond
      adjustment, always within `Instant.MIN .. Instant.MAX`. */
  type Instant = i: InstantValue
    | MinInstantSecond <= i.epochSecond <= MaxInstantSecond && 0 <= i.nano < 1_000_000_000
    witness InstantValue(0, 0)

  predicate InInstantRange(seconds: int) {
    MinInstantSecond <= seconds <= MaxInstantSecond
  }

  /** `Instant.ofEpochSecond(seconds)`; outside the range of `Instant` the
      library throws `DateTimeException`, so callers must stay inside it. */
  function OfEpochSecond(seconds: int): (i: Instant)
    requires InInstantRange(seconds)
  {
    InstantValue(seconds, 0)
  }

  /** `Instant.parse`, the ISO-8601 parser of `java.time`: `None` where the
      library throws `DateTimeParseException`. The grammar is not modelled;
      callers receive the parser as a value. */
  type InstantParser = string -> Option<Instant>

  /** Every non-empty finite set of integers has a largest element. */
  lemma {:induction false} LargestExists(ks: set<int>)
    requires ks != {}
    ensures exists m :: m in ks && forall k | k in ks :: k <= m
  {
    if !(exists x :: x in ks) { assert false; }
    var x: int :| x in ks;
    var rest := ks - {x};
    assert forall k | k in ks :: k == x || k in rest;
    if rest == {} {
      assert forall k | k in ks :: k <= x;
    } else {
      LargestExists(rest);
      var m: int :| m in rest && forall k | k in rest :: k <= m;
      var top := if x > m then x else m;
      assert top in ks && forall k | k in ks :: k <= top;
    }
  }

  /** Kotlin's `List.map`: the transformed elements, in the same order. */
  function MapList<A, B>(xs: seq<A>, f: A -> B): (ys: seq<B>)
    ensures |ys| == |xs|
    ensures forall i :: 0 <= i < |xs| ==> ys[i] == f(xs[i])
  {
    if xs == [] then [] else [f(xs[0])] + MapList(xs[1..], f)
  }

  /** Whatever is in the list, its image is in the mapped list. */
  lemma MapListKeepsMembers<A, B>(xs: seq<A>, f: A -> B)
    ensures forall x | x in xs :: f(x) in MapList(xs, f)
  {
  }

  /** A finite run of a Kotlin `Flow` as its collector sees it: the values it
      emitted, in order, and the exception it ended with, if it threw. */
  datatype FlowRun<+T> = FlowRun(values: seq<T>, thrown: Option<Throwable>)
}
