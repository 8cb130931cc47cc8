/** Small shared vocabulary: optional values, results with an error, and the
    JavaScript `slice(-k)` suffix used throughout the market-data pipeline. */
module Common {

  /** An explicit "absent" marker, in place of JavaScript's `undefined`. */
  datatype Option<+T> = None | Some(value: T)

  /** A computation that either produced a value or raised an error. */
  datatype Result<+R, +E> = Success(value: R) | Failure(error: E)

  function Min(a: int, b: int): int
  {
    if a <= b then a else b
  }

  /** `[x]` for a present value and `[]` for an absent one. */
  function OptionToSeq<T>(o: Option<T>): (r: seq<T>)
    ensures |r| <= 1
    ensures r == [] <==> o.None?
    ensures o.Some? ==> r[0] == o.value
  {
    match o
    case None => []
    case Some(v) => [v]
  }

  /** JavaScript's `xs.slice(-k)` for a positive literal k: the last k elements,
      or the whole sequence when it is shorter than k. */
  function SliceLast<T>(s: seq<T>, k: nat): (r: seq<T>)
    requires 0 < k
    ensures |r| == Min(k, |s|)
  {
    s[|s| - Min(k, |s|)..]
  }

  /** The result is a suffix: what precedes it in `s`, followed by it, is `s`. */
  lemma SliceLastIsSuffix<T>(s: seq<T>, k: nat)
    requires 0 < k
    ensures s[..|s| - Min(k, |s|)] + SliceLast(s, k) == s
  {
  }

  /** Element j of the suffix is element |s| - |suffix| + j of the whole. */
  lemma SliceLastAt<T>(s: seq<T>, k: nat, j: nat)
    requires 0 < k
    requires j < Min(k, |s|)
    ensures SliceLast(s, k)[j] == s[|s| - Min(k, |s|) + j]
  {
  }

  /** `slice(-1)` is the last element as a one-element list, or `[]` for an
      empty sequence. */
  lemma SliceLastOne<T>(s: seq<T>)
    ensures SliceLast(s, 1) == if |s| == 0 then [] else [s[|s| - 1]]
  {
  }
}
