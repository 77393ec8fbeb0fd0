/** Optional values and results with an error side, used for Java's nullable
    references and for thrown exceptions throughout the model. */
module Base {

  /** A Java reference that may be null. */
  datatype Option<+T> = None | Some(value: T) {

    function GetOr(default: T): T {
      match this
      case Some(v) => v
      case None => default
    }
  }

  /** The outcome of a Java call: a returned value or a thrown exception. */
  datatype Result<+T, +E> = Ok(value: T) | Err(error: E) {

    predicate IsFailure() {
      Err?
    }

    function PropagateFailure<U>(): Result<U, E>
      requires Err?
    {
      Err(error)
    }

    function Extract(): T
      requires Ok?
    {
      value
    }
  }

  /** The elements of `s` that satisfy `f`, in their original order. */
  function Filter<T(!new)>(s: seq<T>, f: T -> bool): (r: seq<T>)
    ensures |r| <= |s|
    ensures forall x :: x in r <==> x in s && f(x)
    ensures forall i :: 0 <= i < |r| ==> f(r[i])
    decreases |s|
  {
    if |s| == 0 then [] else (if f(s[0]) then [s[0]] else []) + Filter(s[1..], f)
  }

  /** Filtering distributes over concatenation, so it keeps relative order. */
  lemma {:induction false} FilterAppend<T(!new)>(a: seq<T>, b: seq<T>, f: T -> bool)
    ensures Filter(a + b, f) == Filter(a, f) + Filter(b, f)
    decreases |a|
  {
    if |a| > 0 {
      assert (a + b)[0] == a[0];
      assert (a + b)[1..] == a[1..] + b;
      FilterAppend(a[1..], b, f);
    } else {
      assert a + b == b;
    }
  }

  /** The position of the first element of `s` that satisfies `f`, if any. */
  function FirstIndex<T>(s: seq<T>, f: T -> bool): (r: Option<nat>)
    ensures r.Some? ==> r.value < |s| && f(s[r.value]) && forall j :: 0 <= j < r.value ==> !f(s[j])
    ensures r.None? <==> forall j :: 0 <= j < |s| ==> !f(s[j])
    decreases |s|
  {
    if |s| == 0 then None
    else if f(s[0]) then Some(0)
    else match FirstIndex(s[1..], f)
      case Some(i) =>
        assert forall j :: 1 <= j <= i ==> s[j] == s[1..][j - 1];
        Some(i + 1)
      case None =>
        assert forall j :: 1 <= j < |s| ==> s[j] == s[1..][j - 1];
        None
  }
}
