/**
 * Values shared by every module: the outcome of a remote call (the Kotlin code
 * wraps each one in try/catch, so a call either returns a value or throws),
 * nullable values, and the list operations the repositories and screens use.
 */
module Outcomes {

  /** The result of one remote call or one throwing operation. */
  datatype Outcome<+T> = Ok(value: T) | Fail

  /** A Kotlin nullable value. */
  datatype Option<+T> = None | Some(value: T)

  /** Kotlin's `Outcome ?: fallback` after a catch: the value, or the fallback. */
  function ValueOr<T>(o: Outcome<T>, fallback: T): (r: T)
    ensures o.Ok? ==> r == o.value
    ensures o.Fail? ==> r == fallback
  {
    match o
    case Ok(v) => v
    case Fail => fallback
  }

  /** Kotlin's `List.map`: applies `f` to every element, keeping the order. */
  function MapSeq<A, B>(f: A -> B, xs: seq<A>): (r: seq<B>)
    ensures |r| == |xs|
    ensures forall i :: 0 <= i < |xs| ==> r[i] == f(xs[i])
  {
    if xs == [] then [] else [f(xs[0])] + MapSeq(f, xs[1..])
  }

  /** Kotlin's `List.reversed`. */
  function Reverse<T>(s: seq<T>): (r: seq<T>)
    ensures |r| == |s|
    ensures forall i :: 0 <= i < |s| ==> r[i] == s[|s| - 1 - i]
  {
    if s == [] then [] else Reverse(s[1..]) + [s[0]]
  }

  /** Reversing twice gives back the original list. */
  lemma {:induction false} ReverseInvolutive<T>(s: seq<T>)
    ensures Reverse(Reverse(s)) == s
  {
    var r := Reverse(Reverse(s));
    assert |r| == |s|;
    forall i | 0 <= i < |s|
      ensures r[i] == s[i]
    {
      assert r[i] == Reverse(s)[|s| - 1 - i];
    }
  }

  /** The pages of a paginated list, concatenated in order. */
  function Flatten<T>(pages: seq<seq<T>>): seq<T>
  {
    if pages == [] then [] else Flatten(pages[..|pages| - 1]) + pages[|pages| - 1]
  }

  /** Appending a page appends its items after everything already loaded. */
  lemma FlattenAppend<T>(pages: seq<seq<T>>, page: seq<T>)
    ensures Flatten(pages + [page]) == Flatten(pages) + page
  {
    assert (pages + [page])[..|pages|] == pages;
  }
}
