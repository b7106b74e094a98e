/** Small shared vocabulary: nullable values, results, and the sequence notions several modules need. */
module Prelude {

  /** A nullable column, a nil pointer or a missing row. */
  datatype Option<+T> = None | Some(value: T)

  /** What a call gives, or why it was refused. */
  datatype Result<+T, +E> = Ok(value: T) | Err(error: E)

  function Max(a: real, b: real): real {
    if a < b then b else a
  }

  function Min(a: real, b: real): real {
    if a < b then a else b
  }

  /** The last element of a non-empty sequence. */
  function Last<T>(s: seq<T>): T
    requires s != []
  {
    s[|s| - 1]
  }

  /** The values of a list that has nil entries, in order. */
  function Present<T>(items: seq<Option<T>>): seq<T> {
    if items == [] then []
    else
      var init := Present(items[..|items| - 1]);
      if Last(items).Some? then init + [Last(items).value] else init
  }

  /** A nil entry is dropped, any other kept in its place. */
  lemma {:induction false} PresentAppend<T>(a: seq<Option<T>>, b: seq<Option<T>>)
    ensures Present(a + b) == Present(a) + Present(b)
    ensures |b| == 1 ==> Present(b) == if b[0].Some? then [b[0].value] else []
    decreases |b|
  {
    if b == [] {
      assert a + b == a;
    } else {
      assert (a + b)[..|a + b| - 1] == a + b[..|b| - 1];
      PresentAppend(a, b[..|b| - 1]);
    }
  }

  ghost predicate Distinct<T(!new)>(items: seq<T>) {
    forall i, j :: 0 <= i < j < |items| ==> items[i] != items[j]
  }
}
