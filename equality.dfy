/** Semantic deep equality of slices, as the Kubernetes API machinery compares
    owned list fields: element by element and in order, a nil slice being
    equal to an empty one. */
module Equality {
  import opened CoreV1

  /** Compares two element sequences position by position. */
  function ElementsEqual<T(==)>(a: seq<T>, b: seq<T>): (r: bool)
    ensures r <==> a == b
    decreases |a|
  {
    if |a| != |b| then false
    else if |a| == 0 then true
    else
      assert a == [a[0]] + a[1..] && b == [b[0]] + b[1..];
      a[0] == b[0] && ElementsEqual(a[1..], b[1..])
  }

  /** Deep equality of two slices: both empty (nil or not) makes them equal,
      otherwise lengths and then elements are compared. */
  function SliceDeepEqual<T(==)>(a: Slice<T>, b: Slice<T>): (r: bool)
    ensures r <==> a.Elements() == b.Elements()
  {
    var aEmpty := a.Nil? || |a.elems| == 0;
    var bEmpty := b.Nil? || |b.elems| == 0;
    if aEmpty != bEmpty then false
    else if aEmpty then true
    else ElementsEqual(a.elems, b.elems)
  }
}
