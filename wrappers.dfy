/** Optional values, and the "keep only the values that are present" filter
    that the scripts apply when they append a report only `if result:`. */
module Wrappers {

  datatype Option<+T> = None | Some(value: T)

  /** `d.get(key, default)` on a dictionary with string keys. */
  function GetOr<V>(d: map<string, V>, key: string, default: V): (v: V)
    ensures key in d ==> v == d[key]
    ensures key !in d ==> v == default
  {
    if key in d then d[key] else default
  }

  /** The values of the `Some` entries of `xs`, in their order. */
  function Somes<T>(xs: seq<Option<T>>): (r: seq<T>)
    ensures |r| <= |xs|
  {
    if xs == [] then []
    else (if xs[0].Some? then [xs[0].value] else []) + Somes(xs[1..])
  }

  /** Filtering distributes over concatenation: the order of the kept values is the order of the input. */
  lemma {:induction false} SomesAppend<T>(a: seq<Option<T>>, b: seq<Option<T>>)
    ensures Somes(a + b) == Somes(a) + Somes(b)
  {
    if a == [] {
      assert a + b == b;
    } else {
      var head := if a[0].Some? then [a[0].value] else [];
      assert (a + b)[0] == a[0];
      assert (a + b)[1..] == a[1..] + b;
      assert Somes(a + b) == head + Somes(a[1..] + b);
      SomesAppend(a[1..], b);
      assert Somes(a) == head + Somes(a[1..]);
    }
  }

  /** A value is kept exactly when it was present somewhere in the input. */
  lemma {:induction false} SomesMembership<T>(xs: seq<Option<T>>, v: T)
    ensures v in Somes(xs) <==> Some(v) in xs
  {
    if xs != [] {
      SomesMembership(xs[1..], v);
      assert xs == [xs[0]] + xs[1..];
    }
  }

  /** Nothing is dropped when every entry is present. */
  lemma {:induction false} SomesAllPresent<T>(xs: seq<Option<T>>)
    requires forall i :: 0 <= i < |xs| ==> xs[i].Some?
    ensures |Somes(xs)| == |xs|
    ensures forall i :: 0 <= i < |xs| ==> Somes(xs)[i] == xs[i].value
  {
    if xs != [] {
      SomesAllPresent(xs[1..]);
    }
  }
}
