/** Sequence helpers shared by the pipeline's stages. */
module Lists {

  /** The sequences `f` gives for the elements of `xs`, concatenated in order: a list
      comprehension that keeps zero or more items per input, or a string built by `+=`
      over a list. */
  function ConcatMap<T, U>(xs: seq<T>, f: T --> seq<U>): seq<U>
    requires forall i :: 0 <= i < |xs| ==> f.requires(xs[i])
  {
    if xs == [] then [] else ConcatMap(xs[..|xs| - 1], f) + f(xs[|xs| - 1])
  }

  /** Mapping over two lists one after the other is mapping over their concatenation. */
  lemma {:induction false} ConcatMapAppend<T, U>(a: seq<T>, b: seq<T>, f: T --> seq<U>)
    requires forall i :: 0 <= i < |a| ==> f.requires(a[i])
    requires forall i :: 0 <= i < |b| ==> f.requires(b[i])
    ensures forall i :: 0 <= i < |a + b| ==> f.requires((a + b)[i])
    ensures ConcatMap(a + b, f) == ConcatMap(a, f) + ConcatMap(b, f)
    decreases |b|
  {
    if b == [] {
      assert a + b == a;
    } else {
      var b0 := b[..|b| - 1];
      ConcatMapAppend(a, b0, f);
      assert (a + b)[..|a + b| - 1] == a + b0;
    }
  }

  /** Every item of the result is an item that `f` gave for some element. */
  lemma {:induction false} ConcatMapMember<T, U>(xs: seq<T>, f: T --> seq<U>, k: nat)
    requires forall i :: 0 <= i < |xs| ==> f.requires(xs[i])
    requires k < |ConcatMap(xs, f)|
    ensures exists i, j :: 0 <= i < |xs| && 0 <= j < |f(xs[i])| && ConcatMap(xs, f)[k] == f(xs[i])[j]
  {
    var init := xs[..|xs| - 1];
    var head := ConcatMap(init, f);
    if k < |head| {
      ConcatMapMember(init, f, k);
      var i, j :| 0 <= i < |init| && 0 <= j < |f(init[i])| && head[k] == f(init[i])[j];
      assert init[i] == xs[i];
    } else {
      var i, j := |xs| - 1, k - |head|;
      assert ConcatMap(xs, f)[k] == f(xs[i])[j];
    }
  }

  /** A property of every item `f` gives holds of every item of the result. */
  lemma ConcatMapAll<T, U>(xs: seq<T>, f: T --> seq<U>, p: U -> bool)
    requires forall i :: 0 <= i < |xs| ==> f.requires(xs[i])
    requires forall i, j :: 0 <= i < |xs| && 0 <= j < |f(xs[i])| ==> p(f(xs[i])[j])
    ensures forall k :: 0 <= k < |ConcatMap(xs, f)| ==> p(ConcatMap(xs, f)[k])
  {
    forall k | 0 <= k < |ConcatMap(xs, f)|
      ensures p(ConcatMap(xs, f)[k])
    {
      ConcatMapMember(xs, f, k);
    }
  }

  /** Appending four pieces one after the other appends their concatenation. */
  lemma AppendPieces<T>(acc: seq<T>, a: seq<T>, b: seq<T>, c: seq<T>, d: seq<T>)
    ensures acc + a + b + c + d == acc + (a + b + c + d)
  {
  }

  function Min(a: int, b: int): int {
    if a <= b then a else b
  }
}
