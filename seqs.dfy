/** Sequence helpers shared by the text-processing components. */
module Seqs {

  /** `f` applied to every element, the results joined in order (`flatMap`). */
  function FlatMap<A, B>(s: seq<A>, f: A -> seq<B>): seq<B> {
    if s == [] then [] else f(s[0]) + FlatMap(s[1..], f)
  }

  lemma {:induction false} FlatMapConcat<A, B>(a: seq<A>, b: seq<A>, f: A -> seq<B>)
    ensures FlatMap(a + b, f) == FlatMap(a, f) + FlatMap(b, f)
  {
    if a == [] {
      assert a + b == b;
    } else {
      assert (a + b)[1..] == a[1..] + b;
      assert (a + b)[0] == a[0];
      FlatMapConcat(a[1..], b, f);
      assert f(a[0]) + (FlatMap(a[1..], f) + FlatMap(b, f)) == (f(a[0]) + FlatMap(a[1..], f)) + FlatMap(b, f);
    }
  }

  lemma FlatMapSingle<A, B>(x: A, f: A -> seq<B>)
    ensures FlatMap([x], f) == f(x)
  {
    assert [x][1..] == [];
    assert FlatMap([x], f) == f(x) + [];
  }

  /** When every piece `f` produces satisfies `p`, so does every element of the joined result. */
  lemma {:induction false} FlatMapEach<A, B>(s: seq<A>, f: A -> seq<B>, p: B -> bool)
    requires forall x, i :: 0 <= i < |f(x)| ==> p(f(x)[i])
    ensures forall i :: 0 <= i < |FlatMap(s, f)| ==> p(FlatMap(s, f)[i])
  {
    if s != [] {
      var head, rest := f(s[0]), FlatMap(s[1..], f);
      FlatMapEach(s[1..], f, p);
      forall i | 0 <= i < |head + rest|
        ensures p((head + rest)[i])
      {
        if i < |head| {
          assert (head + rest)[i] == head[i];
        } else {
          assert (head + rest)[i] == rest[i - |head|];
        }
      }
    }
  }
}
