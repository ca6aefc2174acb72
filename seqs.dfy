/**
 * Facts about sequences that the option loop's lemmas need but that do not
 * depend on what the elements are.
 */
module Seqs {

  /** Each element mapped to a sequence, and the results joined in order. */
  function FlatMap<T, U>(f: T -> seq<U>, xs: seq<T>): seq<U>
    decreases |xs|
  {
    if xs == [] then [] else f(xs[0]) + FlatMap(f, xs[1..])
  }

  /** Mapping a concatenation maps each part. */
  lemma {:induction false} FlatMapAppend<T, U>(f: T -> seq<U>, a: seq<T>, b: seq<T>)
    ensures FlatMap(f, a + b) == FlatMap(f, a) + FlatMap(f, b)
    decreases |a|
  {
    if a == [] {
      assert a + b == b;
    } else {
      assert (a + b)[0] == a[0];
      assert (a + b)[1..] == a[1..] + b;
      FlatMapAppend(f, a[1..], b);
    }
  }

  /** Mapping a single element gives just its image. */
  lemma FlatMapSingle<T, U>(f: T -> seq<U>, x: T)
    ensures FlatMap(f, [x]) == f(x)
  {
    assert [x][1..] == [];
  }

  /** Where the head of a sequence sits in a permutation of it, and what is left around it. */
  lemma LocateHead<T>(a: seq<T>, b: seq<T>) returns (j: nat)
    requires a != [] && multiset(a) == multiset(b)
    ensures j < |b| && b[j] == a[0]
    ensures multiset(a[1..]) == multiset(b[..j] + b[j + 1..])
  {
    assert a[0] in multiset(b);
    j :| 0 <= j < |b| && b[j] == a[0];
    assert a == [a[0]] + a[1..];
    assert b == b[..j] + [b[j]] + b[j + 1..];
    assert multiset(a[1..]) == multiset(a) - multiset{a[0]};
    assert multiset(b[..j] + b[j + 1..]) == multiset(b) - multiset{a[0]};
  }

  /** Mapping a sequence split around one element. */
  lemma FlatMapAround<T, U>(f: T -> seq<U>, b: seq<T>, j: nat)
    requires j < |b|
    ensures FlatMap(f, b) == FlatMap(f, b[..j]) + f(b[j]) + FlatMap(f, b[j + 1..])
  {
    var left, right := b[..j], b[j + 1..];
    assert b == left + ([b[j]] + right);
    FlatMapAppend(f, left, [b[j]] + right);
    FlatMapAppend(f, [b[j]], right);
    FlatMapSingle(f, b[j]);
    assert FlatMap(f, b) == FlatMap(f, left) + (f(b[j]) + FlatMap(f, right));
  }

  /** Permuting the elements permutes the joined result. */
  lemma {:induction false} FlatMapPermutation<T, U>(f: T -> seq<U>, a: seq<T>, b: seq<T>)
    requires multiset(a) == multiset(b)
    ensures multiset(FlatMap(f, a)) == multiset(FlatMap(f, b))
    decreases |a|
  {
    if a == [] {
      assert |b| == |multiset(b)| == 0;
    } else {
      var j := LocateHead(a, b);
      FlatMapPermutation(f, a[1..], b[..j] + b[j + 1..]);
      FlatMapAround(f, b, j);
      FlatMapAppend(f, b[..j], b[j + 1..]);
      var before, here, after := FlatMap(f, b[..j]), f(a[0]), FlatMap(f, b[j + 1..]);
      calc {
        multiset(FlatMap(f, a));
        multiset(here + FlatMap(f, a[1..]));
        multiset(here) + multiset(FlatMap(f, a[1..]));
        multiset(here) + multiset(before + after);
        multiset(before + here + after);
        multiset(FlatMap(f, b));
      }
    }
  }
}
