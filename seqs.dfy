/** Sequence helpers shared by the parser and the generator. */
module Seqs {
  import opened Wrappers

  /** `xs.map(f)`. */
  function Map<A, B>(xs: seq<A>, f: A -> B): (ys: seq<B>)
    ensures |ys| == |xs|
    ensures forall i :: 0 <= i < |xs| ==> ys[i] == f(xs[i])
  {
    seq(|xs|, i requires 0 <= i < |xs| => f(xs[i]))
  }

  lemma MapSnoc<A, B>(xs: seq<A>, f: A -> B, i: nat)
    requires i < |xs|
    ensures Map(xs, f)[..i + 1] == Map(xs, f)[..i] + [f(xs[i])]
  {
  }

  /** Mapping a sequence is mapping all but its last element and then
      the last one. */
  lemma MapLast<A, B>(xs: seq<A>, f: A -> B)
    requires xs != []
    ensures Map(xs, f) == Map(xs[..|xs| - 1], f) + [f(xs[|xs| - 1])]
  {
    var n := |xs| - 1;
    var a, b := Map(xs, f), Map(xs[..n], f) + [f(xs[n])];
    assert |a| == |b|;
    forall i | 0 <= i < |a| ensures a[i] == b[i] {
      if i < n { assert xs[..n][i] == xs[i]; }
    }
  }

  /** The prefix one longer is the prefix with the next element added. */
  lemma TakeSnoc<T>(xs: seq<T>, i: nat)
    requires i < |xs|
    ensures xs[..i + 1] == xs[..i] + [xs[i]]
  {
  }

  /** Rewriting element `i` and taking the prefix up to it. */
  lemma UpdateSnoc<T>(xs: seq<T>, i: nat, x: T)
    requires i < |xs|
    ensures xs[i := x][..i + 1] == xs[..i] + [x]
  {
  }

  /** Regrouping a concatenation of four pieces. */
  lemma Regroup<T>(a: seq<T>, b: seq<T>, c: seq<T>, d: seq<T>)
    ensures (a + b) + c + d == a + (b + c + d)
  {
  }

  /** A sequence is its three slices at `i` and `j` put back together. */
  lemma Slices<T>(xs: seq<T>, i: nat, j: nat)
    requires i <= j <= |xs|
    ensures xs == xs[..i] + xs[i..j] + xs[j..]
  {
  }

  /** `f(0)`, …, `f(n - 1)` when all of them are present. */
  function Gather<T>(f: nat -> Option<T>, n: nat): (r: Option<seq<T>>)
    ensures r.Some? ==> |r.value| == n
  {
    if n == 0 then Some([])
    else
      var prev := Gather(f, n - 1);
      var x := f(n - 1);
      if prev.None? || x.None? then None else Some(prev.value + [x.value])
  }

  lemma {:induction false} GatherEach<T>(f: nat -> Option<T>, n: nat)
    ensures Gather(f, n).Some? <==> forall i :: 0 <= i < n ==> f(i).Some?
    ensures Gather(f, n).Some? ==> forall i :: 0 <= i < n ==> f(i) == Some(Gather(f, n).value[i])
  {
    if n > 0 {
      GatherEach(f, n - 1);
    }
  }
}
