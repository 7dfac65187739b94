/** What the models share. */
module Basics {
  datatype Option<+T> = None | Some(value: T)

  /** The queue with every occurrence of `x` unlinked. */
  function Without(q: seq<nat>, x: nat): seq<nat> {
    if q == [] then [] else (if q[0] == x then [] else [q[0]]) + Without(q[1..], x)
  }

  lemma WithoutElement(q: seq<nat>, x: nat, y: nat)
    ensures y in Without(q, x) <==> y in q && y != x
  {
  }

  lemma WithoutSorted(q: seq<nat>, x: nat)
    requires forall i, j | 0 <= i < j < |q| :: q[i] < q[j]
    ensures forall i, j | 0 <= i < j < |Without(q, x)| :: Without(q, x)[i] < Without(q, x)[j]
  {
    if q != [] {
      var r := Without(q[1..], x);
      WithoutSorted(q[1..], x);
      forall i | 0 <= i < |r| ensures q[0] < r[i] {
        WithoutElement(q[1..], x, r[i]);
      }
    }
  }

  ghost predicate Distinct(q: seq<nat>) {
    forall i, j | 0 <= i < j < |q| :: q[i] != q[j]
  }

  lemma AppendDistinct(q: seq<nat>, x: nat)
    requires Distinct(q) && x !in q
    ensures Distinct(q + [x])
  {
  }

  lemma WithoutDistinct(q: seq<nat>, x: nat)
    requires Distinct(q)
    ensures Distinct(Without(q, x))
  {
    if q != [] {
      var r := Without(q[1..], x);
      WithoutDistinct(q[1..], x);
      forall i | 0 <= i < |r| ensures q[0] != r[i] {
        WithoutElement(q[1..], x, r[i]);
      }
    }
  }
}
