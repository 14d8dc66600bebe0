/** Facts about reordering a sequence, used by the order-independence proofs
    of pricing and counting. */
module Permutations {

  /** One step of a reordering: the first entry of `a` sits at some index `i`
      of its permutation `b`, and what is left of both is again a permutation. */
  lemma PermutationStep<T>(a: seq<T>, b: seq<T>) returns (i: nat)
    requires multiset(a) == multiset(b) && a != []
    ensures i < |b| && b[i] == a[0]
    ensures b == b[..i] + [a[0]] + b[i + 1..]
    ensures multiset(a[1..]) == multiset(b[..i] + b[i + 1..])
  {
    assert a == [a[0]] + a[1..];
    assert a[0] in multiset(b);
    i :| 0 <= i < |b| && b[i] == a[0];
    assert b == b[..i] + [a[0]] + b[i + 1..];
    calc {
      multiset(a[1..]);
      multiset(a) - multiset{a[0]};
      multiset(b[..i] + [a[0]] + b[i + 1..]) - multiset{a[0]};
      multiset(b[..i] + b[i + 1..]);
    }
  }
}
