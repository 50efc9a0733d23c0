/** Sequences as queues: how often something is in one, and having no duplicates. */
module Seqs {
  ghost predicate Distinct<T(!new)>(q: seq<T>) {
    forall i, j :: 0 <= i < j < |q| ==> q[i] != q[j]
  }

  function Times<T(==)>(q: seq<T>, c: T): nat {
    if q == [] then 0 else (if q[0] == c then 1 else 0) + Times(q[1..], c)
  }

  lemma {:induction false} TimesAppend<T>(a: seq<T>, b: seq<T>, c: T)
    ensures Times(a + b, c) == Times(a, c) + Times(b, c)
  {
    if a == [] {
      assert a + b == b;
    } else {
      assert (a + b)[0] == a[0] && (a + b)[1..] == a[1..] + b;
      TimesAppend(a[1..], b, c);
    }
  }

  lemma TimesPush<T>(q: seq<T>, d: T, c: T)
    ensures Times(q + [d], c) == Times(q, c) + if d == c then 1 else 0
  {
    TimesAppend(q, [d], c);
    assert [d][1..] == [];
  }

  /** Two stretches of a queue's history, in order, make one. */
  lemma Regroup<T>(q: seq<T>, left: seq<T>, lefts: seq<T>, handed: seq<T>, q1: seq<T>, handeds: seq<T>, q2: seq<T>)
    requires q + left == handed + q1 && q1 + lefts == handeds + q2
    ensures q + (left + lefts) == (handed + handeds) + q2
  {
    assert q + (left + lefts) == (q + left) + lefts;
    assert (handed + q1) + lefts == handed + (q1 + lefts);
    assert handed + (handeds + q2) == (handed + handeds) + q2;
  }
}
