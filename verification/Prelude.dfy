/** Options, and facts about sets and rearranged sequences that several modules use. */
module Prelude {

  datatype Option<+T> = None | Some(value: T)

  /** Where an element of `a` sits in a permutation `b` of `a`. */
  lemma IndexOf<T>(b: seq<T>, x: T, a: seq<T>) returns (i: nat)
    requires multiset(a) == multiset(b) && x in a
    ensures i < |b| && b[i] == x
  {
    assert x in multiset(a);
    assert x in b;
    i :| 0 <= i < |b| && b[i] == x;
  }

  /** Removing one element from both sides of a permutation leaves a permutation. */
  lemma PermutationTail<T>(a: seq<T>, b: seq<T>) returns (left: seq<T>, right: seq<T>)
    requires multiset(a) == multiset(b) && a != []
    ensures b == left + [a[0]] + right && multiset(a[1..]) == multiset(left + right)
  {
    var i := IndexOf(b, a[0], a);
    left, right := b[..i], b[i + 1..];
    MultisetAround(left, a[0], right);
    MultisetAround([], a[0], a[1..]);
    assert b == left + [a[0]] + right;
    assert a == [] + [a[0]] + a[1..];
    assert [] + a[1..] == a[1..];
  }

  lemma MultisetAround<T>(left: seq<T>, x: T, right: seq<T>)
    ensures multiset(left + right) == multiset(left + [x] + right) - multiset{x}
  {
    assert multiset(left + [x] + right) == multiset(left) + multiset{x} + multiset(right);
  }

  lemma PermutationElements<T>(a: seq<T>, b: seq<T>)
    requires multiset(a) == multiset(b)
    ensures |a| == |b| && (forall x :: x in a <==> x in b)
  {
    assert |a| == |multiset(a)| && |b| == |multiset(b)|;
    forall x ensures x in a <==> x in b {
      assert x in a <==> x in multiset(a);
      assert x in b <==> x in multiset(b);
    }
  }

  /** The element of a set that holds at most one. */
  method SoleMember<T(==)>(s: set<T>) returns (r: Option<T>)
    requires |s| <= 1
    ensures s == if r.Some? then {r.value} else {}
  {
    if |s| == 0 {
      r := None;
    } else {
      var x :| x in s;
      assert |s - {x}| == 0;
      assert s - {x} == {} && s == {x};
      r := Some(x);
    }
  }
}
