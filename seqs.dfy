/** Sequences that enumerate a set: what a Go `for k := range m` loop over a map produces. */
module Seqs {

  /** The set of elements occurring in `s`. */
  function Elems<T>(s: seq<T>): set<T>
  {
    set x | x in s
  }

  /** No element occurs twice in `s`. */
  predicate Distinct<T(==)>(s: seq<T>)
  {
    forall i, j | 0 <= i < j < |s| :: s[i] != s[j]
  }

  /** `s` lists every element of `xs` exactly once, in some order, and nothing else. */
  predicate Enumerates<T(==)>(s: seq<T>, xs: set<T>)
  {
    Distinct(s) && Elems(s) == xs
  }

  /** An enumeration of a set is exactly as long as the set is large. */
  lemma {:induction false} EnumerationSize<T>(s: seq<T>, xs: set<T>)
    requires Enumerates(s, xs)
    ensures |s| == |xs|
  {
    if s != [] {
      var t := s[1..];
      assert s == [s[0]] + t;
      assert forall j | 0 <= j < |t| :: t[j] == s[j + 1];
      assert Elems(t) == xs - {s[0]} by {
        forall x | x in Elems(t) ensures x in xs - {s[0]} {
          assert x in s;
        }
        forall x | x in xs - {s[0]} ensures x in Elems(t) {
          assert x in s;
        }
      }
      assert Distinct(t) by {
        forall i, j | 0 <= i < j < |t| ensures t[i] != t[j] {
          assert t[i] == s[i + 1] && t[j] == s[j + 1];
        }
      }
      EnumerationSize(t, xs - {s[0]});
    }
  }

  /** The only enumeration of a one-element set is that element alone. */
  lemma SingletonEnumeration<T>(s: seq<T>, x: T)
    requires Enumerates(s, {x})
    ensures s == [x]
  {
    EnumerationSize(s, {x});
    assert s[0] in Elems(s);
  }

  /** Appending an element not yet listed keeps a sequence duplicate-free and adds it to the listed set. */
  lemma DistinctSnoc<T>(s: seq<T>, x: T)
    requires Distinct(s) && x !in Elems(s)
    ensures Distinct(s + [x]) && Elems(s + [x]) == Elems(s) + {x}
  {
  }
}
